/**
 * The `Gamee` facade: the public entry points a game calls.  Each one is
 * reduced to what it does before the core runs: it refuses the call in
 * argument validation (2.4.0 only), drops it after logging (2.4.0
 * `logEvent`), or forwards normalised arguments to the core and afterwards
 * calls the void callback with `null`.
 *
 * The older facades (`gamee/src`, 2.0.0) only shuffle overloaded arguments;
 * the 2.4.0 facade checks every argument's type with `validateDataType`
 * first.
 */
module GameeApi {
  import opened Js
  import opened CoreRules
  import opened PlatformBridge
  import opened Core

  /** The callback the facade calls once the core has returned: its own
    * `cbError`, or a value the game supplied (which may not be a function). */
  datatype VoidCb = CbError | Given(v: JsValue)

  /** What the facade does with one call. */
  datatype FacadeCall =
    | /** A validation failure, thrown before the core is reached. */
      Reject(error: Error)
    | /** Logged and dropped. */
      Silent
    | /** `args` go to the core; `after`, when present, is then called with
        * `null`. */
      Forward(args: seq<JsValue>, after: Option<VoidCb>)

  /** `cbError(err)`: the default void callback throws for a truthy error. */
  function CbErrorRun(err: JsValue): (out: Outcome)
    ensures out.Completed? <==> !Truthy(err)
    ensures out.Threw? ==> out.error == Raised(Str("Error " + ToKey(err)))
  {
    if Truthy(err) then Threw(Raised(Str("Error " + ToKey(err)))) else Completed
  }

  /** `opt_cb || cbError`. */
  function OrDefault(v: JsValue): VoidCb
  {
    if Truthy(v) then Given(v) else CbError
  }

  /** `cb(null)`. */
  function CallWithNull(cb: VoidCb): (Outcome, seq<UserCall>)
  {
    match cb
    case CbError => (CbErrorRun(Null), [])
    case Given(f) => CallUser(f, [Null])
  }

  /** A forwarded call once the core has ended with `core`: an exception
    * from the core skips the callback. */
  function Finish(call: FacadeCall, core: Outcome): (r: (Outcome, seq<UserCall>))
    requires call.Forward?
  {
    if core.Threw? || call.after.None? then (core, []) else CallWithNull(call.after.value)
  }

  /** The void callback after a completed core call: the default one is
    * silent, a supplied function is called once with `null`, anything else
    * fails as a call of a non-function; a failing core call reaches no
    * callback. */
  lemma AfterCoreCall(call: FacadeCall, core: Outcome)
    requires call.Forward?
    ensures core.Threw? ==> Finish(call, core) == (core, [])
    ensures core.Completed? && call.after == Some(CbError) ==> Finish(call, core) == (Completed, [])
    ensures core.Completed? && call.after.Some? && call.after.value.Given? ==>
      var f := call.after.value.v;
      && (Finish(call, core).0.Completed? <==> f.Fun?)
      && Finish(call, core).1 == (if f.Fun? then [Called(f, [Null])] else [])
  {
  }

  /** Checks run in order; the first failure is the one thrown. */
  function FirstFailure(checks: seq<Outcome>): (out: Outcome)
    ensures out.Completed? <==> forall i :: 0 <= i < |checks| ==> checks[i].Completed?
    ensures out.Threw? ==> exists i :: 0 <= i < |checks| && checks[i] == out && forall j :: 0 <= j < i ==> checks[j].Completed?
    decreases |checks|
  {
    if |checks| == 0 then Completed
    else if checks[0].Threw? then checks[0]
    else
      var rest := FirstFailure(checks[1..]);
      assert rest.Threw? ==> exists i :: 1 <= i < |checks| && checks[i] == rest && forall j :: 1 <= j < i ==> checks[j].Completed? by {
        if rest.Threw? {
          var k :| 0 <= k < |checks[1..]| && checks[1..][k] == rest && forall j :: 0 <= j < k ==> checks[1..][j].Completed?;
          assert checks[k + 1] == rest;
          assert forall j :: 1 <= j < k + 1 ==> checks[j] == checks[1..][j - 1];
        }
      }
      rest
  }

  /** The facade's validation in front of a call. */
  function Checked(checks: seq<Outcome>, call: FacadeCall): FacadeCall
  {
    var c := FirstFailure(checks);
    if c.Threw? then Reject(c.error) else call
  }

  /** `validateDataType(opt_cb, "function", ...)` after `opt_cb || cbError`. */
  function CbCheck(cb: VoidCb, argument: string, methodName: string): (out: Outcome)
    ensures out.Completed? <==> cb.CbError? || cb.v.Fun?
  {
    match cb
    case CbError => Completed
    case Given(v) => ValidateDataType(v, "function", argument, methodName)
  }

  // ---------------------------------------------------------------------------
  // The overloaded entry points

  /** `gameInit(controllType, controllOpts, capabilities, cb[, silentMode])`:
    * the 2.4.0 facade checks all five arguments (the first under the method
    * name `gamee.updateScore`). */
  function GameInitCall(b: Build, controllType: JsValue, controllOpts: JsValue, capabilities: JsValue, cb: JsValue, silentMode: JsValue): FacadeCall
  {
    if b != Bundle240 then Forward([controllType, controllOpts, capabilities, cb], None)
    else
      var silent := if silentMode.Undefined? then Bool(false) else silentMode;
      Checked(GameInitChecks(controllType, controllOpts, capabilities, cb, silent),
        Forward([controllType, controllOpts, capabilities, cb, silent], None))
  }

  /** The 2.4.0 `gameInit` reaches the core exactly for a string type, an
    * object of options, an array of capabilities, a function and an absent
    * or boolean silent flag; a bad type is reported against `updateScore`. */
  lemma GameInitValidation(controllType: JsValue, controllOpts: JsValue, capabilities: JsValue, cb: JsValue, silentMode: JsValue)
    ensures var call := GameInitCall(Bundle240, controllType, controllOpts, capabilities, cb, silentMode);
      && (call.Forward? <==> controllType.Str? && TypeOf(controllOpts) == "object" && capabilities.Arr? && cb.Fun?
                             && (silentMode.Undefined? || silentMode.Bool?))
      && (!controllType.Str? ==> call == Reject(Raised(DataTypeException("string", TypeOf(controllType), "controllType", "gamee.updateScore"))))
      && (call.Forward? ==> call.args[4] == (if silentMode.Undefined? then Bool(false) else silentMode))
  {
    GameInitForwards(controllType, controllOpts, capabilities, cb, silentMode);
    GameInitReportsType(controllType, controllOpts, capabilities, cb, silentMode);
  }

  /** The five argument checks of the 2.4.0 `gameInit`, in order. */
  function GameInitChecks(controllType: JsValue, controllOpts: JsValue, capabilities: JsValue, cb: JsValue, silent: JsValue): seq<Outcome>
  {
    [ValidateDataType(controllType, "string", "controllType", "gamee.updateScore"),
     ValidateDataType(controllOpts, "object", "controllOpts", "gamee.gameInit"),
     ValidateDataType(capabilities, "array", "capabilities", "gamee.gameInit"),
     ValidateDataType(cb, "function", "cb", "gamee.gameInit"),
     ValidateDataType(silent, "boolean", "silentMode", "gamee.gameInit")]
  }

  lemma GameInitForwards(controllType: JsValue, controllOpts: JsValue, capabilities: JsValue, cb: JsValue, silentMode: JsValue)
    ensures var call := GameInitCall(Bundle240, controllType, controllOpts, capabilities, cb, silentMode);
      && (call.Forward? <==> controllType.Str? && TypeOf(controllOpts) == "object" && capabilities.Arr? && cb.Fun?
                             && (silentMode.Undefined? || silentMode.Bool?))
      && (call.Forward? ==> call.args[4] == (if silentMode.Undefined? then Bool(false) else silentMode))
  {
    var silent := if silentMode.Undefined? then Bool(false) else silentMode;
    var checks := GameInitChecks(controllType, controllOpts, capabilities, cb, silent);
    assert GameInitCall(Bundle240, controllType, controllOpts, capabilities, cb, silentMode) ==
      Checked(checks, Forward([controllType, controllOpts, capabilities, cb, silent], None));
    assert (forall i :: 0 <= i < |checks| ==> checks[i].Completed?) <==>
      checks[0].Completed? && checks[1].Completed? && checks[2].Completed? && checks[3].Completed? && checks[4].Completed?;
  }

  lemma GameInitReportsType(controllType: JsValue, controllOpts: JsValue, capabilities: JsValue, cb: JsValue, silentMode: JsValue)
    ensures !controllType.Str? ==>
      GameInitCall(Bundle240, controllType, controllOpts, capabilities, cb, silentMode) ==
        Reject(Raised(DataTypeException("string", TypeOf(controllType), "controllType", "gamee.updateScore")))
  {
    var silent := if silentMode.Undefined? then Bool(false) else silentMode;
    var checks := GameInitChecks(controllType, controllOpts, capabilities, cb, silent);
    assert GameInitCall(Bundle240, controllType, controllOpts, capabilities, cb, silentMode) ==
      Checked(checks, Forward([controllType, controllOpts, capabilities, cb, silent], None));
    if !controllType.Str? {
      assert FirstFailure(checks) == checks[0];
    }
  }

  /** `gameLoadingProgress(percentage[, opt_cb])`. */
  function GameLoadingProgressCall(b: Build, percentage: JsValue, optCb: JsValue): FacadeCall
  {
    var cb := OrDefault(optCb);
    if b != Bundle240 then Forward([percentage], Some(cb))
    else
      Checked([ValidateDataType(percentage, "number", "percentage", "gamee.gameLoadingProgress"),
               CbCheck(cb, "opt_cb", "gamee.gameLoadingProgress")],
        Forward([percentage], Some(cb)))
  }

  /** `gameReady([opt_cb])`. */
  function GameReadyCall(b: Build, optCb: JsValue): FacadeCall
  {
    var cb := OrDefault(optCb);
    if b != Bundle240 then Forward([], Some(cb))
    else Checked([CbCheck(cb, "opt_cb", "gamee.gameReady")], Forward([], Some(cb)))
  }

  /** The void-callback entry points: the older facades never refuse and
    * call a truthy `opt_cb` or else `cbError`; the 2.4.0 facade also refuses
    * a truthy non-function callback and a non-number percentage. */
  lemma VoidCallbacks(b: Build, percentage: JsValue, optCb: JsValue)
    ensures b != Bundle240 ==> GameLoadingProgressCall(b, percentage, optCb) == Forward([percentage], Some(OrDefault(optCb)))
    ensures b != Bundle240 ==> GameReadyCall(b, optCb).Forward?
    ensures GameReadyCall(b, optCb).Forward? ==> GameReadyCall(b, optCb).after == Some(if Truthy(optCb) then Given(optCb) else CbError)
    ensures GameLoadingProgressCall(Bundle240, percentage, optCb).Forward? <==> percentage.Num? && (!Truthy(optCb) || optCb.Fun?)
    ensures GameReadyCall(Bundle240, optCb).Forward? <==> !Truthy(optCb) || optCb.Fun?
  {
    LoadingProgressCallback(b, percentage, optCb);
    ReadyCallback(b, optCb);
  }

  lemma LoadingProgressCallback(b: Build, percentage: JsValue, optCb: JsValue)
    ensures b != Bundle240 ==> GameLoadingProgressCall(b, percentage, optCb) == Forward([percentage], Some(OrDefault(optCb)))
    ensures GameLoadingProgressCall(Bundle240, percentage, optCb).Forward? <==> percentage.Num? && (!Truthy(optCb) || optCb.Fun?)
  {
    var cb := OrDefault(optCb);
    var checks := [ValidateDataType(percentage, "number", "percentage", "gamee.gameLoadingProgress"),
                   CbCheck(cb, "opt_cb", "gamee.gameLoadingProgress")];
    assert (forall i :: 0 <= i < |checks| ==> checks[i].Completed?) <==> checks[0].Completed? && checks[1].Completed?;
  }

  lemma ReadyCallback(b: Build, optCb: JsValue)
    ensures b != Bundle240 ==> GameReadyCall(b, optCb).Forward?
    ensures GameReadyCall(b, optCb).Forward? ==> GameReadyCall(b, optCb).after == Some(if Truthy(optCb) then Given(optCb) else CbError)
    ensures GameReadyCall(Bundle240, optCb).Forward? <==> !Truthy(optCb) || optCb.Fun?
  {
    var checks := [CbCheck(OrDefault(optCb), "opt_cb", "gamee.gameReady")];
    assert (forall i :: 0 <= i < |checks| ==> checks[i].Completed?) <==> checks[0].Completed?;
  }

  /** `gameSave(data[, opt_share][, opt_cb])`. The older facades take a
    * boolean `opt_share` as the share flag and a function as the callback,
    * and leave the callback unset for any other defined value; the 2.4.0
    * facade validates the arguments and always passes `share = false`. */
  function GameSaveCall(b: Build, data: JsValue, optShare: JsValue, optCb: JsValue): FacadeCall
  {
    if b != Bundle240 then
      if optShare.Undefined? then Forward([data, Bool(false)], Some(CbError))
      else if optShare.Fun? then Forward([data, Bool(false)], Some(Given(optShare)))
      else if optShare.Bool? then Forward([data, optShare], Some(OrDefault(optCb)))
      else Forward([data, Bool(false)], Some(Given(Undefined)))
    else
      var cb := OrDefault(if optShare.Fun? then optShare else optCb);
      Checked([ValidateDataType(data, "string", "data", "gamee.gameSave"),
               if optShare.Fun? || optShare.Undefined? then Completed
               else ValidateDataType(optShare, "boolean", "opt_share", "gamee.gameSave"),
               CbCheck(cb, "opt_cb", "gamee.gameSave")],
        Forward([data, Bool(false)], Some(cb)))
  }

  /** The overloads of the older `gameSave`, and the save that a value of
    * any other type lets through before `cb(null)` fails. */
  lemma GameSaveOverloads(b: Build, data: JsValue, optShare: JsValue, optCb: JsValue)
    requires b != Bundle240
    ensures var call := GameSaveCall(b, data, optShare, optCb);
      && call.Forward? && |call.args| == 2 && call.args[0] == data
      && (optShare.Undefined? ==> call.args[1] == Bool(false) && call.after == Some(CbError))
      && (optShare.Fun? ==> call.args[1] == Bool(false) && call.after == Some(Given(optShare)))
      && (optShare.Bool? ==> call.args[1] == optShare && call.after == Some(if Truthy(optCb) then Given(optCb) else CbError))
      && (!optShare.Undefined? && !optShare.Fun? && !optShare.Bool? ==>
            call.args[1] == Bool(false) && Finish(call, Completed) == (Threw(TypeError("cb is not a function")), []))
  {
  }

  /** The 2.4.0 `gameSave` never shares, and reaches the core exactly for
    * string data, an absent, boolean or function second argument and a
    * callable callback. */
  lemma GameSaveNeverShares(data: JsValue, optShare: JsValue, optCb: JsValue)
    ensures var call := GameSaveCall(Bundle240, data, optShare, optCb);
      && (call.Forward? ==> call.args == [data, Bool(false)]
                            && SaveData(Bundle240, call.args[0], call.args[1]) == Ok(Obj(map["state" := data, "share" := Bool(false)])))
      && (call.Forward? <==> data.Str? && (optShare.Undefined? || optShare.Fun? || optShare.Bool?)
                             && (optShare.Fun? || !Truthy(optCb) || optCb.Fun?))
  {
    GameSaveSendsFalse(data, optShare, optCb);
    GameSaveForwards(data, optShare, optCb);
  }

  lemma GameSaveSendsFalse(data: JsValue, optShare: JsValue, optCb: JsValue)
    ensures var call := GameSaveCall(Bundle240, data, optShare, optCb);
      call.Forward? ==> call.args == [data, Bool(false)]
                        && SaveData(Bundle240, call.args[0], call.args[1]) == Ok(Obj(map["state" := data, "share" := Bool(false)]))
  {
  }

  lemma GameSaveForwards(data: JsValue, optShare: JsValue, optCb: JsValue)
    ensures GameSaveCall(Bundle240, data, optShare, optCb).Forward? <==>
      data.Str? && (optShare.Undefined? || optShare.Fun? || optShare.Bool?) && (optShare.Fun? || !Truthy(optCb) || optCb.Fun?)
  {
    var cb := OrDefault(if optShare.Fun? then optShare else optCb);
    var checks := [ValidateDataType(data, "string", "data", "gamee.gameSave"),
                   if optShare.Fun? || optShare.Undefined? then Completed
                   else ValidateDataType(optShare, "boolean", "opt_share", "gamee.gameSave"),
                   CbCheck(cb, "opt_cb", "gamee.gameSave")];
    assert GameSaveCall(Bundle240, data, optShare, optCb) == Checked(checks, Forward([data, Bool(false)], Some(cb)));
    assert (forall i :: 0 <= i < |checks| ==> checks[i].Completed?) <==>
      checks[0].Completed? && checks[1].Completed? && checks[2].Completed?;
    assert checks[2].Completed? <==> optShare.Fun? || !Truthy(optCb) || optCb.Fun?;
  }

  /** `updateScore(score[, opt_ghostSign][, opt_cb])` as written: the 2.4.0
    * facade takes a function in second position as the callback but still
    * passes it on as `opt_ghostSign`. */
  function UpdateScoreCall(b: Build, score: JsValue, ghostSign: JsValue, optCb: JsValue): FacadeCall
  {
    if b != Bundle240 then
      if ghostSign.Fun? then Forward([score, Undefined], Some(Given(ghostSign)))
      else Forward([score, ghostSign], Some(OrDefault(optCb)))
    else
      var cb := OrDefault(if ghostSign.Fun? then ghostSign else optCb);
      Checked(ScoreChecks(score, ghostSign, cb), Forward([score, ghostSign], Some(cb)))
  }

  /** The 2.4.0 checks of `updateScore`. */
  function ScoreChecks(score: JsValue, ghostSign: JsValue, cb: VoidCb): seq<Outcome>
  {
    [ValidateDataType(score, "number", "score", "gamee.updateScore"),
     if ghostSign.Fun? || ghostSign.Undefined? then Completed
     else ValidateDataType(ghostSign, "boolean", "opt_ghostSign", "gamee.updateScore"),
     CbCheck(cb, "opt_cb", "gamee.updateScore")]
  }

  /** `updateScore` as the older facades define the two-argument form: the
    * callback in second position leaves `opt_ghostSign` undefined. */
  function UpdateScoreCallIntended(b: Build, score: JsValue, ghostSign: JsValue, optCb: JsValue): FacadeCall
  {
    if b != Bundle240 then UpdateScoreCall(b, score, ghostSign, optCb)
    else
      var cb := OrDefault(if ghostSign.Fun? then ghostSign else optCb);
      Checked(ScoreChecks(score, ghostSign, cb), Forward([score, if ghostSign.Fun? then Undefined else ghostSign], Some(cb)))
  }

  /** In the older facades a callback in second position is the callback
    * and the score is sent without `ghostSign`. */
  lemma ScoreCallbackShift(b: Build, score: JsValue, f: JsValue, optCb: JsValue)
    requires b != Bundle240 && f.Fun? && score.Num?
    ensures var call := UpdateScoreCall(b, score, f, optCb);
      && call == Forward([score, Undefined], Some(Given(f)))
      && ScoreData(call.args[0], call.args[1]) == Ok(Obj(map["score" := score]))
  {
  }

  /** As written, `gamee.updateScore(score, cb)` in 2.4.0 reports a ghost
    * score: the callback, passed on as `opt_ghostSign`, is truthy. */
  lemma ScoreCallbackBecomesGhostSign(n: int, f: FnRef)
    ensures var call := UpdateScoreCall(Bundle240, Num(n), Fun(f), Undefined);
      && call == Forward([Num(n), Fun(f)], Some(Given(Fun(f))))
      && ScoreData(call.args[0], call.args[1]) == Ok(Obj(map["score" := Num(n), "ghostSign" := Bool(true)]))
  {
    var checks := ScoreChecks(Num(n), Fun(f), Given(Fun(f)));
    assert forall i :: 0 <= i < |checks| ==> checks[i].Completed?;
  }

  /** With the callback dropped from `opt_ghostSign`, a score sent with a
    * callback in second position is never a ghost score, in every build. */
  lemma ScoreCallbackIsNotGhostSign(b: Build, score: JsValue, f: JsValue, optCb: JsValue)
    requires f.Fun? && score.Num?
    ensures var call := UpdateScoreCallIntended(b, score, f, optCb);
      && call.Forward? && call.after == Some(Given(f))
      && ScoreData(call.args[0], call.args[1]) == Ok(Obj(map["score" := score]))
  {
    var checks := ScoreChecks(score, f, Given(f));
    assert forall i :: 0 <= i < |checks| ==> checks[i].Completed?;
  }

  /** `gameOver([opt_replayData][, opt_cb][, opt_saveState, opt_hideOverlay])`
    * as written: the core's three arguments.  The 2.4.0 facade takes a
    * function in first position as the callback but still passes it on as
    * the replay data. */
  function GameOverCall(b: Build, replay: JsValue, optCb: JsValue, saveState: JsValue, hideOverlay: JsValue): FacadeCall
  {
    if b != Bundle240 then
      if replay.Fun? then Forward([Undefined, Undefined, Undefined], Some(Given(replay)))
      else Forward([replay, Undefined, Undefined], Some(OrDefault(optCb)))
    else
      var cb := OrDefault(if replay.Fun? then replay else optCb);
      Checked(GameOverChecks(replay, hideOverlay, cb), Forward([replay, saveState, hideOverlay], Some(cb)))
  }

  /** The 2.4.0 checks of `gameOver`. */
  function GameOverChecks(replay: JsValue, hideOverlay: JsValue, cb: VoidCb): seq<Outcome>
  {
    [if replay.Fun? || replay.Undefined? then Completed
     else ValidateDataType(replay, "object", "opt_replayData", "gamee.gameOver"),
     if hideOverlay.Undefined? then Completed
     else ValidateDataType(hideOverlay, "boolean", "opt_hideOverlay", "gamee.gameOver"),
     CbCheck(cb, "opt_cb", "gamee.gameOver")]
  }

  /** `gameOver` as the older facades define the callback-first form: the
    * replay data becomes undefined. */
  function GameOverCallIntended(b: Build, replay: JsValue, optCb: JsValue, saveState: JsValue, hideOverlay: JsValue): FacadeCall
  {
    if b != Bundle240 then GameOverCall(b, replay, optCb, saveState, hideOverlay)
    else
      var cb := OrDefault(if replay.Fun? then replay else optCb);
      Checked(GameOverChecks(replay, hideOverlay, cb),
        Forward([if replay.Fun? then Undefined else replay, saveState, hideOverlay], Some(cb)))
  }

  /** In the older facades a callback in first position is the callback and
    * the game ends without replay data. */
  lemma GameOverCallbackShift(b: Build, f: JsValue, optCb: JsValue)
    requires b != Bundle240 && f.Fun?
    ensures var call := GameOverCall(b, f, optCb, Undefined, Undefined);
      && call == Forward([Undefined, Undefined, Undefined], Some(Given(f)))
      && GameOverData(b, call.args[0], call.args[1], call.args[2]).1 == Ok(Obj(map[]))
  {
  }

  /** As written, `gamee.gameOver(cb)` in 2.4.0 passes validation and then
    * fails in the core: the callback, taken as replay data, owns no `data`.
    * The `variant` written onto the function is not recorded (see
    * `Js.SetProp`), which does not change the outcome. */
  lemma GameOverCallbackThrows(f: FnRef)
    ensures var call := GameOverCall(Bundle240, Fun(f), Undefined, Undefined, Undefined);
      && call == Forward([Fun(f), Undefined, Undefined], Some(Given(Fun(f))))
      && GameOverData(Bundle240, call.args[0], call.args[1], call.args[2]).1 == Err(Raised(Str("Replay data must have `data` property")))
  {
    var checks := GameOverChecks(Fun(f), Undefined, Given(Fun(f)));
    assert forall i :: 0 <= i < |checks| ==> checks[i].Completed?;
  }

  /** With the replay data cleared, `gamee.gameOver(cb)` sends the game over
    * (with the default `hideOverlay`) and then calls `cb`. */
  lemma GameOverCallbackSends(f: FnRef, saveState: JsValue)
    ensures var call := GameOverCallIntended(Bundle240, Fun(f), Undefined, saveState, Undefined);
      && call == Forward([Undefined, saveState, Undefined], Some(Given(Fun(f))))
      && GameOverData(Bundle240, call.args[0], call.args[1], call.args[2]).1.Ok?
      && Finish(call, Completed) == (Completed, [Called(Fun(f), [Null])])
  {
    var checks := GameOverChecks(Fun(f), Undefined, Given(Fun(f)));
    assert forall i :: 0 <= i < |checks| ==> checks[i].Completed?;
  }

  /** `requestSocial(cb[, numberOfPlayers])` on the given platform: the call
    * and the wrapper that will present the response to `cb`. */
  function RequestSocialCall(b: Build, platform: string, cb: JsValue, numberOfPlayers: JsValue): (FacadeCall, Wrap)
  {
    match b
    case Src => (Forward([cb], None), if platform == "ios" then SocialIos else Direct)
    case Bundle200 => (Forward([cb], None), Direct)
    case Bundle240 =>
      (Checked([ValidateDataType(cb, "function", "cb", "gamee.requestSocial")], Forward([cb, numberOfPlayers], None)), SocialMerge)
  }

  /** Which response wrapper each facade uses: the `gamee/src` facade wraps
    * on iOS only, the 2.4.0 facade always merges, the 2.0.0 facade passes
    * the callback through. */
  lemma SocialWrapChoice(b: Build, platform: string, cb: JsValue, numberOfPlayers: JsValue)
    ensures var (call, wrap) := RequestSocialCall(b, platform, cb, numberOfPlayers);
      && (wrap == SocialIos <==> b == Src && platform == "ios")
      && (wrap == SocialMerge <==> b == Bundle240)
      && (call.Forward? <==> b != Bundle240 || cb.Fun?)
  {
    var checks := [ValidateDataType(cb, "function", "cb", "gamee.requestSocial")];
    assert (forall i :: 0 <= i < |checks| ==> checks[i].Completed?) <==> checks[0].Completed?;
  }

  /** The 2.4.0 `logEvent(eventName, eventValue)`: both must be strings; an
    * empty name or one over 24 characters, or an empty value or one over
    * 160, is logged and dropped. */
  function LogEventCall(eventName: JsValue, eventValue: JsValue): FacadeCall
  {
    var nameCheck := ValidateDataType(eventName, "string", "eventName", "gamee.logEvent");
    if nameCheck.Threw? then Reject(nameCheck.error)
    else if !Truthy(eventName) || |eventName.s| > 24 then Silent
    else
      var valueCheck := ValidateDataType(eventValue, "string", "eventValue", "gamee.logEvent");
      if valueCheck.Threw? then Reject(valueCheck.error)
      else if !Truthy(eventValue) || |eventValue.s| > 160 then Silent
      else Forward([eventName, eventValue], None)
  }

  /** The name is judged before the value is looked at. */
  lemma LogEventLimits(eventName: JsValue, eventValue: JsValue)
    ensures var call := LogEventCall(eventName, eventValue);
      var nameOk := eventName.Str? && 1 <= |eventName.s| <= 24;
      && (call.Forward? <==> nameOk && eventValue.Str? && 1 <= |eventValue.s| <= 160)
      && (call.Forward? ==> call.args == [eventName, eventValue])
      && (!eventName.Str? ==> call == Reject(Raised(DataTypeException("string", TypeOf(eventName), "eventName", "gamee.logEvent"))))
      && (eventName.Str? && !nameOk ==> call.Silent?)
      && (nameOk && !eventValue.Str? ==> call == Reject(Raised(DataTypeException("string", TypeOf(eventValue), "eventValue", "gamee.logEvent"))))
      && (nameOk && eventValue.Str? && (eventValue.s == "" || |eventValue.s| > 160) ==> call.Silent?)
  {
  }

  // ---------------------------------------------------------------------------
  // The 2.4.0-only entry points

  /** `requestBattleData(cb)`, `loadRewardedVideo(cb)`, `showRewardedVideo(cb)`. */
  function CallbackOnlyCall(cb: JsValue, methodName: string): FacadeCall
  {
    Checked([ValidateDataType(cb, "function", "cb", methodName)], Forward([cb], None))
  }

  /** `requestPlayerReplay(userID, cb)`, `requestPlayerSaveState(userID, cb)`. */
  function UserIdCall(userID: JsValue, cb: JsValue, methodName: string): FacadeCall
  {
    Checked([ValidateDataType(userID, "number", "userID", methodName), ValidateDataType(cb, "function", "cb", methodName)],
      Forward([userID, cb], None))
  }

  /** `purchaseItem`, `purchaseItemWithCoins`, `purchaseItemWithGems` and
    * `share`: an options object and a callback; `purchaseItem` adds
    * `oldMethod = true`. */
  function OptionsCall(options: JsValue, argument: string, cb: JsValue, methodName: string, oldMethod: bool): FacadeCall
  {
    Checked([ValidateDataType(options, "object", argument, methodName), ValidateDataType(cb, "function", "cb", methodName)],
      Forward([options, cb] + (if oldMethod then [Bool(true)] else []), None))
  }

  /** `requestPlayerData(cb[, userID])`. */
  function PlayerDataCall(cb: JsValue, userID: JsValue): FacadeCall
  {
    Checked([ValidateDataType(cb, "function", "cb", "gamee.requestPlayerData"),
             if userID.Undefined? then Completed else ValidateDataType(userID, "number", "userId", "gamee.requestPlayerData")],
      Forward([cb, userID], None))
  }

  /** `requestBattleData` and the rewarded-video calls need a function. */
  lemma CallbackOnlyValidation(cb: JsValue, methodName: string)
    ensures CallbackOnlyCall(cb, methodName) ==
      (if cb.Fun? then Forward([cb], None) else Reject(Raised(DataTypeException("function", TypeOf(cb), "cb", methodName))))
  {
    var c := [ValidateDataType(cb, "function", "cb", methodName)];
    assert FirstFailure(c) == c[0];
  }

  /** The replay and save-state requests need a numeric user id, then a
    * function. */
  lemma UserIdValidation(userID: JsValue, cb: JsValue, methodName: string)
    ensures UserIdCall(userID, cb, methodName).Forward? <==> userID.Num? && cb.Fun?
    ensures !userID.Num? ==> UserIdCall(userID, cb, methodName) == Reject(Raised(DataTypeException("number", TypeOf(userID), "userID", methodName)))
  {
    var c := [ValidateDataType(userID, "number", "userID", methodName), ValidateDataType(cb, "function", "cb", methodName)];
    assert (forall i :: 0 <= i < |c| ==> c[i].Completed?) <==> c[0].Completed? && c[1].Completed?;
  }

  /** Purchases and shares need an object (an array or `null` passes) and a
    * function. */
  lemma OptionsValidation(options: JsValue, argument: string, cb: JsValue, methodName: string, oldMethod: bool)
    ensures OptionsCall(options, argument, cb, methodName, oldMethod).Forward? <==> (options.Obj? || options.Arr? || options.Null?) && cb.Fun?
  {
    var c := [ValidateDataType(options, "object", argument, methodName), ValidateDataType(cb, "function", "cb", methodName)];
    assert (forall i :: 0 <= i < |c| ==> c[i].Completed?) <==> c[0].Completed? && c[1].Completed?;
  }

  /** `requestPlayerData` needs a function and an absent or numeric id. */
  lemma PlayerDataValidation(cb: JsValue, userID: JsValue)
    ensures PlayerDataCall(cb, userID).Forward? <==> cb.Fun? && (userID.Undefined? || userID.Num?)
  {
    var c := [ValidateDataType(cb, "function", "cb", "gamee.requestPlayerData"),
              if userID.Undefined? then Completed else ValidateDataType(userID, "number", "userId", "gamee.requestPlayerData")];
    assert (forall i :: 0 <= i < |c| ==> c[i].Completed?) <==> c[0].Completed? && c[1].Completed?;
  }

  /** `purchaseItem` reaches the core's coin purchase with `oldMethod`
    * set, so a complete purchase goes out under the old method name. */
  lemma PurchaseItemUsesOldName(options: JsValue, cb: JsValue, caps: set<string>)
    requires "coins" in caps && HasOwn(options, "coinsCost") && HasOwn(options, "itemName")
    ensures var call := OptionsCall(options, "purchaseDetails", cb, "gamee.purchaseItem", true);
      call.Forward? ==>
        PurchaseWithCoinsPlan(Some(caps), call.args[0], call.args[1], call.args[2]) == Send("purchaseItem", Data(options), Cb(Relay(cb, Direct)))
  {
    var call := OptionsCall(options, "purchaseDetails", cb, "gamee.purchaseItem", true);
    if call.Forward? {
      assert call.args == [options, cb, Bool(true)];
      PurchaseRules(caps, options, cb, Bool(true));
    }
  }

  /** The older facades validate nothing: every entry point they share with
    * 2.4.0 forwards. */
  lemma OlderFacadesNeverRefuse(b: Build, a: JsValue, c: JsValue, d: JsValue, e: JsValue)
    requires b != Bundle240
    ensures GameInitCall(b, a, c, d, e, Undefined).Forward?
    ensures GameLoadingProgressCall(b, a, c).Forward? && GameReadyCall(b, a).Forward?
    ensures GameSaveCall(b, a, c, d).Forward? && UpdateScoreCall(b, a, c, d).Forward?
    ensures GameOverCall(b, a, c, d, e).Forward? && RequestSocialCall(b, "web", a, c).0.Forward?
  {
  }
}
