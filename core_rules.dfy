/**
 * The pure rules of the core: which build is running, the capability
 * vocabulary, the `startSignal` check, argument type validation and the
 * shaping of request payloads.  These are shared by the bridge (which runs
 * `startSignal` when the host sends `start`) and the core session.
 */
module CoreRules {
  import opened Js

  /** The three builds of the core: gamee/src, the 2.4.0 bundle and the
    * 2.0.0 bundle. */
  datatype Build = Src | Bundle240 | Bundle200

  function Vocabulary(b: Build): seq<string>
  {
    if b == Bundle240 then
      ["ghostMode", "saveState", "replay", "socialData", "rewardedAds", "coins", "logEvents", "playerData", "share", "gems"]
    else
      ["ghostMode", "saveState", "replay", "socialData"]
  }

  function Version(b: Build): string
  {
    if b == Bundle240 then "2.4.0" else "2.0"
  }

  /** The 2.0.0 bundle's bridge has no `validateMethod`. */
  predicate Filters(b: Build)
  {
    b != Bundle200
  }

  /** Whether the init continuation catches a controller failure and passes
    * it as `cb(error, responseData)`. */
  predicate CatchesInitErrors(b: Build)
  {
    b != Bundle200
  }

  /** Whether the core's code runs in strict mode.  The 2.0.0 bundle is a
    * plain concatenation whose only "use strict" sits inside Bullet's AMD
    * wrapper, so its core runs in sloppy mode. */
  predicate Strict(b: Build)
  {
    b != Bundle200
  }

  /** Whether the init continuation asks for keyboard bindings. */
  predicate KeyboardOn(b: Build, platform: string)
  {
    platform == "web" || (b != Bundle240 && platform == "fb")
  }

  /** Only the 2.4.0 bridge copies `replayData` into the start event. */
  predicate CopiesReplayData(b: Build)
  {
    b == Bundle240
  }

  /** Only the 2.4.0 core checks capabilities before sending. */
  predicate Gated(b: Build)
  {
    b == Bundle240
  }

  // ---------------------------------------------------------------------------
  // Capabilities

  /** The all-or-nothing rule of `gameeInit`: an array whose every element is
    * a string of the vocabulary. */
  predicate CapabilitiesOk(b: Build, capabilities: JsValue)
  {
    capabilities.Arr? &&
    forall i :: 0 <= i < |capabilities.items| ==>
      capabilities.items[i].Str? && capabilities.items[i].s in Vocabulary(b)
  }

  /** The keys of the `cap` object: `cap[x] = true` for every element. */
  function CapKeys(items: seq<JsValue>): set<string>
  {
    set i | 0 <= i < |items| :: ToKey(items[i])
  }

  /** `cap` as an object. */
  function CapObject(items: seq<JsValue>): map<string, JsValue>
  {
    map k | k in CapKeys(items) :: Bool(true)
  }

  lemma CapKeysOfValidInit(b: Build, capabilities: JsValue)
    requires CapabilitiesOk(b, capabilities)
    ensures CapKeys(capabilities.items) == set i | 0 <= i < |capabilities.items| :: capabilities.items[i].s
    ensures forall k :: k in CapKeys(capabilities.items) ==> k in Vocabulary(b)
  {
  }

  /** The 4-name vocabulary is contained in the 10-name one. */
  lemma VocabulariesNest(name: string)
    ensures name in Vocabulary(Src) <==> name in Vocabulary(Bundle200)
    ensures name in Vocabulary(Src) ==> name in Vocabulary(Bundle240)
    ensures |Vocabulary(Bundle240)| == 10 && |Vocabulary(Src)| == 4
  {
  }

  /** `cache.capabilities[name]` is truthy; `None` is the cache before the
    * init response arrived, where the read throws. */
  function HasCapability(caps: Option<set<string>>, name: string): Result<bool>
  {
    if caps.None? then Err(TypeError("Cannot read property '" + name + "' of undefined"))
    else Ok(name in caps.value)
  }

  /** `core.startSignal(data)`: a replay without the replay capability or a
    * ghost game without the ghostMode capability is refused (the ghostMode
    * message is written last and wins); `None` is no error. */
  function StartSignal(data: JsValue, caps: Option<set<string>>): Result<Option<string>>
  {
    match Get(data, "replay")
    case Err(e) => Err(e)
    case Ok(replay) =>
      var first: Result<Option<string>> :=
        if !Truthy(replay) then Ok(None)
        else match HasCapability(caps, "replay")
          case Err(e) => Err(e)
          case Ok(granted) => Ok(if granted then None else Some("Game doesn't support replay. "));
      if first.Err? then first
      else
        var ghostMode := Field(data, "ghostMode");
        if !Truthy(ghostMode) then first
        else match HasCapability(caps, "ghostMode")
          case Err(e) => Err(e)
          case Ok(granted) => if granted then first else Ok(Some("Game doesn't support ghost Mode. "))
  }

  /** With capabilities cached, the start signal is accepted exactly when
    * every requested mode is granted, and a refused ghost game reports the
    * ghostMode message even when replay is refused too. */
  lemma StartSignalGate(data: JsValue, caps: set<string>)
    requires data.Obj?
    ensures var r := StartSignal(data, Some(caps));
      && r.Ok?
      && (r.value.None? <==>
            (Truthy(Field(data, "replay")) ==> "replay" in caps) &&
            (Truthy(Field(data, "ghostMode")) ==> "ghostMode" in caps))
      && (Truthy(Field(data, "ghostMode")) && "ghostMode" !in caps ==>
            r.value == Some("Game doesn't support ghost Mode. "))
      && (Truthy(Field(data, "replay")) && "replay" !in caps &&
          (Truthy(Field(data, "ghostMode")) ==> "ghostMode" in caps) ==>
            r.value == Some("Game doesn't support replay. "))
  {
  }

  /** Before the init response, the start signal throws exactly when it asks
    * for a replay or a ghost game. */
  lemma StartSignalBeforeInit(data: JsValue)
    requires data.Obj?
    ensures StartSignal(data, None).Err? <==> Truthy(Field(data, "replay")) || Truthy(Field(data, "ghostMode"))
  {
  }

  /** The message of a capability gate, per capability. */
  function GateMessage(capability: string): string
  {
    match capability
    case "saveState" => "Save State not supported, you must add the capability on gamee.Init"
    case "socialData" => "Social Data not supported, you must add the capability on gamee.Init"
    case "logEvents" => "Log Events not supported, you must add the capability on gamee.Init"
    case "replay" => "Replays not supported, you must add the capability on gamee.Init"
    case "coins" => "Coins purchases not supported, you must add the capability on gamee.Init"
    case "gems" => "Gems purchases not supported, you must add the capability on gamee.Init"
    case "share" => "Share option not supported, you must add the capability on gamee.Init"
    case "rewardedAds" => "Rewarded Ads not supported, you must add the capability on gamee.Init"
    case _ => "Player Data not supported, you must add the capability on gamee.Init"
  }

  /** The capability check that opens a gated operation. */
  function Gate(b: Build, caps: Option<set<string>>, capability: string): (out: Outcome)
    ensures out.Completed? <==> !Gated(b) || (caps.Some? && capability in caps.value)
  {
    if !Gated(b) then Completed
    else match HasCapability(caps, capability)
      case Err(e) => Threw(e)
      case Ok(granted) => if granted then Completed else Threw(Raised(Str(GateMessage(capability))))
  }

  // ---------------------------------------------------------------------------
  // Argument validation

  /** `new DataTypeException(expected, present, argument, method)`. */
  function DataTypeException(expected: string, present: string, argument: string, methodName: string): JsValue
  {
    Obj(map[
      "expected" := Str(expected), "present" := Str(present), "argument" := Str(argument), "method" := Str(methodName),
      "message" := Str("Invalid data type in method " + methodName + ", argument " + argument + " is expected to be "
                       + expected + ", but found " + present)])
  }

  /** `validateDataType(v, expected, argument, method)`: "array" asks for an
    * array, anything else compares `typeof`. */
  function ValidateDataType(v: JsValue, expected: string, argument: string, methodName: string): (out: Outcome)
    ensures out.Completed? <==> (if expected == "array" then v.Arr? else TypeOf(v) == expected)
    ensures out.Threw? ==> out.error == Raised(DataTypeException(expected, TypeOf(v), argument, methodName))
  {
    var ok := if expected == "array" then v.Arr? else TypeOf(v) == expected;
    if ok then Completed else Threw(Raised(DataTypeException(expected, TypeOf(v), argument, methodName)))
  }

  /** An array passes the "object" check as well as the "array" check, while
    * `null` passes only the "object" one. */
  lemma ArraysAreObjects(v: JsValue)
    ensures ValidateDataType(v, "array", "a", "m").Completed? ==> ValidateDataType(v, "object", "a", "m").Completed?
    ensures ValidateDataType(Null, "object", "a", "m").Completed? && ValidateDataType(Null, "array", "a", "m").Threw?
  {
  }

  // ---------------------------------------------------------------------------
  // Payloads

  /** `gameLoadingProgress(percentage)` against the highest value accepted so
    * far: an error, or the value to send and record (`None`: nothing sent). */
  function LoadingProgress(percentage: JsValue, soFar: int): (r: Result<Option<int>>)
    ensures r.Ok? <==> percentage.Num? && 0 <= percentage.n <= 100
    ensures r.Ok? && r.value.Some? <==> r.Ok? && percentage.n > soFar
    ensures r.Ok? && r.value.Some? ==> r.value.value == percentage.n
  {
    if !percentage.Num? || percentage.n < 0 || percentage.n > 100 then
      Err(Raised(Str("Percentage passed to gameLoadingProgress out of bounds or not a number.")))
    else if percentage.n > soFar then Ok(Some(percentage.n))
    else Ok(None)
  }

  /** The recorded value after a call. */
  function ProgressAfter(percentage: JsValue, soFar: int): int
  {
    match LoadingProgress(percentage, soFar)
    case Ok(Some(p)) => p
    case _ => soFar
  }

  /** The recorded progress never decreases along a sequence of calls. */
  lemma {:induction false} ProgressNeverDecreases(percentages: seq<JsValue>, soFar: int)
    ensures ProgressFold(percentages, soFar) >= soFar
    decreases |percentages|
  {
    if |percentages| > 0 {
      ProgressNeverDecreases(percentages[1..], ProgressAfter(percentages[0], soFar));
    }
  }

  /** Every value sent lies above the progress recorded before the calls
    * and at most 100. */
  lemma {:induction false} SentProgressBounded(percentages: seq<JsValue>, soFar: int)
    ensures forall x :: x in SentProgress(percentages, soFar) ==> soFar < x <= 100
    decreases |percentages|
  {
    if |percentages| > 0 {
      var next := ProgressAfter(percentages[0], soFar);
      SentProgressBounded(percentages[1..], next);
      SentProgressStep(percentages, soFar);
    }
  }

  /** The values sent by a sequence of calls are strictly increasing. */
  lemma {:induction false} SentProgressIncreasing(percentages: seq<JsValue>, soFar: int)
    ensures forall i, j :: 0 <= i < j < |SentProgress(percentages, soFar)| ==>
      SentProgress(percentages, soFar)[i] < SentProgress(percentages, soFar)[j]
    decreases |percentages|
  {
    if |percentages| > 0 {
      var next := ProgressAfter(percentages[0], soFar);
      SentProgressIncreasing(percentages[1..], next);
      SentProgressBounded(percentages[1..], next);
      SentProgressStep(percentages, soFar);
      var rest := SentProgress(percentages[1..], next);
      var sent := SentProgress(percentages, soFar);
      if next > soFar {
        forall i, j | 0 <= i < j < |sent|
          ensures sent[i] < sent[j]
        {
          assert sent[j] == rest[j - 1] && rest[j - 1] in rest;
          if i > 0 {
            assert sent[i] == rest[i - 1];
          }
        }
      }
    }
  }

  /** One call of a sequence: it either sends a value above the recorded one
    * and records it, or sends nothing and records nothing new. */
  lemma SentProgressStep(percentages: seq<JsValue>, soFar: int)
    requires |percentages| > 0
    ensures var next := ProgressAfter(percentages[0], soFar);
      var rest := SentProgress(percentages[1..], next);
      || (soFar < next <= 100 && SentProgress(percentages, soFar) == [next] + rest)
      || (next == soFar && SentProgress(percentages, soFar) == rest)
  {
  }

  function ProgressFold(percentages: seq<JsValue>, soFar: int): int
    decreases |percentages|
  {
    if |percentages| == 0 then soFar else ProgressFold(percentages[1..], ProgressAfter(percentages[0], soFar))
  }

  /** The percentages a sequence of calls sends (calls that throw send
    * nothing). */
  function SentProgress(percentages: seq<JsValue>, soFar: int): seq<int>
    decreases |percentages|
  {
    if |percentages| == 0 then []
    else
      var rest := SentProgress(percentages[1..], ProgressAfter(percentages[0], soFar));
      match LoadingProgress(percentages[0], soFar)
      case Ok(Some(p)) => [p] + rest
      case _ => rest
  }

  /** `updateScore(score, opt_ghostSign)`'s request data. */
  function ScoreData(score: JsValue, ghostSign: JsValue): (r: Result<JsValue>)
    ensures r.Ok? <==> score.Num?
    ensures r.Ok? ==> r.value.Obj? && "score" in r.value.props
    ensures r.Ok? ==> r.value == Obj(r.value.props) && r.value.props["score"] == score
    ensures r.Ok? ==> ("ghostSign" in r.value.props <==> Truthy(ghostSign))
    ensures r.Ok? ==> r.value.props.Keys <= {"score", "ghostSign"}
  {
    if !score.Num? then Err(Raised(Str("Score passed to updateScore is not a number.")))
    else
      var base := map["score" := score];
      Ok(Obj(if Truthy(ghostSign) then base["ghostSign" := Bool(true)] else base))
  }

  /** `gameOver(opt_replayData[, opt_saveState, opt_hideOverlay])`: the
    * caller's replay value after the call (a missing `variant` is written
    * before `data` is checked) and the request data or the error. */
  function GameOverData(b: Build, replay: JsValue, saveState: JsValue, hideOverlay: JsValue): (JsValue, Result<JsValue>)
  {
    if !Truthy(replay) then (replay, Ok(Obj(GameOverExtras(b, map[], saveState, hideOverlay))))
    else
      var withVariant := if HasOwn(replay, "variant") then Ok(replay) else SetProp(replay, "variant", Str(""), Strict(b));
      match withVariant
      case Err(e) => (replay, Err(e))
      case Ok(r) =>
        if !HasOwn(r, "data") then (r, Err(Raised(Str("Replay data must have `data` property"))))
        else (r, Ok(Obj(GameOverExtras(b, map["replayData" := r], saveState, hideOverlay))))
  }

  /** The 2.4.0 additions: `hideOverlay` (false when not given) always, and
    * `state` when a truthy save state is given. */
  function GameOverExtras(b: Build, base: map<string, JsValue>, saveState: JsValue, hideOverlay: JsValue): map<string, JsValue>
  {
    if b != Bundle240 then base
    else
      var withHide := base["hideOverlay" := if hideOverlay.Undefined? then Bool(false) else hideOverlay];
      if Truthy(saveState) then withHide["state" := saveState] else withHide
  }

  /** The replay rules of `gameOver`: an object replay always leaves with a
    * `variant`; the call fails exactly when it has no own `data`; a falsy
    * replay sends no replay data. */
  lemma GameOverReplayRules(b: Build, replay: JsValue, saveState: JsValue, hideOverlay: JsValue)
    ensures var (after, r) := GameOverData(b, replay, saveState, hideOverlay);
      && (replay.Obj? ==>
            && HasOwn(after, "variant")
            && (r.Ok? <==> HasOwn(replay, "data"))
            && (r.Ok? ==> r.value.Obj? && "replayData" in r.value.props && r.value.props["replayData"] == after)
            && after.Obj?
            && after.props == (if HasOwn(replay, "variant") then replay.props else replay.props["variant" := Str("")]))
      && (!Truthy(replay) ==> r.Ok? && "replayData" !in r.value.props && after == replay)
      && ((replay.Str? || replay.Num? || replay.Bool?) && Truthy(replay) ==>
            && after == replay
            && r == Err(if Strict(b) then CannotCreate("variant")
                        else Raised(Str("Replay data must have `data` property"))))
      && (r.Ok? ==> (b == Bundle240 <==> "hideOverlay" in r.value.props))
      && (r.Ok? ==> ("state" in r.value.props <==> b == Bundle240 && Truthy(saveState)))
  {
    var (after, r) := GameOverData(b, replay, saveState, hideOverlay);
    GameOverExtrasKeys(b, map[], saveState, hideOverlay);
    if replay.Obj? {
      GameOverObjectReplay(b, replay, saveState, hideOverlay);
    }
    if r.Ok? && Truthy(replay) {
      GameOverExtrasKeys(b, map["replayData" := after], saveState, hideOverlay);
    }
    if (replay.Str? || replay.Num? || replay.Bool?) && Truthy(replay) {
      GameOverPrimitiveReplay(b, replay, saveState, hideOverlay);
    }
  }

  /** A truthy primitive replay: strict code throws on the write of
    * `variant`, sloppy code drops the write and fails the `data` check. */
  lemma GameOverPrimitiveReplay(b: Build, replay: JsValue, saveState: JsValue, hideOverlay: JsValue)
    requires (replay.Str? || replay.Num? || replay.Bool?) && Truthy(replay)
    ensures GameOverData(b, replay, saveState, hideOverlay) ==
      (replay, Err(if Strict(b) then CannotCreate("variant")
                   else Raised(Str("Replay data must have `data` property"))))
  {
    assert !HasOwn(replay, "variant") && !HasOwn(replay, "data");
  }

  /** The keys `GameOverExtras` adds to the ones it is given. */
  lemma GameOverExtrasKeys(b: Build, base: map<string, JsValue>, saveState: JsValue, hideOverlay: JsValue)
    ensures var m := GameOverExtras(b, base, saveState, hideOverlay);
      && (forall k :: k in base && k != "hideOverlay" && k != "state" ==> k in m && m[k] == base[k])
      && ("hideOverlay" in m <==> b == Bundle240 || "hideOverlay" in base)
      && ("state" in m <==> (b == Bundle240 && Truthy(saveState)) || "state" in base)
  {
    assert |"hideOverlay"| != |"state"|;
  }

  lemma GameOverObjectReplay(b: Build, replay: JsValue, saveState: JsValue, hideOverlay: JsValue)
    requires replay.Obj?
    ensures var (after, r) := GameOverData(b, replay, saveState, hideOverlay);
      && after == Obj(if HasOwn(replay, "variant") then replay.props else replay.props["variant" := Str("")])
      && (r.Ok? <==> HasOwn(replay, "data"))
      && (r.Ok? ==> r.value == Obj(GameOverExtras(b, map["replayData" := after], saveState, hideOverlay)))
  {
  }

  /** `core.gameSave(data, share)`'s request data; the 2.0.0 core refuses a
    * non-object. */
  function SaveData(b: Build, data: JsValue, share: JsValue): (r: Result<JsValue>)
    ensures r.Ok? <==> b != Bundle200 || TypeOf(data) == "object"
    ensures r.Ok? ==> r.value == Obj(map["state" := data, "share" := share])
  {
    if b == Bundle200 && TypeOf(data) != "object" then Err(Raised(Str("data provided to gameSave function must be object")))
    else Ok(Obj(map["state" := data, "share" := share]))
  }

  /** The required-field check of the purchase and share operations: a truthy
    * options value must own every field, checked in order. */
  function RequireFields(options: JsValue, fields: seq<string>, prefix: string): (out: Outcome)
    ensures out.Completed? <==> !Truthy(options) || forall f :: f in fields ==> HasOwn(options, f)
    decreases |fields|
  {
    if !Truthy(options) || |fields| == 0 then Completed
    else if !HasOwn(options, fields[0]) then Threw(Raised(Str(prefix + fields[0] + "` property")))
    else RequireFields(options, fields[1..], prefix)
  }

  /** The first missing field is the one reported. */
  lemma {:induction false} RequireFieldsReportsFirst(options: JsValue, fields: seq<string>, prefix: string, i: nat)
    requires Truthy(options) && i < |fields| && !HasOwn(options, fields[i])
    requires forall j :: 0 <= j < i ==> HasOwn(options, fields[j])
    ensures RequireFields(options, fields, prefix) == Threw(Raised(Str(prefix + fields[i] + "` property")))
    decreases i
  {
    if i > 0 {
      RequireFieldsReportsFirst(options, fields[1..], prefix, i - 1);
    }
  }

  /** `requestPlayerData(cb, userID)`'s request data. */
  function PlayerDataOptions(userID: JsValue): (r: JsValue)
    ensures Truthy(userID) ==> r == Obj(map["userID" := userID])
    ensures !Truthy(userID) ==> r.Undefined?
  {
    if Truthy(userID) then Obj(map["userID" := userID]) else Undefined
  }
}
