/**
 * The core of the SDK: capability negotiation at `gameeInit`, the request
 * builders behind every public operation, the capability cache consulted by
 * the gated operations and by the start signal, and the callbacks the core
 * leaves pending on the bridge.
 *
 * Every operation that sends something is split into a pure plan (what to
 * send, or why to refuse) and `Session.Perform`, which hands the plan to the
 * bridge; the operations with state of their own (`gameeInit`,
 * `gameLoadingProgress`, the reply listener) are methods.
 */
module Core {
  import opened Js
  import opened CoreRules
  import opened PlatformBridge
  import opened GameControllers

  /** How the facade wraps a caller's callback before the core sees it. */
  datatype Wrap = Direct | SocialIos | SocialMerge

  /** The callbacks the core leaves on the bridge. */
  datatype Callback =
    | /** The `gameeInit` continuation. */
      InitDone(ctrlType: string, granted: set<string>, user: JsValue)
    | /** `function (responseData) { cb(null, responseData); }` */
      Relay(user: JsValue, wrap: Wrap)
    | /** `logEvent`'s `function (error) { if (error) throw error; }` */
      RaiseIfError

  /** A call into the game's own code: a callback with its arguments, or the
    * `gameeInit` callback with the error (absent in the one-argument form),
    * the response data and whether `responseData.controller` was set. */
  datatype UserCall =
    | Called(f: JsValue, args: seq<JsValue>)
    | Ready(user: JsValue, error: Option<JsValue>, response: JsValue, controllerSet: bool)

  /** What a public operation asks of the bridge. */
  datatype Plan = Send(methodName: string, data: Arg<Callback>, callback: Arg<Callback>) | Refuse(error: Error) | Skip

  const InitRefusal := "Capabilities array passed to gameeInit is void, malformed or unsupported capabilites requested."

  // ---------------------------------------------------------------------------
  // Capability negotiation

  /** The validation loop of `gameeInit`: the verdict and the `cap` map's
    * keys (every element is written, even after a bad one). */
  method CheckCapabilities(b: Build, capabilities: JsValue) returns (allOk: bool, cap: set<string>)
    ensures allOk <==> CapabilitiesOk(b, capabilities)
    ensures capabilities.Arr? ==> cap == CapKeys(capabilities.items)
    ensures !capabilities.Arr? ==> cap == {}
  {
    cap := {};
    if !capabilities.Arr? {
      return false, cap;
    }
    var items := capabilities.items;
    allOk := true;
    var i := 0;
    while i < |items|
      invariant 0 <= i <= |items|
      invariant allOk <==> forall j :: 0 <= j < i ==> items[j].Str? && items[j].s in Vocabulary(b)
      invariant cap == CapKeys(items[..i])
    {
      if !items[i].Str? || items[i].s !in Vocabulary(b) {
        allOk := false;
      }
      assert CapKeys(items[..i + 1]) == CapKeys(items[..i]) + {ToKey(items[i])} by {
        assert forall j :: 0 <= j < i ==> items[..i + 1][j] == items[..i][j];
        assert items[..i + 1][i] == items[i];
      }
      cap := cap + {ToKey(items[i])};
      i := i + 1;
    }
    assert items[..i] == items;
  }

  /** The `init` request's data. */
  function InitData(b: Build, ctrlType: string, items: seq<JsValue>): JsValue
  {
    Obj(map["version" := Str(Version(b)), "controller" := Str(ctrlType), "capabilities" := Obj(CapObject(items))])
  }

  /** How `requestController` ends inside the init continuation (the core's
    * registry is the twelve-kind one). */
  function ControllerOutcome(b: Build, platform: string, ctrlType: string): Outcome
  {
    if ctrlType == "FullScreen" then Completed
    else match KindNamed(Full12, ctrlType)
      case None => Threw(Raised(ErrorObject("Unsupported controller type, " + ctrlType)))
      case Some(k) => BuildSpec(Current, k, KeyboardOn(b, platform), []).1
  }

  /** Whether the init continuation for `ctrlType` makes a new main
    * controller ("FullScreen" asks for none). */
  predicate InstallsController(b: Build, platform: string, ctrlType: string)
  {
    ctrlType != "FullScreen" && ControllerOutcome(b, platform, ctrlType).Completed?
  }

  /** Whether running `a` is an init continuation that makes a new main
    * controller. */
  predicate RunInstalls(b: Build, platform: string, a: Arg<Callback>)
  {
    a.Cb? && a.c.InitDone? && InstallsController(b, platform, a.c.ctrlType)
  }

  /** The main controller the init continuation makes: the named kind, built
    * with the keyboard the platform asks for and no remaps. */
  function InstalledState(b: Build, platform: string, ctrlType: string): ControllerState
    requires InstallsController(b, platform, ctrlType)
  {
    BuildSpec(Current, KindNamed(Full12, ctrlType).value, KeyboardOn(b, platform), []).0
  }

  /** Calling a value that should be a function. */
  function CallUser(f: JsValue, args: seq<JsValue>): (r: (Outcome, seq<UserCall>))
    ensures r.0.Completed? <==> f.Fun?
    ensures r.1 == (if f.Fun? then [Called(f, args)] else [])
  {
    if f.Fun? then (Completed, [Called(f, args)]) else (Threw(TypeError("cb is not a function")), [])
  }

  /** What stops the init continuation before the game's callback: the
    * controller request, or the write of `responseData.controller`. */
  function InitFailure(b: Build, platform: string, ctrlType: string, responseData: JsValue): (f: Option<Error>)
    ensures f.None? <==> ControllerOutcome(b, platform, ctrlType).Completed? && SetProp(responseData, "controller", Null, Strict(b)).Ok?
  {
    var made := ControllerOutcome(b, platform, ctrlType);
    if made.Threw? then Some(made.error)
    else if SetProp(responseData, "controller", Null, Strict(b)).Err? then Some(SetProp(responseData, "controller", Null, Strict(b)).error)
    else None
  }

  /** The end of the init continuation: the current builds pass a failure
    * as the first argument, the 2.0.0 build lets it escape. */
  function AnswerInit(b: Build, failure: Option<Error>, user: JsValue, responseData: JsValue): (Outcome, seq<UserCall>)
  {
    if failure.Some? && !CatchesInitErrors(b) then (Threw(failure.value), [])
    else if !user.Fun? then (Threw(TypeError("cb is not a function")), [])
    else
      var error := if CatchesInitErrors(b) then Some(if failure.Some? then Thrown(failure.value) else Null) else None;
      (Completed, [Ready(user, error, responseData, failure.None? && KeepsProps(responseData))])
  }

  /** The init continuation: the controller is requested, written into the
    * response data and handed to the game's callback. */
  function InitReply(b: Build, platform: string, ctrlType: string, user: JsValue, responseData: JsValue): (Outcome, seq<UserCall>)
  {
    AnswerInit(b, InitFailure(b, platform, ctrlType, responseData), user, responseData)
  }

  /** Running a callback taken from the bridge with the reply's data. */
  function CallbackSpec(b: Build, platform: string, a: Arg<Callback>, data: JsValue): (Outcome, seq<UserCall>)
  {
    match a
    case Data(v) => CallUser(v, [data])
    case Cb(InitDone(t, _, user)) => InitReply(b, platform, t, user, data)
    case Cb(RaiseIfError) => (if Truthy(data) then Threw(Raised(data)) else Completed, [])
    case Cb(Relay(user, Direct)) => CallUser(user, [Null, data])
    case Cb(Relay(user, SocialIos)) => CallUser(user, [Null, Obj(map["socialData" := data])])
    case Cb(Relay(user, SocialMerge)) =>
      match Get(data, "hasOwnProperty")
      case Err(e) => (Threw(e), [])
      case Ok(_) => CallUser(user, [Null, if HasOwn(data, "socialData") then data else Obj(map["socialData" := data])])
  }

  /** The current builds always answer the game once, with a null error
    * exactly when the controller was made and stored in the response; an
    * unknown controller type is reported, not thrown. */
  lemma InitAlwaysAnswers(b: Build, platform: string, ctrlType: string, user: JsValue, responseData: JsValue)
    requires CatchesInitErrors(b) && user.Fun?
    ensures var (out, calls) := InitReply(b, platform, ctrlType, user, responseData);
      && out == Completed && |calls| == 1 && calls[0].Ready? && calls[0].error.Some?
      && (calls[0].error.value == Null <==> calls[0].controllerSet)
      && (calls[0].controllerSet <==> ControllerOutcome(b, platform, ctrlType).Completed? && KeepsProps(responseData))
      && (ctrlType != "FullScreen" && KindNamed(Full12, ctrlType).None? ==>
            calls[0].error.value == ErrorObject("Unsupported controller type, " + ctrlType))
  {
  }

  /** A touch controller on a platform that enables the keyboard fails at
    * `enableKeyboard`, which it does not have; the 2.0.0 build throws it out
    * of the reply listener. */
  lemma TouchKeyboardFails(b: Build, platform: string, user: JsValue, responseData: JsValue)
    requires KeyboardOn(b, platform)
    ensures ControllerOutcome(b, platform, "Touch") == Threw(TypeError("controller.enableKeyboard is not a function"))
    ensures !CatchesInitErrors(b) ==> InitReply(b, platform, "Touch", user, responseData).0 == Threw(TypeError("controller.enableKeyboard is not a function"))
    ensures !CatchesInitErrors(b) ==> InitReply(b, platform, "Touch", user, responseData).1 == []
  {
  }

  /** In the sloppy 2.0.0 core the write of `controller` onto a primitive
    * reply is dropped without an error: the game is called with the reply as
    * it came and no controller in it.  A reply of `undefined` or `null`
    * still throws out of the listener before the game is called. */
  lemma SloppyInitReply(platform: string, ctrlType: string, user: JsValue, responseData: JsValue)
    requires ControllerOutcome(Bundle200, platform, ctrlType).Completed? && user.Fun?
    ensures responseData.Str? || responseData.Num? || responseData.Bool? ==>
      InitReply(Bundle200, platform, ctrlType, user, responseData) == (Completed, [Ready(user, None, responseData, false)])
    ensures responseData.Undefined? || responseData.Null? ==>
      InitReply(Bundle200, platform, ctrlType, user, responseData) == (Threw(CannotCreate("controller")), [])
  {
  }

  /** The keyboard is requested on the web in every build and on Facebook
    * except in the 2.4.0 build; mobile never asks for it. */
  lemma KeyboardPlatforms(b: Build)
    ensures KeyboardOn(b, "web") && !KeyboardOn(b, "mobile")
    ensures KeyboardOn(b, "fb") <==> b != Bundle240
  {
  }

  /** The 2.4.0 social wrapper keeps a response that already has
    * `socialData` and wraps any other; the iOS wrapper of the older facade
    * always wraps. */
  lemma SocialWrapping(user: JsValue, data: JsValue)
    requires user.Fun?
    ensures HasOwn(data, "socialData") ==> CallbackSpec(Src, "web", Cb(Relay(user, SocialMerge)), data).1 == [Called(user, [Null, data])]
    ensures !HasOwn(data, "socialData") && !data.Undefined? && !data.Null? ==>
      CallbackSpec(Src, "web", Cb(Relay(user, SocialMerge)), data).1 == [Called(user, [Null, Obj(map["socialData" := data])])]
    ensures data.Undefined? || data.Null? ==> CallbackSpec(Src, "web", Cb(Relay(user, SocialMerge)), data).0.Threw?
    ensures CallbackSpec(Src, "web", Cb(Relay(user, SocialIos)), data).1 == [Called(user, [Null, Obj(map["socialData" := data])])]
  {
  }

  // ---------------------------------------------------------------------------
  // Plans of the public operations

  function Guarded(check: Outcome, plan: Plan): (r: Plan)
    ensures check.Threw? ==> r == Refuse(check.error)
    ensures check.Completed? ==> r == plan
  {
    if check.Threw? then Refuse(check.error) else plan
  }

  function LoadingProgressPlan(percentage: JsValue, soFar: int): (p: Plan)
  {
    match LoadingProgress(percentage, soFar)
    case Err(e) => Refuse(e)
    case Ok(None) => Skip
    case Ok(Some(v)) => Send("gameLoadingProgress", Data(Obj(map["percentage" := Num(v)])), Data(Undefined))
  }

  function GameReadyPlan(): Plan
  {
    Send("gameReady", Data(Undefined), Data(Undefined))
  }

  function UpdateScorePlan(score: JsValue, ghostSign: JsValue): Plan
  {
    match ScoreData(score, ghostSign)
    case Err(e) => Refuse(e)
    case Ok(d) => Send("updateScore", Data(d), Data(Undefined))
  }

  /** The caller's replay value after the call, and the plan. */
  function GameOverPlan(b: Build, replay: JsValue, saveState: JsValue, hideOverlay: JsValue): (JsValue, Plan)
  {
    var (after, r) := GameOverData(b, replay, saveState, hideOverlay);
    (after, if r.Err? then Refuse(r.error) else Send("gameOver", Data(r.value), Data(Undefined)))
  }

  function GameSavePlan(b: Build, caps: Option<set<string>>, data: JsValue, share: JsValue): Plan
  {
    Guarded(Gate(b, caps, "saveState"),
      match SaveData(b, data, share)
      case Err(e) => Refuse(e)
      case Ok(d) => Send("saveState", Data(d), Data(Undefined)))
  }

  /** The 2.4.0 core sends `numberOfPlayers` as data; the older cores pass
    * the callback in the data position. */
  function RequestSocialPlan(b: Build, caps: Option<set<string>>, user: JsValue, wrap: Wrap, numberOfPlayers: JsValue): Plan
  {
    Guarded(Gate(b, caps, "socialData"),
      if b == Bundle240 then Send("requestSocial", Data(numberOfPlayers), Cb(Relay(user, wrap)))
      else Send("requestSocial", Cb(Relay(user, wrap)), Data(Undefined)))
  }

  function LogEventPlan(caps: Option<set<string>>, eventName: JsValue, eventValue: JsValue): Plan
  {
    Guarded(Gate(Bundle240, caps, "logEvents"),
      Send("logEvent", Data(Obj(map["eventName" := eventName, "eventValue" := eventValue])), Cb(RaiseIfError)))
  }

  function BattleDataPlan(user: JsValue): Plan
  {
    Send("requestBattleData", Data(Undefined), Cb(Relay(user, Direct)))
  }

  function PlayerReplayPlan(caps: Option<set<string>>, userID: JsValue, user: JsValue): Plan
  {
    Guarded(Gate(Bundle240, caps, "replay"),
      Send("requestPlayerReplay", Data(Obj(map["userID" := userID])), Cb(Relay(user, Direct))))
  }

  function PlayerSaveStatePlan(userID: JsValue, user: JsValue): Plan
  {
    Send("requestPlayerSaveState", Data(Obj(map["userID" := userID])), Cb(Relay(user, Direct)))
  }

  function PurchaseWithCoinsPlan(caps: Option<set<string>>, options: JsValue, user: JsValue, oldMethod: JsValue): Plan
  {
    Guarded(Gate(Bundle240, caps, "coins"),
      Guarded(RequireFields(options, ["coinsCost", "itemName"], "Purchase Options must have `"),
        Send(if oldMethod == Bool(true) then "purchaseItem" else "purchaseItemWithCoins", Data(options), Cb(Relay(user, Direct)))))
  }

  function PurchaseWithGemsPlan(caps: Option<set<string>>, options: JsValue, user: JsValue): Plan
  {
    Guarded(Gate(Bundle240, caps, "gems"),
      Guarded(RequireFields(options, ["gemsCost", "itemName"], "Purchase options must have `"),
        Send("purchaseItemWithGems", Data(options), Cb(Relay(user, Direct)))))
  }

  function SharePlan(caps: Option<set<string>>, options: JsValue, user: JsValue): Plan
  {
    Guarded(Gate(Bundle240, caps, "share"),
      Guarded(RequireFields(options, ["destination"], "Share Options must have `"),
        Send("share", Data(options), Cb(Relay(user, Direct)))))
  }

  /** `loadRewardedVideo(cb)` and `showRewardedVideo(cb)`: the callback is
    * passed in the data position. */
  function RewardedVideoPlan(caps: Option<set<string>>, show: bool, user: JsValue): Plan
  {
    Guarded(Gate(Bundle240, caps, "rewardedAds"),
      Send(if show then "showRewardedVideo" else "loadRewardedVideo", Cb(Relay(user, Direct)), Data(Undefined)))
  }

  function PlayerDataPlan(caps: Option<set<string>>, user: JsValue, userID: JsValue): Plan
  {
    Guarded(Gate(Bundle240, caps, "playerData"),
      Send("requestPlayerData", Data(PlayerDataOptions(userID)), Cb(Relay(user, Direct))))
  }

  /** Handing a plan to the bridge. */
  function PerformSpec(backend: Backend, filtered: bool, st: BridgeState<Callback>, plan: Plan): (r: (BridgeState<Callback>, Outcome))
    ensures plan.Refuse? ==> r == (st, Threw(plan.error))
    ensures plan.Skip? ==> r == (st, Completed)
  {
    match plan
    case Refuse(e) => (st, Threw(e))
    case Skip => (st, Completed)
    case Send(m, d, cb) => CreateRequestSpec(backend, filtered, st, m, d, cb)
  }

  /** Without its capability, each gated 2.4.0 operation is refused (with
    * the capability's message, or by the read of the missing cache), so
    * nothing reaches the bridge. */
  lemma GatesComeFirst(caps: Option<set<string>>, a: JsValue, c: JsValue, user: JsValue, wrap: Wrap, show: bool)
    ensures caps.None? || "saveState" !in caps.value ==> GameSavePlan(Bundle240, caps, a, c).Refuse?
    ensures caps.None? || "socialData" !in caps.value ==> RequestSocialPlan(Bundle240, caps, user, wrap, a).Refuse?
    ensures caps.None? || "logEvents" !in caps.value ==> LogEventPlan(caps, a, c).Refuse?
    ensures caps.None? || "replay" !in caps.value ==> PlayerReplayPlan(caps, a, user).Refuse?
    ensures caps.None? || "coins" !in caps.value ==> PurchaseWithCoinsPlan(caps, a, user, c).Refuse?
    ensures caps.None? || "gems" !in caps.value ==> PurchaseWithGemsPlan(caps, a, user).Refuse?
    ensures caps.None? || "share" !in caps.value ==> SharePlan(caps, a, user).Refuse?
    ensures caps.None? || "rewardedAds" !in caps.value ==> RewardedVideoPlan(caps, show, user).Refuse?
    ensures caps.None? || "playerData" !in caps.value ==> PlayerDataPlan(caps, user, a).Refuse?
  {
    StateGatesComeFirst(caps, a, c, user, wrap);
    PurchaseGatesComeFirst(caps, a, c, user);
    MediaGatesComeFirst(caps, a, user, show);
  }

  /** Helper of `GatesComeFirst`: save, social data and event logging. */
  lemma StateGatesComeFirst(caps: Option<set<string>>, a: JsValue, c: JsValue, user: JsValue, wrap: Wrap)
    ensures caps.None? || "saveState" !in caps.value ==> GameSavePlan(Bundle240, caps, a, c).Refuse?
    ensures caps.None? || "socialData" !in caps.value ==> RequestSocialPlan(Bundle240, caps, user, wrap, a).Refuse?
    ensures caps.None? || "logEvents" !in caps.value ==> LogEventPlan(caps, a, c).Refuse?
  {
    SaveGateFirst(caps, a, c);
  }

  /** Helper of `StateGatesComeFirst`: the save gate. */
  lemma SaveGateFirst(caps: Option<set<string>>, a: JsValue, c: JsValue)
    ensures caps.None? || "saveState" !in caps.value ==> GameSavePlan(Bundle240, caps, a, c).Refuse?
  {
  }

  /** Helper of `GatesComeFirst`: replays and the coin and gem purchases. */
  lemma PurchaseGatesComeFirst(caps: Option<set<string>>, a: JsValue, c: JsValue, user: JsValue)
    ensures caps.None? || "replay" !in caps.value ==> PlayerReplayPlan(caps, a, user).Refuse?
    ensures caps.None? || "coins" !in caps.value ==> PurchaseWithCoinsPlan(caps, a, user, c).Refuse?
    ensures caps.None? || "gems" !in caps.value ==> PurchaseWithGemsPlan(caps, a, user).Refuse?
  {
  }

  /** Helper of `GatesComeFirst`: sharing, rewarded ads and player data. */
  lemma MediaGatesComeFirst(caps: Option<set<string>>, a: JsValue, user: JsValue, show: bool)
    ensures caps.None? || "share" !in caps.value ==> SharePlan(caps, a, user).Refuse?
    ensures caps.None? || "rewardedAds" !in caps.value ==> RewardedVideoPlan(caps, show, user).Refuse?
    ensures caps.None? || "playerData" !in caps.value ==> PlayerDataPlan(caps, user, a).Refuse?
  {
  }

  /** The refusal carries the capability's own message once the cache is
    * filled, and the failed cache read before. */
  lemma GateMessages(caps: set<string>, options: JsValue, user: JsValue, oldMethod: JsValue)
    requires "coins" !in caps
    ensures PurchaseWithCoinsPlan(Some(caps), options, user, oldMethod) ==
      Refuse(Raised(Str("Coins purchases not supported, you must add the capability on gamee.Init")))
    ensures SharePlan(None, options, user).error.TypeError?
  {
    CoinsMessage();
    assert Gate(Bundle240, Some(caps), "coins") == Threw(Raised(Str(GateMessage("coins"))));
  }

  lemma CoinsMessage()
    ensures GateMessage("coins") == "Coins purchases not supported, you must add the capability on gamee.Init"
  {
    assert |"coins"| != |"saveState"| && |"coins"| != |"socialData"| && |"coins"| != |"logEvents"| && |"coins"| != |"replay"|;
  }

  /** With the capability granted, a purchase is sent exactly when its
    * options are falsy or own both required fields, under the old method
    * name only for `oldMethod === true`. */
  lemma PurchaseRules(caps: set<string>, options: JsValue, user: JsValue, oldMethod: JsValue)
    requires "coins" in caps
    ensures var p := PurchaseWithCoinsPlan(Some(caps), options, user, oldMethod);
      && (p.Send? <==> !Truthy(options) || (HasOwn(options, "coinsCost") && HasOwn(options, "itemName")))
      && (p.Send? ==> p.methodName == (if oldMethod == Bool(true) then "purchaseItem" else "purchaseItemWithCoins"))
      && (Truthy(options) && !HasOwn(options, "coinsCost") ==> p == Refuse(Raised(Str("Purchase Options must have `" + "coinsCost" + "` property"))))
  {
    var fields := ["coinsCost", "itemName"];
    assert (forall f :: f in fields ==> HasOwn(options, f)) <==> HasOwn(options, fields[0]) && HasOwn(options, fields[1]);
    var check := RequireFields(options, fields, "Purchase Options must have `");
    assert PurchaseWithCoinsPlan(Some(caps), options, user, oldMethod) ==
      Guarded(check, Send(if oldMethod == Bool(true) then "purchaseItem" else "purchaseItemWithCoins", Data(options), Cb(Relay(user, Direct))));
    if Truthy(options) && !HasOwn(options, "coinsCost") {
      RequireFieldsReportsFirst(options, fields, "Purchase Options must have `", 0);
    }
  }

  /** The gems purchase needs `gemsCost` and `itemName`, a share needs
    * `destination`; options that pass are sent as they are. */
  lemma GemsAndShareRules(caps: set<string>, options: JsValue, user: JsValue)
    requires "gems" in caps && "share" in caps
    ensures var p := PurchaseWithGemsPlan(Some(caps), options, user);
      && (p.Send? <==> !Truthy(options) || (HasOwn(options, "gemsCost") && HasOwn(options, "itemName")))
      && (p.Send? ==> p.data == Data(options))
    ensures var p := SharePlan(Some(caps), options, user);
      && (p.Send? <==> !Truthy(options) || HasOwn(options, "destination"))
      && (p.Send? ==> p.data == Data(options))
  {
    GemsRules(caps, options, user);
    ShareRules(caps, options, user);
  }

  lemma GemsRules(caps: set<string>, options: JsValue, user: JsValue)
    requires "gems" in caps
    ensures var p := PurchaseWithGemsPlan(Some(caps), options, user);
      && (p.Send? <==> !Truthy(options) || (HasOwn(options, "gemsCost") && HasOwn(options, "itemName")))
      && (p.Send? ==> p.data == Data(options))
  {
    var gems := ["gemsCost", "itemName"];
    assert (forall f :: f in gems ==> HasOwn(options, f)) <==> HasOwn(options, gems[0]) && HasOwn(options, gems[1]);
    var check := RequireFields(options, gems, "Purchase options must have `");
    assert PurchaseWithGemsPlan(Some(caps), options, user) ==
      Guarded(check, Send("purchaseItemWithGems", Data(options), Cb(Relay(user, Direct))));
  }

  lemma ShareRules(caps: set<string>, options: JsValue, user: JsValue)
    requires "share" in caps
    ensures var p := SharePlan(Some(caps), options, user);
      && (p.Send? <==> !Truthy(options) || HasOwn(options, "destination"))
      && (p.Send? ==> p.data == Data(options))
  {
    var share := ["destination"];
    assert (forall f :: f in share ==> HasOwn(options, f)) <==> HasOwn(options, share[0]);
  }

  /** The two ungated 2.4.0 requests are always sent. */
  lemma UngatedAlwaysSent(userID: JsValue, user: JsValue)
    ensures BattleDataPlan(user).Send? && PlayerSaveStatePlan(userID, user).Send?
    ensures BattleDataPlan(user).callback == Cb(Relay(user, Direct))
  {
  }

  /** The cores that filter drop every loading-progress report at the
    * bridge, even the ones they record; the 2.0.0 build sends each value
    * that rises above the previous ones, under the next id. */
  lemma LoadingProgressReachesBridge(b: Build, backend: Backend, st: BridgeState<Callback>, percentage: JsValue, soFar: int)
    requires !backend.Facebook?
    ensures Filters(b) ==> PerformSpec(backend, Filters(b), st, LoadingProgressPlan(percentage, soFar)).0 == st
    ensures !Filters(b) && percentage.Num? && LoadingProgress(percentage, soFar) == Ok(Some(percentage.n)) ==>
      PerformSpec(backend, Filters(b), st, LoadingProgressPlan(percentage, soFar)).0.instCount == st.instCount + 1
  {
  }

  // ---------------------------------------------------------------------------
  // The session

  /** One running copy of the SDK: the bridge, the controller namespace, the
    * capability cache and the loading-progress high-water mark. */
  class Session {
    const build: Build
    const bridge: Bridge<Callback>
    const hub: ControllerHub
    /** `cache.capabilities`; `None` until the init reply arrives. */
    var caps: Option<set<string>>
    var percentageSoFar: int
    /** The calls made into the game's code, in order. */
    var userCalls: seq<UserCall>

    ghost predicate Valid()
      reads this, bridge, hub, hub.main
    {
      bridge.Valid() && hub.registry == Full12 && (hub.main != null ==> hub.main.Valid())
    }

    constructor(build: Build, backend: Backend)
      requires backend.Facebook? ==> build != Bundle240
      ensures this.build == build && Valid()
      ensures bridge.backend == backend && bridge.State() == Fresh()
      ensures bridge.filtered == Filters(build) && bridge.copiesReplayData == CopiesReplayData(build)
      ensures caps.None? && percentageSoFar == 0 && userCalls == [] && hub.main == null
    {
      this.build := build;
      bridge := new Bridge(backend, build);
      hub := new ControllerHub(Full12);
      caps, percentageSoFar, userCalls := None, 0, [];
    }

    method Perform(plan: Plan) returns (out: Outcome)
      requires Valid()
      modifies bridge
      ensures Valid()
      ensures (bridge.State(), out) == PerformSpec(bridge.backend, bridge.filtered, old(bridge.State()), plan)
    {
      match plan
      case Refuse(e) => out := Threw(e);
      case Skip => out := Completed;
      case Send(m, d, cb) => out := bridge.CreateRequest(m, d, cb);
    }

    /** `gameeInit(ctrlType, ctrlOpts, capabilities, cb)`: all-or-nothing
      * validation, then the `init` request whose continuation caches the
      * capabilities; the cache itself is untouched here. */
    method GameeInit(ctrlType: string, capabilities: JsValue, user: JsValue) returns (out: Outcome)
      requires Valid()
      modifies bridge
      ensures Valid()
      ensures !CapabilitiesOk(build, capabilities) ==>
        out == Threw(Raised(Str(InitRefusal))) && bridge.State() == old(bridge.State())
      ensures CapabilitiesOk(build, capabilities) ==>
        (bridge.State(), out) == CreateRequestSpec(bridge.backend, bridge.filtered, old(bridge.State()), "init",
          Data(InitData(build, ctrlType, capabilities.items)), Cb(InitDone(ctrlType, CapKeys(capabilities.items), user)))
    {
      var allOk, cap := CheckCapabilities(build, capabilities);
      if !allOk {
        return Threw(Raised(Str(InitRefusal)));
      }
      out := bridge.CreateRequest("init", Data(InitData(build, ctrlType, capabilities.items)), Cb(InitDone(ctrlType, cap, user)));
    }

    /** `gameLoadingProgress(percentage)` with its closure's high-water mark. */
    method GameLoadingProgress(percentage: JsValue) returns (out: Outcome)
      requires Valid()
      modifies this, bridge
      ensures Valid()
      ensures percentageSoFar == ProgressAfter(percentage, old(percentageSoFar)) && percentageSoFar >= old(percentageSoFar)
      ensures caps == old(caps) && userCalls == old(userCalls)
      ensures (bridge.State(), out) == PerformSpec(bridge.backend, bridge.filtered, old(bridge.State()),
                                                   LoadingProgressPlan(percentage, old(percentageSoFar)))
    {
      var plan := LoadingProgressPlan(percentage, percentageSoFar);
      var next := ProgressAfter(percentage, percentageSoFar);
      assert next >= percentageSoFar;
      percentageSoFar := next;
      ghost var before := (caps, userCalls);
      out := Perform(plan);
      assert (caps, userCalls) == before;
    }

    /** `gameOver(...)`: returns the caller's replay object as the call left
      * it. */
    method GameOver(replay: JsValue, saveState: JsValue, hideOverlay: JsValue) returns (replayAfter: JsValue, out: Outcome)
      requires Valid()
      modifies bridge
      ensures Valid()
      ensures replayAfter == GameOverPlan(build, replay, saveState, hideOverlay).0
      ensures (bridge.State(), out) == PerformSpec(bridge.backend, bridge.filtered, old(bridge.State()),
                                                   GameOverPlan(build, replay, saveState, hideOverlay).1)
    {
      var plan;
      replayAfter, plan := GameOverPlan(build, replay, saveState, hideOverlay).0, GameOverPlan(build, replay, saveState, hideOverlay).1;
      out := Perform(plan);
    }

    /** Runs a callback taken from the bridge. */
    method Run(a: Arg<Callback>, data: JsValue) returns (out: Outcome)
      requires Valid()
      modifies this, hub
      ensures Valid()
      ensures (out, userCalls) == (CallbackSpec(build, bridge.Platform(), a, data).0,
                                   old(userCalls) + CallbackSpec(build, bridge.Platform(), a, data).1)
      ensures caps == (if a.Cb? && a.c.InitDone? then Some(a.c.granted) else old(caps))
      ensures percentageSoFar == old(percentageSoFar)
      ensures RunInstalls(build, bridge.Platform(), a) ==>
        && hub.main != null && fresh(hub.main) && hub.main.kind == KindNamed(Full12, a.c.ctrlType).value
        && hub.main.State() == InstalledState(build, bridge.Platform(), a.c.ctrlType)
      ensures !RunInstalls(build, bridge.Platform(), a) ==> hub.main == old(hub.main)
    {
      match a
      case Data(v) =>
        out := CallUserMethod(v, [data]);
      case Cb(RaiseIfError) =>
        out := if Truthy(data) then Threw(Raised(data)) else Completed;
        assert userCalls == old(userCalls) + [];
      case Cb(Relay(user, wrap)) =>
        if wrap == Direct {
          out := CallUserMethod(user, [Null, data]);
        } else if wrap == SocialIos {
          out := CallUserMethod(user, [Null, Obj(map["socialData" := data])]);
        } else {
          var probe := Get(data, "hasOwnProperty");
          if probe.Err? {
            assert userCalls == old(userCalls) + [];
            return Threw(probe.error);
          }
          out := CallUserMethod(user, [Null, if HasOwn(data, "socialData") then data else Obj(map["socialData" := data])]);
        }
      case Cb(InitDone(t, granted, user)) =>
        out := InitContinuation(t, granted, user, data);
    }

    method CallUserMethod(f: JsValue, args: seq<JsValue>) returns (out: Outcome)
      modifies this
      ensures (out, userCalls) == (CallUser(f, args).0, old(userCalls) + CallUser(f, args).1)
      ensures caps == old(caps) && percentageSoFar == old(percentageSoFar)
    {
      if f.Fun? {
        userCalls := userCalls + [Called(f, args)];
        out := Completed;
      } else {
        out := Threw(TypeError("cb is not a function"));
        assert userCalls == old(userCalls) + [];
      }
    }

    method InitContinuation(t: string, granted: set<string>, user: JsValue, responseData: JsValue) returns (out: Outcome)
      requires Valid()
      modifies this, hub
      ensures Valid()
      ensures (out, userCalls) == (InitReply(build, bridge.Platform(), t, user, responseData).0,
                                   old(userCalls) + InitReply(build, bridge.Platform(), t, user, responseData).1)
      ensures caps == Some(granted) && percentageSoFar == old(percentageSoFar)
      ensures InstallsController(build, bridge.Platform(), t) ==>
        && hub.main != null && fresh(hub.main) && hub.main.kind == KindNamed(Full12, t).value
        && hub.main.State() == InstalledState(build, bridge.Platform(), t)
      ensures !InstallsController(build, bridge.Platform(), t) ==> hub.main == old(hub.main)
    {
      caps := Some(granted);
      InstallController(t);
      out := Answer(InitFailure(build, bridge.Platform(), t, responseData), user, responseData);
    }

    /** The controller request made by the init continuation. */
    method InstallController(t: string)
      requires Valid()
      modifies hub
      ensures Valid()
      ensures InstallsController(build, bridge.Platform(), t) ==>
        && hub.main != null && fresh(hub.main) && fresh(hub.main.buttons.Values)
        && hub.main.kind == KindNamed(Full12, t).value
        && hub.main.State() == InstalledState(build, bridge.Platform(), t)
      ensures !InstallsController(build, bridge.Platform(), t) ==> hub.main == old(hub.main)
    {
      var c, made := hub.RequestController(t, KeyboardOn(build, bridge.Platform()), []);
      assert made == ControllerOutcome(build, bridge.Platform(), t);
    }

    method Answer(failure: Option<Error>, user: JsValue, responseData: JsValue) returns (out: Outcome)
      modifies this
      ensures (out, userCalls) == (AnswerInit(build, failure, user, responseData).0,
                                   old(userCalls) + AnswerInit(build, failure, user, responseData).1)
      ensures caps == old(caps) && percentageSoFar == old(percentageSoFar)
    {
      if failure.Some? && !CatchesInitErrors(build) {
        assert userCalls == old(userCalls) + [];
        return Threw(failure.value);
      }
      if !user.Fun? {
        assert userCalls == old(userCalls) + [];
        return Threw(TypeError("cb is not a function"));
      }
      var error := if CatchesInitErrors(build) then Some(if failure.Some? then Thrown(failure.value) else Null) else None;
      userCalls := userCalls + [Ready(user, error, responseData, failure.None? && KeepsProps(responseData))];
      out := Completed;
    }

    /** The bridge's message listener followed by the callback it hands
      * back; the start signal reads the capability cache. */
    method Receive(detail: JsValue, evData: JsValue) returns (out: Outcome)
      requires Valid()
      modifies this, bridge, hub
      ensures Valid()
      ensures var (st, o, run) := ReceiveSpec(bridge.backend, bridge.copiesReplayData, old(bridge.State()), old(caps), detail, evData);
        && bridge.State() == st
        && percentageSoFar == old(percentageSoFar)
        && (run.None? ==> out == o && userCalls == old(userCalls) && caps == old(caps) && hub.main == old(hub.main))
        && (run.Some? ==> out == CallbackSpec(build, bridge.Platform(), run.value.0, run.value.1).0
                          && userCalls == old(userCalls) + CallbackSpec(build, bridge.Platform(), run.value.0, run.value.1).1)
        && (run.Some? ==> caps == (if run.value.0.Cb? && run.value.0.c.InitDone? then Some(run.value.0.c.granted) else old(caps)))
        && (run.Some? && RunInstalls(build, bridge.Platform(), run.value.0) ==>
              && hub.main != null && fresh(hub.main) && hub.main.kind == KindNamed(Full12, run.value.0.c.ctrlType).value
              && hub.main.State() == InstalledState(build, bridge.Platform(), run.value.0.c.ctrlType))
        && (run.Some? && !RunInstalls(build, bridge.Platform(), run.value.0) ==> hub.main == old(hub.main))
    {
      var o, run := bridge.Receive(caps, detail, evData);
      if run.None? {
        return o;
      }
      out := Run(run.value.0, run.value.1);
    }
  }

  /** Capabilities are cached only by the init reply: before it, a replay or
    * ghost start throws in the listener; after it, the start signal answers
    * with the granted set. */
  lemma CacheOnlyAfterInit(backend: Backend, copies: bool, st: BridgeState<Callback>, messageId: JsValue, data: JsValue)
    requires !backend.Facebook? && data.Obj? && Truthy(Field(data, "replay"))
    ensures ResolveSpec(backend, copies, st, None, Str("start"), messageId, data).1.Threw?
    ensures ResolveSpec(backend, copies, st, Some({}), Str("start"), messageId, data).1.Completed?
    ensures ResolveSpec(backend, copies, st, Some({}), Str("start"), messageId, data).0.events == st.events
  {
    StartSignalGate(data, {});
  }
}
