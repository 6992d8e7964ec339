# gamee-js in Dafny

This project models the core of the GAMEE HTML5 SDK, gamee-js. A game uses the
SDK to talk to the GAMEE host application. The model has four parts:

- **The platform bridge.** Outgoing requests are numbered by a per-bridge
  counter. Pending callbacks are stored in a dictionary keyed by the decimal
  form of that number, and each one is taken out before it runs. A method
  filter drops loading-progress reports. The message listener classifies each
  inbound message as a host call, a reply, or a message for someone else.
  Host calls (`pause` … `start`) become events that carry the incoming id as
  their acknowledgement.
- **The core.** `gameeInit` validates the requested capabilities against a
  fixed vocabulary, all or nothing, and caches them when the init reply
  arrives. Gated 2.4.0 operations are refused before any request is built.
  The core also shapes payloads (loading progress, score, game over, save,
  purchases, share, player data) and judges the `start` signal against the
  cached capabilities.
- **The `Gamee` facade.** It normalises overloaded arguments. The 2.4.0 build
  also validates argument types and the length limits of `logEvent`.
- **The controller fabric.** Buttons carry a pressed flag, which starts true.
  Controllers hold fixed layouts, an alias table, a key-code table and
  joystick axes, and provide `remapButton`. The namespace holds the registry
  and the main-controller slot. Bullet is an event registry keyed by each
  listener's source text.

One model covers every build. `CoreRules.Build` is `Src` (gamee/src),
`Bundle240` (gamee/dist/gamee-js.js) or `Bundle200`
(gamee/dist/gamee-js.2.0.0.js). The predicates over it record where the
builds differ:

- the loading-progress filter;
- the four- or ten-name capability vocabulary;
- whether init errors are caught;
- the platforms that enable the keyboard;
- the gated operations;
- the `replayData` copy on `start`;
- the facade's overloads.

The older controller modules are captured the same way:

- `GameControllers.Registry`: twelve kinds in gamee/, six in
  src/controller.js and dist/gamee.all.devel.js, five in dist/gamee.js.
- `GameControllers.Lineage`: `Current`, where `remapButton` throws for a
  missing button, or `Legacy`, where it does nothing.

The Bullet copy in dist/gamee.all.devel.js (lines 7-85) behaves exactly as
gamee/libs/bullet.js, so module `Bullet` covers both.

JavaScript values are the datatype `Js.JsValue`. Its `TypeOf`, `Truthy` and
`Get` (a TypeError on `undefined` and `null`) follow the language's rules.
`SetProp` takes the mode as an argument: a write onto `undefined` or `null`
always throws, a write onto a string, number or boolean throws in strict code
and is dropped in sloppy code, and a write onto an array or a function
succeeds but the model does not record the property. The 2.0.0 bundle
(gamee/dist/gamee-js.2.0.0.js) is a plain concatenation whose only
"use strict" sits inside Bullet's AMD wrapper, so its core runs in sloppy mode
(`CoreRules.Strict`); the ES-module builds are strict. Outcomes are
`Completed` or `Threw(error)`.

Each object the source updates in place is a class:

- `Bullet.Emitter`;
- `GameControllers.Button`, `GameControllers.Controller` and
  `GameControllers.ControllerHub`;
- `PlatformBridge.Bridge`;
- `Core.Session`.

Every state-changing method is proved against a pure specification function
of the old state (`OnSpec`, `TriggerSpec`, `RemapSpec`, `CreateRequestSpec`,
`ReceiveSpec`, …). The lemmas state the source's promises about those
functions.

Behaviours the model reproduces as written:

- A `Button` starts pressed.
- The current `remapButton` reads `.name` twice, so it stores the button under
  the key `"undefined"` and records a falsy alias.
- A touch controller lacks the controller methods, so enabling its keyboard
  or remapping it throws.
- The 2.4.0 facade always passes `share = false`.
- The 2.4.0 `gameInit` reports a bad `controllType` under the method name
  `gamee.updateScore`.
- The listener's `typeof ev.detail !== null` test is always true, so a `null`
  detail throws.
- The current `additionalController` calls the undeclared global
  `gameeNative`.
- The older `gameSave`, given a second argument that is neither boolean nor
  function, saves and then fails calling `undefined`.
- The filtered builds record loading progress but never send it.

## Model

| member | source | states |
|---|---|---|
| Bullet.Emitter.constructor | gamee/libs/bullet.js:1-4 | a new emitter has no events |
| Bullet.Emitter.On | gamee/libs/bullet.js:6-35 | the registry becomes `OnSpec` of the old one, keys stay distinct per event, and nothing is called |
| Bullet.Emitter.Once | gamee/libs/bullet.js:37-39 | `once` is `on` with `once = true` |
| Bullet.Emitter.Off | gamee/libs/bullet.js:41-60 | the registry becomes `OffSpec` of the old one |
| Bullet.Emitter.Trigger | gamee/libs/bullet.js:62-72 | the loop calls every listener of the event with `data` in order, removing each `once` listener after its call; the calls and the new registry equal `TriggerSpec` |
| Bullet.IgnoredArguments | gamee/libs/bullet.js:7-9 | `on` with a non-string event or a non-function registers nothing; `off` and `trigger` on an unknown or non-string event change nothing and call nobody |
| Bullet.OnRegisters | gamee/libs/bullet.js:11-34 | after `on` the event exists and holds an entry for the function's source text; a new entry is `{cb, once: !!once}`; an existing one keeps its function and changes `once` only for a boolean; other events are untouched |
| Bullet.OnIdempotent | gamee/libs/bullet.js:14-25 | registering the same source text twice equals registering it once |
| Bullet.OffRemoves | gamee/libs/bullet.js:41-60 | `off(event, fn)` removes only fn's entry and keeps every other listener; `off(event)` removes the event; other events are untouched |
| Bullet.OnceFiresOnce | gamee/libs/bullet.js:37-39 | a `once` listener is called by the first trigger and by no later one, and the others survive |
| Bullet.TriggerKeepsPersistent | gamee/libs/bullet.js:62-72 | a trigger calls every listener and keeps exactly the non-`once` ones, so a second trigger calls just those |
| Bullet.OnWellFormed | gamee/libs/bullet.js:11-34 | `on` keeps the listeners of each event keyed by distinct source texts |
| Bullet.OffWellFormed | gamee/libs/bullet.js:41-60 | `off` keeps source-text keys distinct |
| Bullet.TriggerWellFormed | gamee/libs/bullet.js:62-72 | `trigger` keeps source-text keys distinct |
| Bullet.TriggerStep | gamee/libs/bullet.js:66-71 | one loop step: calling listener i and dropping it if `once` extends the calls and the kept prefix |
| GameControllers.Button.constructor | gamee/src/game_controllers.js:28-36 | a new button has its key and code and is pressed |
| GameControllers.Button.KeyDown | gamee/src/game_controllers.js:38-40 | `keydown` sets the flag |
| GameControllers.Button.KeyUp | gamee/src/game_controllers.js:42-44 | `keyup` clears the flag |
| GameControllers.Controller.constructor | gamee/src/game_controllers.js:83-106 | a new controller of a kind is in `Initial(kind)`: its layout's buttons, no alias, axes 0 for joysticks |
| GameControllers.Controller.AddLayout | gamee/src/game_controllers.js:246-596 | the constructor's `addButton` calls add the layout in order |
| GameControllers.Controller.Add | gamee/src/game_controllers.js:160-162 | `addButton` stores a fresh pressed button under its key, last in enumeration order |
| GameControllers.Controller.AddButton | gamee/src/game_controllers.js:160-162 | as `Add`, and a touch controller throws "not a function" unchanged |
| GameControllers.Controller.HandleKey | gamee/src/game_controllers.js:134-148 | the `keydown`/`keyup` handler equals `KeyHandlerSpec`: a truthy existing name changes that button only |
| GameControllers.Controller.PrivateKey | gamee/src/game_controllers.js:110-124 | the `$keydown`/`$keyup` handler equals `PrivateKeySpec`: rewrite to a truthy alias, then the public signal |
| GameControllers.Controller.Change | gamee/src/game_controllers.js:558-563 | the joystick handler equals `ChangeSpec`: copy `position.x/y`, then trigger `change` |
| GameControllers.Controller.Trigger | gamee/src/game_controllers.js:106-149 | `trigger` records the event and runs the built-in handlers, equal to `TriggerSpec` |
| GameControllers.Controller.BuildKeyTable | gamee/src/game_controllers.js:173-180 | the for-in loop builds `KeyTable` of the buttons |
| GameControllers.Controller.EnableKeyboard | gamee/src/game_controllers.js:170-202 | installs a listener holding the key table; touch throws unchanged |
| GameControllers.Controller.KeyEvent | gamee/src/game_controllers.js:181-201 | a window key event runs every installed listener, equal to `KeyEventSpec` |
| GameControllers.Controller.RemapButton | gamee/src/game_controllers.js:221-237 | equals `RemapSpec` for the controller's lineage; touch throws unchanged |
| GameControllers.ControllerHub.Create | gamee/src/core.js:392-414 | an unknown type throws "Unsupported controller type"; a known one yields a fresh controller in `BuildSpec` (keyboard, then remaps in order, stopping at the first error) |
| GameControllers.ControllerHub.RequestController | gamee/src/core.js:310-319 | "FullScreen" gives null and keeps the main controller; a built controller becomes main, of the named kind and lineage and in `BuildSpec`'s state for the keyboard flag and remaps; a failure keeps the old main. The five-kind registry of dist/gamee.js (lines 299-316) returns nothing for an unknown type and keeps the stored controller; the legacy registry of src/controller.js (lines 255-262) makes the new controller main and throws for an unknown type |
| GameControllers.ControllerHub.AdditionalController | gamee/src/core.js:333-338 | never changes the main controller; an unknown type throws "Unsupported controller type, " and the type; a known one is built as `BuildSpec` states, and then the current code fails with a ReferenceError on `gameeNative` unless the page defines it, while the legacy version in src/controller.js (lines 264-265) returns the built controller |
| GameControllers.ControllerHub.Trigger | gamee/src/core.js:351-359 | forwards to the main controller (`TriggerSpec`); with none it throws, while the oldest module, dist/gamee.js lines 333-339, completes instead |
| GameControllers.InitialButtons | gamee/src/game_controllers.js:246-475 | every kind starts with exactly its layout's buttons, in order, pressed, with distinct names and codes |
| GameControllers.LayoutFamilies | gamee/src/game_controllers.js:330-475 | FiveButtons = FourButtons + down, SixButtons = FiveButtons + B, FourArrows = FiveButtons − A, TwoArrowsTwoButtons = TwoArrowsOneButton + B, JoystickWithButton = OneButton |
| GameControllers.RegistriesNest | src/controller.js:14-21 | the five-kind registry is the six-kind one without Touch, and both sit inside the twelve-kind one |
| GameControllers.KeyDownPressesOnlyThatButton | gamee/src/game_controllers.js:134-148 | keydown/keyup for an existing non-empty name sets only that button; an unknown or empty name changes none; no button appears or disappears |
| GameControllers.PressReleaseSettles | gamee/src/game_controllers.js:38-44 | pressing twice equals pressing once, and press then release leaves the button up |
| GameControllers.PrivateSignalFollowsAlias | gamee/src/game_controllers.js:110-124 | `$keydown` of a name acts on the buttons exactly as `keydown` of its truthy alias (or of the name), and records both events |
| GameControllers.RemapMissingButton | gamee/src/game_controllers.js:228-230 | remapping a missing button changes nothing; only the current lineage throws |
| GameControllers.LegacyRemapRoutesOldName | src/controller.js:131-139 | the legacy remap moves the button under `newProp.name`, aliases the old name to it, and `$keydown` of the old name presses the moved button |
| GameControllers.CurrentRemapLosesName | gamee/src/game_controllers.js:221-237 | the current remap removes the old name, stores the button under "undefined" (or "" for `{name: ""}`) with a falsy alias, and `$keydown` of the old name reaches no button |
| GameControllers.RemapToOwnNameDeletes | src/controller.js:133-137 | a legacy remap of a button to its own name deletes the button |
| GameControllers.RemapWellFormed | gamee/src/game_controllers.js:221-237 | a remap keeps the enumeration order duplicate-free and in step with the buttons |
| GameControllers.TriggerKeepsShape | gamee/src/game_controllers.js:106-149 | no trigger adds, removes or renames buttons, or touches aliases or key tables |
| GameControllers.KeyTableSound | gamee/src/game_controllers.js:173-180 | every table entry comes from a button with that non-zero code and key; every such button has an entry |
| GameControllers.KeyTableExact | gamee/src/game_controllers.js:173-180 | with distinct codes, the table maps each button's code to its key |
| GameControllers.KeyboardPressesBoundButton | gamee/src/game_controllers.js:181-201 | a key code bound to a button presses exactly that button and records `keydown`; an unbound code changes nothing |
| GameControllers.JoystickFollowsPosition | gamee/src/game_controllers.js:548-563 | joystick axes start at 0; `$change` copies `position.x/y` then triggers `change`; no position throws and keeps the axes |
| GameControllers.TouchReemits | gamee/src/game_controllers.js:501-527 | touch has no buttons and re-triggers each `$touch*` as the public event with the same data |
| GameControllers.LegacyBuildCompletes | dist/gamee.all.devel.js:517-525 | building a legacy controller with keyboard and any remaps never throws |
| GameControllers.TouchBuildFails | gamee/src/game_controllers.js:501-527 | building a touch controller throws exactly when the keyboard or a remap is asked for |
| PlatformBridge.MobileDevice | gamee/src/platform_bridge.js:266-274 | only "ios" and "android" make a mobile bridge |
| PlatformBridge.Normalise | gamee/src/platform_bridge.js:109-112 | a function as data becomes the callback and the data `undefined` |
| PlatformBridge.Shape | gamee/src/platform_bridge.js:197-200 | `request.data` is null unless the data is an object or array, sent as is; null becomes `{}` |
| PlatformBridge.TakeSpec | gamee/src/platform_bridge.js:139-144 | `_callback` finds the entry under `String(id)` and deletes it, changing nothing else |
| PlatformBridge.Bridge.constructor | gamee/src/platform_bridge.js:96-104 | a new bridge has counter 0 and no pending callbacks, traffic or events; the 2.4.0 bundle builds only the postMessage and mobile bridges (gamee/dist/gamee-js.js lines 2464-2479) |
| PlatformBridge.Bridge.Platform | gamee/src/platform_bridge.js:158-162 | "web" exactly for postMessage, "fb" exactly for Facebook |
| PlatformBridge.Bridge.CreateRequest | gamee/src/platform_bridge.js:106-129 | updates counter, table and outbound log as `CreateRequestSpec` and keeps the correlation invariant |
| PlatformBridge.Bridge.Take | gamee/src/platform_bridge.js:139-144 | removes and returns the pending callback as `TakeSpec` |
| PlatformBridge.Bridge.DoResponse | gamee/src/platform_bridge.js:204-216 | posts `{answers, data}` (data only when truthy); the abstract base throws |
| PlatformBridge.Bridge.Receive | gamee/src/platform_bridge.js:169-193 | the listener equals `ReceiveSpec` and hands back the callback to run |
| PlatformBridge.Bridge.Resolve | gamee/src/platform_bridge.js:218-249 | `_resolveAPICall` equals `ResolveSpec` |
| PlatformBridge.FreshCorrelated | gamee/src/platform_bridge.js:96-104 | a new bridge satisfies the correlation invariant |
| PlatformBridge.NatToStringInjective | gamee/src/platform_bridge.js:114-118 | distinct ids are distinct dictionary keys |
| PlatformBridge.NextIdUnused | gamee/src/platform_bridge.js:114-118 | under the invariant, the next id is not a key, so no pending callback is overwritten |
| PlatformBridge.CreateRequestCorrelates | gamee/src/platform_bridge.js:106-129 | an accepted request gets the current counter as id, the counter grows by one, the callback is stored only when given, other entries are kept, and ids stay 0, 1, 2, … |
| PlatformBridge.TakeCorrelates | gamee/src/platform_bridge.js:139-144 | taking keeps the invariant, and a second take of the id finds nothing |
| PlatformBridge.DoResponseCorrelates | gamee/src/platform_bridge.js:204-216 | responses keep the invariant |
| PlatformBridge.ResolveCorrelates | gamee/src/platform_bridge.js:218-249 | host calls keep the invariant |
| PlatformBridge.ReceiveCorrelates | gamee/src/platform_bridge.js:169-193 | every inbound message keeps the invariant |
| PlatformBridge.ReplyReachesCallback | gamee/src/platform_bridge.js:114-144 | a reply to request n (numeric or string id) finds the callback stored for it, and only once |
| PlatformBridge.LoadingProgressFiltered | gamee/src/platform_bridge.js:130-132 | a filtered bridge sends nothing and takes no id for `gameLoadingProgress`; the unfiltered 2.0.0 bridge (gamee/dist/gamee-js.2.0.0.js lines 1666-1687) gives it the next id |
| PlatformBridge.FacebookBypassesCorrelation | gamee/src/platform_bridge.js:313-324 | Facebook takes no id, stores and posts nothing, runs known SDK methods, and fails for unknown names |
| PlatformBridge.OnlyAndroidStringifies | gamee/src/platform_bridge.js:287-296 | a request is stringified exactly on Android |
| PlatformBridge.NullDetailThrows | gamee/src/platform_bridge.js:173-183 | a `null` detail passes the object test and then throws a TypeError |
| PlatformBridge.ErrorReplyKeepsCallback | gamee/src/platform_bridge.js:187-190 | a reply with a truthy `error` throws it and leaves the state, including the pending callback, unchanged |
| PlatformBridge.RequestWins | gamee/src/platform_bridge.js:183-191 | a well-formed request is a host call even if the message also carries a response |
| PlatformBridge.ResolveRoutes | gamee/src/platform_bridge.js:218-249 | each plain signal raises exactly its event, acknowledged by the incoming id; `start` without data throws unchanged; other names are dropped |
| PlatformBridge.StartEventIsGranted | gamee/src/platform_bridge.js:67-88 | a start event is raised only when the start signal accepts it: replay/ghost only if granted, the flags as given; a refusal is answered instead; `replayData` is attached exactly in 2.4.0 (gamee/dist/gamee-js.js lines 1493-1495) and when truthy |
| CoreRules.CapKeysOfValidInit | gamee/src/core.js:67-77 | an accepted capability list yields exactly its names as the cache keys |
| CoreRules.VocabulariesNest | gamee/dist/gamee-js.js:333 | the four-name vocabulary is part of the ten-name one |
| CoreRules.StartSignalGate | gamee/src/core.js:263-273 | once cached, `start` is accepted iff each requested mode is granted; the ghostMode message wins over the replay one |
| CoreRules.StartSignalBeforeInit | gamee/src/core.js:266-270 | before the init reply, a replay or ghost `start` throws reading the missing cache |
| CoreRules.Gate | gamee/dist/gamee-js.js:559-703 | a gated operation proceeds iff the build is ungated or the capability is cached |
| CoreRules.ValidateDataType | gamee/src/core.js:457-469 | passes iff `typeof` matches ("array": an array); otherwise throws the DataTypeException for the found type |
| CoreRules.ArraysAreObjects | gamee/dist/gamee-js.js:901-911 | an array passes the "object" check too; `null` passes "object" but not "array" |
| CoreRules.LoadingProgress | gamee/src/core.js:175-186 | accepts iff a number in [0, 100]; sends exactly when above the mark so far |
| CoreRules.ProgressNeverDecreases | gamee/src/core.js:175-186 | the recorded mark never decreases over a sequence of calls |
| CoreRules.SentProgressBounded | gamee/src/core.js:175-186 | every value sent is above the starting mark and at most 100 |
| CoreRules.SentProgressIncreasing | gamee/src/core.js:175-186 | the values sent are strictly increasing |
| CoreRules.ScoreData | gamee/src/core.js:210-221 | a non-number throws; the data is `{score}` plus `ghostSign: true` exactly for a truthy ghost sign |
| CoreRules.GameOverReplayRules | gamee/src/core.js:229-244 | an object replay gains `variant` before the `data` check, the call fails iff there is no own `data`, and the replay sent is the updated one; a truthy string, number or boolean replay throws the TypeError of the `variant` write in strict builds and, unchanged, the missing-`data` error in the sloppy 2.0.0 core; 2.4.0 (gamee/dist/gamee-js.js lines 529-550) always sends `hideOverlay`, and `state` only for a truthy save state |
| CoreRules.GameOverPrimitiveReplay | gamee/dist/gamee-js.2.0.0.js:1061-1066 | a truthy primitive replay is left as it was; the call fails with the `variant` TypeError in strict code and with "Replay data must have `data` property" in the sloppy 2.0.0 core |
| CoreRules.SaveData | gamee/dist/gamee-js.2.0.0.js:1079-1092 | the 2.0.0 core refuses a non-object; otherwise `{state, share}` |
| CoreRules.RequireFields | gamee/dist/gamee-js.js:613-630 | truthy options pass iff they own every required field |
| CoreRules.RequireFieldsReportsFirst | gamee/dist/gamee-js.js:613-630 | the first missing field is named |
| CoreRules.PlayerDataOptions | gamee/dist/gamee-js.js:695-700 | `{userID}` for a truthy id, else undefined |
| Core.CheckCapabilities | gamee/src/core.js:67-77 | the loop's verdict is all-or-nothing vocabulary membership, and `cap` holds every element's key |
| Core.InitFailure | gamee/src/core.js:89-100 | the continuation fails iff requesting the controller or writing `responseData.controller` throws; in the sloppy 2.0.0 core that write throws only for `undefined` and `null` |
| Core.InitAlwaysAnswers | gamee/src/core.js:84-103 | the current builds call the game once, with a null error iff the controller was stored; an unknown type is reported, not thrown; the controller is in the reply iff it was built and the reply takes properties |
| Core.SloppyInitReply | gamee/dist/gamee-js.2.0.0.js:915-930 | in 2.0.0 a string, number or boolean reply reaches the game unchanged and without a controller; an `undefined` or `null` reply throws before the game is called |
| Core.TouchKeyboardFails | gamee/dist/gamee-js.2.0.0.js:899-930 | a touch controller with keyboard fails at `enableKeyboard`, and 2.0.0 throws it out of the listener |
| Core.KeyboardPlatforms | gamee/dist/gamee-js.js:397 | the keyboard is on for "web" always, for "fb" except in 2.4.0, never on mobile |
| Core.SocialWrapping | gamee/dist/gamee-js.js:1114-1117 | 2.4.0 wraps the response as `{socialData}` unless it already owns it; the iOS wrapper always wraps |
| Core.GatesComeFirst | gamee/dist/gamee-js.js:559-703 | each gated 2.4.0 operation is refused without its capability, so no request is built |
| Core.GateMessages | gamee/dist/gamee-js.js:609-612 | the refusal carries the capability's message once cached, and a TypeError before |
| Core.PurchaseRules | gamee/dist/gamee-js.js:609-631 | a coin purchase is sent iff options are falsy or own `coinsCost` and `itemName`; under "purchaseItem" exactly for `oldMethod === true` |
| Core.GemsAndShareRules | gamee/dist/gamee-js.js:633-671 | gems need `gemsCost` and `itemName`, share needs `destination`; passing options are sent as is |
| Core.UngatedAlwaysSent | gamee/dist/gamee-js.js:588-607 | battle data and player save state are never refused |
| Core.LoadingProgressReachesBridge | gamee/src/core.js:175-186 | filtered builds leave the bridge untouched; 2.0.0 sends each rising value under the next id |
| Core.CacheOnlyAfterInit | gamee/src/core.js:81-87 | before the init reply a replay `start` throws; after it the signal answers from the cache |
| Core.Session.constructor | gamee/src/core.js:27-176 | a fresh session has no cached capabilities (`cache`), loading mark 0 (`percentageSoFar`), no main controller and a fresh bridge of the build's kind; the 2.4.0 bundle has no Facebook bridge |
| Core.Session.Perform | gamee/src/platform_bridge.js:106-129 | a refused plan throws unchanged, a skipped one does nothing, a send is `CreateRequestSpec` |
| Core.Session.GameeInit | gamee/src/core.js:65-106 | a rejected list throws before any request; an accepted one sends `init` with version, controller and capability map, leaving the cache alone |
| Core.Session.GameLoadingProgress | gamee/src/core.js:175-186 | the mark becomes `ProgressAfter` (never lower) and the plan reaches the bridge |
| Core.Session.GameOver | gamee/src/core.js:229-244 | returns the caller's replay as the call left it and performs the plan; a truthy primitive replay is returned unchanged with the strict or sloppy error of `GameOverReplayRules` |
| Core.Session.Run | gamee/src/platform_bridge.js:139-144 | runs the callback taken from the bridge; only the init continuation writes the cache or the main controller, and when it builds one the new main controller is fresh, of the named kind and in `BuildSpec`'s state for the platform's keyboard flag |
| Core.Session.InitContinuation | gamee/src/core.js:84-103 | caches the granted set, answers as `InitReply`, and leaves a fresh main controller in `BuildSpec`'s state of the named kind, or the old one for "FullScreen" or a failed request |
| Core.Session.InstallController | gamee/src/core.js:89-96 | the requested controller becomes main in `BuildSpec`'s state with the platform's keyboard flag and no remaps; otherwise the old main stays |
| Core.Session.Answer | gamee/src/core.js:100-103 | calls the game's callback, or rethrows in 2.0.0; the reply carries the controller only when nothing failed and it takes properties |
| Core.Session.Receive | gamee/src/platform_bridge.js:169-193 | the listener, then the callback it hands back; the loading mark is kept, the cache becomes the granted set exactly when an init continuation ran, and the main controller is as `Run` states |
| GameeApi.CbErrorRun | gamee/src/gameeAPI.js:42-46 | the default callback throws exactly for a truthy error |
| GameeApi.AfterCoreCall | gamee/src/gameeAPI.js:75-91 | after the core returns, a supplied callback is called once with null; an exception skips it |
| GameeApi.FirstFailure | gamee/dist/gamee-js.js:984-994 | the checks pass iff each does; otherwise the first failure is thrown |
| GameeApi.CbCheck | gamee/dist/gamee-js.js:1006-1012 | `opt_cb \|\| cbError` passes iff the default or a function |
| GameeApi.GameInitValidation | gamee/dist/gamee-js.js:984-994 | 2.4.0 `gameInit` reaches the core iff all five arguments have their types; a bad type cites `gamee.updateScore`; silent mode defaults to false |
| GameeApi.VoidCallbacks | gamee/dist/gamee-js.js:1006-1025 | older facades forward with the default callback; 2.4.0 refuses a truthy non-function or a non-number |
| GameeApi.GameSaveOverloads | gamee/src/gameeAPI.js:107-119 | undefined → share false, default cb; function → cb, share false; boolean → share; else save then fail; the 2.0.0 facade (gamee/dist/gamee-js.2.0.0.js lines 1389-1401) follows the same overloads |
| GameeApi.GameSaveNeverShares | gamee/dist/gamee-js.js:1041-1051 | the 2.4.0 facade forwards `share = false` always, and only string data |
| GameeApi.ScoreCallbackShift | gamee/src/gameeAPI.js:139-147 | a function second argument is the callback and no `ghostSign` is sent |
| GameeApi.ScoreCallbackBecomesGhostSign | gamee/dist/gamee-js.js:1071-1079 | 2.4.0 `updateScore(n, cb)` sends `ghostSign: true` |
| GameeApi.ScoreCallbackIsNotGhostSign | gamee/dist/gamee-js.js:1071-1079 | with the callback dropped from `opt_ghostSign`, such a score carries no ghost sign |
| GameeApi.GameOverCallbackShift | gamee/src/gameeAPI.js:156-164 | a function first argument is the callback and no replay data is sent |
| GameeApi.GameOverCallbackThrows | gamee/dist/gamee-js.js:1090-1101 | 2.4.0 `gameOver(cb)` passes validation and then throws the missing-`data` error |
| GameeApi.GameOverCallbackSends | gamee/dist/gamee-js.js:1090-1101 | with the replay cleared, `gameOver(cb)` is sent and `cb` gets null |
| GameeApi.SocialWrapChoice | gamee/src/gameeAPI.js:172-184 | the current facade wraps on iOS only, 2.4.0 always merges, 2.0.0 passes through |
| GameeApi.LogEventLimits | gamee/dist/gamee-js.js:1130-1147 | sent iff name 1-24 and value 1-160 characters; non-strings throw; out-of-range values are dropped, the name judged first |
| GameeApi.CallbackOnlyValidation | gamee/dist/gamee-js.js:1155-1159 | forwarded iff the callback is a function |
| GameeApi.UserIdValidation | gamee/dist/gamee-js.js:1168-1189 | forwarded iff a numeric id and a function |
| GameeApi.OptionsValidation | gamee/dist/gamee-js.js:1197-1242 | forwarded iff options pass `typeof "object"` and the callback is a function |
| GameeApi.PlayerDataValidation | gamee/dist/gamee-js.js:1272-1279 | forwarded iff a function and an absent or numeric id |
| GameeApi.PurchaseItemUsesOldName | gamee/dist/gamee-js.js:1197-1203 | `purchaseItem` sends a complete coin purchase under "purchaseItem" |
| GameeApi.OlderFacadesNeverRefuse | gamee/src/gameeAPI.js:58-184 | the older facades forward every call they share with 2.4.0 |

## Left out

- Browser plumbing is not modelled: the `message` listener wiring, `postMessage`, `webkit.messageHandlers`, `window._triggerMessage` and `JSON.parse`. Inbound messages are values passed to `Receive`; outbound traffic is an envelope log. Android's `JSON.stringify` is a flag on the envelope.
- `CustomEvent`, `CustomEmitter` and the shims are not modelled. Dispatched host signals are a trace of `HostEvent`s.
- The bodies of the Facebook Instant Games SDK calls and `FBInstant` are external code. A Facebook request is recorded as an `SdkCall`, and the SDK never calls back.
- Audio unlocking, user-agent and referrer platform sniffing, the `$gameeNative` shims, and `_bindKeyboardTriggers` are left out. These are browser and environment probes.
- Logging and silent mode are left out. A dropped `logEvent` is `Silent`.
- Numbers are integers. Fractional scores and percentages, `parseInt`, and `NaN` are not modelled.
- String lengths count characters, not UTF-16 units.
- Object keys are own keys only; inherited `Object.prototype` keys are ignored. Enumeration order is insertion order.
- User callbacks are opaque values. They never throw, and their calls are recorded in `userCalls`.
- The 2.0.0 `gameSave`'s `JSON.stringify` of the state is left out.
- `this.version` in `doResponse` is not modelled.
- `ctrlOpts` is unused by the core. Controller options are the keyboard flag and a remap list.
- `Core.Session.GameeInit` takes the controller type as a string. A non-string `ctrlType` is not modelled.
- `getPlatform` only returns the constructor's argument. The platform is passed as a parameter where it matters.
- `GameeApi.CbErrorRun` renders the error with `ToKey`, so an object error reads "[object Object]" rather than calling its own `toString`.
- The facade functions are not composed with `Core.Session`. Each facade call states the arguments it forwards, and the lemmas connect them to the core's plans.
- `GameControllers.NewName` covers strings and `{name}` objects whose `name` is a string or absent. Other argument shapes are not modelled.
- dist/gamee.js replaces the stored controller before applying remaps. The model applies remaps inside `Create` before storing, so a failing remap in that module is not modelled. Its remap never throws anyway.
- The legacy modules' calls to the `$gameeNative` shim (`requestController`) are not modelled; the shim is not part of this model.
- GameControllers.Controller.Trigger, GameControllers.Button.KeyDown and GameControllers.Button.KeyUp model the built-in handlers and the emitted trace only. Listeners a game registers with `on` or `off` on a controller or a button (each is a Bullet emitter) are not modelled: their calls inside `trigger` are not captured, and neither is an `off("keydown")` that removes the built-in handlers.
- `PlatformBridge.Bridge.Platform` is modelled for the postMessage, mobile and Facebook bridges only. The base bridge has no platform.

## Findings

| source | as written | input that shows it | evidently intended | confidence | as-written member | corrected member |
|---|---|---|---|---|---|---|
| gamee/dist/gamee-js.js:1071-1079 | `updateScore` takes a function second argument as the callback but still passes it on as `opt_ghostSign` | `gamee.updateScore(10, function () {})` sends `{score: 10, ghostSign: true}` | as in gamee/src/gameeAPI.js:139-147, the ghost sign stays undefined | not executed | GameeApi.ScoreCallbackBecomesGhostSign | GameeApi.ScoreCallbackIsNotGhostSign |
| gamee/dist/gamee-js.js:1090-1101 | `gameOver` takes a function first argument as the callback but still passes it on as the replay data | `gamee.gameOver(function () {})` throws "Replay data must have `data` property" | as in gamee/src/gameeAPI.js:156-164, the replay data becomes undefined and the game over is sent | not executed | GameeApi.GameOverCallbackThrows | GameeApi.GameOverCallbackSends |
