/**
 * The transport between the game and the GAMEE host: outgoing requests
 * numbered by a per-bridge counter, a dictionary of pending callbacks keyed
 * by that number, host-initiated calls turned into events, and host replies
 * routed back to the pending callback.
 *
 * A bridge is generic in `C`, the callbacks the core hands it; a callback
 * argument may also be an arbitrary JavaScript value (`Arg.Data`), which is
 * what the bridge stores when a caller passes a non-function.
 */
module PlatformBridge {
  import opened Js
  import opened CoreRules

  datatype Device = Ios | Android

  /** The three concrete bridges. */
  datatype Backend = PostMessage | Mobile(device: Device) | Facebook

  function PlatformName(b: Backend): string
  {
    match b
    case PostMessage => "web"
    case Mobile(_) => "mobile"
    case Facebook => "fb"
  }

  /** `MobileBridge._init`: only "ios" and "android" are accepted. */
  function MobileDevice(device: string): (r: Result<Device>)
    ensures r.Ok? <==> device == "ios" || device == "android"
    ensures r == Ok(Ios) <==> device == "ios"
  {
    if device == "ios" then Ok(Ios)
    else if device == "android" then Ok(Android)
    else Err(Raised(Str("Unknown device used in webkit bridge")))
  }

  /** An argument in a callback-or-data position: a JavaScript value or a
    * callback of the core. */
  datatype Arg<C> = Data(v: JsValue) | Cb(c: C)

  predicate IsFunction<C>(a: Arg<C>)
  {
    a.Cb? || a.v.Fun?
  }

  /** `if (cb)`: the core's callbacks are functions, hence truthy. */
  predicate Callable<C>(a: Arg<C>)
  {
    a.Cb? || Truthy(a.v)
  }

  /** What the bridge posts to the host. */
  datatype Envelope =
    | Request(methodName: string, messageId: nat, data: JsValue, stringified: bool)
    | Response(answers: JsValue, payload: Option<JsValue>)

  /** An event dispatched on the platform emitter; `ack` is the message id
    * that the event's callback answers. */
  datatype HostEvent = HostEvent(name: string, ack: JsValue, replay: bool, ghostMode: bool, resetState: bool,
                                 replayData: Option<JsValue>)

  /** A call into the Facebook Instant Games SDK (its effects are not
    * modelled). */
  datatype SdkCall<C> = SdkCall(methodName: string, callback: Arg<C>, data: Arg<C>)

  datatype BridgeState<C> = BridgeState(instCount: nat, requests: map<string, Arg<C>>, sent: seq<Envelope>,
                                        events: seq<HostEvent>, sdkCalls: seq<SdkCall<C>>)

  function Fresh<C>(): BridgeState<C>
  {
    BridgeState(0, map[], [], [], [])
  }

  /** The key under which request `n`'s callback is stored. */
  function IdKey(n: nat): string
  {
    NatToString(n)
  }

  /** The operations `FacebookBridge._methods` defines. */
  const SdkMethods: set<string> := {"init", "gameLoadingProgress", "gameReady", "updateScore", "gameOver", "saveState"}

  /** The six host calls that only raise an event. */
  const PlainSignals: set<string> := {"pause", "resume", "mute", "unmute", "ghostShow", "ghostHide"}

  // ---------------------------------------------------------------------------
  // Outgoing requests

  /** A function in the data position is the callback. */
  function Normalise<C>(data: Arg<C>, callback: Arg<C>): (r: (Arg<C>, Arg<C>))
    ensures IsFunction(data) ==> r.0 == Data(Undefined) && r.1 == data
    ensures !IsFunction(data) ==> r == (data, callback)
  {
    if IsFunction(data) then (Data(Undefined), data) else (data, callback)
  }

  /** `request.data`: objects and arrays are sent as they are, `null` as an
    * empty object, anything else as `null`. */
  function Shape<C>(data: Arg<C>): (r: JsValue)
    ensures r.Null? || r.Obj? || r.Arr?
    ensures data.Data? && (data.v.Obj? || data.v.Arr?) ==> r == data.v
    ensures data == Data(Null) ==> r == Obj(map[])
  {
    match data
    case Data(v) => if v.Obj? || v.Arr? then v else if v.Null? then Obj(map[]) else Null
    case Cb(_) => Null
  }

  /** `createRequest(method, opt_requestData, opt_callback)`. */
  function CreateRequestSpec<C>(backend: Backend, filtered: bool, st: BridgeState<C>, methodName: string,
                                data: Arg<C>, callback: Arg<C>): (BridgeState<C>, Outcome)
  {
    var (d, cb) := Normalise(data, callback);
    if backend.Facebook? then
      if methodName in SdkMethods then (st.(sdkCalls := st.sdkCalls + [SdkCall(methodName, cb, d)]), Completed)
      else (st, Threw(TypeError("this._methods[method] is not a function")))
    else if filtered && methodName == "gameLoadingProgress" then (st, Completed)
    else
      var id := st.instCount;
      var requests := if cb.Data? && cb.v.Undefined? then st.requests else st.requests[IdKey(id) := cb];
      var envelope := Request(methodName, id, Shape(d), backend == Mobile(Android));
      (st.(instCount := id + 1, requests := requests, sent := st.sent + [envelope]), Completed)
  }

  /** `_callback`'s lookup and deletion: `requests[id]` keys by `String(id)`. */
  function TakeSpec<C>(st: BridgeState<C>, id: JsValue): (r: (BridgeState<C>, Option<Arg<C>>))
    ensures r.0.requests == st.requests - {ToKey(id)}
    ensures r.0 == st.(requests := r.0.requests)
    ensures r.1.Some? <==> ToKey(id) in st.requests
    ensures r.1.Some? ==> r.1.value == st.requests[ToKey(id)]
  {
    var k := ToKey(id);
    (st.(requests := st.requests - {k}), if k in st.requests then Some(st.requests[k]) else None)
  }

  /** `doResponse(messageId, responseData)`; the base bridge's abstract
    * version throws. */
  function DoResponseSpec<C>(backend: Backend, st: BridgeState<C>, messageId: JsValue, data: JsValue): (BridgeState<C>, Outcome)
  {
    if backend.Facebook? then (st, Threw(Raised(Str("Not implemented"))))
    else (st.(sent := st.sent + [Response(messageId, if Truthy(data) then Some(data) else None)]), Completed)
  }

  // ---------------------------------------------------------------------------
  // Incoming messages

  datatype Inbound = HostCall(methodName: JsValue, messageId: JsValue, data: JsValue) | Reply(messageId: JsValue, data: JsValue) | NotForUs

  /** The message listener's choice of payload: `ev.detail` when its `typeof`
    * is "object" (including `null`), otherwise `ev.data` when that is. */
  function Payload(detail: JsValue, evData: JsValue): Option<JsValue>
  {
    if TypeOf(detail) == "object" then Some(detail)
    else if TypeOf(evData) == "object" then Some(evData)
    else None
  }

  /** What the listener makes of a payload: a host call, a reply (an `error`
    * field on a reply is thrown), or a message for someone else. */
  function ClassifyPayload(data: JsValue): Result<Inbound>
  {
    match Get(data, "request")
    case Err(e) => Err(e)
    case Ok(request) =>
      if Truthy(request) && Truthy(Field(request, "method")) && !Field(request, "messageId").Undefined? then
        Ok(HostCall(Field(request, "method"), Field(request, "messageId"), Field(request, "data")))
      else
        var response := Field(data, "response");
        if Truthy(response) && !Field(response, "messageId").Undefined? then
          if Truthy(Field(data, "error")) then Err(Raised(Field(data, "error")))
          else Ok(Reply(Field(response, "messageId"), Field(response, "data")))
        else Ok(NotForUs)
  }

  function Classify(detail: JsValue, evData: JsValue): (r: Result<Inbound>)
    ensures Payload(detail, evData).None? ==> r == Ok(NotForUs)
  {
    match Payload(detail, evData)
    case None => Ok(NotForUs)
    case Some(data) => ClassifyPayload(data)
  }

  /** `_resolveAPICall(method, messageId, opt_data)` together with
    * `PlatformAPI`'s signal functions. */
  function ResolveSpec<C>(backend: Backend, copiesReplayData: bool, st: BridgeState<C>, caps: Option<set<string>>,
                          methodName: JsValue, messageId: JsValue, data: JsValue): (BridgeState<C>, Outcome)
  {
    if methodName.Str? && methodName.s in PlainSignals then
      (st.(events := st.events + [HostEvent(methodName.s, messageId, false, false, false, None)]), Completed)
    else if methodName == Str("start") then
      if !Truthy(data) then (st, Threw(Raised(Str("Method _start missing params"))))
      else match StartSignal(data, caps)
        case Err(e) => (st, Threw(e))
        case Ok(Some(message)) => DoResponseSpec(backend, st, messageId, Str(message))
        case Ok(None) =>
          var replayData := if copiesReplayData && Truthy(Field(data, "replayData")) then Some(Field(data, "replayData")) else None;
          var event := HostEvent("start", messageId, Truthy(Field(data, "replay")), Truthy(Field(data, "ghostMode")),
                                 Truthy(Field(data, "resetState")), replayData);
          (st.(events := st.events + [event]), Completed)
    else (st, Completed)
  }

  /** The whole listener: the new state, how it ended, and the pending
    * callback to run with the reply's data (a stored value that is falsy is
    * not run).  The Facebook bridge installs no listener. */
  function ReceiveSpec<C>(backend: Backend, copiesReplayData: bool, st: BridgeState<C>, caps: Option<set<string>>,
                          detail: JsValue, evData: JsValue): (BridgeState<C>, Outcome, Option<(Arg<C>, JsValue)>)
  {
    if backend.Facebook? then (st, Completed, None)
    else match Classify(detail, evData)
      case Err(e) => (st, Threw(e), None)
      case Ok(NotForUs) => (st, Completed, None)
      case Ok(HostCall(m, id, d)) =>
        var (next, out) := ResolveSpec(backend, copiesReplayData, st, caps, m, id, d);
        (next, out, None)
      case Ok(Reply(id, d)) =>
        var (next, cb) := TakeSpec(st, id);
        (next, Completed, if cb.Some? && Callable(cb.value) then Some((cb.value, d)) else None)
  }

  // ---------------------------------------------------------------------------
  // The correlation invariant

  /** The message ids of the requests sent, in order. */
  function RequestIds(sent: seq<Envelope>): seq<nat>
  {
    if |sent| == 0 then []
    else
      var last := sent[|sent| - 1];
      RequestIds(sent[..|sent| - 1]) + (if last.Request? then [last.messageId] else [])
  }

  function Upto(n: nat): (r: seq<nat>)
    ensures |r| == n && forall i :: 0 <= i < n ==> r[i] == i
  {
    seq(n, i => i)
  }

  function IssuedKeys(n: nat): set<string>
  {
    set i: nat | i < n :: IdKey(i)
  }

  /** Requests are numbered 0, 1, 2, ... in the order they are sent, and
    * every pending callback is keyed by an id already issued. */
  ghost predicate Correlated<C>(st: BridgeState<C>)
  {
    RequestIds(st.sent) == Upto(st.instCount) && st.requests.Keys <= IssuedKeys(st.instCount)
  }

  lemma FreshCorrelated<C>()
    ensures Correlated(Fresh<C>())
  {
    assert Upto(0) == [];
  }

  /** Distinct numbers have distinct decimal spellings. */
  lemma {:induction false} NatToStringInjective(a: nat, b: nat)
    requires NatToString(a) == NatToString(b)
    ensures a == b
    decreases a
  {
    var sa, sb := NatToString(a), NatToString(b);
    if a >= 10 && b >= 10 {
      assert sa == NatToString(a / 10) + [DigitChar(a % 10)];
      assert sb == NatToString(b / 10) + [DigitChar(b % 10)];
      assert sa[..|sa| - 1] == NatToString(a / 10);
      assert sb[..|sb| - 1] == NatToString(b / 10);
      NatToStringInjective(a / 10, b / 10);
      assert DigitChar(a % 10) == sa[|sa| - 1] == DigitChar(b % 10);
    } else if a < 10 && b < 10 {
      assert sa[0] == DigitChar(a) && sb[0] == DigitChar(b);
    } else {
      assert false;
    }
  }

  /** The next id is not yet a key: a new request never overwrites a pending
    * callback. */
  lemma NextIdUnused<C>(st: BridgeState<C>)
    requires Correlated(st)
    ensures IdKey(st.instCount) !in st.requests
  {
    if IdKey(st.instCount) in st.requests {
      var i: nat :| i < st.instCount && IdKey(i) == IdKey(st.instCount);
      NatToStringInjective(i, st.instCount);
    }
  }

  lemma RequestIdsAppend(sent: seq<Envelope>, e: Envelope)
    ensures RequestIds(sent + [e]) == RequestIds(sent) + (if e.Request? then [e.messageId] else [])
  {
    assert (sent + [e])[..|sent|] == sent;
  }

  /** Each request gets the next id; its callback, when one is given, is
    * stored under that id and nothing else pending changes. */
  lemma CreateRequestCorrelates<C>(backend: Backend, filtered: bool, st: BridgeState<C>, methodName: string,
                                   data: Arg<C>, callback: Arg<C>)
    requires Correlated(st)
    ensures var (next, out) := CreateRequestSpec(backend, filtered, st, methodName, data, callback);
      && Correlated(next)
      && (backend.Facebook? || (filtered && methodName == "gameLoadingProgress") ==>
            next.instCount == st.instCount && next.requests == st.requests && next.sent == st.sent)
      && (!backend.Facebook? && !(filtered && methodName == "gameLoadingProgress") ==>
            && out.Completed?
            && next.instCount == st.instCount + 1
            && next.sent == st.sent + [Request(methodName, st.instCount, Shape(Normalise(data, callback).0), backend == Mobile(Android))]
            && (IdKey(st.instCount) in next.requests <==> !(Normalise(data, callback).1 == Data(Undefined)))
            && (forall k :: k in st.requests ==> k in next.requests && next.requests[k] == st.requests[k])
            && (forall k :: k in next.requests && k != IdKey(st.instCount) ==> k in st.requests))
  {
    var (next, out) := CreateRequestSpec(backend, filtered, st, methodName, data, callback);
    if !backend.Facebook? && !(filtered && methodName == "gameLoadingProgress") {
      NextIdUnused(st);
      var e := Request(methodName, st.instCount, Shape(Normalise(data, callback).0), backend == Mobile(Android));
      RequestIdsAppend(st.sent, e);
      assert Upto(st.instCount) + [st.instCount] == Upto(st.instCount + 1);
      assert IssuedKeys(st.instCount) + {IdKey(st.instCount)} <= IssuedKeys(st.instCount + 1);
    }
  }

  /** Taking a callback keeps the invariant; a second take of the same id
    * finds nothing. */
  lemma TakeCorrelates<C>(st: BridgeState<C>, id: JsValue)
    requires Correlated(st)
    ensures Correlated(TakeSpec(st, id).0)
    ensures TakeSpec(TakeSpec(st, id).0, id).1.None?
  {
  }

  lemma DoResponseCorrelates<C>(backend: Backend, st: BridgeState<C>, messageId: JsValue, data: JsValue)
    requires Correlated(st)
    ensures Correlated(DoResponseSpec(backend, st, messageId, data).0)
  {
    var (next, _) := DoResponseSpec(backend, st, messageId, data);
    if !backend.Facebook? {
      RequestIdsAppend(st.sent, Response(messageId, if Truthy(data) then Some(data) else None));
    }
  }

  lemma ResolveCorrelates<C>(backend: Backend, copiesReplayData: bool, st: BridgeState<C>, caps: Option<set<string>>,
                             methodName: JsValue, messageId: JsValue, data: JsValue)
    requires Correlated(st)
    ensures Correlated(ResolveSpec(backend, copiesReplayData, st, caps, methodName, messageId, data).0)
  {
    if methodName == Str("start") && Truthy(data) {
      var signal := StartSignal(data, caps);
      if signal.Ok? && signal.value.Some? {
        DoResponseCorrelates(backend, st, messageId, Str(signal.value.value));
      }
    }
  }

  /** Every incoming message keeps the invariant. */
  lemma ReceiveCorrelates<C>(backend: Backend, copiesReplayData: bool, st: BridgeState<C>, caps: Option<set<string>>,
                             detail: JsValue, evData: JsValue)
    requires Correlated(st)
    ensures Correlated(ReceiveSpec(backend, copiesReplayData, st, caps, detail, evData).0)
  {
    var next := ReceiveSpec(backend, copiesReplayData, st, caps, detail, evData).0;
    if !backend.Facebook? {
      match Classify(detail, evData)
      case Err(_) =>
        assert next == st;
      case Ok(NotForUs) =>
        assert next == st;
      case Ok(HostCall(m, id, d)) =>
        ResolveCorrelates(backend, copiesReplayData, st, caps, m, id, d);
        assert next == ResolveSpec(backend, copiesReplayData, st, caps, m, id, d).0;
      case Ok(Reply(id, d)) =>
        TakeCorrelates(st, id);
        assert next == TakeSpec(st, id).0;
    }
  }

  /** A reply to request `n`, whether its id arrives as a number or as its
    * decimal string, reaches the callback stored by `createRequest`, once. */
  lemma ReplyReachesCallback<C>(backend: Backend, filtered: bool, st: BridgeState<C>, methodName: string, c: C,
                                data: JsValue, idAsString: bool)
    requires Correlated(st)
    requires !backend.Facebook? && !(filtered && methodName == "gameLoadingProgress")
    requires !data.Fun?
    ensures var next := CreateRequestSpec(backend, filtered, st, methodName, Data(data), Cb(c)).0;
      var id := if idAsString then Str(IdKey(st.instCount)) else Num(st.instCount);
      && TakeSpec(next, id).1 == Some(Cb(c))
      && TakeSpec(TakeSpec(next, id).0, id).1.None?
  {
  }

  /** The loading-progress filter: a filtered bridge sends nothing and
    * consumes no id for it, while the unfiltered bridge numbers it like any
    * other request. */
  lemma LoadingProgressFiltered<C>(backend: Backend, st: BridgeState<C>, data: Arg<C>, callback: Arg<C>)
    requires !backend.Facebook?
    ensures CreateRequestSpec(backend, true, st, "gameLoadingProgress", data, callback) == (st, Completed)
    ensures CreateRequestSpec(backend, false, st, "gameLoadingProgress", data, callback).0.instCount == st.instCount + 1
  {
  }

  /** The Facebook bridge passes every known method to the SDK, numbers
    * nothing and stores nothing; an unknown method is a TypeError. */
  lemma FacebookBypassesCorrelation<C>(filtered: bool, st: BridgeState<C>, methodName: string, data: Arg<C>, callback: Arg<C>)
    ensures var (next, out) := CreateRequestSpec(Facebook, filtered, st, methodName, data, callback);
      && next.instCount == st.instCount && next.requests == st.requests && next.sent == st.sent
      && (out.Completed? <==> methodName in SdkMethods)
      && (out.Completed? ==> next.sdkCalls == st.sdkCalls + [SdkCall(methodName, Normalise(data, callback).1, Normalise(data, callback).0)])
  {
  }

  /** Android receives its requests stringified; iOS and the web do not. */
  lemma OnlyAndroidStringifies<C>(backend: Backend, filtered: bool, st: BridgeState<C>, methodName: string, data: Arg<C>, callback: Arg<C>)
    requires !backend.Facebook? && !(filtered && methodName == "gameLoadingProgress")
    ensures var next := CreateRequestSpec(backend, filtered, st, methodName, data, callback).0;
      next.sent[|next.sent| - 1].Request? && (next.sent[|next.sent| - 1].stringified <==> backend == Mobile(Android))
  {
  }

  /** A `null` detail, whose `typeof` is "object", makes the listener throw
    * before anything else happens. */
  lemma NullDetailThrows(evData: JsValue)
    ensures Classify(Null, evData).Err? && Classify(Null, evData).error.TypeError?
  {
  }

  /** A reply that carries a truthy `error` field is thrown and its callback
    * stays pending. */
  lemma ErrorReplyKeepsCallback<C>(backend: Backend, copiesReplayData: bool, st: BridgeState<C>, caps: Option<set<string>>,
                                   response: JsValue, err: JsValue)
    requires !backend.Facebook? && Truthy(response) && !Field(response, "messageId").Undefined? && Truthy(err)
    ensures var (next, out, run) := ReceiveSpec(backend, copiesReplayData, st, caps, Obj(map["response" := response, "error" := err]), Undefined);
      next == st && out == Threw(Raised(err)) && run.None?
  {
  }

  /** A message is never both a host call and a reply: a payload carrying a
    * well-formed request is resolved as a call even when it also carries a
    * response. */
  lemma RequestWins(request: JsValue, response: JsValue)
    requires Truthy(request) && Truthy(Field(request, "method")) && !Field(request, "messageId").Undefined?
    ensures ClassifyPayload(Obj(map["request" := request, "response" := response])).Ok?
    ensures ClassifyPayload(Obj(map["request" := request, "response" := response])).value.HostCall?
  {
  }

  /** The routing of host calls: each of the six plain signals raises exactly
    * its own event, acknowledged by the incoming id; `start` without data
    * throws and changes nothing; any other name is dropped. */
  lemma ResolveRoutes<C>(backend: Backend, copiesReplayData: bool, st: BridgeState<C>, caps: Option<set<string>>,
                         methodName: JsValue, messageId: JsValue, data: JsValue)
    ensures var (next, out) := ResolveSpec(backend, copiesReplayData, st, caps, methodName, messageId, data);
      && (methodName.Str? && methodName.s in PlainSignals ==>
            out.Completed? && next == st.(events := st.events + [HostEvent(methodName.s, messageId, false, false, false, None)]))
      && (methodName == Str("start") && !Truthy(data) ==> next == st && out.Threw?)
      && (!methodName.Str? || (methodName.s !in PlainSignals && methodName.s != "start") ==>
            next == st && out.Completed?)
      && (next.sent != st.sent ==> methodName == Str("start") && next.sent == st.sent + [next.sent[|st.sent|]])
  {
  }

  /** A start event is dispatched only when the start signal accepts it: a
    * replay or ghost event was granted the capability. */
  lemma StartEventIsGranted<C>(backend: Backend, copiesReplayData: bool, st: BridgeState<C>, caps: Option<set<string>>,
                               messageId: JsValue, data: JsValue)
    requires data.Obj?
    ensures var (next, out) := ResolveSpec(backend, copiesReplayData, st, caps, Str("start"), messageId, data);
      && (|next.events| > |st.events| ==>
            && StartSignal(data, caps) == Ok(None)
            && next.events == st.events + [next.events[|st.events|]]
            && var ev := next.events[|st.events|];
               ev.name == "start" && ev.ack == messageId
               && (ev.replay ==> caps.Some? && "replay" in caps.value)
               && (ev.ghostMode ==> caps.Some? && "ghostMode" in caps.value)
               && (ev.replayData.Some? <==> copiesReplayData && Truthy(Field(data, "replayData"))))
      && (StartSignal(data, caps).Ok? && StartSignal(data, caps).value.Some? && !backend.Facebook? ==>
            next.events == st.events
            && next.sent == st.sent + [Response(messageId, Some(Str(StartSignal(data, caps).value.value)))])
  {
  }

  // ---------------------------------------------------------------------------
  // The bridge object

  class Bridge<C> {
    const backend: Backend
    /** Whether `validateMethod` drops loading-progress requests. */
    const filtered: bool
    /** Whether the start event carries the host's `replayData`. */
    const copiesReplayData: bool
    var instCount: nat
    var requests: map<string, Arg<C>>
    var sent: seq<Envelope>
    var events: seq<HostEvent>
    var sdkCalls: seq<SdkCall<C>>

    function State(): BridgeState<C>
      reads this
    {
      BridgeState(instCount, requests, sent, events, sdkCalls)
    }

    ghost predicate Valid()
      reads this
    {
      Correlated(State())
    }

    /** A bridge of the given kind for a build; the 2.4.0 bundle has no
      * Facebook bridge (it picks the postMessage or the mobile one). */
    constructor(backend: Backend, build: Build)
      requires backend.Facebook? ==> build != Bundle240
      ensures this.backend == backend
      ensures filtered == Filters(build) && copiesReplayData == CopiesReplayData(build)
      ensures State() == Fresh() && Valid()
    {
      this.backend := backend;
      filtered := Filters(build);
      copiesReplayData := CopiesReplayData(build);
      instCount, requests, sent, events, sdkCalls := 0, map[], [], [], [];
      new;
      FreshCorrelated<C>();
    }

    function Platform(): (p: string)
      ensures p == "web" <==> backend.PostMessage?
      ensures p == "fb" <==> backend.Facebook?
    {
      PlatformName(backend)
    }

    method CreateRequest(methodName: string, data: Arg<C>, callback: Arg<C>) returns (out: Outcome)
      requires Valid()
      modifies this
      ensures Valid()
      ensures (State(), out) == CreateRequestSpec(backend, filtered, old(State()), methodName, data, callback)
    {
      ghost var target := CreateRequestSpec(backend, filtered, State(), methodName, data, callback);
      CreateRequestCorrelates(backend, filtered, State(), methodName, data, callback);
      var d, cb := data, callback;
      if IsFunction(d) {
        cb, d := d, Data(Undefined);
      }
      assert (d, cb) == Normalise(data, callback);
      if backend.Facebook? {
        if methodName in SdkMethods {
          sdkCalls := sdkCalls + [SdkCall(methodName, cb, d)];
          out := Completed;
        } else {
          out := Threw(TypeError("this._methods[method] is not a function"));
        }
      } else if filtered && methodName == "gameLoadingProgress" {
        out := Completed;
      } else {
        var id := instCount;
        instCount := instCount + 1;
        if !(cb.Data? && cb.v.Undefined?) {
          requests := requests[IdKey(id) := cb];
        }
        sent := sent + [Request(methodName, id, Shape(d), backend == Mobile(Android))];
        out := Completed;
      }
      assert (State(), out) == target;
    }

    /** `_callback`'s lookup and deletion. */
    method Take(id: JsValue) returns (cb: Option<Arg<C>>)
      requires Valid()
      modifies this
      ensures Valid()
      ensures (State(), cb) == TakeSpec(old(State()), id)
    {
      TakeCorrelates(State(), id);
      var k := ToKey(id);
      cb := if k in requests then Some(requests[k]) else None;
      requests := requests - {k};
    }

    method DoResponse(messageId: JsValue, data: JsValue) returns (out: Outcome)
      requires Valid()
      modifies this
      ensures Valid()
      ensures (State(), out) == DoResponseSpec(backend, old(State()), messageId, data)
    {
      DoResponseCorrelates(backend, State(), messageId, data);
      if backend.Facebook? {
        return Threw(Raised(Str("Not implemented")));
      }
      sent := sent + [Response(messageId, if Truthy(data) then Some(data) else None)];
      out := Completed;
    }

    /** The message listener, given the core's cached capabilities for the
      * start signal; returns the callback to run with the reply's data. */
    method Receive(caps: Option<set<string>>, detail: JsValue, evData: JsValue)
      returns (out: Outcome, run: Option<(Arg<C>, JsValue)>)
      requires Valid()
      modifies this
      ensures Valid()
      ensures (State(), out, run) == ReceiveSpec(backend, copiesReplayData, old(State()), caps, detail, evData)
    {
      ReceiveCorrelates(backend, copiesReplayData, State(), caps, detail, evData);
      run := None;
      if backend.Facebook? {
        return Completed, None;
      }
      var inbound := Classify(detail, evData);
      if inbound.Err? {
        return Threw(inbound.error), None;
      }
      match inbound.value
      case NotForUs =>
        out := Completed;
      case HostCall(m, id, d) =>
        out := Resolve(caps, m, id, d);
      case Reply(id, d) =>
        var cb := Take(id);
        out := Completed;
        if cb.Some? && Callable(cb.value) {
          run := Some((cb.value, d));
        }
    }

    method Resolve(caps: Option<set<string>>, methodName: JsValue, messageId: JsValue, data: JsValue) returns (out: Outcome)
      requires Valid()
      modifies this
      ensures Valid()
      ensures (State(), out) == ResolveSpec(backend, copiesReplayData, old(State()), caps, methodName, messageId, data)
    {
      if methodName.Str? && methodName.s in PlainSignals {
        events := events + [HostEvent(methodName.s, messageId, false, false, false, None)];
        return Completed;
      }
      if methodName != Str("start") {
        return Completed;
      }
      if !Truthy(data) {
        return Threw(Raised(Str("Method _start missing params")));
      }
      var signal := StartSignal(data, caps);
      if signal.Err? {
        return Threw(signal.error);
      }
      if signal.value.Some? {
        out := DoResponse(messageId, Str(signal.value.value));
        return;
      }
      var replayData := if copiesReplayData && Truthy(Field(data, "replayData")) then Some(Field(data, "replayData")) else None;
      events := events + [HostEvent("start", messageId, Truthy(Field(data, "replay")), Truthy(Field(data, "ghostMode")),
                                    Truthy(Field(data, "resetState")), replayData)];
      out := Completed;
    }
  }
}
