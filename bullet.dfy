/**
 * Bullet, the small publish/subscribe registry the library builds its
 * signals and controllers on.  Each event name holds a dictionary of
 * listeners keyed by the listener function's source text; a listener added
 * with `once` is removed after its first invocation.
 *
 * The dictionary of one event is a sequence in enumeration (insertion) order
 * with distinct keys.  Invocations are recorded in `calls`.
 */
module Bullet {
  import opened Js

  /** One entry of an event's callback dictionary: `callbacks[key] = {cb, once}`. */
  datatype Listener = Listener(key: string, cb: FnRef, once: bool)

  /** One invocation `cb(data)` performed by `trigger`. */
  datatype Call = Call(cb: FnRef, data: JsValue)

  type Events = map<string, seq<Listener>>

  predicate HasKey(cs: seq<Listener>, key: string)
  {
    exists i :: 0 <= i < |cs| && cs[i].key == key
  }

  /** Keys are distinct and each entry is stored under its function's text. */
  predicate WellFormedCallbacks(cs: seq<Listener>)
  {
    (forall i, j :: 0 <= i < j < |cs| ==> cs[i].key != cs[j].key) &&
    (forall i :: 0 <= i < |cs| ==> cs[i].key == cs[i].cb.source)
  }

  predicate WellFormed(events: Events)
  {
    forall e :: e in events ==> WellFormedCallbacks(events[e])
  }

  /** The entry stored under `key`. */
  function Lookup(cs: seq<Listener>, key: string): (r: Option<Listener>)
    ensures r.Some? <==> HasKey(cs, key)
    ensures r.Some? ==> r.value in cs && r.value.key == key
  {
    if |cs| == 0 then None
    else if cs[0].key == key then Some(cs[0])
    else
      var r := Lookup(cs[1..], key);
      assert HasKey(cs, key) <==> HasKey(cs[1..], key) by {
        if HasKey(cs, key) {
          var i :| 0 <= i < |cs| && cs[i].key == key;
          assert cs[1..][i - 1].key == key;
        }
        if HasKey(cs[1..], key) {
          var i :| 0 <= i < |cs[1..]| && cs[1..][i].key == key;
          assert cs[i + 1].key == key;
        }
      }
      r
  }

  /** `callbacks[key].once = once`, keeping the entry's position. */
  function SetOnce(cs: seq<Listener>, key: string, once: bool): (r: seq<Listener>)
    ensures |r| == |cs|
    ensures forall i :: 0 <= i < |cs| ==> r[i] == if cs[i].key == key then cs[i].(once := once) else cs[i]
  {
    if |cs| == 0 then []
    else [if cs[0].key == key then cs[0].(once := once) else cs[0]] + SetOnce(cs[1..], key, once)
  }

  /** `delete callbacks[key]`, keeping the order of the other entries. */
  function Without(cs: seq<Listener>, key: string): seq<Listener>
  {
    if |cs| == 0 then []
    else if cs[0].key == key then Without(cs[1..], key)
    else [cs[0]] + Without(cs[1..], key)
  }

  /** The entries that survive a `trigger`: those not registered with `once`. */
  function Persistent(cs: seq<Listener>): seq<Listener>
  {
    if |cs| == 0 then []
    else if cs[0].once then Persistent(cs[1..])
    else [cs[0]] + Persistent(cs[1..])
  }

  /** The entries of an event while `trigger` walks them: the survivors of
    * the first `i`, then the entries not yet visited. */
  function Midway(cs: seq<Listener>, i: nat): seq<Listener>
    requires i <= |cs|
  {
    Persistent(cs[..i]) + cs[i..]
  }

  /** The walk starts from the event's entries and ends with the survivors. */
  lemma MidwayEnds(cs: seq<Listener>)
    ensures Midway(cs, 0) == cs
    ensures Midway(cs, |cs|) == Persistent(cs)
  {
    assert cs[..0] == [] && cs[0..] == cs;
    assert cs[..|cs|] == cs && cs[|cs|..] == [];
  }

  /** The invocations `trigger` makes: every entry, in enumeration order. */
  function CallsOf(cs: seq<Listener>, data: JsValue): (r: seq<Call>)
    ensures |r| == |cs|
    ensures forall i :: 0 <= i < |cs| ==> r[i] == Call(cs[i].cb, data)
  {
    if |cs| == 0 then [] else [Call(cs[0].cb, data)] + CallsOf(cs[1..], data)
  }

  /** `on(event, fn, once)`: bullet.js lines 6-35. */
  function OnSpec(events: Events, event: JsValue, fn: JsValue, once: JsValue): Events
  {
    if !event.Str? || !fn.Fun? then events
    else
      var key := fn.f.source;
      if event.s in events then
        var cs := events[event.s];
        if !HasKey(cs, key) then events[event.s := cs + [Listener(key, fn.f, Truthy(once))]]
        else if once.Bool? then events[event.s := SetOnce(cs, key, once.b)]
        else events
      else events[event.s := [Listener(key, fn.f, Truthy(once))]]
  }

  /** `off(event, fn)`: bullet.js lines 41-60. */
  function OffSpec(events: Events, event: JsValue, fn: JsValue): Events
  {
    if !event.Str? || event.s !in events then events
    else if fn.Fun? then events[event.s := Without(events[event.s], fn.f.source)]
    else events - {event.s}
  }

  /** `trigger(event, data)`: bullet.js lines 62-72.  The new registry and the
    * invocations made. */
  function TriggerSpec(events: Events, event: JsValue, data: JsValue): (Events, seq<Call>)
  {
    if !event.Str? || event.s !in events then (events, [])
    else (events[event.s := Persistent(events[event.s])], CallsOf(events[event.s], data))
  }

  lemma WithoutMembers(cs: seq<Listener>, key: string)
    ensures forall l :: l in Without(cs, key) <==> l in cs && l.key != key
    ensures !HasKey(cs, key) ==> Without(cs, key) == cs
  {
    WithoutElements(cs, key);
    if !HasKey(cs, key) {
      WithoutAbsent(cs, key);
    }
  }

  lemma {:induction false} WithoutElements(cs: seq<Listener>, key: string)
    ensures forall l :: l in Without(cs, key) <==> l in cs && l.key != key
    decreases |cs|
  {
    if |cs| > 0 {
      WithoutElements(cs[1..], key);
      assert cs == [cs[0]] + cs[1..];
    }
  }

  lemma {:induction false} WithoutAbsent(cs: seq<Listener>, key: string)
    requires !HasKey(cs, key)
    ensures Without(cs, key) == cs
    decreases |cs|
  {
    if |cs| > 0 {
      assert cs[0].key != key;
      assert !HasKey(cs[1..], key);
      WithoutAbsent(cs[1..], key);
      assert cs == [cs[0]] + cs[1..];
    }
  }

  lemma PersistentMembers(cs: seq<Listener>)
    ensures forall l :: l in Persistent(cs) <==> l in cs && !l.once
  {
    if |cs| > 0 {
      PersistentMembers(cs[1..]);
    }
  }

  // ---------------------------------------------------------------------------
  // Properties of the registry

  lemma {:induction false} WithoutWellFormed(cs: seq<Listener>, key: string)
    requires WellFormedCallbacks(cs)
    ensures WellFormedCallbacks(Without(cs, key))
    ensures !HasKey(Without(cs, key), key)
    decreases |cs|
  {
    WithoutMembers(cs, key);
    if |cs| > 0 {
      TailWellFormed(cs);
      WithoutWellFormed(cs[1..], key);
      if cs[0].key != key {
        WithoutMembers(cs[1..], key);
        ConsWellFormed(cs[0], Without(cs[1..], key));
      }
    }
  }

  lemma PersistentWellFormed(cs: seq<Listener>)
    requires WellFormedCallbacks(cs)
    ensures WellFormedCallbacks(Persistent(cs))
    decreases |cs|
  {
    if |cs| > 0 {
      PersistentWellFormed(cs[1..]);
      PersistentMembers(cs[1..]);
    }
  }

  lemma OnWellFormed(events: Events, event: JsValue, fn: JsValue, once: JsValue)
    requires WellFormed(events)
    ensures WellFormed(OnSpec(events, event, fn, once))
  {
    if event.Str? && fn.Fun? {
      var key := fn.f.source;
      var l := Listener(key, fn.f, Truthy(once));
      if event.s !in events {
        OnNewKey(events, event.s, fn.f, once);
        ConsWellFormed(l, []);
        assert [l] + [] == [l];
        UpdateWellFormed(events, event.s, [l]);
      } else if !HasKey(events[event.s], key) {
        OnNewKey(events, event.s, fn.f, once);
        AppendWellFormed(events[event.s], l);
        UpdateWellFormed(events, event.s, events[event.s] + [l]);
      } else if once.Bool? {
        OnExistingKey(events, event.s, fn.f, once.b);
        SetOnceWellFormed(events[event.s], key, once.b);
        UpdateWellFormed(events, event.s, SetOnce(events[event.s], key, once.b));
      } else {
        OnExistingKeepsOnce(events, event.s, fn.f, once);
      }
    }
  }

  lemma UpdateWellFormed(events: Events, e: string, cs: seq<Listener>)
    requires WellFormed(events) && WellFormedCallbacks(cs)
    ensures WellFormed(events[e := cs])
  {
    var r := events[e := cs];
    forall x | x in r ensures WellFormedCallbacks(r[x]) {
      if x != e {
        assert r[x] == events[x];
      }
    }
  }

  lemma AppendWellFormed(cs: seq<Listener>, l: Listener)
    requires WellFormedCallbacks(cs) && !HasKey(cs, l.key) && l.key == l.cb.source
    ensures WellFormedCallbacks(cs + [l])
  {
    var r := cs + [l];
    forall i, j | 0 <= i < j < |r| ensures r[i].key != r[j].key {
      assert r[i] == cs[i];
      if j < |cs| {
        assert r[j] == cs[j];
      }
    }
  }

  lemma SetOnceWellFormed(cs: seq<Listener>, key: string, b: bool)
    requires WellFormedCallbacks(cs)
    ensures WellFormedCallbacks(SetOnce(cs, key, b))
  {
    var r := SetOnce(cs, key, b);
    forall i, j | 0 <= i < j < |r| ensures r[i].key != r[j].key {
      assert r[i].key == cs[i].key && r[j].key == cs[j].key;
    }
  }

  lemma OffWellFormed(events: Events, event: JsValue, fn: JsValue)
    requires WellFormed(events)
    ensures WellFormed(OffSpec(events, event, fn))
  {
    if event.Str? && event.s in events && fn.Fun? {
      WithoutWellFormed(events[event.s], fn.f.source);
    }
  }

  lemma TriggerWellFormed(events: Events, event: JsValue, data: JsValue)
    requires WellFormed(events)
    ensures WellFormed(TriggerSpec(events, event, data).0)
  {
    if event.Str? && event.s in events {
      PersistentWellFormed(events[event.s]);
    }
  }

  /** After `on`, the event holds exactly one entry for the function's text.
    * A new entry takes `!!once`; an existing one keeps its function and
    * position and takes `once` only when it is a boolean. Other events are
    * untouched. */
  lemma {:induction false} OnRegisters(events: Events, event: string, f: FnRef, once: JsValue)
    requires WellFormed(events)
    ensures var r := OnSpec(events, Str(event), Fun(f), once);
      && r.Keys == events.Keys + {event}
      && (forall e :: e in events && e != event ==> r[e] == events[e])
      && Lookup(r[event], f.source).Some?
      && var l := Lookup(r[event], f.source).value;
         if event in events && HasKey(events[event], f.source) then
           var l0 := Lookup(events[event], f.source).value;
           l.cb == l0.cb && l.once == (if once.Bool? then once.b else l0.once)
         else
           l == Listener(f.source, f, Truthy(once))
  {
    var r := OnSpec(events, Str(event), Fun(f), once);
    if event in events && HasKey(events[event], f.source) {
      OnRegistersExisting(events, event, f, once);
      var cs1 := if once.Bool? then SetOnce(events[event], f.source, once.b) else events[event];
      assert r == events[event := cs1];
      StoreOthers(events, event, cs1);
    } else {
      OnRegistersNew(events, event, f, once);
      var cs: seq<Listener> := if event in events then events[event] else [];
      var l := Listener(f.source, f, Truthy(once));
      assert r == events[event := cs + [l]];
      assert Lookup(r[event], f.source).value == l;
      StoreOthers(events, event, cs + [l]);
    }
  }

  /** Storing one event's list leaves the other events as they were. */
  lemma StoreOthers(events: Events, event: string, cs: seq<Listener>)
    ensures events[event := cs].Keys == events.Keys + {event}
    ensures forall e :: e in events && e != event ==> events[event := cs][e] == events[e]
  {
  }

  lemma OnRegistersExisting(events: Events, event: string, f: FnRef, once: JsValue)
    requires event in events && HasKey(events[event], f.source)
    ensures var cs := events[event];
      var l0 := Lookup(cs, f.source).value;
      var cs1 := if once.Bool? then SetOnce(cs, f.source, once.b) else cs;
      && OnSpec(events, Str(event), Fun(f), once) == events[event := cs1]
      && Lookup(cs1, f.source) == Some(if once.Bool? then l0.(once := once.b) else l0)
  {
    if once.Bool? {
      OnExistingKey(events, event, f, once.b);
      LookupSetOnce(events[event], f.source, once.b);
    } else {
      OnExistingKeepsOnce(events, event, f, once);
    }
  }

  lemma OnRegistersNew(events: Events, event: string, f: FnRef, once: JsValue)
    requires event !in events || !HasKey(events[event], f.source)
    ensures var cs: seq<Listener> := if event in events then events[event] else [];
      var l := Listener(f.source, f, Truthy(once));
      && OnSpec(events, Str(event), Fun(f), once) == events[event := cs + [l]]
      && Lookup(cs + [l], f.source) == Some(l)
  {
    var cs: seq<Listener> := if event in events then events[event] else [];
    OnNewKey(events, event, f, once);
    LookupAppend(cs, Listener(f.source, f, Truthy(once)));
  }

  /** Arguments the emitter ignores: `on` with a non-string event or a
    * non-function listener registers nothing, and `off` and `trigger` on an
    * event nobody registered change nothing and call nobody. */
  lemma IgnoredArguments(events: Events, event: JsValue, fn: JsValue, once: JsValue, data: JsValue)
    ensures !event.Str? || !fn.Fun? ==> OnSpec(events, event, fn, once) == events
    ensures !event.Str? || event.s !in events ==>
      && OffSpec(events, event, fn) == events
      && TriggerSpec(events, event, data) == (events, [])
  {
  }

  lemma {:induction false} LookupAppend(cs: seq<Listener>, l: Listener)
    requires !HasKey(cs, l.key)
    ensures Lookup(cs + [l], l.key) == Some(l)
    decreases |cs|
  {
    if |cs| == 0 {
    } else {
      assert (cs + [l])[1..] == cs[1..] + [l];
      assert !HasKey(cs[1..], l.key);
      LookupAppend(cs[1..], l);
    }
  }

  lemma {:induction false} LookupSetOnce(cs: seq<Listener>, key: string, once: bool)
    requires HasKey(cs, key)
    ensures Lookup(SetOnce(cs, key, once), key) == Some(Lookup(cs, key).value.(once := once))
    decreases |cs|
  {
    if cs[0].key != key {
      var i :| 0 <= i < |cs| && cs[i].key == key;
      assert cs[1..][i - 1].key == key;
      assert SetOnce(cs, key, once)[1..] == SetOnce(cs[1..], key, once);
      LookupSetOnce(cs[1..], key, once);
    }
  }

  lemma SetOnceFixed(cs: seq<Listener>, key: string, b: bool)
    requires forall i :: 0 <= i < |cs| && cs[i].key == key ==> cs[i].once == b
    ensures SetOnce(cs, key, b) == cs
  {
  }

  lemma HasKeyAfterSetOnce(cs: seq<Listener>, key: string, b: bool)
    requires HasKey(cs, key)
    ensures HasKey(SetOnce(cs, key, b), key)
  {
    var i :| 0 <= i < |cs| && cs[i].key == key;
    assert SetOnce(cs, key, b)[i].key == key;
  }

  lemma HasKeyAfterAppend(cs: seq<Listener>, l: Listener)
    ensures HasKey(cs + [l], l.key)
  {
    assert (cs + [l])[|cs|].key == l.key;
  }

  /** Registering the same function twice with the same arguments changes
    * nothing the second time. */
  lemma {:induction false} OnIdempotent(events: Events, event: JsValue, fn: JsValue, once: JsValue)
    requires WellFormed(events)
    ensures OnSpec(OnSpec(events, event, fn, once), event, fn, once) == OnSpec(events, event, fn, once)
  {
    if event.Str? && fn.Fun? {
      var key := fn.f.source;
      if event.s in events && HasKey(events[event.s], key) {
        OnIdempotentExisting(events, event.s, fn.f, once);
      } else {
        OnIdempotentNew(events, event.s, fn.f, once);
      }
    }
  }

  lemma OnIdempotentExisting(events: Events, event: string, f: FnRef, once: JsValue)
    requires event in events && HasKey(events[event], f.source)
    ensures OnSpec(OnSpec(events, Str(event), Fun(f), once), Str(event), Fun(f), once) == OnSpec(events, Str(event), Fun(f), once)
  {
    var cs := events[event];
    var cs1 := if once.Bool? then SetOnce(cs, f.source, once.b) else cs;
    var r1 := events[event := cs1];
    OnRegistersExisting(events, event, f, once);
    assert HasKey(cs1, f.source) by {
      if once.Bool? {
        HasKeyAfterSetOnce(cs, f.source, once.b);
      }
    }
    assert r1[event] == cs1;
    OnRegistersExisting(r1, event, f, once);
    if once.Bool? {
      SetOnceTwice(cs, f.source, once.b);
    }
    StoreSame(r1, event);
  }

  /** Storing back the value a key already holds changes nothing. */
  lemma StoreSame(events: Events, event: string)
    requires event in events
    ensures events[event := events[event]] == events
  {
  }

  /** `on` for a key already present, with a non-boolean `once`. */
  lemma OnExistingKeepsOnce(events: Events, event: string, f: FnRef, once: JsValue)
    requires event in events && HasKey(events[event], f.source) && !once.Bool?
    ensures OnSpec(events, Str(event), Fun(f), once) == events
  {
  }

  /** `on` for a key already present, with a boolean `once`. */
  lemma OnExistingKey(events: Events, event: string, f: FnRef, b: bool)
    requires event in events && HasKey(events[event], f.source)
    ensures OnSpec(events, Str(event), Fun(f), Bool(b)) == events[event := SetOnce(events[event], f.source, b)]
  {
  }

  lemma SetOnceTwice(cs: seq<Listener>, key: string, b: bool)
    ensures SetOnce(SetOnce(cs, key, b), key, b) == SetOnce(cs, key, b)
  {
    var cs1 := SetOnce(cs, key, b);
    SetOnceFixed(cs1, key, b);
  }

  lemma AppendedOnceFixed(cs: seq<Listener>, l: Listener)
    requires !HasKey(cs, l.key)
    ensures SetOnce(cs + [l], l.key, l.once) == cs + [l]
  {
    var cs1 := cs + [l];
    forall i | 0 <= i < |cs1| && cs1[i].key == l.key
      ensures cs1[i].once == l.once
    {
      assert i == |cs|;
    }
    SetOnceFixed(cs1, l.key, l.once);
  }

  lemma OnIdempotentNew(events: Events, event: string, f: FnRef, once: JsValue)
    requires event !in events || !HasKey(events[event], f.source)
    ensures OnSpec(OnSpec(events, Str(event), Fun(f), once), Str(event), Fun(f), once) == OnSpec(events, Str(event), Fun(f), once)
  {
    var l := Listener(f.source, f, Truthy(once));
    var cs: seq<Listener> := if event in events then events[event] else [];
    var r1 := events[event := cs + [l]];
    OnNewKey(events, event, f, once);
    assert OnSpec(r1, Str(event), Fun(f), once) == r1 by {
      HasKeyAfterAppend(cs, l);
      assert event in r1 && r1[event] == cs + [l];
      if once.Bool? {
        OnExistingKey(r1, event, f, once.b);
        AppendedOnceFixed(cs, l);
        StoreSame(r1, event);
      } else {
        OnExistingKeepsOnce(r1, event, f, once);
      }
    }
  }

  /** `on` for a key not yet present appends a new entry. */
  lemma OnNewKey(events: Events, event: string, f: FnRef, once: JsValue)
    requires event !in events || !HasKey(events[event], f.source)
    ensures OnSpec(events, Str(event), Fun(f), once) ==
      events[event := (if event in events then events[event] else []) + [Listener(f.source, f, Truthy(once))]]
  {
    assert [Listener(f.source, f, Truthy(once))] == [] + [Listener(f.source, f, Truthy(once))];
  }

  /** `off(event, fn)` removes the function's entry and nothing else;
    * `off(event)` removes the whole event. */
  lemma OffRemoves(events: Events, event: string, fn: JsValue)
    requires WellFormed(events) && event in events
    ensures var r := OffSpec(events, Str(event), fn);
      && (forall e :: e in events && e != event ==> e in r && r[e] == events[e])
      && (fn.Fun? ==>
            && event in r && !HasKey(r[event], fn.f.source)
            && forall l :: l in events[event] && l.key != fn.f.source ==> l in r[event])
      && (!fn.Fun? ==> event !in r)
  {
    if fn.Fun? {
      WithoutWellFormed(events[event], fn.f.source);
      WithoutMembers(events[event], fn.f.source);
    }
  }

  /** A `once` listener runs on the first trigger and is gone afterwards, so
    * a second trigger makes no call to a function with its text; every
    * other listener stays, in the same order. */
  lemma {:induction false} OnceFiresOnce(events: Events, event: string, f: FnRef, d1: JsValue, d2: JsValue)
    requires WellFormed(events)
    requires event !in events || !HasKey(events[event], f.source)
    ensures var e1 := OnSpec(events, Str(event), Fun(f), Bool(true));
      var (e2, c1) := TriggerSpec(e1, Str(event), d1);
      var (e3, c2) := TriggerSpec(e2, Str(event), d2);
      && Call(f, d1) in c1
      && (forall c :: c in c2 ==> c.cb.source != f.source)
      && e2[event] == Persistent(e1[event])
  {
    var e1 := OnSpec(events, Str(event), Fun(f), Bool(true));
    OnNewKey(events, event, f, Bool(true));
    OnWellFormed(events, Str(event), Fun(f), Bool(true));
    var cs := e1[event];
    assert cs[|cs| - 1] == Listener(f.source, f, true);
    assert CallsOf(cs, d1)[|cs| - 1] == Call(f, d1);
    OnceNotKept(cs, d2);
  }

  /** No call made by a later trigger goes to the last entry when that entry
    * was registered with `once`. */
  lemma OnceNotKept(cs: seq<Listener>, data: JsValue)
    requires WellFormedCallbacks(cs) && |cs| > 0 && cs[|cs| - 1].once
    ensures forall c :: c in CallsOf(Persistent(cs), data) ==> c.cb.source != cs[|cs| - 1].key
  {
    var p := Persistent(cs);
    PersistentMembers(cs);
    forall c | c in CallsOf(p, data) ensures c.cb.source != cs[|cs| - 1].key {
      var i :| 0 <= i < |p| && CallsOf(p, data)[i] == c;
      assert p[i] in cs && !p[i].once;
      var j :| 0 <= j < |cs| && cs[j] == p[i];
      assert cs[j].key != cs[|cs| - 1].key;
    }
  }

  /** A trigger keeps exactly the listeners not registered with `once`, and
    * triggering again makes the same calls minus those. */
  lemma {:induction false} TriggerKeepsPersistent(events: Events, event: string, d1: JsValue, d2: JsValue)
    requires event in events
    ensures var (e2, c1) := TriggerSpec(events, Str(event), d1);
      && (forall l :: l in e2[event] <==> l in events[event] && !l.once)
      && TriggerSpec(e2, Str(event), d2).1 == CallsOf(Persistent(events[event]), d2)
      && |c1| == |events[event]|
  {
    PersistentMembers(events[event]);
  }

  /** Persistent of a concatenation: used by the trigger loop. */
  lemma {:induction false} PersistentAppend(a: seq<Listener>, l: Listener)
    ensures Persistent(a + [l]) == Persistent(a) + (if l.once then [] else [l])
    decreases |a|
  {
    if |a| == 0 {
      assert a + [l] == [l];
    } else {
      assert (a + [l])[1..] == a[1..] + [l];
      PersistentAppend(a[1..], l);
    }
  }

  lemma {:induction false} CallsAppend(a: seq<Listener>, l: Listener, data: JsValue)
    ensures CallsOf(a + [l], data) == CallsOf(a, data) + [Call(l.cb, data)]
  {
  }

  /** Removing the key at the head of the unvisited suffix, as `trigger` does
    * for a `once` entry. */
  lemma {:induction false} WithoutAtBoundary(p: seq<Listener>, rest: seq<Listener>)
    requires |rest| > 0
    requires WellFormedCallbacks(p + rest)
    ensures Without(p + rest, rest[0].key) == p + rest[1..]
    decreases |p|
  {
    var k := rest[0].key;
    if |p| == 0 {
      assert p + rest == rest;
      assert !HasKey(rest[1..], k);
      WithoutMembers(rest[1..], k);
      assert p + rest == rest;
    } else {
      assert (p + rest)[0] == p[0];
      assert p[0].key != k by {
        assert (p + rest)[|p|] == rest[0];
      }
      assert (p + rest)[1..] == p[1..] + rest;
      WithoutAtBoundary(p[1..], rest);
      assert p + rest[1..] == [p[0]] + (p[1..] + rest[1..]);
    }
  }

  /** In the middle of a trigger the visited prefix has lost its `once`
    * entries; what remains is still well formed. */
  lemma {:induction false} PersistentPrefixWellFormed(a: seq<Listener>, b: seq<Listener>)
    requires WellFormedCallbacks(a + b)
    ensures WellFormedCallbacks(Persistent(a) + b)
    decreases |a|
  {
    if |a| == 0 {
      assert a + b == b;
    } else {
      var s := a + b;
      assert s[1..] == a[1..] + b;
      assert s[0] == a[0];
      TailWellFormed(s);
      PersistentPrefixWellFormed(a[1..], b);
      if a[0].once {
        assert Persistent(a) + b == Persistent(a[1..]) + b;
      } else {
        PersistentMembers(a[1..]);
        var p := Persistent(a[1..]) + b;
        forall y | y in p ensures y.key != a[0].key {
          assert y in s[1..];
        }
        ConsWellFormed(a[0], p);
        assert Persistent(a) + b == [a[0]] + p;
      }
    }
  }

  /** The tail of a well-formed sequence is well formed and avoids the head's key. */
  lemma TailWellFormed(s: seq<Listener>)
    requires WellFormedCallbacks(s) && |s| > 0
    ensures WellFormedCallbacks(s[1..])
    ensures forall y :: y in s[1..] ==> y.key != s[0].key
  {
    forall y | y in s[1..] ensures y.key != s[0].key {
      var k :| 0 <= k < |s[1..]| && s[1..][k] == y;
      assert s[k + 1] == y;
    }
  }

  lemma ConsWellFormed(x: Listener, p: seq<Listener>)
    requires WellFormedCallbacks(p) && x.key == x.cb.source
    requires forall y :: y in p ==> y.key != x.key
    ensures WellFormedCallbacks([x] + p)
  {
    var q := [x] + p;
    forall i, j | 0 <= i < j < |q| ensures q[i].key != q[j].key {
      assert q[j] == p[j - 1];
      if i > 0 {
        assert q[i] == p[i - 1];
      } else {
        assert q[j] in p;
      }
    }
  }

  /** One step of the trigger loop: the registry of the event before and
    * after visiting entry `i`, and the calls made so far. */
  lemma TriggerStep(cs: seq<Listener>, i: nat, data: JsValue)
    requires i < |cs| && WellFormedCallbacks(cs)
    ensures WellFormedCallbacks(Midway(cs, i))
    ensures WellFormedCallbacks(Midway(cs, i + 1))
    ensures CallsOf(cs[..i + 1], data) == CallsOf(cs[..i], data) + [Call(cs[i].cb, data)]
    ensures cs[i].once ==>
      Without(Midway(cs, i), cs[i].cb.source) == Midway(cs, i + 1)
    ensures !cs[i].once ==>
      Midway(cs, i) == Midway(cs, i + 1)
  {
    SplitWellFormed(cs, i);
    SplitWellFormed(cs, i + 1);
    assert CallsOf(cs[..i + 1], data) == CallsOf(cs[..i], data) + [Call(cs[i].cb, data)] by {
      assert cs[..i + 1] == cs[..i] + [cs[i]];
      CallsAppend(cs[..i], cs[i], data);
    }
    TriggerStepRegistry(cs, i);
  }

  /** Cutting the event's entries at `i` and dropping the `once` entries
    * before the cut keeps them well formed. */
  lemma SplitWellFormed(cs: seq<Listener>, i: nat)
    requires i <= |cs| && WellFormedCallbacks(cs)
    ensures WellFormedCallbacks(Midway(cs, i))
  {
    assert cs[..i] + cs[i..] == cs;
    PersistentPrefixWellFormed(cs[..i], cs[i..]);
  }

  /** Visiting entry `i` removes it when it is a `once` entry and otherwise
    * moves the cut past it. */
  lemma TriggerStepRegistry(cs: seq<Listener>, i: nat)
    requires i < |cs| && WellFormedCallbacks(cs)
    ensures cs[i].once ==>
      Without(Midway(cs, i), cs[i].cb.source) == Midway(cs, i + 1)
    ensures !cs[i].once ==>
      Midway(cs, i) == Midway(cs, i + 1)
  {
    var l := cs[i];
    assert cs[..i + 1] == cs[..i] + [l];
    PersistentAppend(cs[..i], l);
    assert cs[i..] == [l] + cs[i + 1..];
    if l.once {
      SplitWellFormed(cs, i);
      assert l.cb.source == cs[i..][0].key;
      WithoutAtBoundary(Persistent(cs[..i]), cs[i..]);
    }
  }

  /** The registry around one step of the trigger loop: entry `i` of the
    * event has just been called, and a `once` entry is then taken out. */
  lemma TriggerRegistryStep(events: Events, name: string, i: nat, data: JsValue)
    requires WellFormed(events) && name in events && i < |events[name]|
    ensures var cs := events[name];
      var cur := events[name := Midway(cs, i)];
      var next := events[name := Midway(cs, i + 1)];
      && WellFormed(cur) && WellFormed(next)
      && (cs[i].once ==> OffSpec(cur, Str(name), Fun(cs[i].cb)) == next)
      && (!cs[i].once ==> cur == next)
      && CallsOf(cs[..i + 1], data) == CallsOf(cs[..i], data) + [Call(cs[i].cb, data)]
  {
    var cs := events[name];
    TriggerStep(cs, i, data);
    var cur := events[name := Midway(cs, i)];
    var next := events[name := Midway(cs, i + 1)];
    assert WellFormed(cur) by {
      forall e | e in cur ensures WellFormedCallbacks(cur[e]) {
        if e != name { assert cur[e] == events[e]; }
      }
    }
    assert WellFormed(next) by {
      forall e | e in next ensures WellFormedCallbacks(next[e]) {
        if e != name { assert next[e] == events[e]; }
      }
    }
  }

  /** The calls made so far, extended by the call to entry `i`. */
  lemma CallsStep(made: seq<Call>, cs: seq<Listener>, i: nat, data: JsValue)
    requires i < |cs|
    ensures made + CallsOf(cs[..i], data) + [Call(cs[i].cb, data)] == made + CallsOf(cs[..i + 1], data)
  {
    assert cs[..i + 1] == cs[..i] + [cs[i]];
    CallsAppend(cs[..i], cs[i], data);
  }

  class Emitter {
    var events: Events
    var calls: seq<Call>

    ghost predicate Valid()
      reads this
    {
      WellFormed(events)
    }

    constructor()
      ensures Valid() && events == map[] && calls == []
    {
      events := map[];
      calls := [];
    }

    /** bullet.js lines 6-35. */
    method On(event: JsValue, fn: JsValue, once: JsValue)
      requires Valid()
      modifies this
      ensures Valid()
      ensures events == OnSpec(old(events), event, fn, once) && calls == old(calls)
    {
      OnWellFormed(events, event, fn, once);
      if !event.Str? || !fn.Fun? {
        return;
      }
      var key := fn.f.source;
      var l := Listener(key, fn.f, Truthy(once));
      if event.s in events {
        var cs := events[event.s];
        if Lookup(cs, key).None? {
          OnNewKey(events, event.s, fn.f, once);
          events := events[event.s := cs + [l]];
        } else if once.Bool? {
          OnExistingKey(events, event.s, fn.f, once.b);
          events := events[event.s := SetOnce(cs, key, once.b)];
        } else {
          OnExistingKeepsOnce(events, event.s, fn.f, once);
        }
      } else {
        OnNewKey(events, event.s, fn.f, once);
        assert [] + [l] == [l];
        events := events[event.s := [l]];
      }
    }

    /** bullet.js lines 37-39. */
    method Once(event: JsValue, fn: JsValue)
      requires Valid()
      modifies this
      ensures Valid()
      ensures events == OnSpec(old(events), event, fn, Bool(true)) && calls == old(calls)
    {
      On(event, fn, Bool(true));
    }

    /** bullet.js lines 41-60. */
    method Off(event: JsValue, fn: JsValue)
      requires Valid()
      modifies this
      ensures Valid()
      ensures events == OffSpec(old(events), event, fn) && calls == old(calls)
    {
      OffWellFormed(events, event, fn);
      if !event.Str? || event.s !in events {
        return;
      }
      if fn.Fun? {
        events := events[event.s := Without(events[event.s], fn.f.source)];
      } else {
        events := events - {event.s};
      }
    }

    /** One step of `trigger`: the entry's callback is invoked and a `once`
      * entry is then removed with `off`. */
    method Fire(name: string, l: Listener, data: JsValue)
      requires Valid()
      modifies this
      ensures Valid()
      ensures calls == old(calls) + [Call(l.cb, data)]
      ensures events == if l.once then OffSpec(old(events), Str(name), Fun(l.cb)) else old(events)
    {
      calls := calls + [Call(l.cb, data)];
      if l.once {
        Off(Str(name), Fun(l.cb));
      }
    }

    /** bullet.js lines 62-72: every entry is invoked in enumeration order and
      * each `once` entry is removed with `off` right after its call. */
    method Trigger(event: JsValue, data: JsValue)
      requires Valid()
      modifies this
      ensures Valid()
      ensures var (evs, made) := TriggerSpec(old(events), event, data);
        events == evs && calls == old(calls) + made
    {
      if !event.Str? || event.s !in events {
        assert old(calls) + [] == old(calls);
        return;
      }
      Visit(event.s, data);
    }

    /** The loop of `trigger` over the entries of an event that has some. */
    method Visit(name: string, data: JsValue)
      requires Valid() && name in events
      modifies this
      ensures Valid()
      ensures events == old(events)[name := Persistent(old(events)[name])]
      ensures calls == old(calls) + CallsOf(old(events)[name], data)
    {
      var cs := events[name];
      var i := 0;
      MidwayEnds(cs);
      while i < |cs|
        invariant 0 <= i <= |cs|
        invariant Valid()
        invariant events == old(events)[name := Midway(cs, i)]
        invariant calls == old(calls) + CallsOf(cs[..i], data)
      {
        TriggerRegistryStep(old(events), name, i, data);
        CallsStep(old(calls), cs, i, data);
        Fire(name, cs[i], data);
        i := i + 1;
      }
      assert cs[..i] == cs;
    }
  }
}
