/**
 The event hub of the mock socket service: a record from event name to the
 list of callbacks registered under it, with `on` (subscribe, returning an
 unsubscribe handle), the handle itself, and `emit` (synchronous fan-out).

 Callbacks are opaque values that the hub only compares for equality, so they
 are modelled as ids. A subscription is identified by its callback VALUE: the
 unsubscribe handle removes the first list entry equal to its callback.
 */
module EventHub {

  /** An opaque callback; two registrations of the same function share an id. */
  type CallbackId = nat

  /** The `callbacks` record: event name to registered callbacks, in registration order. */
  type Registry = map<string, seq<CallbackId>>

  const SalesUpdate: string := "sales-update"
  const TrafficUpdate: string := "traffic-update"
  const UsersUpdate: string := "users-update"
  const RevenueUpdate: string := "revenue-update"

  /** The four channels the registry is pre-populated with. */
  function Channels(): set<string> {
    {SalesUpdate, TrafficUpdate, UsersUpdate, RevenueUpdate}
  }

  /** The registry at start-up: every channel present with an empty list. */
  function InitialRegistry(): (reg: Registry)
    ensures reg.Keys == Channels()
    ensures forall e :: e in reg ==> reg[e] == []
  {
    map[SalesUpdate := [], TrafficUpdate := [], UsersUpdate := [], RevenueUpdate := []]
  }

  /** The list registered under `event`; an absent event has no callbacks. */
  function ListOf(reg: Registry, event: string): seq<CallbackId> {
    if event in reg then reg[event] else []
  }

  /** `Array.prototype.indexOf`: the first position of `cb`, or -1 when it is absent. */
  function IndexOf(s: seq<CallbackId>, cb: CallbackId): (i: int)
    ensures -1 <= i < |s|
    ensures i == -1 <==> cb !in s
    ensures 0 <= i ==> s[i] == cb && cb !in s[..i]
  {
    if s == [] then -1
    else if s[0] == cb then 0
    else
      var j := IndexOf(s[1..], cb);
      if j == -1 then -1
      else
        assert s[..j + 1] == [s[0]] + s[1..][..j];
        j + 1
  }

  /** `splice(indexOf(cb), 1)` guarded by `indexOf(cb) !== -1`: drop the first `cb`, if any. */
  function RemoveFirst(s: seq<CallbackId>, cb: CallbackId): (r: seq<CallbackId>)
    ensures cb !in s ==> r == s
    ensures cb in s ==> |r| == |s| - 1
    ensures multiset(r) == multiset(s) - multiset{cb}
  {
    var i := IndexOf(s, cb);
    if i == -1 then s
    else
      assert s == s[..i] + [cb] + s[i + 1..];
      s[..i] + s[i + 1..]
  }

  /** Removing the first `cb` from `a + [cb] + b`, where `a` holds no `cb`, leaves `a + b`. */
  lemma RemoveFirstOfSplit(a: seq<CallbackId>, cb: CallbackId, b: seq<CallbackId>)
    requires cb !in a
    ensures RemoveFirst(a + [cb] + b, cb) == a + b
  {
    var s := a + [cb] + b;
    assert s[|a|] == cb;
    var i := IndexOf(s, cb);
    assert i == |a|;
    assert s[..i] == a;
    assert s[i + 1..] == b;
  }

  /** The registry after `on(event, cb)`. */
  function Subscribed(reg: Registry, event: string, cb: CallbackId): (r: Registry)
    ensures r.Keys == reg.Keys + {event}
    ensures ListOf(r, event) == ListOf(reg, event) + [cb]
    ensures forall e :: e != event ==> ListOf(r, e) == ListOf(reg, e)
  {
    reg[event := ListOf(reg, event) + [cb]]
  }

  /** The registry after calling the handle that `on(event, cb)` returned. */
  function Unsubscribed(reg: Registry, event: string, cb: CallbackId): (r: Registry)
    requires event in reg
    ensures r.Keys == reg.Keys
    ensures ListOf(r, event) == RemoveFirst(reg[event], cb)
    ensures forall e :: e != event ==> ListOf(r, e) == ListOf(reg, e)
  {
    reg[event := RemoveFirst(reg[event], cb)]
  }

  /** One invocation of a callback with the emitted payload. */
  datatype Call<P> = Call(callback: CallbackId, payload: P)

  /** The invocations `list.forEach(callback => callback(payload))` performs. */
  function Deliveries<P>(list: seq<CallbackId>, payload: P): (calls: seq<Call<P>>)
    ensures |calls| == |list|
    ensures forall i :: 0 <= i < |list| ==> calls[i] == Call(list[i], payload)
  {
    if list == [] then [] else [Call(list[0], payload)] + Deliveries(list[1..], payload)
  }

  /** A callback is invoked once per list entry holding it: twice if registered twice, never if absent. */
  lemma {:induction false} DeliveryMultiplicity<P>(list: seq<CallbackId>, payload: P, cb: CallbackId)
    ensures multiset(Deliveries(list, payload))[Call(cb, payload)] == multiset(list)[cb]
  {
    if list != [] {
      DeliveryMultiplicity(list[1..], payload, cb);
      assert list == [list[0]] + list[1..];
      assert Deliveries(list, payload) == [Call(list[0], payload)] + Deliveries(list[1..], payload);
    }
  }

  /** Emitting an event that has no list invokes nothing. */
  lemma EmitUnknownIsSilent<P>(reg: Registry, event: string, payload: P)
    requires event !in reg
    ensures Deliveries(ListOf(reg, event), payload) == []
  {
  }

  /** `on` adds exactly one delivery of `cb` to the event, after every earlier one. */
  lemma SubscribeDeliversLast<P>(reg: Registry, event: string, cb: CallbackId, payload: P)
    ensures Deliveries(ListOf(Subscribed(reg, event, cb), event), payload)
         == Deliveries(ListOf(reg, event), payload) + [Call(cb, payload)]
  {
  }

  /** The handle removes exactly the first registration of its callback and keeps the others in order. */
  lemma {:induction false} UnsubscribeRemovesFirst(reg: Registry, event: string, a: seq<CallbackId>, cb: CallbackId, b: seq<CallbackId>)
    requires event in reg && reg[event] == a + [cb] + b
    requires cb !in a
    ensures ListOf(Unsubscribed(reg, event, cb), event) == a + b
  {
    RemoveFirstOfSplit(a, cb, b);
  }

  /** Calling a handle whose callback is no longer registered changes nothing. */
  lemma UnsubscribeAbsentIsNoOp(reg: Registry, event: string, cb: CallbackId)
    requires event in reg && cb !in reg[event]
    ensures Unsubscribed(reg, event, cb) == reg
  {
  }

  /**
   A second call of the same handle removes a further entry exactly when the
   callback was registered more than once: idempotent only for single registrations.
   */
  lemma UnsubscribeTwice(reg: Registry, event: string, cb: CallbackId)
    requires event in reg
    ensures Unsubscribed(Unsubscribed(reg, event, cb), event, cb) == Unsubscribed(reg, event, cb)
        <==> multiset(reg[event])[cb] <= 1
  {
  }

  /** `on` followed by its own handle restores the list when the callback was not registered before. */
  lemma {:induction false} SubscribeUnsubscribeRoundTrip(reg: Registry, event: string, cb: CallbackId)
    requires cb !in ListOf(reg, event)
    ensures Unsubscribed(Subscribed(reg, event, cb), event, cb) == reg[event := ListOf(reg, event)]
  {
    var list := ListOf(reg, event);
    var sub := Subscribed(reg, event, cb);
    assert RemoveFirst(sub[event], cb) == list by {
      assert sub[event] == list + [cb] + [];
      RemoveFirstOfSplit(list, cb, []);
      assert list + [] == list;
    }
    calc {
      Unsubscribed(sub, event, cb);
      sub[event := list];
      reg[event := list + [cb]][event := list];
      reg[event := list];
    }
  }

  /**
   When the callback was already registered, the new handle removes the OLDER
   entry: the callback moves to the end of the list instead of disappearing.
   */
  lemma {:induction false} ResubscribeHandleRemovesOlder(reg: Registry, event: string, a: seq<CallbackId>, cb: CallbackId, b: seq<CallbackId>)
    requires event in reg && reg[event] == a + [cb] + b
    requires cb !in a
    ensures ListOf(Unsubscribed(Subscribed(reg, event, cb), event, cb), event) == a + b + [cb]
  {
    var sub := Subscribed(reg, event, cb);
    assert sub[event] == a + [cb] + (b + [cb]);
    RemoveFirstOfSplit(a, cb, b + [cb]);
    assert a + (b + [cb]) == a + b + [cb];
  }

  /** Two callbacks on "sales-update", the first unsubscribed: one emit reaches only the second, once. */
  lemma TwoSubscribersScenario<P>(first: CallbackId, second: CallbackId, payload: P)
    requires first != second
    ensures
      var reg := Subscribed(Subscribed(InitialRegistry(), SalesUpdate, first), SalesUpdate, second);
      Deliveries(ListOf(Unsubscribed(reg, SalesUpdate, first), SalesUpdate), payload) == [Call(second, payload)]
  {
  }

  /** What `on` returns: calling it is `Hub.Unsubscribe(handle)`. */
  datatype Handle = Handle(event: string, callback: CallbackId)

  class Hub {
    var callbacks: Registry

    /** The pre-populated channels are never lost. */
    ghost predicate Valid()
      reads this
    {
      Channels() <= callbacks.Keys
    }

    constructor ()
      ensures Valid()
      ensures callbacks == InitialRegistry()
    {
      callbacks := InitialRegistry();
    }

    /** `on(event, cb)`: create the list if missing, append `cb`, hand back the unsubscribe handle. */
    method On(event: string, cb: CallbackId) returns (handle: Handle)
      requires Valid()
      modifies this
      ensures Valid()
      ensures callbacks == Subscribed(old(callbacks), event, cb)
      ensures handle == Handle(event, cb) && handle.event in callbacks
    {
      if event !in callbacks {
        callbacks := callbacks[event := []];
      }
      callbacks := callbacks[event := callbacks[event] + [cb]];
      handle := Handle(event, cb);
    }

    /** Invoke the handle: `indexOf` the callback and `splice` it out when found. */
    method Unsubscribe(handle: Handle)
      requires Valid() && handle.event in callbacks
      modifies this
      ensures Valid()
      ensures callbacks == Unsubscribed(old(callbacks), handle.event, handle.callback)
    {
      var list := callbacks[handle.event];
      var index := IndexOf(list, handle.callback);
      if index != -1 {
        callbacks := callbacks[handle.event := list[..index] + list[index + 1..]];
      }
    }

    /** `emit(event, payload)`: invoke every registered callback in list order; nothing for an unknown event. */
    method Emit<P>(event: string, payload: P) returns (calls: seq<Call<P>>)
      ensures calls == Deliveries(ListOf(callbacks, event), payload)
    {
      calls := [];
      if event in callbacks {
        var list := callbacks[event];
        var i := 0;
        while i < |list|
          invariant 0 <= i <= |list|
          invariant |calls| == i
          invariant forall k :: 0 <= k < i ==> calls[k] == Call(list[k], payload)
        {
          calls := calls + [Call(list[i], payload)];
          i := i + 1;
        }
      }
    }
  }

  /** A client of the class: the two-subscriber scenario, through the methods. */
  method TwoSubscribersOnHub(first: CallbackId, second: CallbackId) returns (calls: seq<Call<int>>)
    requires first != second
    ensures calls == [Call(second, 7)]
  {
    var hub := new Hub();
    var h1 := hub.On(SalesUpdate, first);
    var h2 := hub.On(SalesUpdate, second);
    hub.Unsubscribe(h1);
    calls := hub.Emit(SalesUpdate, 7);
    TwoSubscribersScenario(first, second, 7);
  }
}
