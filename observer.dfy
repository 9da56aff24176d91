/**
 * `observeBatteryChange` (index.js:77-87): the callback is registered on the
 * battery for `dischargingtimechange` and `levelchange`, called once, and a
 * disposer is returned that removes both registrations.
 *
 * The battery's listeners are a registry from event type to a set of
 * callbacks (an `EventTarget` ignores a second registration of the same
 * callback for the same type, and removing an absent one does nothing).
 */
module Observer {

  /** The four events a `BatteryManager` fires. */
  datatype EventType = ChargingChange | ChargingTimeChange | DischargingTimeChange | LevelChange

  /** A callback, known by its identity. */
  datatype Callback = Callback(id: nat)

  type Registry = map<EventType, set<Callback>>

  /** The callbacks registered for `t`; a type never registered has none. */
  function Listeners(r: Registry, t: EventType): set<Callback> {
    if t in r then r[t] else {}
  }

  /** Two registries that deliver every event to the same callbacks. */
  ghost predicate SameListeners(r: Registry, s: Registry) {
    forall t :: Listeners(r, t) == Listeners(s, t)
  }

  /** `addEventListener(t, cb)` on the registry. */
  function AddListener(r: Registry, t: EventType, cb: Callback): (r': Registry)
    ensures cb in Listeners(r', t)
    ensures forall u, c :: c in Listeners(r', u) <==> c in Listeners(r, u) || (u == t && c == cb)
  {
    r[t := Listeners(r, t) + {cb}]
  }

  /** `removeEventListener(t, cb)` on the registry. */
  function RemoveListener(r: Registry, t: EventType, cb: Callback): (r': Registry)
    ensures cb !in Listeners(r', t)
    ensures forall u, c :: c in Listeners(r', u) <==> c in Listeners(r, u) && (u != t || c != cb)
  {
    r[t := Listeners(r, t) - {cb}]
  }

  /** The two event types `observeBatteryChange` listens to. */
  predicate Observed(t: EventType) {
    t == DischargingTimeChange || t == LevelChange
  }

  /** index.js:79-80 on the registry. */
  function Subscribe(r: Registry, cb: Callback): (r': Registry)
    ensures forall t, c :: c in Listeners(r', t) <==> c in Listeners(r, t) || (c == cb && Observed(t))
  {
    AddListener(AddListener(r, DischargingTimeChange, cb), LevelChange, cb)
  }

  /** index.js:84-85 on the registry. */
  function Unsubscribe(r: Registry, cb: Callback): (r': Registry)
    ensures forall t, c :: c in Listeners(r', t) <==> c in Listeners(r, t) && (c != cb || !Observed(t))
  {
    RemoveListener(RemoveListener(r, DischargingTimeChange, cb), LevelChange, cb)
  }

  /**
   * Disposing right after observing gives back the registry as it was, provided
   * the callback was not already listening to the two observed types.
   */
  lemma UnsubscribeUndoesSubscribe(r: Registry, cb: Callback)
    requires cb !in Listeners(r, DischargingTimeChange) && cb !in Listeners(r, LevelChange)
    ensures SameListeners(Unsubscribe(Subscribe(r, cb), cb), r)
  {
    forall t ensures Listeners(Unsubscribe(Subscribe(r, cb), cb), t) == Listeners(r, t) {
      var s := Unsubscribe(Subscribe(r, cb), cb);
      assert forall c :: c in Listeners(s, t) <==> c in Listeners(r, t);
    }
  }

  /** Disposing twice is the same as disposing once. */
  lemma UnsubscribeIdempotent(r: Registry, cb: Callback)
    ensures SameListeners(Unsubscribe(Unsubscribe(r, cb), cb), Unsubscribe(r, cb))
  {
    forall t ensures Listeners(Unsubscribe(Unsubscribe(r, cb), cb), t) == Listeners(Unsubscribe(r, cb), t) {
      var s, s1 := Unsubscribe(Unsubscribe(r, cb), cb), Unsubscribe(r, cb);
      assert forall c :: c in Listeners(s, t) <==> c in Listeners(s1, t);
    }
  }

  /** Observing and disposing one callback leaves every other callback's registrations alone. */
  lemma OthersUntouched(r: Registry, cb: Callback, other: Callback, t: EventType)
    requires other != cb
    ensures other in Listeners(Subscribe(r, cb), t) <==> other in Listeners(r, t)
    ensures other in Listeners(Unsubscribe(r, cb), t) <==> other in Listeners(r, t)
  {
  }

  /**
   * The battery as an event target: its listener registry, and the record of
   * callback runs (by the direct call at index.js:81 and by event delivery).
   */
  class BatteryManager {
    var listeners: Registry
    var invocations: seq<Callback>

    constructor ()
      ensures listeners == map[] && invocations == []
    {
      listeners := map[];
      invocations := [];
    }

    method AddEventListener(t: EventType, cb: Callback)
      modifies this`listeners
      ensures listeners == AddListener(old(listeners), t, cb)
    {
      listeners := AddListener(listeners, t, cb);
    }

    method RemoveEventListener(t: EventType, cb: Callback)
      modifies this`listeners
      ensures listeners == RemoveListener(old(listeners), t, cb)
    {
      listeners := RemoveListener(listeners, t, cb);
    }

    /** Running a callback directly. */
    method Invoke(cb: Callback)
      modifies this`invocations
      ensures invocations == old(invocations) + [cb]
    {
      invocations := invocations + [cb];
    }

    /**
     * The host firing event `t`: every callback registered for `t` runs once,
     * in an order the model leaves open.
     */
    method DispatchEvent(t: EventType)
      modifies this`invocations
      ensures |invocations| >= |old(invocations)| && invocations[..|old(invocations)|] == old(invocations)
      ensures multiset(invocations[|old(invocations)|..]) == multiset(Listeners(listeners, t))
    {
      var pending := Listeners(listeners, t);
      ghost var start := |invocations|;
      while pending != {}
        invariant pending <= Listeners(listeners, t)
        invariant |invocations| >= start && invocations[..start] == old(invocations)
        invariant multiset(invocations[start..]) + multiset(pending) == multiset(Listeners(listeners, t))
        decreases pending
      {
        var cb :| cb in pending;
        assert multiset(pending) == multiset(pending - {cb}) + multiset{cb};
        assert invocations[start..] + [cb] == (invocations + [cb])[start..];
        invocations := invocations + [cb];
        pending := pending - {cb};
      }
    }
  }

  /** The function `observeBatteryChange` returns (index.js:83-86). */
  datatype Disposer = Disposer(battery: BatteryManager, callback: Callback)

  /** index.js:77-87: register on the two observed types, then call the callback once. */
  method ObserveBatteryChange(battery: BatteryManager, callback: Callback) returns (dispose: Disposer)
    modifies battery
    ensures battery.listeners == Subscribe(old(battery.listeners), callback)
    ensures battery.invocations == old(battery.invocations) + [callback]
    ensures dispose == Disposer(battery, callback)
  {
    battery.AddEventListener(DischargingTimeChange, callback);
    battery.AddEventListener(LevelChange, callback);
    battery.Invoke(callback);
    dispose := Disposer(battery, callback);
  }

  /** index.js:83-86: calling the disposer. */
  method Dispose(dispose: Disposer)
    modifies dispose.battery
    ensures dispose.battery.listeners == Unsubscribe(old(dispose.battery.listeners), dispose.callback)
    ensures dispose.battery.invocations == old(dispose.battery.invocations)
  {
    dispose.battery.RemoveEventListener(DischargingTimeChange, dispose.callback);
    dispose.battery.RemoveEventListener(LevelChange, dispose.callback);
  }

  /** How many times `cb` runs when event `t` reaches registry `r`. */
  function Deliveries(r: Registry, t: EventType, cb: Callback): (count: nat)
    ensures count <= 1
    ensures count == 1 <==> cb in Listeners(r, t)
  {
    multiset(Listeners(r, t))[cb]
  }

  /**
   * After observing, a level or discharging-time change runs the callback
   * exactly once, while the other two events do not run it unless it was
   * already registered for them; after disposing, neither observed event runs it.
   */
  lemma DeliveriesAfterObserving(r: Registry, cb: Callback, t: EventType)
    ensures Observed(t) ==> Deliveries(Subscribe(r, cb), t, cb) == 1
    ensures !Observed(t) ==> Deliveries(Subscribe(r, cb), t, cb) == Deliveries(r, t, cb)
    ensures Observed(t) ==> Deliveries(Unsubscribe(Subscribe(r, cb), cb), t, cb) == 0
  {
  }

  /** The runs recorded after `before`: the direct call, then two batches of dispatches. */
  lemma RunsAfter(before: seq<Callback>, cb: Callback, first: seq<Callback>, second: seq<Callback>)
    requires multiset(first)[cb] == 1 && multiset(second)[cb] == 0
    ensures (before + [cb] + first + second)[|before|..] == [cb] + first + second
    ensures multiset((before + [cb] + first + second)[|before|..])[cb] == 2
  {
    assert (before + [cb] + first + second)[|before|..] == [cb] + first + second;
  }

  /** A run of the host: observe, one level change, dispose, another level change. */
  method ObserveThenDispose(battery: BatteryManager, cb: Callback)
    modifies battery
    ensures battery.listeners == Unsubscribe(Subscribe(old(battery.listeners), cb), cb)
    ensures |battery.invocations| > |old(battery.invocations)| && battery.invocations[|old(battery.invocations)|] == cb
    ensures multiset(battery.invocations[|old(battery.invocations)|..])[cb] == 2
  {
    ghost var before, r := battery.invocations, battery.listeners;
    var dispose := ObserveBatteryChange(battery, cb);
    ghost var s1 := battery.invocations;
    battery.DispatchEvent(LevelChange);
    ghost var s2 := battery.invocations;
    ghost var first := s2[|s1|..];
    assert s2 == s1 + first;
    Dispose(dispose);
    battery.DispatchEvent(LevelChange);
    ghost var s3 := battery.invocations;
    ghost var second := s3[|s2|..];
    assert s3 == s2 + second;
    DeliveriesAfterObserving(r, cb, LevelChange);
    RunsAfter(before, cb, first, second);
  }
}
