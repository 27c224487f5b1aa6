/** Values shared by both versions of the deferred list observer: the events
    it produces, the record of observer calls that stands in for calling the
    observer functions, and the specification of the two ways events reach
    observers (live dispatch to every registered observer, and history replay
    to one newly added observer). */
module Events {

  /** An observer function is identified by the caller; the same identifier
      may be registered more than once, exactly as the same Python callable
      may be appended twice to the observer list. */
  type ObserverId = nat

  /** The (index, success, value) triple handed to observers. */
  datatype Event<V> = Event(index: nat, success: bool, value: V)

  /** One call `observer(index, success, value)`. */
  datatype Delivery<V> = Delivery(observer: ObserverId, event: Event<V>)

  /** The error raised when history replay is requested but not kept. */
  datatype ObserveError = UnavailableHistory

  datatype Outcome<E> = Pass | Fail(error: E)

  datatype Option<T> = None | Some(value: T)

  /** The calls made when one event is dispatched to the observer list:
      one per registered observer, in registration order. */
  function Broadcast<V>(observers: seq<ObserverId>, e: Event<V>): (r: seq<Delivery<V>>)
    ensures |r| == |observers|
    ensures forall k :: 0 <= k < |r| ==> r[k] == Delivery(observers[k], e)
  {
    if observers == [] then []
    else Broadcast(observers[..|observers| - 1], e) + [Delivery(observers[|observers| - 1], e)]
  }

  /** The calls made when a history is replayed to observer `f`: one per
      event, in the order the events fired. */
  function Replay<V>(f: ObserverId, events: seq<Event<V>>): (r: seq<Delivery<V>>)
    ensures |r| == |events|
    ensures forall k :: 0 <= k < |r| ==> r[k] == Delivery(f, events[k])
  {
    if events == [] then []
    else Replay(f, events[..|events| - 1]) + [Delivery(f, events[|events| - 1])]
  }

  /** How many times `o` occurs in the observer list, that is, how many
      calls it gets for each dispatched event. */
  function Registrations(observers: seq<ObserverId>, o: ObserverId): (n: nat)
    ensures n <= |observers|
  {
    if observers == [] then 0
    else Registrations(observers[..|observers| - 1], o) + (if observers[|observers| - 1] == o then 1 else 0)
  }

  /** The events observer `o` was called with, in call order. */
  function DeliveredTo<V>(log: seq<Delivery<V>>, o: ObserverId): (r: seq<Event<V>>)
    ensures |r| <= |log|
    ensures r == [] <==> forall k :: 0 <= k < |log| ==> log[k].observer != o
  {
    if log == [] then []
    else
      var last := log[|log| - 1];
      var before := DeliveredTo(log[..|log| - 1], o);
      if last.observer == o then before + [last.event] else before
  }

  /** The number of successful events in a sequence of events. */
  function SuccessCount<V>(events: seq<Event<V>>): (n: nat)
    ensures n <= |events|
  {
    if events == [] then 0
    else SuccessCount(events[..|events| - 1]) + (if events[|events| - 1].success then 1 else 0)
  }

  /** The indices that occur in a sequence of events. */
  ghost function Indices<V>(events: seq<Event<V>>): set<nat>
  {
    if events == [] then {}
    else Indices(events[..|events| - 1]) + {events[|events| - 1].index}
  }

  /** No index occurs twice: every deferred fires at most once. */
  ghost predicate DistinctIndices<V>(events: seq<Event<V>>)
  {
    events != [] ==>
      var init := events[..|events| - 1];
      DistinctIndices(init) && events[|events| - 1].index !in Indices(init)
  }

  /** `Registrations` is the multiplicity of `o` in the observer list. */
  lemma {:induction false} RegistrationsIsMultiplicity(observers: seq<ObserverId>, o: ObserverId)
    ensures Registrations(observers, o) == multiset(observers)[o]
    decreases |observers|
  {
    if observers != [] {
      var init := observers[..|observers| - 1];
      RegistrationsIsMultiplicity(init, o);
      assert init + [observers[|observers| - 1]] == observers;
    }
  }

  /** `SuccessCount` is the number of positions holding a successful event. */
  lemma {:induction false} SuccessCountCountsPositions<V>(events: seq<Event<V>>)
    ensures SuccessCount(events) == |set k | 0 <= k < |events| && events[k].success|
    decreases |events|
  {
    if events != [] {
      var n := |events| - 1;
      var init := events[..n];
      SuccessCountCountsPositions(init);
      var before := set k | 0 <= k < |init| && init[k].success;
      var all := set k | 0 <= k < |events| && events[k].success;
      assert all == before + (if events[n].success then {n} else {});
    }
  }

  /** An observer's view of the call log has one event per call made to it. */
  lemma {:induction false} DeliveredToCountsCalls<V>(log: seq<Delivery<V>>, o: ObserverId)
    ensures |DeliveredTo(log, o)| == |set k | 0 <= k < |log| && log[k].observer == o|
    decreases |log|
  {
    if log != [] {
      DeliveredToCountsCalls(log[..|log| - 1], o);
      CallsToSnoc(log, o);
    }
  }

  /** The positions of calls to `o` in a non-empty log are those in all but
      its last call, plus the last position when that call is to `o`. */
  lemma CallsToSnoc<V>(log: seq<Delivery<V>>, o: ObserverId)
    requires log != []
    ensures var n := |log| - 1;
      |set k | 0 <= k < |log| && log[k].observer == o|
      == |set k | 0 <= k < n && log[..n][k].observer == o| + (if log[n].observer == o then 1 else 0)
  {
    var n := |log| - 1;
    var before := set k | 0 <= k < n && log[..n][k].observer == o;
    var all := set k | 0 <= k < |log| && log[k].observer == o;
    assert all == before + (if log[n].observer == o then {n} else {});
  }

  /** Distinct indices: as many indices as events. */
  lemma {:induction false} DistinctIndicesCount<V>(events: seq<Event<V>>)
    requires DistinctIndices(events)
    ensures |Indices(events)| == |events|
    decreases |events|
  {
    if events != [] {
      DistinctIndicesCount(events[..|events| - 1]);
    }
  }

  /** Splitting the call log splits each observer's view of it. */
  lemma {:induction false} DeliveredToConcat<V>(a: seq<Delivery<V>>, b: seq<Delivery<V>>, o: ObserverId)
    ensures DeliveredTo(a + b, o) == DeliveredTo(a, o) + DeliveredTo(b, o)
    decreases |b|
  {
    if b == [] {
      assert a + b == a;
    } else {
      var b' := b[..|b| - 1];
      assert (a + b)[..|a + b| - 1] == a + b';
      DeliveredToConcat(a, b', o);
    }
  }

  /** A dispatched event reaches observer `o` once per registration of `o`,
      so exactly once when `o` is registered once and never when it is not
      registered. */
  lemma {:induction false} DeliveredToBroadcast<V>(observers: seq<ObserverId>, e: Event<V>, o: ObserverId)
    ensures DeliveredTo(Broadcast(observers, e), o) == seq(Registrations(observers, o), _ => e)
    decreases |observers|
  {
    if observers != [] {
      var init := observers[..|observers| - 1];
      DeliveredToBroadcast(init, e, o);
      var n := Registrations(init, o);
      assert seq(n + 1, _ => e) == seq(n, _ => e) + [e];
    }
  }

  /** A replay reaches only the observer it is for, and that observer sees
      exactly the replayed events, in order. */
  lemma {:induction false} DeliveredToReplay<V>(f: ObserverId, events: seq<Event<V>>, o: ObserverId)
    ensures DeliveredTo(Replay(f, events), o) == if o == f then events else []
    decreases |events|
  {
    if events != [] {
      var init := events[..|events| - 1];
      DeliveredToReplay(f, init, o);
      assert init + [events[|events| - 1]] == events;
    }
  }

}
