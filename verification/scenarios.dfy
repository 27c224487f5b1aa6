/** The scenarios of the test suites, restated as client methods whose
    postconditions Dafny proves. Each method builds a fresh observer set,
    drives it the way the test drives the Python class, and promises in its
    postcondition what the test asserts.
    Observers are the identifiers 1 and 2; a deferred created with
    `succeed(v)` or `fail(v)` is `AppendResolved`, a bare `Deferred()` is
    `Append`, and firing it later is `Resolve`. */
module Scenarios {
  import opened Events
  import Dlo
  import LegacyDlo

  /** A new observer set counts nothing. */
  method EmptySetHasCountsZero() returns (successCount: int, failureCount: int, pendingCount: int)
    ensures successCount == 0 && failureCount == 0 && pendingCount == 0
  {
    var dlo := new Dlo.DeferredListObserver<int>();
    successCount, failureCount, pendingCount := dlo.successCount, dlo.failureCount, dlo.pendingCount;
  }

  /** A pending deferred counts as pending; once it fires (successfully or
      not) it counts as a success or a failure instead. */
  method AppendThenFire(success: bool) returns (pendingBefore: int, pendingAfter: int, successCount: int, failureCount: int)
    ensures pendingBefore == 1 && pendingAfter == 0
    ensures successCount == (if success then 1 else 0)
    ensures failureCount == (if success then 0 else 1)
  {
    var dlo := new Dlo.DeferredListObserver<int>();
    var index := dlo.Append();
    pendingBefore := dlo.pendingCount;
    var _ := dlo.Resolve(index, success, 42);
    pendingAfter, successCount, failureCount := dlo.pendingCount, dlo.successCount, dlo.failureCount;
  }

  /** An already fired deferred counts at once, and with history kept it
      is the one event in the history. */
  method AppendFiredSetsHistory<V>(success: bool, v: V)
    returns (successCount: int, failureCount: int, history: Option<seq<Event<V>>>)
    ensures successCount == (if success then 1 else 0)
    ensures failureCount == (if success then 0 else 1)
    ensures history == Some([Event(0, success, v)])
  {
    var dlo := new Dlo.DeferredListObserver<V>(true);
    var _, _ := dlo.AppendResolved(success, v);
    successCount, failureCount, history := dlo.successCount, dlo.failureCount, dlo.history;
  }

  /** Two observers both receive the event, in the order they were added;
      a failure reaches them the same way, with `success` false. */
  method ObserversCalledInOrder(success: bool) returns (log: seq<Delivery<int>>)
    ensures log == [Delivery(1, Event(0, success, 42)), Delivery(2, Event(0, success, 42))]
  {
    var dlo := new Dlo.DeferredListObserver<int>();
    var _ := dlo.Observe(1);
    var _ := dlo.Observe(2);
    var _, _ := dlo.AppendResolved(success, 42);
    log := dlo.deliveries;
  }

  /** Asking for a replay without a history fails and adds no observer. */
  method ReplayWithNoHistoryFails() returns (outcome: Outcome<ObserveError>, observers: seq<ObserverId>)
    ensures outcome == Fail(UnavailableHistory) && observers == []
  {
    var dlo := new Dlo.DeferredListObserver<int>(false);
    outcome := dlo.Observe(1, true);
    observers := dlo.observers;
  }

  /** An event that fired before the observer was added reaches it when
      history is replayed, and does not reach it otherwise. */
  method HistoryReplayedOnRequest(replay: bool) returns (log: seq<Delivery<int>>)
    ensures log == if replay then [Delivery(1, Event(0, true, 42))] else []
  {
    var dlo := OneSuccessWithHistory();
    var _ := dlo.Observe(1, replay);
    log := dlo.deliveries;
  }

  /** A history-keeping instance after one deferred has succeeded with 42,
      before any observer is added. */
  method OneSuccessWithHistory() returns (dlo: Dlo.DeferredListObserver<int>)
    ensures fresh(dlo) && dlo.Valid() && dlo.maintainHistory
    ensures dlo.observers == [] && dlo.deliveries == []
    ensures dlo.history == Some([Event(0, true, 42)])
  {
    dlo := new Dlo.DeferredListObserver<int>(true);
    var _, _ := dlo.AppendResolved(true, 42);
  }

  /** Three deferreds, the second fired when added, then the third and the
      first fired in that order: the history follows firing order, not
      append order. */
  method HistoryInFiringOrder() returns (history: Option<seq<Event<int>>>)
    ensures history == Some([Event(1, true, 2), Event(2, false, 3), Event(0, true, 1)])
  {
    var dlo, a, c := ThreeDeferreds();
    var _ := dlo.Resolve(c, false, 3);
    assert dlo.history.value == [Event(1, true, 2)] + [Event(2, false, 3)];
    var _ := dlo.Resolve(a, true, 1);
    assert dlo.history.value == [Event(1, true, 2), Event(2, false, 3)] + [Event(0, true, 1)]
                              == [Event(1, true, 2), Event(2, false, 3), Event(0, true, 1)];
    history := dlo.history;
  }

  /** The three deferreds of `HistoryInFiringOrder` before the first and
      third fire. */
  method ThreeDeferreds() returns (dlo: Dlo.DeferredListObserver<int>, a: nat, c: nat)
    ensures fresh(dlo) && dlo.Valid() && dlo.maintainHistory
    ensures a == 0 && c == 2 && a in dlo.pending && c in dlo.pending
    ensures dlo.history == Some([Event(1, true, 2)])
  {
    dlo := new Dlo.DeferredListObserver<int>(true);
    a := dlo.Append();
    var _, _ := dlo.AppendResolved(true, 2);
    c := dlo.Append();
  }

  /** The callback or errback of the observer set hands back the value
      the deferred fired with, unchanged, so later callbacks of the deferred
      see it. */
  method FiredValuePassedOn<V>(success: bool, v: V) returns (r: V)
    ensures r == v
  {
    var dlo := new Dlo.DeferredListObserver<V>();
    var index := dlo.Append();
    r := dlo.Resolve(index, success, v);
  }

  /** Four deferreds: the first fires last, the second and fourth fire as
      they are added, the third never fires. Events carry append indices
      but arrive in firing order. */
  method MultipleDeferreds() returns (log: seq<Delivery<int>>, successCount: int, pendingCount: int)
    ensures log == [Delivery(1, Event(1, true, 42)), Delivery(1, Event(3, true, 43)), Delivery(1, Event(0, true, 44))]
    ensures successCount == 3 && pendingCount == 1
  {
    var dlo, first := FourDeferreds();
    var _ := dlo.Resolve(first, true, 44);
    assert Broadcast([1], Event(0, true, 44)) == [Delivery(1, Event(0, true, 44))];
    log, successCount, pendingCount := dlo.deliveries, dlo.successCount, dlo.pendingCount;
  }

  /** The first part of `MultipleDeferreds`, up to the firing of the first deferred. */
  method FourDeferreds() returns (dlo: Dlo.DeferredListObserver<int>, first: nat)
    ensures fresh(dlo) && dlo.Valid() && first == 0 && first in dlo.pending
    ensures dlo.observers == [1]
    ensures dlo.deliveries == [Delivery(1, Event(1, true, 42)), Delivery(1, Event(3, true, 43))]
    ensures dlo.successCount == 2 && dlo.failureCount == 0 && dlo.pendingCount == 2
  {
    dlo, first := TwoDeferreds();
    var _ := dlo.Append();
    assert dlo.pendingCount == 2;
    var _, _ := dlo.AppendResolved(true, 43);
  }

  /** The first two deferreds of `MultipleDeferreds`: the first pending, the second fired. */
  method TwoDeferreds() returns (dlo: Dlo.DeferredListObserver<int>, first: nat)
    ensures fresh(dlo) && dlo.Valid() && first == 0 && first in dlo.pending
    ensures dlo.observers == [1]
    ensures dlo.deliveries == [Delivery(1, Event(1, true, 42))]
    ensures dlo.successCount == 1 && dlo.failureCount == 0 && dlo.pendingCount == 1
  {
    dlo := new Dlo.DeferredListObserver<int>();
    var _ := dlo.Observe(1);
    first := dlo.Append();
    var _, _ := dlo.AppendResolved(true, 42);
  }

  /** The same four deferreds on the earlier version, whose history is
      always kept: the history holds the events in firing order. */
  method LegacyMultipleDeferreds() returns (history: seq<Event<int>>, log: seq<Delivery<int>>, successCount: int, pendingCount: int)
    ensures history == [Event(1, true, 42), Event(3, true, 43), Event(0, true, 44)]
    ensures log == [Delivery(1, Event(1, true, 42)), Delivery(1, Event(3, true, 43)), Delivery(1, Event(0, true, 44))]
    ensures successCount == 3 && pendingCount == 1
  {
    var dlo, first := LegacyFourDeferreds();
    var _ := dlo.Resolve(first, true, 44);
    assert Broadcast([1], Event(0, true, 44)) == [Delivery(1, Event(0, true, 44))];
    history, log, successCount, pendingCount := dlo.history, dlo.deliveries, dlo.successCount, dlo.pendingCount;
  }

  /** The first part of `LegacyMultipleDeferreds`, up to the firing of the first deferred. */
  method LegacyFourDeferreds() returns (dlo: LegacyDlo.DeferredListObserver<int>, first: nat)
    ensures fresh(dlo) && dlo.Valid() && first == 0 && first in dlo.pending
    ensures dlo.observers == [1]
    ensures dlo.history == [Event(1, true, 42), Event(3, true, 43)]
    ensures dlo.deliveries == [Delivery(1, Event(1, true, 42)), Delivery(1, Event(3, true, 43))]
    ensures dlo.successCount == 2 && dlo.failureCount == 0 && dlo.pendingCount == 2
  {
    dlo, first := LegacyTwoDeferreds();
    var _ := dlo.Append();
    var _, _ := dlo.AppendResolved(true, 43);
  }

  /** The first two deferreds of `LegacyMultipleDeferreds`. */
  method LegacyTwoDeferreds() returns (dlo: LegacyDlo.DeferredListObserver<int>, first: nat)
    ensures fresh(dlo) && dlo.Valid() && first == 0 && first in dlo.pending
    ensures dlo.observers == [1]
    ensures dlo.history == [Event(1, true, 42)]
    ensures dlo.deliveries == [Delivery(1, Event(1, true, 42))]
    ensures dlo.successCount == 1 && dlo.failureCount == 0 && dlo.pendingCount == 1
  {
    dlo := new LegacyDlo.DeferredListObserver<int>();
    dlo.AddObserver(1, false);
    first := dlo.Append();
    var _, _ := dlo.AppendResolved(true, 42);
  }

  /** On the earlier version an observer added late is replayed the history
      by default, and then receives live events. */
  method LegacyReplayByDefault() returns (log: seq<Delivery<int>>)
    ensures log == [Delivery(1, Event(0, false, 7)), Delivery(1, Event(1, true, 8))]
  {
    var dlo := LegacyOneFailure();
    dlo.AddObserver(1);
    var _, _ := dlo.AppendResolved(true, 8);
    log := dlo.deliveries;
  }

  /** The earlier version after one deferred has failed with 7, before any
      observer is added. */
  method LegacyOneFailure() returns (dlo: LegacyDlo.DeferredListObserver<int>)
    ensures fresh(dlo) && dlo.Valid()
    ensures dlo.observers == [] && dlo.deliveries == []
    ensures dlo.history == [Event(0, false, 7)]
    ensures dlo.successCount == 0 && dlo.failureCount == 1 && dlo.pendingCount == 0
  {
    dlo := new LegacyDlo.DeferredListObserver<int>();
    var _, _ := dlo.AppendResolved(false, 7);
  }
}
