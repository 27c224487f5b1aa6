/** The deferred list observer of txdlo/dlo.py: counters of pending,
    succeeded and failed deferreds, an optional history of firing events, and
    an ordered list of observers that every event is dispatched to.

    A deferred is not modelled: `Append` hands out the index its callbacks
    close over, and `Resolve` is the callback (success) or errback (failure)
    running for that index. `Resolve` requires the index to be pending, which
    is the at-most-once firing a deferred guarantees. Observer calls are
    recorded in `deliveries`. */
module Dlo {
  import opened Events
  import opened Bookkeeping

  class DeferredListObserver<V> {
    const maintainHistory: bool
    /** `None` when the instance has no `history` attribute. */
    var history: Option<seq<Event<V>>>
    var successCount: int
    var failureCount: int
    var pendingCount: int
    var observers: seq<ObserverId>
    var deliveries: seq<Delivery<V>>

    /** Every event so far, in firing order, whether or not history is kept. */
    ghost var fired: seq<Event<V>>
    /** Indices handed out whose deferred has not fired. */
    ghost var pending: set<nat>
    /** For each registered observer, the position in `fired` of the first
        event it receives: 0 if history was replayed to it, otherwise the
        number of events that had fired when it was added. */
    ghost var since: map<ObserverId, nat>

    /** The number of deferreds appended so far, which is also the index the
        next appended deferred receives. */
    function Appended(): int
      reads this
    {
      successCount + failureCount + pendingCount
    }

    ghost predicate Valid()
      reads this
    {
      && Counted(successCount, failureCount, pendingCount, pending, fired)
      && history == (if maintainHistory then Some(fired) else None)
      && Informed(observers, since, deliveries, fired)
    }

    /** The history attribute exists exactly when history is kept, and then
        it holds one event per fired deferred, as many successes as
        `successCount`, and the indices of exactly the deferreds no longer
        pending. */
    lemma HistoryMatchesCounts()
      requires Valid()
      ensures history.Some? <==> maintainHistory
      ensures maintainHistory ==> |history.value| == successCount + failureCount
      ensures maintainHistory ==> SuccessCount(history.value) == successCount
      ensures maintainHistory ==> forall i: nat :: i in pending + Indices(history.value) <==> i < Appended()
    {
      EveryIndexAccountedFor(successCount, failureCount, pendingCount, pending, fired);
    }

    constructor (maintainHistory: bool := false)
      ensures Valid()
      ensures this.maintainHistory == maintainHistory
      ensures successCount == 0 && failureCount == 0 && pendingCount == 0
      ensures history == (if maintainHistory then Some([]) else None)
      ensures observers == [] && deliveries == []
      ensures fired == [] && pending == {}
    {
      this.maintainHistory := maintainHistory;
      if maintainHistory {
        history := Some([]);
      } else {
        history := None;
      }
      successCount, failureCount, pendingCount := 0, 0, 0;
      observers := [];
      deliveries := [];
      fired, pending, since := [], {}, map[];
    }

    /** Start monitoring a deferred; returns the index its events will carry. */
    method Append() returns (index: nat)
      requires Valid()
      modifies this`pendingCount, this`pending
      ensures Valid()
      ensures index == old(Appended()) && Appended() == index + 1
      ensures index !in old(pending) && index !in Indices(fired)
      ensures pendingCount == old(pendingCount) + 1
      ensures pending == old(pending) + {index}
    {
      index := successCount + failureCount + pendingCount;
      CountedAfterAppend(successCount, failureCount, pendingCount, pending, fired);
      pendingCount := pendingCount + 1;
      pending := pending + {index};
    }

    /** The callback (`success`) or errback (not `success`) attached for
        `index` runs with `value`: the counters move one unit out of pending,
        the event is recorded and dispatched, and `value` is passed on. */
    method Resolve(index: nat, success: bool, value: V) returns (r: V)
      requires Valid()
      requires index in pending
      modifies this`pendingCount, this`successCount, this`failureCount, this`history,
               this`deliveries, this`fired, this`pending
      ensures Valid()
      ensures r == value
      ensures pendingCount == old(pendingCount) - 1
      ensures successCount == old(successCount) + (if success then 1 else 0)
      ensures failureCount == old(failureCount) + (if success then 0 else 1)
      ensures fired == old(fired) + [Event(index, success, value)]
      ensures history == (if maintainHistory then Some(old(history).value + [Event(index, success, value)]) else None)
      ensures deliveries == old(deliveries) + Broadcast(observers, Event(index, success, value))
      ensures pending == old(pending) - {index}
    {
      var e := Event(index, success, value);
      InformedAfterDispatch(observers, since, deliveries, fired, e);
      Record(e);
      Dispatch(e);
      r := value;
    }

    /** The bookkeeping half of a firing: counters, history, and the ghost
        record of fired and pending indices. */
    method Record(e: Event<V>)
      requires Valid()
      requires e.index in pending
      modifies this`pendingCount, this`successCount, this`failureCount, this`history,
               this`fired, this`pending
      ensures Counted(successCount, failureCount, pendingCount, pending, fired)
      ensures history == (if maintainHistory then Some(fired) else None)
      ensures pendingCount == old(pendingCount) - 1
      ensures successCount == old(successCount) + (if e.success then 1 else 0)
      ensures failureCount == old(failureCount) + (if e.success then 0 else 1)
      ensures fired == old(fired) + [e]
      ensures pending == old(pending) - {e.index}
    {
      CountedAfterFire(successCount, failureCount, pendingCount, pending, fired, e);
      pendingCount := pendingCount - 1;
      if e.success {
        successCount := successCount + 1;
      } else {
        failureCount := failureCount + 1;
      }
      if maintainHistory {
        history := Some(history.value + [e]);
      }
      fired := fired + [e];
      pending := pending - {e.index};
    }

    /** Calls every registered observer with `e`, in registration order. */
    method Dispatch(e: Event<V>)
      modifies this`deliveries
      ensures deliveries == old(deliveries) + Broadcast(observers, e)
    {
      var k := 0;
      while k < |observers|
        invariant 0 <= k <= |observers|
        invariant deliveries == old(deliveries) + Broadcast(observers[..k], e)
      {
        assert observers[..k + 1][..k] == observers[..k];
        deliveries := deliveries + [Delivery(observers[k], e)];
        k := k + 1;
      }
      assert observers[..k] == observers;
    }

    /** Calls observer `f` with every event of `events`, in order. */
    method ReplayTo(f: ObserverId, events: seq<Event<V>>)
      modifies this`deliveries
      ensures deliveries == old(deliveries) + Replay(f, events)
    {
      var k := 0;
      while k < |events|
        invariant 0 <= k <= |events|
        invariant deliveries == old(deliveries) + Replay(f, events[..k])
      {
        assert events[..k + 1][..k] == events[..k];
        deliveries := deliveries + [Delivery(f, events[k])];
        k := k + 1;
      }
      assert events[..k] == events;
    }

    /** A deferred that has already fired when it is appended (`succeed(value)`
        or `fail(value)`): its handlers run before `append` returns. */
    method AppendResolved(success: bool, value: V) returns (index: nat, r: V)
      requires Valid()
      modifies this`pendingCount, this`successCount, this`failureCount, this`history,
               this`deliveries, this`fired, this`pending
      ensures Valid()
      ensures index == old(Appended()) && r == value
      ensures pendingCount == old(pendingCount)
      ensures successCount == old(successCount) + (if success then 1 else 0)
      ensures failureCount == old(failureCount) + (if success then 0 else 1)
      ensures fired == old(fired) + [Event(index, success, value)]
      ensures history == (if maintainHistory then Some(old(history).value + [Event(index, success, value)]) else None)
      ensures deliveries == old(deliveries) + Broadcast(observers, Event(index, success, value))
      ensures pending == old(pending)
    {
      index := Append();
      r := Resolve(index, success, value);
    }

    /** Add observer `f`. With `replayHistory`, first call `f` with every
        recorded event in firing order; without a history that is an
        error, and `f` is not added. */
    method Observe(f: ObserverId, replayHistory: bool := false) returns (outcome: Outcome<ObserveError>)
      requires Valid()
      modifies this`observers, this`deliveries, this`since
      ensures Valid()
      ensures outcome == (if replayHistory && !maintainHistory then Fail(UnavailableHistory) else Pass)
      ensures outcome.Fail? ==> observers == old(observers) && deliveries == old(deliveries) && since == old(since)
      ensures outcome.Pass? ==> observers == old(observers) + [f]
      ensures outcome.Pass? && replayHistory ==> deliveries == old(deliveries) + Replay(f, history.value)
      ensures outcome.Pass? && !replayHistory ==> deliveries == old(deliveries)
      ensures outcome.Pass? ==> since == JoinAt(old(observers), old(since), f, replayHistory, |fired|)
    {
      if replayHistory && !maintainHistory {
        return Fail(UnavailableHistory);
      }
      Register(f, replayHistory);
      outcome := Pass;
    }

    /** The part of `Observe` past the history check: the optional replay
        to `f`, then `f` joins the end of the observer list. */
    method Register(f: ObserverId, replay: bool)
      requires Valid()
      requires replay ==> maintainHistory
      modifies this`observers, this`deliveries, this`since
      ensures Valid()
      ensures observers == old(observers) + [f]
      ensures replay ==> deliveries == old(deliveries) + Replay(f, history.value)
      ensures !replay ==> deliveries == old(deliveries)
      ensures since == JoinAt(old(observers), old(since), f, replay, |fired|)
    {
      ghost var log := deliveries;
      if replay {
        ReplayTo(f, history.value);
      } else {
        assert deliveries == log + Replay(f, []);
      }
      InformedAfterRegister(observers, since, log, fired, f, replay);
      since := JoinAt(observers, since, f, replay, |fired|);
      observers := observers + [f];
    }
  }
}
