/** The earlier deferred list observer of the top-level txdlo.py. It does
    the same bookkeeping as the one in txdlo/dlo.py, except that the history
    of firing events is always kept and observers are added with
    `AddObserver`, which replays that history by default and never fails.

    As in module Dlo, `Append` hands out the index a deferred's callbacks
    close over, `Resolve` is one of those callbacks running, and observer
    calls are recorded in `deliveries`. */
module LegacyDlo {
  import opened Events
  import opened Bookkeeping

  class DeferredListObserver<V> {
    var observers: seq<ObserverId>
    var history: seq<Event<V>>
    var successCount: int
    var failureCount: int
    var pendingCount: int
    var deliveries: seq<Delivery<V>>

    /** Indices handed out whose deferred has not fired. */
    ghost var pending: set<nat>
    /** For each registered observer, the position in `history` of the first
        event it receives. */
    ghost var since: map<ObserverId, nat>

    /** The number of deferreds appended so far, which is also the index the
        next appended deferred receives. */
    function Appended(): int
      reads this
    {
      successCount + failureCount + pendingCount
    }

    ghost predicate Valid()
      reads this
    {
      && Counted(successCount, failureCount, pendingCount, pending, history)
      && Informed(observers, since, deliveries, history)
    }

    /** The history holds one event per fired deferred, as many successes
        as `successCount`, and the indices of exactly the deferreds no longer
        pending. */
    lemma HistoryMatchesCounts()
      requires Valid()
      ensures |history| == successCount + failureCount
      ensures SuccessCount(history) == successCount
      ensures forall i: nat :: i in pending + Indices(history) <==> i < Appended()
    {
      EveryIndexAccountedFor(successCount, failureCount, pendingCount, pending, history);
    }

    constructor ()
      ensures Valid()
      ensures observers == [] && history == [] && deliveries == []
      ensures successCount == 0 && failureCount == 0 && pendingCount == 0
      ensures pending == {}
    {
      observers := [];
      history := [];
      successCount, failureCount, pendingCount := 0, 0, 0;
      deliveries := [];
      pending, since := {}, map[];
    }

    /** Start monitoring a deferred; returns the index its events will carry. */
    method Append() returns (index: nat)
      requires Valid()
      modifies this`pendingCount, this`pending
      ensures Valid()
      ensures index == old(Appended()) && Appended() == index + 1
      ensures index !in old(pending) && index !in Indices(history)
      ensures pendingCount == old(pendingCount) + 1
      ensures pending == old(pending) + {index}
    {
      index := successCount + failureCount + pendingCount;
      CountedAfterAppend(successCount, failureCount, pendingCount, pending, history);
      pendingCount := pendingCount + 1;
      pending := pending + {index};
    }

    /** The callback (`success`) or errback (not `success`) attached for
        `index` runs with `value`: one unit moves out of `pendingCount`, the
        event joins the history and goes to every observer, and `value` is
        passed on. */
    method Resolve(index: nat, success: bool, value: V) returns (r: V)
      requires Valid()
      requires index in pending
      modifies this`pendingCount, this`successCount, this`failureCount, this`history,
               this`deliveries, this`pending
      ensures Valid()
      ensures r == value
      ensures pendingCount == old(pendingCount) - 1
      ensures successCount == old(successCount) + (if success then 1 else 0)
      ensures failureCount == old(failureCount) + (if success then 0 else 1)
      ensures history == old(history) + [Event(index, success, value)]
      ensures deliveries == old(deliveries) + Broadcast(observers, Event(index, success, value))
      ensures pending == old(pending) - {index}
    {
      var e := Event(index, success, value);
      InformedAfterDispatch(observers, since, deliveries, history, e);
      Record(e);
      Dispatch(e);
      r := value;
    }

    /** The bookkeeping half of a firing: counters, history, pending indices. */
    method Record(e: Event<V>)
      requires Valid()
      requires e.index in pending
      modifies this`pendingCount, this`successCount, this`failureCount, this`history, this`pending
      ensures Counted(successCount, failureCount, pendingCount, pending, history)
      ensures pendingCount == old(pendingCount) - 1
      ensures successCount == old(successCount) + (if e.success then 1 else 0)
      ensures failureCount == old(failureCount) + (if e.success then 0 else 1)
      ensures history == old(history) + [e]
      ensures pending == old(pending) - {e.index}
    {
      CountedAfterFire(successCount, failureCount, pendingCount, pending, history, e);
      pendingCount := pendingCount - 1;
      if e.success {
        successCount := successCount + 1;
      } else {
        failureCount := failureCount + 1;
      }
      history := history + [e];
      pending := pending - {e.index};
    }

    /** Calls every registered observer with `e`, in registration order. */
    method Dispatch(e: Event<V>)
      modifies this`deliveries
      ensures deliveries == old(deliveries) + Broadcast(observers, e)
    {
      var k := 0;
      while k < |observers|
        invariant 0 <= k <= |observers|
        invariant deliveries == old(deliveries) + Broadcast(observers[..k], e)
      {
        assert observers[..k + 1][..k] == observers[..k];
        deliveries := deliveries + [Delivery(observers[k], e)];
        k := k + 1;
      }
      assert observers[..k] == observers;
    }

    /** Calls observer `f` with every event of `events`, in order. */
    method ReplayTo(f: ObserverId, events: seq<Event<V>>)
      modifies this`deliveries
      ensures deliveries == old(deliveries) + Replay(f, events)
    {
      var k := 0;
      while k < |events|
        invariant 0 <= k <= |events|
        invariant deliveries == old(deliveries) + Replay(f, events[..k])
      {
        assert events[..k + 1][..k] == events[..k];
        deliveries := deliveries + [Delivery(f, events[k])];
        k := k + 1;
      }
      assert events[..k] == events;
    }

    /** A deferred that has already fired when it is appended. */
    method AppendResolved(success: bool, value: V) returns (index: nat, r: V)
      requires Valid()
      modifies this`pendingCount, this`successCount, this`failureCount, this`history,
               this`deliveries, this`pending
      ensures Valid()
      ensures index == old(Appended()) && r == value
      ensures pendingCount == old(pendingCount)
      ensures successCount == old(successCount) + (if success then 1 else 0)
      ensures failureCount == old(failureCount) + (if success then 0 else 1)
      ensures history == old(history) + [Event(index, success, value)]
      ensures deliveries == old(deliveries) + Broadcast(observers, Event(index, success, value))
      ensures pending == old(pending)
    {
      index := Append();
      r := Resolve(index, success, value);
    }

    /** Add observer `f`, first calling it with every event of the history
        in firing order unless `replayHistory` is false. Never fails. */
    method AddObserver(f: ObserverId, replayHistory: bool := true)
      requires Valid()
      modifies this`observers, this`deliveries, this`since
      ensures Valid()
      ensures observers == old(observers) + [f]
      ensures replayHistory ==> deliveries == old(deliveries) + Replay(f, history)
      ensures !replayHistory ==> deliveries == old(deliveries)
      ensures since == JoinAt(old(observers), old(since), f, replayHistory, |history|)
    {
      ghost var log := deliveries;
      if replayHistory {
        ReplayTo(f, history);
      } else {
        assert deliveries == log + Replay(f, []);
      }
      InformedAfterRegister(observers, since, log, history, f, replayHistory);
      since := JoinAt(observers, since, f, replayHistory, |history|);
      observers := observers + [f];
    }
  }
}
