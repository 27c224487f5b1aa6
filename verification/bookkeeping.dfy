/** The invariants both versions of the deferred list observer keep, stated
    over plain values, with one lemma per operation showing that the
    operation preserves them. */
module Bookkeeping {
  import opened Events

  /** Every index below `appended` is either pending or has fired, never
      both; no index has fired twice; nothing at or above `appended` exists. */
  ghost predicate IndicesAccounted<V>(pending: set<nat>, fired: seq<Event<V>>, appended: int)
  {
    && DistinctIndices(fired)
    && (forall i :: i in Indices(fired) ==> i < appended)
    && (forall i: nat :: i in pending <==> i < appended && i !in Indices(fired))
  }

  /** The three counters agree with the events fired and the indices handed
      out: they are never negative, `successCount` and `failureCount` count
      the successful and failed events, `pendingCount` the pending indices,
      and together they count every deferred appended. */
  ghost predicate Counted<V>(successCount: int, failureCount: int, pendingCount: int,
                             pending: set<nat>, fired: seq<Event<V>>)
  {
    && 0 <= successCount && 0 <= failureCount && 0 <= pendingCount
    && |fired| == successCount + failureCount
    && SuccessCount(fired) == successCount
    && |pending| == pendingCount
    && IndicesAccounted(pending, fired, successCount + failureCount + pendingCount)
  }

  /** Every index handed out is either still pending or has produced
      exactly one event: pending and fired indices split 0 .. appended - 1
      between them. */
  lemma EveryIndexAccountedFor<V>(successCount: int, failureCount: int, pendingCount: int,
                                  pending: set<nat>, fired: seq<Event<V>>)
    requires Counted(successCount, failureCount, pendingCount, pending, fired)
    ensures forall i: nat :: i in pending + Indices(fired) <==> i < successCount + failureCount + pendingCount
    ensures pending !! Indices(fired)
    ensures |Indices(fired)| == |fired| == successCount + failureCount
  {
    DistinctIndicesCount(fired);
  }

  /** An observer registered once has received exactly the events fired
      since it joined (`since`), in firing order, each once; an identifier
      that is not registered has received nothing. */
  ghost predicate Informed<V>(observers: seq<ObserverId>, since: map<ObserverId, nat>,
                              log: seq<Delivery<V>>, fired: seq<Event<V>>)
  {
    && Joined(observers, since, |fired|)
    && FollowedSinceJoining(observers, since, log, fired)
    && UnregisteredUncalled(observers, log)
  }

  /** Every registered observer has a joining position within the events so far. */
  ghost predicate Joined(observers: seq<ObserverId>, since: map<ObserverId, nat>, firedCount: nat)
  {
    forall o :: Registrations(observers, o) > 0 ==> o in since && since[o] <= firedCount
  }

  ghost predicate FollowedSinceJoining<V>(observers: seq<ObserverId>, since: map<ObserverId, nat>,
                                          log: seq<Delivery<V>>, fired: seq<Event<V>>)
    requires Joined(observers, since, |fired|)
  {
    forall o :: Registrations(observers, o) == 1 ==> DeliveredTo(log, o) == fired[since[o]..]
  }

  ghost predicate UnregisteredUncalled<V>(observers: seq<ObserverId>, log: seq<Delivery<V>>)
  {
    forall o :: Registrations(observers, o) == 0 ==> DeliveredTo(log, o) == []
  }

  /** Appending a deferred hands out the index equal to the sum of the
      counters, which is neither pending nor fired, and makes it pending. */
  lemma CountedAfterAppend<V>(successCount: int, failureCount: int, pendingCount: int,
                              pending: set<nat>, fired: seq<Event<V>>)
    requires Counted(successCount, failureCount, pendingCount, pending, fired)
    ensures var index := successCount + failureCount + pendingCount;
      && index !in pending && index !in Indices(fired)
      && Counted(successCount, failureCount, pendingCount + 1, pending + {index}, fired)
  {
  }

  /** Firing a pending index moves one unit from `pendingCount` to
      `successCount` or `failureCount`, and the index from pending to fired. */
  lemma CountedAfterFire<V>(successCount: int, failureCount: int, pendingCount: int,
                            pending: set<nat>, fired: seq<Event<V>>, e: Event<V>)
    requires Counted(successCount, failureCount, pendingCount, pending, fired)
    requires e.index in pending
    ensures Counted(successCount + (if e.success then 1 else 0), failureCount + (if e.success then 0 else 1),
                    pendingCount - 1, pending - {e.index}, fired + [e])
  {
    assert (fired + [e])[..|fired|] == fired;
  }

  /** Dispatching a newly fired event to the observer list keeps every
      observer informed. */
  lemma InformedAfterDispatch<V>(observers: seq<ObserverId>, since: map<ObserverId, nat>,
                                 log: seq<Delivery<V>>, fired: seq<Event<V>>, e: Event<V>)
    requires Informed(observers, since, log, fired)
    ensures Informed(observers, since, log + Broadcast(observers, e), fired + [e])
  {
    var log' := log + Broadcast(observers, e);
    forall o | Registrations(observers, o) == 1
      ensures DeliveredTo(log', o) == (fired + [e])[since[o]..]
    {
      DispatchReachesOnce(observers, log, fired, e, o, since[o]);
    }
    forall o | Registrations(observers, o) == 0 ensures DeliveredTo(log', o) == [] {
      DeliveredToConcat(log, Broadcast(observers, e), o);
      DeliveredToBroadcast(observers, e, o);
    }
  }

  /** An observer registered once that had received the events from
      position `start` on has, after one more dispatch, received the events
      from `start` on including the new one. */
  lemma DispatchReachesOnce<V>(observers: seq<ObserverId>, log: seq<Delivery<V>>, fired: seq<Event<V>>,
                               e: Event<V>, o: ObserverId, start: nat)
    requires Registrations(observers, o) == 1
    requires start <= |fired| && DeliveredTo(log, o) == fired[start..]
    ensures DeliveredTo(log + Broadcast(observers, e), o) == (fired + [e])[start..]
  {
    DeliveredToConcat(log, Broadcast(observers, e), o);
    DeliveredToBroadcast(observers, e, o);
    assert (fired + [e])[start..] == fired[start..] + [e];
  }

  /** Registering `f` after replaying `replayed` to it (the whole of `fired`,
      or nothing) keeps every observer informed; a first registration records
      where `f` joined. */
  lemma InformedAfterRegister<V>(observers: seq<ObserverId>, since: map<ObserverId, nat>,
                                 log: seq<Delivery<V>>, fired: seq<Event<V>>,
                                 f: ObserverId, replay: bool)
    requires Informed(observers, since, log, fired)
    ensures Informed(observers + [f], JoinAt(observers, since, f, replay, |fired|),
                     log + Replay(f, if replay then fired else []), fired)
  {
    JoinedAfterRegister(observers, since, |fired|, f, replay);
    FollowedAfterRegister(observers, since, log, fired, f, replay);
    UncalledAfterRegister(observers, log, f, if replay then fired else []);
  }

  /** Adding `f` at the end of the observer list adds one registration of `f`. */
  lemma RegistrationsAppend(observers: seq<ObserverId>, f: ObserverId, o: ObserverId)
    ensures Registrations(observers + [f], o) == Registrations(observers, o) + (if o == f then 1 else 0)
  {
    assert (observers + [f])[..|observers|] == observers;
  }

  lemma JoinedAfterRegister(observers: seq<ObserverId>, since: map<ObserverId, nat>, firedCount: nat,
                            f: ObserverId, replay: bool)
    requires Joined(observers, since, firedCount)
    ensures Joined(observers + [f], JoinAt(observers, since, f, replay, firedCount), firedCount)
  {
    forall o | Registrations(observers + [f], o) > 0
      ensures o in JoinAt(observers, since, f, replay, firedCount)
      ensures JoinAt(observers, since, f, replay, firedCount)[o] <= firedCount
    {
      RegistrationsAppend(observers, f, o);
    }
  }

  lemma FollowedAfterRegister<V>(observers: seq<ObserverId>, since: map<ObserverId, nat>,
                                 log: seq<Delivery<V>>, fired: seq<Event<V>>,
                                 f: ObserverId, replay: bool)
    requires Informed(observers, since, log, fired)
    requires Joined(observers + [f], JoinAt(observers, since, f, replay, |fired|), |fired|)
    ensures FollowedSinceJoining(observers + [f], JoinAt(observers, since, f, replay, |fired|),
                                 log + Replay(f, if replay then fired else []), fired)
  {
    var replayed := if replay then fired else [];
    forall o | Registrations(observers + [f], o) == 1
      ensures DeliveredTo(log + Replay(f, replayed), o)
              == fired[JoinAt(observers, since, f, replay, |fired|)[o]..]
    {
      RegistrationsAppend(observers, f, o);
      if o == f {
        NewObserverReplayed(log, fired, f, replay);
      } else {
        ReplayPassesOthersBy(log, fired, f, replayed, o, since[o]);
      }
    }
  }

  /** An observer that had received nothing has, after the replay, received
      all of `fired` (from position 0 on) with a replay, and nothing (from
      position `|fired|` on) without. */
  lemma NewObserverReplayed<V>(log: seq<Delivery<V>>, fired: seq<Event<V>>, f: ObserverId, replay: bool)
    requires DeliveredTo(log, f) == []
    ensures DeliveredTo(log + Replay(f, if replay then fired else []), f)
            == fired[(if replay then 0 else |fired|)..]
  {
    DeliveredToConcat(log, Replay(f, if replay then fired else []), f);
    DeliveredToReplay(f, if replay then fired else [], f);
  }

  /** A replay to `f` leaves what any other observer has received unchanged. */
  lemma ReplayPassesOthersBy<V>(log: seq<Delivery<V>>, fired: seq<Event<V>>, f: ObserverId,
                                replayed: seq<Event<V>>, o: ObserverId, start: nat)
    requires o != f && start <= |fired| && DeliveredTo(log, o) == fired[start..]
    ensures DeliveredTo(log + Replay(f, replayed), o) == fired[start..]
  {
    DeliveredToConcat(log, Replay(f, replayed), o);
    DeliveredToReplay(f, replayed, o);
  }

  lemma UncalledAfterRegister<V>(observers: seq<ObserverId>, log: seq<Delivery<V>>,
                                 f: ObserverId, replayed: seq<Event<V>>)
    requires UnregisteredUncalled(observers, log)
    ensures UnregisteredUncalled(observers + [f], log + Replay(f, replayed))
  {
    forall o | Registrations(observers + [f], o) == 0
      ensures DeliveredTo(log + Replay(f, replayed), o) == []
    {
      RegistrationsAppend(observers, f, o);
      DeliveredToConcat(log, Replay(f, replayed), o);
      DeliveredToReplay(f, replayed, o);
    }
  }

  /** Where in the firing order observer `f` starts receiving events once it
      is added: unchanged if it was already registered, otherwise 0 with a
      replay and the current number of events without. */
  ghost function JoinAt(observers: seq<ObserverId>, since: map<ObserverId, nat>,
                        f: ObserverId, replay: bool, firedCount: nat): map<ObserverId, nat>
  {
    if Registrations(observers, f) > 0 then since else since[f := if replay then 0 else firedCount]
  }
}
