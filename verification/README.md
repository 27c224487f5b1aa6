# txdlo: the deferred list observer, modelled in Dafny

txdlo's `DeferredListObserver` is a fan-in bookkeeping object. It watches
a growing set of Twisted deferreds and keeps three counters:
`pendingCount`, `successCount` and `failureCount`. When history is kept, it
also records an `(index, success, value)` event for every firing, in firing
order. Each event is passed to a list of observer functions in the order
they were registered. Each appended deferred gets the index
`successCount + failureCount + pendingCount`, which is the number of
deferreds appended before it.

Two versions of the class are modelled:

- `Dlo.DeferredListObserver`, from `txdlo/dlo.py`.
  - History is optional and is switched on by `maintainHistory`.
  - Observers are added with `Observe`.
  - Asking for a replay when no history is kept is an error.
- `LegacyDlo.DeferredListObserver`, from the top-level `txdlo.py`.
  - History is always kept.
  - Observers are added with `AddObserver`, which replays the history by default and never fails.

Modules:

- `Events`: what both versions share.
  - Events and observer calls (`Delivery`).
  - The specification functions `Broadcast` (one event to every observer, in registration order) and `Replay` (a history to one observer).
  - `DeliveredTo`, which extracts one observer's view of the call log, and the lemmas relating these.
- `Bookkeeping`: the invariants both classes keep, as predicates over plain values. There is one preservation lemma per operation.
  - `Counted`: the counters agree with the events and the indices handed out.
  - `Informed`: every observer registered once has received exactly the events fired since it joined, in order; an identifier that is not registered has received nothing.
- `Dlo` and `LegacyDlo`: the two classes. Their fields are updated in place by methods.
  - Loops are kept as loops: `Dispatch`, and `ReplayTo` for the history replay.
  - Each method's postcondition states the whole new state in terms of the old one.
  - Each method keeps `Valid()`, the conjunction of the two invariants.
- `Scenarios`: the scenarios of `txdlo/test/test_txdlo.py` and `test_txdlo.py`.
  - Each one drives a fresh instance.
  - Each one states in its postcondition what the test asserts, except `FiredValuePassedOn`. The tests it stands for attach their own callback before the deferred is appended, so their assertion does not depend on the observer set. That scenario states instead that the observer set's callback and errback hand back the value they receive.

How the source maps onto the model:

- A deferred is not modelled.
  - `Append` returns the index its callbacks close over.
  - `Resolve(index, success, value)` is the callback (`success`) or the errback (not `success`) running for that index.
  - `Resolve` requires the index to be pending. This is the at-most-once firing a deferred guarantees.
  - A deferred that has already fired when it is appended (`succeed(v)`, `fail(v)`) is `AppendResolved`, which is `Append` followed by `Resolve`.
- The two closures `callback` and `errback` differ only in the counter they increment and the flag in the event, so one method with a `success` flag models both.
- Observers are identifiers (`ObserverId`). Calling one is recorded as a `Delivery` appended to the `deliveries` log.
- The ghost field `fired` holds every event in firing order. In `Dlo` the history equals `Some(fired)` when history is kept and `None` otherwise, which stands for the missing `history` attribute. In `LegacyDlo` the history itself plays this role.
- The ghost field `pending` holds the indices handed out that have not fired.
- The ghost field `since` records where in the firing order each observer started receiving events.
- `Observe` returns `Fail(UnavailableHistory)` where the source raises `RuntimeError`.

## Model

| member | source | states |
|---|---|---|
| Events.Broadcast | txdlo/dlo.py:37-38 | one event dispatched to the observer list yields exactly one call per registered observer, in registration order, each carrying that event |
| Events.Replay | txdlo/dlo.py:83-84 | replaying a history to `f` yields one call to `f` per event, in firing order |
| Events.Registrations | txdlo/dlo.py:89 | the number of times an identifier occurs in the observer list, never more than the list's length |
| Events.DeliveredTo | txdlo/dlo.py:37-38 | one observer's view of the call log is no longer than the log, and it is empty exactly when no call in the log went to that observer |
| Events.SuccessCount | txdlo/dlo.py:31-34 | the number of successful events is at most the number of events |
| Events.RegistrationsIsMultiplicity | txdlo/dlo.py:89 | the registrations of an identifier are exactly its multiplicity in the observer list, so "registered once" means it occurs once in the list |
| Events.SuccessCountCountsPositions | txdlo/dlo.py:31-34 | the number of successful events is the number of positions in the sequence holding a successful event |
| Events.DeliveredToCountsCalls | txdlo/dlo.py:37-38 | an observer's view of the call log has exactly one event per call made to that observer |
| Events.DistinctIndicesCount | txdlo/dlo.py:60-62 | when no index has fired twice there are as many distinct indices as events |
| Events.DeliveredToConcat | txdlo/dlo.py:37-38 | the calls an observer receives from two successive stretches of the log are those of the first stretch followed by those of the second |
| Events.DeliveredToBroadcast | txdlo/dlo.py:37-38 | a dispatched event reaches an observer once per registration: once when it is registered once, never when it is not registered |
| Events.DeliveredToReplay | txdlo/dlo.py:81-84 | a replay reaches only the observer it is for, and that observer receives exactly the replayed events in order |
| Bookkeeping.EveryIndexAccountedFor | txdlo/dlo.py:60-62 | under the counter invariant the indices 0 .. appended-1 are split between pending and fired with no overlap, and fired indices are distinct and number `successCount + failureCount` |
| Bookkeeping.CountedAfterAppend | txdlo/dlo.py:60-62 | the index handed out (the sum of the counters) is neither pending nor fired, and making it pending with `pendingCount + 1` keeps the counter invariant |
| Bookkeeping.CountedAfterFire | txdlo/dlo.py:31-49 | firing a pending index moves one unit from `pendingCount` to `successCount` (success) or `failureCount` (failure), adds the event, and keeps the counter invariant with no counter negative |
| Bookkeeping.InformedAfterDispatch | txdlo/dlo.py:37-38 | after one event is dispatched to the observer list, every observer registered once has still received exactly the events fired since it joined, and unregistered identifiers still nothing |
| Bookkeeping.DispatchReachesOnce | txdlo/dlo.py:37-38 | an observer registered once that had received the events from some position on receives the new event exactly once, after them |
| Bookkeeping.InformedAfterRegister | txdlo/dlo.py:81-89 | replaying the whole history (or nothing) to `f` and then appending `f` keeps every observer informed; a first registration joins at 0 with a replay and at the current event count without |
| Bookkeeping.RegistrationsAppend | txdlo/dlo.py:89 | appending `f` to the observer list adds one registration of `f` and leaves every other identifier's count unchanged |
| Bookkeeping.NewObserverReplayed | txdlo/dlo.py:81-84 | an observer that had received nothing has, after registration, received the whole history with a replay and nothing without |
| Bookkeeping.ReplayPassesOthersBy | txdlo/dlo.py:83-84 | a replay to `f` changes nothing that any other observer has received |
| Dlo.DeferredListObserver.HistoryMatchesCounts | txdlo/dlo.py:10-19 | the history exists exactly when it is kept, and then holds one event per fired deferred, `successCount` of them successful, whose indices with the pending ones make up 0 .. appended-1 |
| Dlo.DeferredListObserver.constructor | txdlo/dlo.py:22-27 | all three counters are 0, there are no observers, and the history exists and is empty exactly when `maintainHistory` is set |
| Dlo.DeferredListObserver.Append | txdlo/dlo.py:53-63 | the new index is the sum of the counters, that is, the number of deferreds appended so far; it was neither pending nor fired; `pendingCount` grows by one; the invariants hold |
| Dlo.DeferredListObserver.Resolve | txdlo/dlo.py:29-51 | for a pending index: `pendingCount` drops by one, `successCount` or `failureCount` grows by one, the event is appended to the history when kept, it is dispatched to every observer in order, the value is returned unchanged, and the invariants hold |
| Dlo.DeferredListObserver.Record | txdlo/dlo.py:32-36 | the counter and history updates of one firing, keeping the counter invariant |
| Dlo.DeferredListObserver.Dispatch | txdlo/dlo.py:37-38 | the loop calls each observer with the event, in list order: the log grows by `Broadcast(observers, e)` |
| Dlo.DeferredListObserver.ReplayTo | txdlo/dlo.py:83-84 | the loop calls `f` with each event of the history, in order: the log grows by `Replay(f, events)` |
| Dlo.DeferredListObserver.AppendResolved | txdlo/dlo.py:53-63 | a deferred already fired when appended gets the next index and is counted as success or failure at once, with `pendingCount` unchanged and its event recorded and dispatched |
| Dlo.DeferredListObserver.Observe | txdlo/dlo.py:65-89 | a replay without history fails with `UnavailableHistory` and adds nobody; otherwise `f` receives the whole history in order when a replay is asked for and nothing otherwise, and is appended to the observer list |
| Dlo.DeferredListObserver.Register | txdlo/dlo.py:81-89 | replay (when asked) then append `f` to the observer list, keeping the invariants |
| LegacyDlo.DeferredListObserver.HistoryMatchesCounts | txdlo.py:6-14 | the history holds one event per fired deferred, `successCount` of them successful, whose indices with the pending ones make up 0 .. appended-1 |
| LegacyDlo.DeferredListObserver.constructor | txdlo.py:17-20 | all counters are 0 and the history and the observer list are empty |
| LegacyDlo.DeferredListObserver.Append | txdlo.py:44-54 | the new index is the sum of the counters; it was neither pending nor fired; `pendingCount` grows by one; the invariants hold |
| LegacyDlo.DeferredListObserver.Resolve | txdlo.py:22-42 | for a pending index: one unit moves from `pendingCount` to `successCount` or `failureCount`, the event is always appended to the history and dispatched to every observer in order, the value is returned unchanged, and the invariants hold |
| LegacyDlo.DeferredListObserver.Record | txdlo.py:25-28 | the counter and history updates of one firing, keeping the counter invariant |
| LegacyDlo.DeferredListObserver.Dispatch | txdlo.py:29-30 | the loop calls each observer with the event, in list order |
| LegacyDlo.DeferredListObserver.ReplayTo | txdlo.py:70-71 | the loop calls `f` with each history event, in order |
| LegacyDlo.DeferredListObserver.AppendResolved | txdlo.py:44-54 | a deferred already fired when appended gets the next index and is counted at once, with its event recorded and dispatched |
| LegacyDlo.DeferredListObserver.AddObserver | txdlo.py:56-73 | never fails; by default `f` first receives the whole history in firing order, with `replayHistory` false it receives nothing; then it is appended to the observer list |
| Scenarios.EmptySetHasCountsZero | txdlo/test/test_txdlo.py:9-16 | a new instance has all three counts zero |
| Scenarios.AppendThenFire | txdlo/test/test_txdlo.py:58-86 | an appended deferred is pending; once called or errbacked it counts as a success or a failure instead |
| Scenarios.AppendFiredSetsHistory | txdlo/test/test_txdlo.py:27-56 | an already fired deferred counts at once, and with history kept the history is exactly its event with index 0 |
| Scenarios.ObserversCalledInOrder | txdlo/test/test_txdlo.py:88-127 | two observers both receive the event with index 0, in the order they were added, for a success and for a failure |
| Scenarios.ReplayWithNoHistoryFails | txdlo/test/test_txdlo.py:129-137 | asking for a replay without history fails and adds no observer |
| Scenarios.HistoryReplayedOnRequest | txdlo/test/test_txdlo.py:139-172 | an event fired before the observer was added reaches it with a replay and not without |
| Scenarios.HistoryInFiringOrder | txdlo/dlo.py:10-13 | the history lists events in firing order (indices 1, 2, 0), not append order |
| Scenarios.FiredValuePassedOn | txdlo/dlo.py:39-49 | the callback and the errback hand back the value the deferred fired with, unchanged |
| Scenarios.MultipleDeferreds | txdlo/test/test_txdlo.py:195-236 | with four deferreds, the observer receives (1,T,42), (3,T,43), (0,T,44) in that order, and the final counts are 3 successes and 1 pending |
| Scenarios.LegacyMultipleDeferreds | test_txdlo.py:121-163 | the same four deferreds on the earlier version give the same calls and counts, and the history is those three events in firing order |
| Scenarios.LegacyReplayByDefault | txdlo.py:68-73 | an observer added late to the earlier version is first replayed the history by default, then receives live events |

## Left out

- The Twisted deferred is not modelled.
  - `addCallbacks`, callback chaining, `succeed` and `fail` are not modelled.
  - The wrapping of errors in `Failure` is not modelled.
  - `append` returning the deferred it was given is not modelled: `Append` returns the index instead.
  - Firing at most once is the precondition of `Resolve`.
  - Values are of an uninterpreted type `V`, so only their identity is tracked.
- Observers are identifiers, not callables. Calls are recorded in `deliveries`.
  - An observer that raises is not modelled. In the source such an exception would stop the dispatch loop, and the counters would already have been updated.
  - Re-entrant observers are not modelled: an observer that calls `append` or `observe` during a dispatch. In the source, Python list iteration would also call an observer appended during the dispatch with the current event; the model does not capture this.
- Bookkeeping.Informed: tells exactly what each observer received only for identifiers registered at most once. For an identifier registered several times, only `Broadcast` states the calls, through `Registrations`.
- `maintainHistory` is a boolean. The source accepts any value that Python treats as true or false.
- examples.py and setup.py are not part of this model.
- `test_txdlo.py` at the top level calls `observe`, which the earlier class does not have. Scenarios.LegacyMultipleDeferreds uses `AddObserver(f, false)` in its place, which behaves as the test expects.
