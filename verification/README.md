# A model of the lfq queues

lfq is a family of bounded FIFO rings for Go.  The code is small; its correctness lies in
interleavings, index arithmetic and per-slot tags.  This project models eight of its queue
protocols and the capacity arithmetic under them, and proves what they guarantee over every
run, for any number of threads.  Where a queue does not give what one might expect, a lemma
exhibits the run for every capacity, and the condition under which the guarantee holds is
proved beside it.

## How the model is built

*Concurrent queues.*  Shared memory and one program counter with locals per thread form a
`Queue`; `Step` performs the next atomic access of one thread together with the local
computation up to the following one.  A non-atomic copy of data is a step of its own.  A
schedule is any sequence of (thread, operation) events, so a statement about `Exec`, `Final` or
`Trace` of an arbitrary schedule is a statement about every interleaving.  History variables
(`Log`) record what happened; `Step` never reads them.

*The specification.*  `BoundedFifo` is a bounded FIFO whose operations take effect at one
instant between call and return.  A queue is linearizable when the calls and returns of each of
its runs are those of a legal run of that object.  Some refusals are decided by a load that a
later load confirms; `Watched` admits such a provisional refusal, and `SettleLegal` turns every
run of it into a run of the plain object.

*Progress.*  The bounded FIFO lets a call wait for ever, so beside each safety result stand
bounds on the own steps of a running call, in every run and for a call on its own, and what a
call on its own answers.

*Call-at-a-time queue.*  `MPMC` is a class with arrays, updated in place by methods with the
loops of the source; its methods are proved against the functions of `MPMCModel`, and what the
source promises is proved of those.

| files | source |
|---|---|
| Ring.dfy, Capacity.dfy, CompactRing.dfy | options.go and the index expressions of all queues |
| BoundedFifo.dfy | the contract of the queues: bounded, first in first out |
| MPMCCompact.dfy, MPMCCompactProof.dfy, MPMCCompactValues.dfy, MPMCCompactReuse.dfy, MPMCCompactDead.dfy, MPMCCompactProgress.dfy | mpmc_compact.go |
| MPMCIndirect.dfy, MPMCIndirectProof.dfy, MPMCIndirectLoss.dfy, MPMCIndirectDrain.dfy, MPMCIndirectThreshold.dfy, MPMCIndirectSolo.dfy, MPMCIndirectRuns.dfy, MPMCIndirectHidden.dfy, MPMCIndirectCalls.dfy, MPMCIndirectProgress.dfy, MPMCIndirectCatchup.dfy | mpmc_128.go |
| MPSC.dfy, MPSCProof.dfy, MPSCTight.dfy, MPSCLinear.dfy, MPSCProgress.dfy | mpsc.go |
| MPMCIndirectSeq.dfy, MPMCIndirectSeqProof.dfy, MPMCIndirectSeqProgress.dfy | mpmc_128_seq.go |
| MPSCCompact.dfy, MPSCCompactProof.dfy, MPSCCompactProgress.dfy | mpsc_compact.go |
| MPMCSeq.dfy, MPMCSeqProof.dfy, MPMCSeqLimits.dfy, MPMCSeqExact.dfy, MPMCSeqProgress.dfy | mpmc_seq.go |
| SPSC.dfy | spsc.go |
| MPMC.dfy | mpmc.go |

`dafny verify dfyconfig.toml` checks the whole project.

## What the queues do not give

- MPMCCompactIndirect is linearizable while no value is stored into a slot in which a consumer,
  past its second look at `head`, still expects that very value: the consumer's CAS compares
  bare values.  That condition is exactly what keeps every consumer to its own position
  (`FreshIff`); distinct values meet it (`DistinctLinearizable`).  Without it, for every
  capacity, there is a run that reorders items (`ReuseNotLinearizable`) and after which one slot
  of the ring is lost for good (`ReuseLosesSlot`).  All runs are linearizable exactly for one
  thread (`MPMCCompactReuse.LinearizableIff`).
- MPMCIndirect can accept an item and never deliver it (`ItemCanBeLost`): a consumer claimed the
  position first, its repair failed, and it does not look at the outcome.
  `AcceptedDeliverableIff` says exactly which accepted items can still be delivered.
- The threshold of MPMCIndirect can hide an accepted item from every Dequeue, although all
  threads are at rest, exactly if there are `2n` threads or more (`NeverHidesIff`).  For a thread
  on its own the condition is that the threshold is not less than the number of positions before
  the item (`GetsIff`).
- MPSC is safe for exactly up to `n + 1` producers (`SafeIff`); with one more, a position can be
  abandoned and the consumer never gets past it (`CanGetStuck`, `StuckForever`).  It is
  linearizable in all runs exactly for one producer (`MPSCLinear.LinearizableIff`).
- MPMCIndirectSeq is not lock-free (`NotLockFree`), although README.md:72 of the library calls
  multi-producer multi-consumer queues lock-free: losers of the slot CAS spin until the winner
  advances the index.  A call on its own finishes exactly if no winner is stopped there
  (`FinishesIff`).
- MPMCSeq is not linearizable: a producer that stopped after its claim makes Dequeue refuse
  although a later Enqueue has returned (`NotLinearizable`).  Runs whose refusals are exact are
  (`ExactLinearizable`), and all runs are exactly for one thread
  (`MPMCSeqExact.LinearizableIff`).
- roundToPow2 overflows for capacities above 2^62 (`RoundToPow2`).

## Model

| member | source | states |
|---|---|---|
| `BoundedFifo.FirstInFirstOut` | types.go:9-40 | the specification object loses, invents, duplicates and reorders nothing: old contents plus accepted values are delivered values plus new contents, and never more than the capacity is held |
| `BoundedFifo.SettleLegal` | mpmc_compact.go:72-79 | a run with refusals noted at one load and confirmed at a later one can be replayed with every refusal decided at the moment it was noted, with the same calls and returns |
| `BoundedFifo.WatchedLinearizable` | mpmc_compact.go:72-79 | hence such a run is linearizable |
| `Ring.SlotRound` | mpmc_compact.go:81-83 | the slot and round used throughout are remainder and quotient by `n` |
| `Ring.SameSlot` | mpmc_compact.go:81-83 | two positions of one slot are a whole ring apart and have different rounds |
| `TwoLap.TagOrder` | mpmc_128.go:89-95 | in a ring of `2n` slots tagged by `p / n`, tags order the positions of a slot, and a filled tag equals no empty one |
| `Capacity.Smear` | options.go:318-323 | one line of the smearing doubles the run of ones below the leading bit |
| `Capacity.LastAddition` | options.go:324 | the final increment yields the least power of two if the capacity is at most 2^62, and the most negative int above |
| `Capacity.RoundToPow2` | options.go:312-325 | 2 below 2; the least power of two not below the capacity up to 2^62; overflow above |
| `Capacity.Order` | mpmc_compact.go:43-46 | the loop finds the least exponent reaching `n`, exactly log2 for a power of two, and shifts by at most 63 |
| `Capacity.MaskIsSlot` | mpmc_compact.go:81-82 | for a power of two, `p & mask` and `p >> order` are remainder and quotient of every `p` |
| `Capacity.Geometry` | mpmc_compact.go:42-52 | a constructor's `n`, `mask` and `order` fit each other and index positions as the protocols assume |
| `SlotWords.EncodingFaithful` | mpmc_compact.go:82-85 | comparing machine words compares slot contents (up to 2^63 rounds), and the flag test tells values from empty marks |
| `CompactRing.FillAt` | mpmc_compact.go:81-85 | the fill CAS of a producer succeeds exactly if the tail it loaded is the next unfilled position |
| `CompactRing.FillKeeps` | mpmc_compact.go:85 | filling the next position keeps the layout of the ring |
| `CompactRing.TakeKeeps` | mpmc_compact.go:110-120 | taking the first position leaves the slot empty for its next round and keeps the layout |
| `MPMCCompactProof.StepInv` | mpmc_compact.go:65-128 | every atomic step of every thread keeps the inductive invariant |
| `MPMCCompactProof.StepEnabled` | mpmc_compact.go:65-128 | every step is a step of the bounded FIFO, possibly on behalf of another thread; a helper's index advance always has an owner |
| `MPMCCompactProof.RunInv` | mpmc_compact.go:65-128 | whole runs: the invariant holds and the calls and returns are those of a legal run of the specification |
| `MPMCCompactProof.Linearizable` | mpmc_compact.go:65-128 | linearizable to a FIFO bounded by `n`, for any threads and every interleaving that does not store a value a consumer still expects in that slot |
| `MPMCCompactProof.LoopProgress` | mpmc_compact.go:71-127 | a thread goes round its loop again only after its index has moved past the value it loaded |
| `MPMCCompactProof.LockFree` | mpmc_compact.go:71-127 | after `k` extra trips of a running call at least `k` operations of other threads have advanced its index |
| `MPMCCompactProgress.StepBound` | mpmc_compact.go:65-128 | in every fresh run a call that has not returned has made at most `6 * d + 7` own steps, `d` being how far its index has advanced since it began |
| `MPMCCompactProgress.SoloReturns` | mpmc_compact.go:65-128 | from every state of a fresh run, at every point of a call, the call running alone returns within 15 steps |
| `MPMCCompactProgress.LoneCalls` | mpmc_compact.go:65-128 | whatever the others are doing, a Dequeue alone returns the first value not taken, or refuses if all below `tail` are taken; an Enqueue alone refuses iff the `n` positions from `head` on are filled |
| `MPMCCompactProgress.QuietIndices` | mpmc_compact.go:65-128 | with no call under way, filled and taken positions are `tail` and `head` themselves |
| `MPMCCompactValues.DistinctFresh` | mpmc_compact.go:120 | a run whose offered values are all distinct meets the condition on values at every step |
| `MPMCCompactValues.DistinctLinearizable` | mpmc_compact.go:65-128 | so it is linearizable |
| `MPMCCompactValues.LoneFresh` | mpmc_compact.go:120 | so does every run of a single thread |
| `MPMCCompactValues.FreshIff` | mpmc_compact.go:85-120 | the condition holds throughout a run iff at no point a consumer's CAS could take a position other than its own |
| `MPMCCompactReuse.ReuseNotLinearizable` | mpmc_compact.go:120 | for every capacity, two threads and two values there is a run with a reused value that no bounded FIFO can show: `n - 1` items are overtaken |
| `MPMCCompactReuse.LinearizableIff` | mpmc_compact.go:65-128 | every run is linearizable, whatever values are used, iff there is at most one thread |
| `MPMCCompactDead.DeadForever` | mpmc_compact.go:81-90 | a slot marked empty for a round `tail` has passed stays so in every continuation, once no producer holds that position |
| `MPMCCompactDead.ItemsConserved` | mpmc_compact.go:85-120 | in every run, fresh or not, items held plus items taken are items held before plus items stored |
| `MPMCCompactDead.DeadCapacity` | mpmc_compact.go:78-90 | with a dead slot the ring holds at most `n - 1` items for good |
| `MPMCCompactDead.CrowdedRefuses` | mpmc_compact.go:71-91 | an Enqueue running alone on such a ring with `n - 1` items is refused |
| `MPMCCompactDead.ReuseLosesSlot` | mpmc_compact.go:65-128 | for every capacity a run with a reused value ends with all threads at rest and one slot lost in that sense |
| `MPMCIndirectProof.StepInv` | mpmc_128.go:80-163 | every atomic step, catchup and drain included, keeps the invariant on tags, claims and loaded entries |
| `MPMCIndirectProof.RunInv` | mpmc_128.go:80-163 | the invariant holds after every run |
| `MPMCIndirectProof.ItemsIntact` | mpmc_128.go:80-153 | an accepted item is intact in its slot until a Dequeue claims its position |
| `MPMCIndirectProof.DequeueExact` | mpmc_128.go:122-133 | a successful Dequeue returns the value stored at the position it claimed, and no position is returned twice |
| `MPMCIndirectProof.EnqueueExact` | mpmc_128.go:89-101 | Enqueue returns nil exactly after storing its value at the position it claimed, and nothing else stores |
| `MPMCIndirectProof.RefusalsExact` | mpmc_128.go:80-153 | when exactly Enqueue and Dequeue refuse, in terms of the indices, the position the claimed slot serves, the threshold and the drain flag |
| `MPMCIndirectCalls.ArgumentsKept` | mpmc_128.go:80-153 | over every run, retries included: the value stored at a position is the argument of the call that claimed it, a returned nil means that the call stored its argument, a returned value was taken by the call from a position it claimed |
| `MPMCIndirectProof.DeliveredInOrder` | mpmc_128.go:89-133 | the values returned, by consumer position, are a subsequence of the values stored, by producer position |
| `MPMCIndirectProof.TagsNamePositions` | mpmc_128.go:62-66 | every slot serves one position; its tag has even offset and it is cleared while that is empty, and it has odd offset and holds the item exactly once it was filled |
| `MPMCIndirectProof.TagsIncrease` | mpmc_128.go:94-138 | every replaced entry gets a strictly greater tag |
| `MPMCIndirectProof.NoStaleCas` | mpmc_128.go:94-138 | a slot CAS succeeds exactly if the entry was not replaced since it was loaded |
| `MPMCIndirectProof.IndicesIncrease` | mpmc_128.go:122-163 | `tail` and `head` never decrease, and catchup never lifts `tail` above `head` |
| `MPMCIndirectProof.PositionsHandedOut` | mpmc_128.go:122-163 | every position in `[head, tail)` was handed to a producer, no later one was |
| `MPMCIndirectCatchup.CaughtUp` | mpmc_128.go:140-163 | in every reachable state without a call under way `tail` is not behind `head` |
| `MPMCIndirectProgress.StepBound` | mpmc_128.go:80-163 | in every run a call that has not returned has made at most `8 * d + 9` own steps, `d` being how far both indices have advanced since it began |
| `MPMCIndirectProgress.SoloReturns` | mpmc_128.go:80-163 | from every reachable state, at every point of a call, the call running alone returns within a number of steps linear in the positions left to claim |
| `MPMCIndirectProgress.LoneEnqueue` | mpmc_128.go:80-109 | an Enqueue running alone is accepted iff there is a free position below `head + n` with only passed ones between `tail` and it |
| `MPMCIndirectRuns.Fills` | mpmc_128.go:89-101 | what an Enqueue that finds its slot free makes of the memory |
| `MPMCIndirectRuns.Abandons` | mpmc_128.go:89-105 | what an Enqueue that finds its slot taken makes of the memory |
| `MPMCIndirectRuns.Skips` | mpmc_128.go:121-146 | a miss before the last claimed position frees the slot for the next lap and is counted |
| `MPMCIndirectLoss.MissedForever` | mpmc_128.go:135-149 | an item its consumer has missed stays undelivered in every continuation |
| `MPMCIndirectLoss.DeliverableIff` | mpmc_128.go:122-149 | an accepted, undelivered item at a claimed position is deliverable iff its consumer has yet to act on the intact entry |
| `MPMCIndirectLoss.ItemCanBeLost` | mpmc_128.go:136-138 | for any capacity, value and two threads a run exists after which an accepted item is never delivered |
| `MPMCIndirectDrain.DrainsFrom` | mpmc_128.go:113-153 | a lone draining consumer returns all remaining items in order and then refuses, ending because `tail - head` shrinks |
| `MPMCIndirectDrain.DrainComplete` | mpmc_128.go:74-153 | after Drain, from every reachable state, a thread running alone gets exactly the items at positions from `head` on, in order, skipping abandoned positions, before its first refusal, wherever the others stopped |
| `MPMCIndirectDrain.UnclaimedDeliverable` | mpmc_128.go:74-163 | from every state, wherever the threads stand, an accepted item that no Dequeue has claimed can be delivered |
| `MPMCIndirectDrain.AcceptedDeliverableIff` | mpmc_128.go:80-153 | an accepted, undelivered item can still be delivered iff no Dequeue has claimed its position or its consumer has yet to act on the intact entry |
| `MPMCIndirectThreshold.SpacedStep` | mpmc_128.go:83-89 | if one producer claimed `a < b`, then `a + 2 <= head + n`, at every step |
| `MPMCIndirectThreshold.Overshoot` | mpmc_128.go:83-89 | with `P` threads `tail <= head + n + P - 1`, less the consumers that found nothing behind them and are leaving |
| `MPMCIndirectThreshold.BudgetStep` | mpmc_128.go:98-148 | with at most `2n - 1` threads every step keeps the threshold accounting: the threads about to claim reach the item, or the threshold outlasts the leaving threads and the positions before it, unless a reset is due |
| `MPMCIndirectThreshold.ThresholdHonest` | mpmc_128.go:116-148 | with at most `2n - 1` threads, in every quiet reachable state, an item `d` positions from `head` implies a threshold of at least `d + 2` |
| `MPMCIndirectSolo.GetsIff` | mpmc_128.go:113-153 | from every state of a run a thread that keeps calling Dequeue alone gets the next item iff the threshold is not less than the number of positions before it |
| `MPMCIndirectSolo.LoneDequeueDelivers` | mpmc_128.go:113-153 | with at most `2n - 1` threads, in every quiet reachable state, a Dequeue running alone returns the first item from `head` on, Drain or not |
| `MPMCIndirectHidden.BlindRun` | mpmc_128.go:116-118 | once the threshold is negative and no call is past its test, any number of dequeues by any threads refuse and change nothing |
| `MPMCIndirectHidden.ThresholdCanHide` | mpmc_128.go:80-163 | for every capacity, with `2n` threads or more, a run ends with all threads at rest, an accepted item at `head` and a negative threshold |
| `MPMCIndirectHidden.NeverHidesIff` | mpmc_128.go:80-163 | no run hides an item in that way iff there are at most `2n - 1` threads |
| `MPMCIndirectHidden.AlwaysDeliversIff` | mpmc_128.go:113-153 | a Dequeue running alone in a quiet state always returns the next item iff there are at most `2n - 1` threads |
| `MPMCIndirectHidden.HiddenFromDequeues` | mpmc_128.go:116-118 | that item stays hidden until something other than Dequeue is called |
| `MPSCProof.ClaimsRun` | mpsc.go:73-83 | for any number of producers: if one producer claimed `a < b`, then `a + 2 <= head + n` |
| `MPSCProof.Overshoot` | mpsc.go:73-83 | with `P` producers `tail <= head + n + P - 1` in every run |
| `MPSCProof.DistinctSlots` | mpsc.go:80-83 | with `P <= n + 1` the positions in `[head, tail)` have distinct slots |
| `MPSCProof.StepInv` | mpsc.go:71-122 | every step keeps the invariant on tags, data and holders of positions |
| `MPSCProof.NeverAbandons` | mpsc.go:85-95 | with `P <= n + 1` a producer always finds the tag it expects: no second trip, no refusal after the claim |
| `MPSCProof.ClaimOrder` | mpsc.go:71-122 | the consumer receives exactly the claimed values in claim order; a claimed position is stored or its Enqueue is still running |
| `MPSCProof.RefusalsExact` | mpsc.go:74-110 | Enqueue refuses exactly at the load of `head`, iff the `tail` it loaded is `n` or more ahead, and then `n` or more positions are claimed; Dequeue refuses exactly if position `head` is not stored |
| `MPSCTight.SafeIff` | mpsc.go:85-95 | no run abandons a position iff there are at most `n + 1` producers |
| `MPSCTight.OvershootTight` | mpsc.go:73-83 | the overshoot bound is reached, for any number of producers |
| `MPSCTight.StuckForever` | mpsc.go:93-110 | `head` never moves past an abandoned position |
| `MPSCTight.CanGetStuck` | mpsc.go:93-95 | with `n + 2` or more producers such a position can be left behind |
| `MPSCLinear.StepSimulates` | mpsc.go:71-122 | with one producer every step is a step of the bounded FIFO, effects at the stores of the tag and of `head` |
| `MPSCLinear.LoneProducerLinearizable` | mpsc.go:71-122 | so every run with one producer is linearizable |
| `MPSCLinear.NotLinearizable` | mpsc.go:71-122 | for any two producers a run exists that no bounded FIFO can show: a refusal after an Enqueue has returned |
| `MPSCLinear.LinearizableIff` | mpsc.go:71-122 | every run is linearizable iff there is at most one producer |
| `MPSCProgress.ArgumentsKept` | mpsc.go:71-98 | for any number of producers the value of a position is the argument of the call that claimed it, and a returned nil means that the call stored its argument |
| `MPSCProgress.SlotsCleared` | mpsc.go:84-118 | every slot holds a stored item, is being written, or is cleared |
| `MPSCProgress.NeverAhead` | mpsc.go:85-97 | for any number of producers a claimed slot is never ahead of its position, so no Enqueue makes a second trip |
| `MPSCProgress.WaitFree` | mpsc.go:71-122 | for any number of producers a call that has not returned has made at most 7 own steps |
| `MPMCIndirectSeqProof.ProducerSees` | mpmc_128_seq.go:68-85 | a slot shows a producer its own number iff there is room at its position, and an old number iff the queue is truly full |
| `MPMCIndirectSeqProof.ConsumerSees` | mpmc_128_seq.go:95-108 | a slot shows a consumer its item iff there is one, and an old number iff the queue is truly empty |
| `MPMCIndirectSeqProof.StepEnabled` | mpmc_128_seq.go:66-111 | every step is a step of the bounded FIFO, with effects at the slot CAS and refusals at the slot load |
| `MPMCIndirectSeqProof.Linearizable` | mpmc_128_seq.go:66-111 | linearizable to a FIFO bounded by `n`, for any values and threads |
| `MPMCIndirectSeqProof.IndexLag` | mpmc_128_seq.go:66-111 | each index lags the true count by at most one, and the index CAS after a slot CAS always succeeds |
| `MPMCIndirectSeqProgress.LosersSpin` | mpmc_128_seq.go:67-110 | while the winner has not advanced the index, a trip of a loser, producer or consumer, returns to the same state |
| `MPMCIndirectSeqProgress.SpinsForever` | mpmc_128_seq.go:67-110 | and so for any number of its steps |
| `MPMCIndirectSeqProgress.FinishesIff` | mpmc_128_seq.go:66-111 | in every reachable state and at every point of a call it finishes on its own iff it is not inside its loop while a thread of its side stands between slot CAS and index CAS |
| `MPMCIndirectSeqProgress.FinishesSoon` | mpmc_128_seq.go:66-111 | and then within 5 steps |
| `MPMCIndirectSeqProgress.NotLockFree` | mpmc_128_seq.go:66-111 | for every capacity and two threads there are runs after which a producer, or a consumer, never finishes on its own |
| `MPSCCompactProof.StepInv` | mpsc_compact.go:60-111 | every step keeps the invariant on indices, ring layout and owners |
| `MPSCCompactProof.Linearizable` | mpsc_compact.go:60-111 | linearizable to a FIFO bounded by `n`, for any producers and arbitrary, repeated or zero values |
| `MPSCCompactProof.NoEmptyBelowTail` | mpsc_compact.go:103-105 | the empty-flag refusal of Dequeue is unreachable: below `tail` the consumer always finds a value |
| `MPSCCompactProgress.LoopProgress` | mpsc_compact.go:66-84 | a producer goes round its loop again only after `tail` has moved past the value it loaded |
| `MPSCCompactProgress.LockFree` | mpsc_compact.go:66-84 | after `k` extra trips of a running Enqueue at least `k` operations of other producers have advanced `tail` |
| `MPSCCompactProgress.StepBound` | mpsc_compact.go:60-111 | in every run an Enqueue that has not returned has made at most `4 * d + 5` own steps, `d` being how far `tail` has advanced since it began; a Dequeue at most 6 |
| `MPSCCompactProgress.SoloReturns` | mpsc_compact.go:60-85 | from every reachable state, at every point of a call, an Enqueue running alone returns within 11 steps |
| `MPSCCompactProgress.LoneEnqueue` | mpsc_compact.go:60-85 | and, called from rest, refuses iff the `n` positions from `head` on are filled |
| `MPMCSeqProof.StepInv` | mpmc_seq.go:64-109 | every step keeps the invariant on sequence numbers, data and owners |
| `MPMCSeqProof.ExclusiveSlots` | mpmc_seq.go:72-105 | no two threads are ever at the data of the same slot |
| `MPMCSeqProof.BoundsAndValues` | mpmc_seq.go:64-109 | `head <= tail <= head + n`, and what is returned at a position is what was claimed for it |
| `MPMCSeqProof.FreeSlotsCleared` | mpmc_seq.go:96-101 | every slot of an unclaimed position is cleared and free, or its last consumer has yet to release it |
| `MPMCSeqProof.DequeueExact` | mpmc_seq.go:87-109 | a Dequeue returns, once, the value written at the position it claimed |
| `MPMCSeqProof.RefusalsExact` | mpmc_seq.go:64-109 | Enqueue refuses iff the slot of `tail` is not released, Dequeue iff position `head` is not published |
| `MPMCSeqLimits.NotLinearizable` | mpmc_seq.go:64-109 | for any capacity and two threads a run exists that no bounded FIFO can show: a refusal after an Enqueue has returned |
| `MPMCSeqLimits.BoundIffTwoSlots` | mpmc_seq.go:43-83 | `tail <= head + n` holds in every run iff `n >= 2`: the filled tag must differ from the next empty one |
| `MPMCSeqExact.StepSimulates` | mpmc_seq.go:64-109 | every step with an exact refusal, or none, is a step of the bounded FIFO with effects at the index CAS |
| `MPMCSeqExact.ExactLinearizable` | mpmc_seq.go:64-109 | a run whose refusals are all exact (`tail == head + n`, or `head == tail`, at the sequence load) is linearizable |
| `MPMCSeqExact.LinearizableIff` | mpmc_seq.go:64-109 | every run is linearizable iff there is at most one thread |
| `MPMCSeqProgress.LoopProgress` | mpmc_seq.go:66-108 | a thread goes round its loop again only after its index has moved past the value it loaded |
| `MPMCSeqProgress.LockFree` | mpmc_seq.go:66-108 | after `k` extra trips of a running call at least `k` claims by other threads have advanced its index |
| `MPMCSeqProgress.StepBound` | mpmc_seq.go:64-109 | in every run a call that has not returned has made at most `3 * d + 7` own steps, `d` being how far its index has advanced since it began |
| `MPMCSeqProgress.SoloReturns` | mpmc_seq.go:64-109 | from every reachable state, at every point of a call, the call running alone returns within 8 steps |
| `MPMCSeqProgress.LoneCalls` | mpmc_seq.go:64-109 | whatever the others are doing, an Enqueue alone refuses iff the slot of `tail` is not released, a Dequeue alone refuses iff position `head` is not published and otherwise returns the value claimed for it |
| `SPSCProof.StepEnabled` | spsc.go:50-81 | every step is a step of the bounded FIFO, effects at the index stores; refusals are exact at the refreshing load |
| `SPSCProof.StepInv` | spsc.go:50-81 | every step of either side keeps the invariant |
| `SPSCProof.Linearizable` | spsc.go:50-81 | linearizable to a FIFO bounded by `n` under every interleaving of producer and consumer |
| `SPSCProof.CachedIndices` | spsc.go:51-73 | `cachedHead <= head <= tail <= cachedHead + n` and `cachedTail <= tail`; a slot is accessed only when the cached test admits it, which admits only what the exact test admits |
| `SPSCProof.SlotsExact` | spsc.go:59-78 | between calls every slot holds its published item or is cleared |
| `SPSCProof.NoDataRace` | spsc.go:59-78 | producer and consumer never access the data of one slot at once |
| `SPSCProgress.WaitFree` | spsc.go:50-81 | whatever the other side does, an Enqueue that has not returned has made at most 5 own steps, a Dequeue at most 6 |
| `SPSCProgress.DequeueReturnsOldest` | spsc.go:66-81 | a Dequeue that loads `head` while something is published returns the oldest published value |
| `MPMCModel.Keeps` | mpmc.go:78-172 | one call keeps: contents are `tail - head <= n` items, threshold is `3n - 1` unless empty, and at least -1 before Drain |
| `MPMCModel.RefinesPlain` | mpmc.go:78-162 | every sequence of calls is answered like a plain FIFO of capacity `n`: full iff `n` items, empty iff none |
| `MPMCModel.Conservation` | mpmc.go:118-162 | every position `head` passed was either delivered or burned by an empty Dequeue |
| `MPMCModel.BurnBudget` | mpmc.go:118-162 | between successful enqueues every burned position costs one threshold unit; before Drain there are at most `3n` of them |
| `MPMCModel.SpentIffQuiet` | mpmc.go:119-124 | Dequeue leaves the state unchanged iff that budget is spent; a non-empty queue has threshold `3n - 1` |
| `MPMCModel.EmptyDequeues` | mpmc.go:118-150 | how many positions `k` dequeues on an empty queue burn, and that after Drain they burn one each |
| `MPMCModel.DrainingIff` | mpmc.go:112-121 | the queue is draining exactly from the first Drain on, whatever else is called |
| `MPMCModel.DrainBurns` | mpmc.go:112-150 | after Drain the threshold stops no Dequeue: `k` of them on an empty queue burn `k` positions |
| `MPMC.PutKeeps` | mpmc.go:87-98 | storing at `tail` keeps the layout of tags and data over the `2n` slots |
| `MPMC.HeadKeeps` | mpmc.go:129-147 | moving `head` over an item or a free position keeps that layout, with the slot cleared |
| `MPMC.MPMC.constructor` | mpmc.go:48-74 | the new queue is laid out as empty, with `n` the least power of two not below the request and threshold `3n - 1` |
| `MPMC.MPMC.Enqueue` | mpmc.go:78-107 | keeps the layout and acts as the model's Enqueue |
| `MPMC.MPMC.Dequeue` | mpmc.go:118-162 | keeps the layout and acts as the model's Dequeue, repair and threshold included |
| `MPMC.MPMC.Catchup` | mpmc.go:164-172 | lifts `tail` to the given head if it has not moved, otherwise at most to the current `head` |
| `MPMC.MPMC.Drain` | mpmc.go:112-114 | sets the drain flag, changes nothing else and keeps the layout |

## Left out

- The interleaved queues are modelled on values, as one record of memory and program counters updated step by step, because their methods overlap in time; that a Go method is one activation working in place on shared slices is captured by the MPMC class only.
- Memory orderings: every atomic access is sequentially consistent; relaxed, acquire and release accesses are not distinguished.
- Counter wrap-around: indices, cycles and sequence numbers are unbounded, as they are below 2^63 operations; signed comparison of differences is ordinary comparison there.
- Interleavings of the generic MPMC: data and cycle are separate plain writes, so mpmc.go is modelled one call at a time.
- spmc.go and spmc_128.go: the producer's plain store to `tail` races with catchup.
- The remaining queue files (mpsc_128.go, mpsc_128_seq.go, mpsc_seq.go, spmc_seq.go, spmc_128_seq.go, spmc_compact.go and the pointer variants): the same protocols with another element type or one side simplified.
- Payloads of the interleaved queues are numbers with zero as the zero value; the 63-bit check and its panic in the compact queues, and the capacity panic of the constructors, are preconditions of the model.
- Drain of MPSC: it only sets a flag that no method of that queue reads.
- Back-off, padding and race-detector hooks: no effect on what is computed.
- Builder selection, error wrapping, interfaces and the assembly for the indirect SPSC queue.
- MPMCCompactProof.Linearizable: for a single run the condition on values is sufficient, not necessary, because a consumer that takes another position may still return what a FIFO would; that it is exact for consumers keeping to their positions is FreshIff.
