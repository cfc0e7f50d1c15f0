# A verified model of the scheduler core

This project models, in Dafny, the parts of the Linux scheduler sources (`fair.c`, `core.c`,
`rt.c`) and of the thread-pool lab (`os_lab2/thread_pooling.cpp`) that carry the hard promises, and
proves those promises for every input, every run or every interleaving. Nothing was executed:
everything said here is a contract that Dafny's verifier establishes from the model.

| module | what it models |
|---|---|
| `VirtualTime`, `SumOverflow`, `EevdfTree`, `CfsRqModel` | earliest-eligible-virtual-deadline-first picking, the incrementally kept weighted sums, lag-preserving placement |
| `TaskGroups`, `CfsQuota` | the stackless walk of the task-group tree and the hierarchical quota check built on it |
| `Throttle`, `Bandwidth` | throttle counts and limbo lists on the group tree; the runtime ledger between pool and CPUs |
| `PutSetWalk` | switching between two tasks by walking both entity paths only to where they meet |
| `Affinity`, `AffinityProgress` | the protocol around the stack-owned record of an affinity change |
| `RtQueue`, `RtRuntime`, `RtPush` | the hierarchical priority arrays, runtime borrowing, and the travelling push interrupt |
| `Uclamp`, `UclampTree` | bucketed maximum aggregation of utilisation clamps and their pruned propagation |
| `MmCid` | sizing and mode hysteresis of concurrency IDs |
| `ThreadPool` | the linked task queue and the worker, submit and destroy protocol |

State that the source changes in place is a class whose methods are proved against functions of the
old state. Concurrent protocols (`Affinity`, `RtPush`, `ThreadPool`) are state machines whose steps
are the sections under a lock and the actions between them; their results quantify over all finite
runs. Integers are unbounded unless stated: the 64-bit overflow checks of the weighted sums are
written out, and `SumOverflow` says when the wrapping 64-bit arithmetic of the source gives the same. A warning or fatal check is part of the
model where a row below says so: a method returns or records that one fired, and its contract says
when. The ones in the modelled code that are not covered are listed at the end.

## Where code, comments and expectations differ

- Concurrency IDs: the comment at `core.c:10717-10719` says that raising the number of allowed CPUs
  may cause a switch back to task-owned IDs. In the code the recomputed threshold is never above the
  number of users, so the deferred switch is never queued (`MmCid.Mm.WidenAffinity`,
  `MmCid.Mm.DeferredWork`).
- Concurrency IDs: when the last user leaves in per-CPU mode and its leaving flips the mode, nobody
  completes the transition and the transit bit stays set; `MmCid.Mm.Exit` gives the exact condition
  and `MmCid.StuckTransit` a run that reaches it.
- Real-time runtime: enabling a runqueue keeps the conservation law if and only if the runqueue was
  disabled or held exactly its own share (`RtRuntime.RtBandwidth.EnableRuntime`);
  `RtRuntime.LenderEnabled` is a run that breaks it. The step is reached from `set_rq_online`
  (`core.c:8505-8518`) through `rt.c:2386`, for a CPU of the span that lent without having been taken
  offline before, as at its first activation (`core.c:8654`), or whose runqueue was given a finite
  runtime while offline (`rt.c:2770-2776`).
- Placement: the lag measured after joining can be one unit smaller in magnitude than the saved one,
  never larger; `CfsRqModel.LagRoundTrip` gives the exact condition, which can be evaluated before
  joining, and `CfsRqModel.LagCanBeLost` an input that loses the unit.
- Re-weighting: `fair.c:4015-4038` argues that it does not move the weighted average. In integers it
  does: `CfsRqModel.ReweightMovesAverage` gives the exact distance and when it is zero, and
  `CfsRqModel.ReweightCanMoveAverage` an input.
- Overflow retry: the sums recomputed at the next shift are not checked (`fair.c:732-735`), so the
  next check can let an entity in on a wrapped sum. `SumOverflow.RetryCanMislead` is an input that
  the loop receives, and `SumOverflow.RetryIsExact` says exactly when the loop ends as one with
  exact checks would.
- Coming online: `rt.c:742-764` clears a group's throttled flag without queueing the group, unlike
  the other places that clear it. `RtQueue.RtRunqueue.ClearThrottled` says exactly when that leaves
  the queue consistent; the next period timer that queues the group repairs it.
- Quota check: a refused proposal on the legacy hierarchy stays recorded in the groups entered
  before the refusal (`CfsQuota.CfsSchedulable`).

## Model

| member | source | states |
|---|---|---|
| `VirtualTime.EachShiftHalves` | fair.c:676-682 | an unscaled weight counts as it is, and every scaling down halves what it counts, rounding down but never below two |
| `VirtualTime.SumsOfInsertion` | fair.c:676-757 | an entity inserted anywhere adds exactly its own weight and weighted key to the two sums, which is what lets them be kept incrementally |
| `VirtualTime.RebaseSum` | fair.c:758-766 | moving the zero point by d lowers the weighted sum by d times the total weight, for every list of entities |
| `VirtualTime.EligibleAtAnyBase` | fair.c:894-937 | the division-free test relative to any zero point answers the zero-point-free question, so re-basing changes no answer |
| `VirtualTime.AverageIsLargestEligible` | fair.c:768-814 | v is eligible if and only if v is at most the average: the average is the largest eligible integer |
| `VirtualTime.LagIsConserved` | fair.c:617-647 | the weighted lags measured from the average sum to a value in (-W, 0] |
| `VirtualTime.SomeEntityEligible` | fair.c:884-892 | a non-empty queue always has an entity at or below the weighted average |
| `VirtualTime.LeftBiasIsFloor` | fair.c:797-802 | subtracting weight - 1 from negative sums turns truncating division into a floor, for all sums and weights |
| `VirtualTime.OverflowBranchAgrees` | fair.c:907-936 | the sign decision taken when the 64-bit product overflows equals the exact comparison for every 64-bit sum |
| `VirtualTime.KeyOfWrapped` | fair.c:600-617 | wrapping 64-bit virtual runtimes subtract like unbounded ones if and only if the true distance fits 64 signed bits |
| `VirtualTime.MachineSumExactIffFits` | fair.c:684-696 | the sum accumulated in 64 bits without checks is the exact one if and only if the exact one fits, whatever overflowed on the way |
| `VirtualTime.MachineEligible` | fair.c:894-937 | the whole eligibility test in 64-bit arithmetic, overflow branch included, answers whether the lag is not negative whenever the exact sum and key fit |
| `SumOverflow.MachineFitsAgrees` | fair.c:704-716 | the overflow check on wrapped keys and unchecked sums answers as an exact one if and only if the exact sum fits, the product alone is too large, or the sum is out by a whole word and both refuse; where both accept the new sum is exact |
| `SumOverflow.RetryIsExact` | fair.c:698-738 | the retry loop ends at the shift an exact one would, with the exact sum, or with it in the fatal check, if and only if at every shift the exact one tries both checks answer alike |
| `SumOverflow.RetryCanMislead` | fair.c:718-737 | five entities that joined without overflow and a sixth for which the sum recomputed at shift 1 wraps: the loop accepts it there although no shift fits |
| `SumOverflow.RunKeepsWrapped` | fair.c:684-766 | through any run of joins, leaves, re-basings and recomputations in unchecked 64-bit arithmetic the kept sum is what the exact sum wraps to, and exact if and only if the exact sum fits |
| `SumOverflow.AnyQueueCanFollow` | fair.c:684-766 | such a run leads from any queue to any other whose weights are not scaled down less, so the runs leave out no queue |
| `EevdfTree.AugmentationIsMinimum` | fair.c:970-1032 | the cached values of a subtree are attained and are lower bounds: exactly the smallest vruntime and the smallest slice below |
| `EevdfTree.InsertSpec` | fair.c:1040-1047 | insertion places the entity after every deadline no later than its own, moves nothing else, and keeps order and augmentation |
| `EevdfTree.EraseSpec` | fair.c:1049-1054 | removal takes out exactly one occurrence and keeps order and augmentation |
| `EevdfTree.ScanIsEarliestEligible` | fair.c:1117-1135 | the reference scan returns an eligible entity that no eligible entity beats on deadline, and nothing only if nothing is eligible |
| `EevdfTree.PruneTestIsExact` | fair.c:1173-1186 | a subtree's cached minimum is eligible if and only if some entity in the subtree is |
| `EevdfTree.DescendStep` | fair.c:1173-1200 | each branch of the descent preserves the scan's answer |
| `CfsRqModel.CfsRq.SumWVruntimeAdd` | fair.c:684-746 | the sums follow the definition at the resulting shift; that shift is the least one that fits 64 bits, each retry raises it by one, and the fatal check is reached if and only if no shift up to ten fits |
| `CfsRqModel.CfsRq.EnqueueInTree` | fair.c:1040-1047 | both sums equal their definition over the timeline afterwards, the entity is inserted in deadline order and joins the counted ones, everything else in place |
| `CfsRqModel.CfsRq.DequeueFromTree` | fair.c:1049-1054 | both sums equal their definition over what is left |
| `CfsRqModel.CfsRq.UpdateZeroVruntime` | fair.c:758-766 | the zero point moves and both sums still equal their definition |
| `CfsRqModel.CfsRq.AvgVruntime` | fair.c:780-814 | the result is the floor of the exact weighted average over the timeline and the running entity, and becomes the zero point |
| `CfsRqModel.CfsRq.VruntimeEligible` | fair.c:894-937 | the answer is true exactly when the lag is not negative |
| `CfsRqModel.CfsRq.SearchTimeline` | fair.c:1164-1200 | the leftmost shortcut followed by the pruned descent returns what the linear scan of the timeline returns |
| `CfsRqModel.CfsRq.PickEevdf` | fair.c:1136-1205 | with protection an eligible buddy is returned, else an eligible running entity whose slice is protected; otherwise the result equals a linear scan over all entities including the running one; it is empty only for an empty queue |
| `CfsRqModel.CfsRq.PlaceEntity` | fair.c:5381-5514 | the placed vruntime is the average minus the inflated lag, the average, or the zero point; the deadline is relative, halved or full; the zero point moves to the average, or to the entity if it outweighs the rest and brings a lag |
| `CfsRqModel.PlacementArithmetic` | fair.c:5411-5497 | for all sums, weights and saved lags, joining at the average minus the inflated lag leaves the saved lag, or one unit less in magnitude exactly if a condition on the remainders before joining fails |
| `CfsRqModel.LagRoundTrip` | fair.c:5411-5497 | lag round trip: placed with a saved lag on any non-empty queue, the entity has that lag again up to one unit towards zero once it counts, and exactly that lag if and only if the queue it joined satisfies a condition known beforehand |
| `CfsRqModel.LagCanBeLost` | fair.c:5458-5497 | a queue and an entity that leave with lag 1 and come back with lag 0 |
| `CfsRqModel.ReweightedKeepsProducts` | fair.c:4047-4116 | re-weighting keeps the weighted lag, within the limit, and the weighted time to the deadline, each up to a remainder smaller than the new weight that is lost towards zero |
| `CfsRqModel.ReweightMovesAverage` | fair.c:4015-4047 | re-weighting moves the floored average by exactly the old remainder plus the truncation error, shared over the new weight; it stays put if and only if that is less than one unit |
| `CfsRqModel.ReweightErrorIsTruncation` | fair.c:4047-4047 | with an unclamped lag and unscaled weights the error is what the division of the lag drops |
| `CfsRqModel.ReweightCanMoveAverage` | fair.c:4015-4038 | two entities whose average moves from 0 to 499 by re-weighting one |
| `CfsRqModel.CfsRq.EnqueueEntity` | fair.c:5522-5586 | place and count again, in the timeline or as the running entity: with lag placement the lag measured afterwards is the saved one up to one unit, exactly when is known beforehand, whenever the shift did not change, and without it the entity starts at the average; the deadline is relative, halved or full |
| `CfsRqModel.CfsRq.ReweightEntity` | fair.c:4068-4116 | an entity that counts is replaced by its re-weighted self, queued or running, the sums stay exact and the average moves by the stated amount; one that is off has its saved lag rescaled up to the remainder and the queue is untouched |
| `CfsRqModel.CfsRq.UpdateEntityLag` | fair.c:832-878 | the saved lag is the distance from the average, which becomes the zero point, clamped to the limit and, for a delayed entity, raised to what it had and cut at zero; the result says exactly whether it differs from that distance |
| `CfsRqModel.CfsRq.DequeueEntity` | fair.c:5646-5727 | an entity that may be delayed and is not eligible stays and nothing else does; otherwise exactly it stops counting, in the timeline or as the running one; the lag it saves is the clamped one, a deadline kept for later is made relative, and the sums stay exact |
| `CfsRqModel.CfsRq.SetNextEntity` | fair.c:5729-5774 | a queued entity leaves the timeline but keeps counting, so the average and every eligibility answer stay; an entity that is not queued changes nothing but the running one |
| `CfsRqModel.CfsRq.PutPrevEntity` | fair.c:5798-5819 | a runnable entity returns to the timeline in deadline order, and the average stays |
| `TaskGroups.WalkTgTreeFrom` | core.c:1468-1497 | the goto walk terminates and equals running the visitors over the recursive preorder/postorder trace up to the first failure |
| `TaskGroups.TraceVisitsSubtreeOnce` | core.c:1462-1467 | the trace enters and leaves every descendant exactly once and visits nothing else |
| `TaskGroups.LeaveGroup` | core.c:1484-1494 | leaving a group leads to its next sibling or out of its parent, exactly as what is left of the trace says |
| `CfsQuota.NormalizedIsLimit` | core.c:9890-9908 | the quota the check works with is the proposal for the group it is made for and the group's own for every other |
| `CfsQuota.PathMinIsMinimum` | core.c:9910-9946 | the recursive tightest limit is the minimum finite limit on the path to the root, or infinity |
| `CfsQuota.TraceFills` | core.c:9910-9946 | folding the visitor over a subtree fills in exactly that subtree and fails exactly if a group in it exceeds what it inherits on the legacy hierarchy |
| `CfsQuota.WalkWrites` | core.c:9910-9946 | over any trace that enters parents first, the groups entered before the first refusal, and only they, have been written, each with the tightest limit on its path |
| `CfsQuota.NoneRefusedBefore` | core.c:9930-9943 | the refusal that ends the walk is the first in the order of the walk |
| `CfsQuota.RespectsIsExceedsNone` | core.c:9910-9946 | a group is within the tightest limit above it if and only if it exceeds none of the limits above it, one by one |
| `CfsQuota.CfsSchedulable` | core.c:9948-9963 | with the proposal in place of the group's own quota: on success every group recorded the minimum finite limit on its path; it always succeeds on the unified hierarchy and on the legacy one if and only if no group exceeds any of the limits above it; on failure exactly the groups entered before the first refused one hold the proposal's values |
| `Throttle.ThrottleFold` | fair.c:6216-6237 | a whole downward walk raises each count by the number of visits and touches nothing else |
| `Throttle.UnthrottleFold` | fair.c:6145-6183 | a whole upward walk lowers each visited count by one and empties the limbo list where it reaches zero |
| `Throttle.UnthrottleTask` | fair.c:6145-6183 | during an upward walk a task is put back once if its group's count reaches zero with the task in limbo, and otherwise not at all |
| `Throttle.FlagChangesCounts` | fair.c:6239-6278 | throttling one runqueue raises the number of throttled runqueues above exactly for its descendants |
| `Throttle.ThrottleSpec` | fair.c:6216-6278 | throttling keeps the tree consistent: counts are the throttled runqueues on the path, limbo lists are non-empty only while frozen |
| `Throttle.UnthrottleSpec` | fair.c:6145-6331 | unthrottling keeps the tree consistent and puts each limbo task whose group's count reached zero back exactly once |
| `Throttle.OnlineSpec` | fair.c:6683-6708 | a new group that copies its parent's count has the right count |
| `Throttle.ThrottledCpu.constructor` | fair.c:6815-6821 | the root group alone is a consistent start of every run |
| `Throttle.ThrottledCpu.ThrottleCfsRq` | fair.c:6239-6278 | counts rise for the descendants only, tasks stay, and a newly frozen runqueue has an empty limbo list |
| `Throttle.ThrottledCpu.UnthrottleCfsRq` | fair.c:6280-6331 | counts fall for the descendants only and exactly the tasks whose group thawed come back, each once; without runtime nothing changes |
| `Throttle.ThrottledCpu.OnlineGroup` | fair.c:6683-6708 | a new group joins at the head of its parent's children with the parent's count, and the tree stays consistent |
| `Throttle.ThrottledCpu.ThrottleWork` | fair.c:6011-6054 | a task returning to user space below a throttled group moves from its runqueue to limbo, an exiting one or one of another class stays, and the warning about a task already in limbo cannot fire |
| `Throttle.ThrottledCpu.DequeueTask` | fair.c:6073-6090 | a throttled task leaves its limbo list and was on no runqueue, any other leaves its runqueue; the mark is cleared only for sleep; others are untouched |
| `Throttle.ThrottledCpu.EnqueueTask` | fair.c:6092-6140 | a marked task goes to limbo exactly if its group is frozen and it is not running; otherwise it is queued unmarked |
| `Bandwidth.CfsBandwidth.Refill` | fair.c:5893-5914 | the pool gains the quota and is cut to quota plus burst, which is the minimum of the two; the cut is accounted, and use beyond the quota is added to the burst time |
| `Bandwidth.CfsBandwidth.Assign` | fair.c:5917-5955 | the local balance rises to the target or by all of the pool, the pool never underflows, success means a positive balance |
| `Bandwidth.CfsBandwidth.Account` | fair.c:5957-5974 | time is charged and an exhausted unthrottled runqueue draws one slice; the ledger stays balanced |
| `Bandwidth.CfsBandwidth.ThrottleIfEmpty` | fair.c:6239-6263 | throttled exactly if not even one nanosecond could be drawn, and then listed last |
| `Bandwidth.CfsBandwidth.Unthrottle` | fair.c:6280-6305 | released exactly if its balance is positive, and only then taken off the list, the others in order |
| `Bandwidth.CfsBandwidth.DistributeOne` | fair.c:6425-6465 | one starving runqueue is lifted to one nanosecond or takes all that is left, and neither its warning nor those of the asynchronous hand-over can fire |
| `Bandwidth.CfsBandwidth.Distribute` | fair.c:6403-6483 | undisturbed, the runqueues waiting are served in the order they were throttled: those before the first one left hungry are lifted to one nanosecond and released, it gets what is left, and exactly it and the later ones stay throttled; it returns true only with the pool at zero; nobody else is touched; at most one runqueue is unthrottled locally, so neither local-list warning can fire |
| `Bandwidth.CfsBandwidth.ReturnSlack` | fair.c:6577-6617 | all but a small reserve goes back to the pool, none of it lost; the slack timer is asked for exactly if the pool then exceeds a slice while somebody is throttled, and started unless it already was or a refill is near |
| `Bandwidth.CfsBandwidth.SlackTimer` | fair.c:6634-6657 | near a refill or with a slice or less nothing happens; otherwise, undisturbed, the pool is used up or everybody waiting is served |
| `Bandwidth.CfsBandwidth.PeriodTimer` | fair.c:6491-6546 | with a quota exactly one is added, on the deactivating path too, and nothing is consumed; then it is distributed, one round sufficing undisturbed; the period counts as idle exactly if nobody was waiting, and the timer stops exactly if unlimited or idle with nobody waiting |
| `Bandwidth.CfsBandwidth.ConsumptionBound` | fair.c:5893-5974 | time consumed never exceeds what was there plus all refills by more than the debt still open |
| `PutSetWalk.PutAllSpec` | fair.c:9333-9342 | putting back a whole path empties its curr chain and returns its runnable entities to their trees |
| `PutSetWalk.SetAllSpec` | fair.c:13890-13903 | setting a whole path makes it the curr chain and takes its runnable entities out of their trees |
| `PutSetWalk.StaysApart` | fair.c:9264-9283 | walking up, the two sides never meet in one entity before they share a runqueue |
| `PutSetWalk.FairClass.PickNext` | fair.c:9264-9286 | the partial walk terminates, never sets over an occupied curr, and ends in exactly the state of the full put followed by the full set |
| `Affinity.TouchesLive` | core.c:2919-3067 | a step touches only records whose owner is still inside its call |
| `Affinity.StepKeepsInv` | core.c:2571-3067 | every step of callers, migrate-enable and stoppers keeps the protocol invariant |
| `Affinity.RunKeepsInv` | core.c:2571-3067 | so does every run |
| `Affinity.EveryRunIsSafe` | core.c:2600-2610 | in every interleaving no step touches a dead record and neither protocol warning fires |
| `Affinity.RecordProtocol` | core.c:2571-2683 | a record with its stop flag is the installed one with exactly one stop work; a signalled one is uninstalled with the flag clear; references equal the callers still holding it, so an owner returns only when nobody else is left |
| `Affinity.NoWaiterForgotten` | core.c:2919-3067 | a waiter's unsignalled record is still installed or exactly one thread is about to signal it; once signalled every holder can go on |
| `Affinity.ReleasesExactly` | core.c:2571-3067 | a locked section that finds a record uninstalls it and goes on to signal it exactly when it may: the task is settled, or off the CPU and not pinned, with no stop work under way, or the stopper finds the task where it can be moved or already allowed |
| `Affinity.WaitsOnlyWhilePinned` | core.c:2571-3067 | in every run a record left installed without a stop work means that the latest section found the task pinned, and an installed record asks for the CPU of the latest request |
| `AffinityProgress.HoldersLetGo` | core.c:3038-3066 | progress: once a record is uninstalled a number of steps fixed by the state, which can always be taken whatever else happens, has every holder let go of it, and its owner can leave after them and not before |
| `AffinityProgress.LetGoMeansReturn` | core.c:3038-3066 | so in every run a caller that has been let go can return after the steps still owed to its record, all of which can be taken |
| `AffinityProgress.EveryCallerCanReturn` | core.c:2571-3067 | from every state of every run each thread inside the protocol has a way on to where it is out of it and its record is gone, provided the task can be moved or leaves its pinned region: nobody waits for something that can no longer happen |
| `RtQueue.DequeueOneOk` | rt.c:1365-1377 | with its ancestors off, taking an entity off keeps every array, bitmap, count and cached priority consistent, and none of the warnings in the path can fire |
| `RtQueue.EnqueueOneOk` | rt.c:1331-1363 | with its ancestors off, putting an entity on keeps all of that; throttled or empty groups stay off |
| `RtQueue.HighestAfterRemoval` | rt.c:1091-1115 | the cached priority after a removal is again the smallest queued one, or the largest priority if none is |
| `RtQueue.UnstackOk` | rt.c:1379-1401 | the top-down removal takes off exactly the entity and its ancestors and keeps every array consistent |
| `RtQueue.RestackOk` | rt.c:1403-1413 | the bottom-up insertion makes every group queued exactly if it is non-empty and unthrottled, and changes no other array |
| `RtQueue.RegroupOk` | rt.c:1415-1430 | putting the groups back after a removal restores the whole invariant |
| `RtQueue.EnqueueMoves` | rt.c:1331-1413 | enqueueing moves the entity and the groups above it, each that is queued to the chosen end of its list in its parent's array, and at every level of every array all other entities keep their order |
| `RtQueue.DequeueMoves` | rt.c:1365-1430 | dequeueing moves the groups above likewise, and nothing else |
| `RtQueue.TopBound` | rt.c:1079-1115 | through unthrottled groups the cached priorities only get smaller towards the top |
| `RtQueue.RtRunqueue.constructor` | rt.c:68-103 | empty arrays satisfy the invariant |
| `RtQueue.RtRunqueue.EnqueueTopRtRq` | rt.c:1028-1049 | it counts again exactly if it is non-empty and unthrottled |
| `RtQueue.RtRunqueue.DequeueRtStack` | rt.c:1383-1401 | the loop over the back links equals the recursive top-down removal, with no warning |
| `RtQueue.RtRunqueue.EnqueueRtEntity` | rt.c:1403-1413 | afterwards the whole hierarchy invariant holds, with no warning |
| `RtQueue.RtRunqueue.DequeueRtEntity` | rt.c:1415-1430 | afterwards the whole hierarchy invariant holds, with no warning |
| `RtQueue.RtRunqueue.EnqueueTask` | rt.c:1435-1453 | exactly that task becomes queued, at the chosen end of its priority's list; every queued group above it stands at that end of its list too; at every level of every array the other entities keep their order; the invariant holds throughout the hierarchy |
| `RtQueue.RtRunqueue.DequeueTask` | rt.c:1455-1465 | exactly that task stops being queued; the queued groups above it stand at the chosen end of their lists, at every level of every array the other entities keep their order, and the invariant holds |
| `RtQueue.RtRunqueue.ThrottleRtRq` | rt.c:548-562 | only that group's flag changes, no task is lost, and the invariant holds: a queued group leaves its parent's array, the groups above go to the ends of their lists and all others keep their order |
| `RtQueue.RtRunqueue.UnthrottleRtRq` | rt.c:818-854 | only that group's flag changes; if it was throttled and is not empty it returns to the end of its list, the groups above go to the ends of theirs and all others keep their order; otherwise no list changes |
| `RtQueue.RtRunqueue.ClearThrottled` | rt.c:742-764 | clearing the flag without queueing keeps the hierarchy invariant if and only if the group was not throttled or had nothing in it |
| `RtQueue.RtRunqueue.SchedRtRqEnqueue` | rt.c:527-546 | queueing an unthrottled group restores the whole invariant from any state in which only that group may be missing, loses no task and moves only that group and those above it, to the ends of their lists |
| `RtQueue.RtRunqueue.PickTask` | rt.c:1676-1719 | nothing is picked exactly if no queued task is reachable through unthrottled groups; otherwise the picked task is reachable, of the smallest priority value of all reachable tasks, and it and every group above it are first in their lists |
| `RtRuntime.CappedShare` | rt.c:634-640 | the share taken from a neighbour never exceeds its spare time nor carries the borrower past the period |
| `RtRuntime.OthersCanRepay` | rt.c:690-726 | by conservation the other runqueues always hold what a reclaiming one misses |
| `RtRuntime.RtBandwidth.DoBalanceRuntime` | rt.c:608-655 | nothing is created or lost; a borrower at or below the period ends at the minimum of the period and what it held plus all that was offered, each neighbour lending in turn its share or what is still short of the period and never what it used; a runqueue above the period gives the excess to the first neighbour with spare time |
| `RtRuntime.RtBandwidth.DisableRuntime` | rt.c:660-740 | nothing is ever left wanting: what was lent is taken back greedily in order, what was borrowed goes to the first other runqueue, and the remaining runqueues again hold n times the group's runtime |
| `RtRuntime.RtBandwidth.EnableRuntime` | rt.c:742-764 | keeps the conservation law if and only if the runqueue was out of service or held exactly its share |
| `RtRuntime.LenderEnabled` | rt.c:742-764 | a run of a borrowing and an enabling step that ends with more runtime than the runqueues were given |
| `RtPush.RootDomain.RtoNextCpu` | rt.c:2121-2171 | as a loop, with mask and requests standing still: which CPU is returned, none only with no request left, and at most two passes, the second a full one |
| `RtPush.OneCallTwoPasses` | rt.c:2121-2171 | in every interleaving without a new request, overload bits changing freely, one search under the lock ends at most the pass it is in and one full pass, the latter only if a request was unseen, and looks at the mask at most 2(n+2) times |
| `RtPush.StepKeepsInv` | rt.c:2121-2251 | every step of requesters and push interrupts keeps the token invariant |
| `RtPush.OneToken` | rt.c:2183-2251 | in every interleaving there is at most one push token, and between lock sections the domain's position is a CPU exactly while there is one |
| `RtPush.DecidesOnOverloaded` | rt.c:2121-2154 | the search settles on the next overloaded CPU after the position that is not the searcher's own, and makes it the position |
| `RtPush.TokenIsAtPosition` | rt.c:2183-2251 | in every interleaving whoever is to send the interrupt sends it to the CPU the position names, one in flight is on its way there, and one that runs does so there |
| `RtPush.RequestIsServed` | rt.c:2183-2214 | progress: a request made while no token is about can be carried through to an interrupt on its way to an overloaded CPU other than its own, if there is one |
| `RtPush.FirstRequestIsServed` | rt.c:2183-2214 | from the start, a CPU becoming overloaded and a request made on another one can be carried through to an interrupt on its way to the overloaded one |
| `RtPush.InterruptPassesOn` | rt.c:2217-2251 | progress: an interrupt that runs can be carried through to one on its way to the next overloaded CPU after its own, if there is one |
| `RtPush.RetiresAfterFullPass` | rt.c:2155-2168 | the token retires only with every request seen, after a pass begun after the latest request that reached every CPU overloaded throughout |
| `RtPush.OnlyRetiringLosesToken` | rt.c:2121-2251 | no other step loses the token, and only a request that finds none creates one |
| `RtPush.MemoryIsHonest` | rt.c:2121-2171 | what the state remembers of a pass is what happened: a CPU is reached only by the position getting there, is overloaded throughout only while its bit stays set, and both are forgotten only when a pass begins |
| `Uclamp.ClampDominates` | core.c:1733-1769 | the runqueue clamp is at least the value of every active task |
| `Uclamp.TopBucketIsMaximum` | core.c:1614-1633 | for any monotone bucketing the topmost occupied bucket holds the maximum |
| `Uclamp.Rq.MaxValue` | core.c:1614-1633 | the scan finds the topmost occupied bucket, if any |
| `Uclamp.Rq.IncId` | core.c:1733-1769 | the task is counted in its bucket and the clamp is again the maximum over the occupied buckets |
| `Uclamp.Rq.DecId` | core.c:1771-1835 | neither warning fires; a task never counted changes nothing; otherwise its bucket and the maximum are exact again, with the idle rules when emptied |
| `Uclamp.Rq.Inc` | core.c:1837-1863 | both clamps count the task and the runqueue invariant holds |
| `Uclamp.Rq.Dec` | core.c:1865-1886 | both clamps uncount the task without warnings, also for one queued before clamping was in use |
| `Uclamp.Rq.ReincId` | core.c:1888-1903 | one clamp is re-counted with the new value, without warnings, and a transient idle mark is cleared |
| `Uclamp.Rq.Update` | core.c:1905-1932 | both clamps of an active task are re-counted, an inactive one changes nothing |
| `UclampTree.SkipSubtree` | core.c:9608-9611 | resuming from the rightmost descendant skips exactly the subtree |
| `UclampTree.CpuUtilUpdateEff` | core.c:9570-9616 | if only the top group was out of date, afterwards no group is, although unchanged subtrees are never visited; nothing outside the subtree is written |
| `UclampTree.UpToDateIsRecomputed` | core.c:9570-9616 | so the pruned update equals recomputing every group from the root |
| `UclampTree.EffectiveIsLargest` | core.c:9580-9603 | the effective clamps are within every request and every parent with protection within the limit, and any clamps that are so for the whole tree lie within them |
| `UclampTree.ClampsAreNested` | core.c:9580-9603 | effective clamps never exceed any ancestor's, and protection never exceeds the limit |
| `MmCid.MaxCids` | core.c:10737-10747 | the most IDs that are no more than a quarter above the need, or as many as there are CPUs |
| `MmCid.PcpuThreshold` | core.c:10749-10756 | the least user count that is no less than three quarters of the need, or half the CPUs if that is less, and never zero |
| `MmCid.HysteresisGap` | core.c:10737-10756 | between leaving task mode and falling back at the same affinity at least a quarter of the allowed CPUs in users must leave |
| `MmCid.Mm.UpdateMaxCids` | core.c:10758-10793 | a mode change happens exactly if one was due, afterwards none is due; in task mode there is an ID per user, in per-CPU mode one per user or allowed CPU and a threshold between one and the users, computed when the mode was entered: no two flips without an event between them |
| `MmCid.Mm.Fork` | core.c:10927-10980 | a new user flips into per-CPU mode exactly if the ID space no longer suffices, and never back |
| `MmCid.Mm.Exit` | core.c:10982-11059 | an exit never flips into per-CPU mode; the transit bit stays set exactly if the last user flipped the mode |
| `MmCid.Mm.WidenAffinity` | core.c:10795-10832 | the threshold follows the allowed CPUs but never passes the number of users, so no deferred switch is ever queued |
| `MmCid.Mm.DeferredWork` | core.c:11086-11110 | the deferred update never finds a mode change to make |
| `MmCid.StuckTransit` | core.c:11023-11059 | a concrete run that ends in task mode with the transit bit set |
| `ThreadPool.Pool.SubmitLocked` | os_lab2/thread_pooling.cpp:91-112 | on the linked list a submission appends its task at the end unless the pool is shut down, in which case nothing changes |
| `ThreadPool.Pool.WorkerLocked` | os_lab2/thread_pooling.cpp:35-61 | on the linked list a worker takes the first task, or sleeps or leaves exactly if there is none and the pool is open or shut down |
| `ThreadPool.StepKeepsInv` | os_lab2/thread_pooling.cpp:31-149 | every step of workers, submitters and the destroyer, spurious wakeups included, keeps the pool invariant |
| `ThreadPool.FifoOnce` | os_lab2/thread_pooling.cpp:31-114 | in every interleaving tasks are dequeued in submission order, and each is dequeued, run and freed at most once and only by its one dequeuer |
| `ThreadPool.AcceptsUntilShutdown` | os_lab2/thread_pooling.cpp:76-135 | in every interleaving the accepted tasks are those submitted before the first call to destroy the pool, in that order, and the pool is shut down exactly from then on |
| `ThreadPool.NoLostWakeup` | os_lab2/thread_pooling.cpp:37-40 | while any worker sleeps every queued task has a worker of its own on the way to the lock, and after shutdown nobody sleeps |
| `ThreadPool.AllDoneAtExit` | os_lab2/thread_pooling.cpp:119-149 | once all workers have left, and so whenever the pool is freed, every accepted task was dequeued, run and freed exactly once |
| `ThreadPool.ShutdownFinishes` | os_lab2/thread_pooling.cpp:119-149 | from shutdown on the workers make exactly a number of steps fixed by the state, can always make the next one, and owe none exactly if all have left: destruction cannot hang in its joins |
| `ThreadPool.DestructionCompletes` | os_lab2/thread_pooling.cpp:119-149 | from every point of every interleaving at which the pool has been told to shut down there is a way on to where it has been freed |

## Left out

- EevdfTree.AugmentationIsMinimum: the cached largest slice, which is not initialised before insertion
  in these files, is not part of the tree.
- CfsRqModel.CfsRq.SumWVruntimeAdd: speaks of exact sums; `SumOverflow.RetryIsExact` is the link to the
  unchecked 64-bit ones.
- CfsRqModel.CfsRq.UpdateEntityLag: the limit, which the largest slice gives, is an input.
- CfsRqModel.CfsRq.EnqueueEntity: the lag promise is stated for an unchanged overflow shift, as a
  changed shift changes every counted weight.
- CfsRqModel.CfsRq.PlaceEntity: slice lengths and the scaled slice are inputs; the fixed-point scaling
  by weight is outside the files.
- Bandwidth.CfsBandwidth.Distribute: stated for a call that nobody interferes with; the locks it drops
  between runqueues are not modelled inside one call.
- Bandwidth.CfsBandwidth.PeriodTimer: likewise, each distribution in it is undisturbed.
- Throttle.ThrottledCpu.UnthrottleCfsRq: re-enqueueing a limbo task does not throttle its group again
  inside the same walk.
- Throttle.ThrottledCpu.OnlineGroup: a group appears on this CPU in one step.
- RtPush.RootDomain.RtoNextCpu: the loop alone, with mask and requests standing still;
  `RtPush.OneCallTwoPasses` is the bound with the mask moving.
- RtPush.OneToken: claims nothing about requests that lose the start lock, which the source simply
  drops.
- RtPush.RequestIsServed: the way on exists if nobody interferes; that it is taken is not claimed.
- RtPush.InterruptPassesOn: likewise.
- AffinityProgress.EveryCallerCanReturn: the way on exists; no fairness of threads is modelled, so that it is
  taken is not claimed.
- ThreadPool.DestructionCompletes: likewise.
- ThreadPool.AllDoneAtExit: callers are assumed not to use a pool after it was freed; the shutdown
  check only covers calls that overlap the first destruction.
- Red-black balancing and the in-place links of the timeline: the tree is a value of any shape.
- Warnings in the modelled code that no contract covers: the width of one product (`fair.c:692`); an
  affinity change without a record at migrate-enable (`core.c:3007`), as where the task runs is an
  arbitrary input; delayed flags of entities (`fair.c:1156`, `fair.c:5656`, `fair.c:5666`); clocks of
  throttled runqueues (`fair.c:6165`, `fair.c:6234`, `fair.c:6276`); who the caller is (`fair.c:864`,
  `fair.c:6018`, `core.c:9580`, `core.c:11014`, `rt.c:1015`, `rt.c:1032`); and the ID a new task
  starts with (`core.c:10945`).
- Order of equal deadlines beyond what insertion fixes, buddies other than the next one, and the
  checks that throttle inside put and set.
- Load averages, clocks, statistics, tracing, cpufreq and cpupri notifications.
- Reconfiguring bandwidth or real-time limits, which starts a new run.
- The real-time period timer, priority boosting of groups, and save-without-move queueing flags.
- Round-robin counts and the pushable-task list of the real-time class.
- Which CPU a task is on when its affinity change completes, and hotplug making the stopper
  unavailable.
- The ID bitmap and the walks that hand IDs over between tasks and CPUs.
- How a task's effective clamp value is chosen: it is an input, and the bucket of a value is any
  monotone function.
- Memory barriers, interrupt state and RCU: every locked section is one step in a sequentially
  consistent order.
- Load balancing, NUMA, energy-aware placement, the deadline class, proxy execution, boot code and
  the cgroup and sysctl files: they would add no crisp property.
- The other labs, and in the thread-pool lab the start-up code, argument checks and allocation
  failure: they would only add easy members.
