# Intervals: scheduler, deque and n-queens

This project models the Intervals library for fork-join parallelism, in which work is
organised as intervals between pairs of points, and proves what its scheduler, its
work-stealing deque and its n-queens example are built on.

**The scheduler** (`Intervals/interval.c`). `SchedulerState` and `SchedulerSteps` describe
the scheduler as a machine with 23 atomic actions: what a client may do (create intervals
and subintervals, add edges and locks, retain and release), and what the threads of the
pool do on their own (deliver a notification, occur, take guards, run and end blocks,
release, free). The counters `wait_count` and `ref_count` are kept as the program keeps
them. What they stand for is computed from the rest of the state, and
`SchedulerInvariant` says that the two agree. `SchedulerFrames`, `SchedulerArrive`,
`SchedulerRelease`, `SchedulerSafety`, `SchedulerClient`, `SchedulerGuards`,
`SchedulerIntervals`, `SchedulerWorkers` and `SchedulerTaking` show that each action keeps
the invariant. The theorems about whole runs are in `SchedulerSafetyTheorems`,
`SchedulerGuardTheorems`, `SchedulerGuardOrder`, `SchedulerRootLock`, `SchedulerHistory`,
`SchedulerFreeing`, `SchedulerKeptStart`, `SchedulerTurns`, `SchedulerLiveness`,
`SchedulerTermination`, `SchedulerCompletion` and `SchedulerCascade`; `SchedulerPaths` and
`FiniteSets` hold what they share. `SchedulerThread` is the program itself, a class whose
methods `Arrive`, `Occur`, `PointRelease`, `LockPendingGuards` and so on call each other
as the functions of the source do and update shared tables in place; every method is
proved to take a chain of the machine's actions and to leave nothing half done.
`SchedulerApi` does the same for the functions a client calls. `SchedulerSplitArrival`,
`SchedulerExample` and `SchedulerRaces` are about what does not hold: the exact case in which
a delayed second half of `arrive` does harm, and runs from the initial state that reach each
of the situations listed below.

The machine takes an entry off the list of pending guards, or adds one, in one action. In the
program both are a read and a later write of one word, and only the push holds the lock of the
point. `SchedulerSplitLists` is the machine with these halves as actions of their own.
`SchedulerSplitRuns` and `SchedulerSplitExact` prove exactly when it does the same as the
machine above, `SchedulerSplitTheorems` what then is true of locks, `SchedulerEarlyLocks` what a
client can do to make sure, and `SchedulerLostLock` has two runs in which it goes wrong.

**The walk over the graph** (`PointWalk`) is `point_hb` with its hash table and its queue as
they are, pointers included. `PointWalkTrail` describes without a queue which points it looks
at, and `PointWalkAnswers` says when its answer is exact. **The edge list** (`EdgeList`) is the
chunked list of outgoing edges, as heap objects.

**The deque** (`Intervals/thread_pool.c`). `Deque` is the ring buffer as a class over an
array, `DequeMachine` the same deque with the owner and any number of thieves taking one
memory operation at a time; both use `DequeRing`, which says what it means for a ring to
hold a sequence.

**N-queens** (`Intervals/nqueens.c`). `Queens` is the search in place on one board,
`QueensParallel` the search over position lists with its tasks in any order.

Some things the source does are worth knowing before reading the table.

* `deque_copy_array` stores items at their old positions but restarts positions at 0. It
  preserves the deque just if there is nothing to copy or the head is a multiple of the new
  length. The items of a deque that grows after a steal are displaced, and
  `DequeMachine.DoublingAfterAStealLoses` gives a way to get there from a new deque. Items
  can be lost in this way, but none is ever delivered twice.
* A point that passes `check_can_add_dep` has not occurred and cannot yet, as the comment
  in `interval_add_hb_unchecked` (lines 784-785) expects. But it may already have begun to
  take its guards: `SchedulerTurns.AllowedTarget` says exactly when, and
  `SchedulerExample.AddingAfterTurning` is a run in which it has. An edge that comes as late
  as this also escapes the rule that guards are taken in the order of happens-before
  (lines 140-146): `SchedulerGuardOrder` proves the rule for all edges that were there when
  the point turned to its guards, and `SchedulerExample.GuardTakenOutOfOrder` is a run in
  which a later one is not respected, after which the point can never occur.
* `task_dispatch` signals a latch before it releases its reference on the point, so the
  assertion that closes `root_interval` can be evaluated while the end of the root is still
  live, if a worker makes the last arrival there. `SchedulerLiveness.ClosingAssertion` says
  when the assertion holds, `SchedulerRaces.SignalBeforeRelease` is a run in which it need
  not.
* `arrive` reads the reference count before it decrements the wait count. If the point is
  retained in between, and the arrival turns out to be the last, the point is declared dead
  although it is referred to: `SchedulerSplitArrival.LateHalfKeepsInvariant` gives the exact
  condition, `SchedulerRaces.StaleCountIsRead` a run.
* `guard_list_pop` reads and writes the list of pending guards without the lock of the point.
  If a task asks for a lock of a point in between, which it may when a lock was handed over to
  that point from the task's own end, the entry is lost and the point occurs without the lock
  (`SchedulerLostLock.OccursWithoutItsLock`), or an entry comes back and the guard is taken
  twice (`SchedulerLostLock.TakenTwice`). Nothing of the kind happens if no lock is asked for
  a point that is taking its guards (`SchedulerEarlyLocks.InTimeIsUndisturbed`).
* The queue of `point_hb` loses entries, so its answer can be false although a path exists:
  `PointWalkAnswers.WhenTheSearchIsComplete` says exactly when it is not, and
  `PointWalkAnswers.AnswerIsIncomplete` is a reachable state in which it is, and in which
  an edge that closes a cycle is let through.

`dfyconfig.toml` takes in every `.dfy` file; `dafny verify dfyconfig.toml` checks them all.

## Model

| member | source | states |
|---|---|---|
| SchedulerInvariant.InitialInvariant | Intervals/interval.c:618-628 | the invariant holds when the block of the root starts |
| SchedulerRuns.StepKeepsInvariant | Intervals/interval.c:491-565 | each of the 23 actions, taken in any order by any threads, keeps shape, ordering, both count equations, the agreement of blocks with their ends, guard counts and lock histories |
| SchedulerRuns.RunKeepsInvariant | Intervals/interval.c:491-565 | so the invariant holds in every state of every run whose counters stay below the sentinels, with pushes and pops of pending guards taken as single actions; SchedulerSplitExact.InvariantJustIfUndisturbed says exactly when they may be |
| SchedulerSafetyTheorems.HappensBeforeIsRespected | Intervals/interval.c:754-805 | if a path of edges and bounds, synthetic ones included, leads from a to b and b has occurred, then a occurred strictly earlier |
| SchedulerSafetyTheorems.WaitCountEquation | Intervals/interval.c:28-32 | the wait count of a point that has not occurred is the number of its unoccurred or not yet arrived predecessors plus one each for unscheduled list, open task and taking of guards; afterwards it is WC_STARTED and nothing waits |
| SchedulerSafetyTheorems.RefCountEquation | Intervals/interval.c:39-66 | the reference count is the number of edges from live predecessors that retain, guards that name the point, threads handing it over, the scheduler's and the client's references; the count of a dead point stands at 0 for the one reference of its task, and nothing refers to a freed one |
| SchedulerSafetyTheorems.ArrivalsAreAwaited | Intervals/interval.c:487-513 | no arrival underflows a wait count or reaches a point already marked started |
| SchedulerSafetyTheorems.NoDanglingPointers | Intervals/interval.c:1049-1063 | whatever edges, bounds, guards, unscheduled lists and running blocks still point to is not freed |
| SchedulerSafetyTheorems.UsableAlongPaths | Intervals/interval.c:545-563 | from a point a client may use, all successors and bounds may be used, however far |
| SchedulerSafetyTheorems.RetainedIsUsable | Intervals/interval.c:1031-1035 | a retained point is neither freed nor dead |
| SchedulerSafetyTheorems.CurrentStartIsUsable | Intervals/interval.c:459-473 | a current start that is kept can take outgoing edges, and the end of a running block has not occurred |
| SchedulerSafetyTheorems.StructuredJoin | Intervals/interval.c:682-684 | when an end has occurred, every point whose chain of bounds reaches it occurred earlier and its block is finished |
| SchedulerSafetyTheorems.SubintervalJoins | Intervals/interval.c:709-739 | subinterval() returns only when everything inside it has occurred and finished |
| SchedulerSafetyTheorems.BlockRunsBetweenStartAndEnd | Intervals/interval.c:459-481 | a block has begun only if its start has occurred, and as long as it is not over its end has not |
| SchedulerHistory.RunsMoveForward | Intervals/interval.c:19-26 | over any run points only go forward through their states, keep time of occurrence and deadness, no block runs twice, and no edge is forgotten |
| SchedulerFreeing.FreedAfterOccurring | Intervals/interval.c:1065-1088 | a point is freed only after it has occurred, when nothing refers to it, and then releases all its successors if it is not dead and none if it is |
| SchedulerFreeing.FreedForGood | Intervals/interval.c:1049-1088 | a freed point is never freed again, and no reference on a successor is released twice |
| SchedulerKeptStart.KeptIfNotDead | Intervals/interval.c:459-473 | in every reachable state: while a block runs, its start is kept as the current start if and only if it is not dead; the block of the root has none |
| SchedulerKeptStart.GoesDeadIfAlone | Intervals/interval.c:546-557 | a point is declared dead if and only if, as it occurs, the reference of the scheduler is the only one on it |
| SchedulerKeptStart.NewStartFollows | Intervals/interval.c:677-694 | an interval created by a block comes after the start of that block, unless that is dead or the block is that of the root: then nothing comes before it |
| SchedulerKeptStart.NewSubstartFollows | Intervals/interval.c:726-738 | the same of a subinterval |
| SchedulerKeptStart.IntervalIsMade | Intervals/interval.c:677-694 | the new start comes before the new end, and after the current start if there is one; the end comes before its bound, one level below it; the start is on the list of the task, and no other point waits for more |
| SchedulerKeptStart.SubintervalIsMade | Intervals/interval.c:726-738 | the same of a subinterval below the current end, whose start has occurred and is what its block keeps |
| SchedulerKeptStart.EdgeIsMade | Intervals/interval.c:754-805 | an edge that is added puts its source before its target, and no other edge changes |
| SchedulerGuardTheorems.ChainOrder | Intervals/interval.c:515-530 | the holders of a guard follow each other: the end of each earlier one occurs before each later one that has occurred; only the end of the root, which has no bound, holds a guard for ever, and nobody but itself follows it |
| SchedulerGuardTheorems.MutualExclusion | Intervals/interval.c:117-120 | of two points that have taken the same guard and occurred, one has a bound that occurred before the other |
| SchedulerGuardTheorems.OccursOnlyWithItsLocks | Intervals/interval.c:140-149 | as far as pops are single actions, a point that occurs has taken every guard it was ever told to lock |
| SchedulerGuardTheorems.LockedIntervalsDoNotOverlap | Intervals/interval.c:823-842 | and as far as that, two intervals told to lock the same guard do not overlap |
| SchedulerSplitExact.InvariantJustIfUndisturbed | Intervals/interval.c:183-219 | with the read and the write-back of each push and each pop as separate actions among those of all threads, the invariant holds throughout a run if and only if every write-back finds the list as it was read |
| SchedulerSplitExact.PopFindsAsRead | Intervals/interval.c:204-219 | a pop finds it so if and only if no push wrote to the list of the point since its read |
| SchedulerSplitExact.PushFindsAsRead | Intervals/interval.c:836-839 | a push finds it so if and only if no pop wrote to the list since its read; the lock of the point keeps other pushes away |
| SchedulerSplitTheorems.OccursWithItsLocks | Intervals/interval.c:140-149 | in such a run a point that occurs has taken every guard it was ever told to lock |
| SchedulerSplitTheorems.LockedDoNotOverlap | Intervals/interval.c:823-842 | and two intervals told to lock the same guard do not overlap |
| SchedulerSplitTheorems.AtomicIsSplit | Intervals/interval.c:515-530 | whatever the machine with single actions reaches is reached also with the halves apart |
| SchedulerEarlyLocks.InTimeIsUndisturbed | Intervals/interval.c:823-842 | if no lock is asked for a point that is taking its guards, every push and every pop finds the list as it read it |
| SchedulerEarlyLocks.WithoutSyntheticInTime | Intervals/interval.c:823-842 | that is so for every point that a task may add to and to which no lock was handed over |
| SchedulerLostLock.OccursWithoutItsLock | Intervals/interval.c:515-530 | a run in which a lock is pushed while the point pops another: the point occurs, the guard was never taken, and no request for it is left |
| SchedulerLostLock.TakenTwice | Intervals/interval.c:515-530 | a run in which a push writes back an entry popped since its read: the guard has been taken, and is in the list again |
| SchedulerGuardTheorems.GuardOrderExtendsHappensBefore | Intervals/interval.c:140-146 | if the end of a happens before b, both have taken a guard, and b has occurred, then a took it first, in whatever order the locks were asked for |
| SchedulerGuardOrder.TakingFindsAllOver | Intervals/interval.c:500-511 | while a point takes its guards, its wait count is 1 if and only if everything that happens before it has occurred and told it so; this can fail only after a lock was handed over to it |
| SchedulerGuardOrder.GuardTakenInOrder | Intervals/interval.c:515-530 | at the exchange of last_lock: whoever was told to lock the guard and must end before the taker has ended and has taken it already, provided the taker's wait count is still 1; a holder can be overtaken only when a lock was handed over to the taker, and then it has not even occurred |
| SchedulerGuardOrder.GuardOrderFollowsHappensBefore | Intervals/interval.c:140-146 | over a whole run: if the end of a happens before b at some moment when b has not begun to take guards, then as soon as b has begun, a has ended, has taken every guard it was told to lock, and precedes b in the history of each, whatever the order of asking and whether or not b ever occurs |
| SchedulerGuardOrder.WrongOrderNeverOccurs | Intervals/interval.c:140-146 | if b took a guard before a although the end of a happens before b, then b does not occur in any continuation of the run |
| SchedulerExample.GuardTakenOutOfOrder | Intervals/interval.c:515-530 | a run in which that comes about, by an edge added to a point that has begun to take its guards |
| SchedulerRootLock.ReachableRootLast | Intervals/interval.c:823-842 | the end of the root may be locked; in the history of a guard nobody comes after it |
| SchedulerLiveness.DeadlockFreedom | Intervals/interval.c:459-513 | in a state in which no thread can move, everything has occurred, the end of the root included, if and only if happens-before is acyclic and no start is left unscheduled |
| SchedulerLiveness.SomeThreadCanMove | Intervals/interval.c:611-640 | while happens-before is acyclic and all starts are scheduled, a point that has not occurred means that a thread can move |
| SchedulerLiveness.NoLeak | Intervals/interval.c:1065-1098 | once no thread can move, everything has occurred and the client holds nothing, no point and no guard is left |
| SchedulerLiveness.LeaksAreTheClients | Intervals/interval.c:1065-1098 | conversely a guard that is left is one the client refers to, a point that is left has a path of edges to it from a point the client refers to or that is the last lock of such a guard, and nothing is left if and only if the client holds nothing |
| SchedulerLiveness.ClosingAssertion | Intervals/interval.c:634-638 | the assertion that no object is live holds, when everything has occurred and the client holds nothing, if and only if no thread has anything left to do |
| SchedulerRaces.SignalBeforeRelease | Intervals/interval.c:240-243 | a run in which the root's own thread has arrived and waits, a worker makes the last arrival and signals the latch, everything has occurred and the client holds nothing, and the ends of the root and of the interval are still live |
| SchedulerTermination.ThreadsGetNearer | Intervals/interval.c:459-565 | every action of the threads that changes anything leaves strictly less to do, in a lexicographic measure of eight parts |
| SchedulerTermination.NoEndlessRun | Intervals/interval.c:611-640 | so once the client stops, no run of the threads changes the state for ever |
| SchedulerTermination.AtRestIsStuck | Intervals/interval.c:611-640 | and where nothing changes any more, no thread can move, which is where deadlock freedom and the absence of leaks are stated |
| SchedulerCompletion.ThreadsFinish | Intervals/interval.c:611-640 | from every reachable state with room for its counters, finitely many actions of the threads lead to a reachable state in which none can move; there everything has occurred if and only if happens-before is acyclic and all starts are scheduled, and then, if the client holds nothing, nothing is left |
| SchedulerCascade.FinishedCascadeIsLeast | Intervals/interval.c:323-334 | without guards, what has occurred once all notifications are delivered is the least set closed under arrival |
| SchedulerCascade.OrderOfNotificationsDoesNotMatter | Intervals/interval.c:323-334 | so it is the same for every order of delivery |
| SchedulerSettling.CascadeIsComplete | Intervals/interval.c:491-513 | when a method of a thread returns, no notification, release or taking of guards is under way that was not so at the call, whatever was under way then, and no unoccurred point stands at a wait count of zero |
| SchedulerRuntime.LeadsToReachable | Intervals/interval.c:491-565 | what a chain of actions leads to from a reachable state is reachable, so every theorem above applies after each method below |
| SchedulerThread.Thread.Arrive | Intervals/interval.c:491-513 | terminates, and its effect is one arrival followed by a chain of actions after which nothing is left on its way; each point occurs at most once in it |
| SchedulerThread.Thread.ArriveAfterLocks | Intervals/interval.c:504-508 | the guards are taken while the wait count stands at 1, then the point arrives again |
| SchedulerThread.Thread.Occur | Intervals/interval.c:532-565 | one occurrence followed by a complete cascade and the dispatch of the point |
| SchedulerThread.Thread.MarkStarted | Intervals/interval.c:543-557 | the critical section and the decision whether the point is dead are one occurrence of the machine |
| SchedulerThread.Thread.NotifySuccessors | Intervals/interval.c:562-563 | every edge of the snapshot and the bound are notified, each once |
| SchedulerThread.Thread.ArriveEdges | Intervals/interval.c:323-334 | every edge of the snapshot is notified, each once |
| SchedulerThread.Thread.TaskDispatch | Intervals/interval.c:235-252 | a block is enqueued, any other point is released |
| SchedulerThread.Thread.LockPendingGuards | Intervals/interval.c:515-530 | takes all pending guards of the point by a chain of actions and leaves none |
| SchedulerThread.Thread.ExchangeLastLock | Intervals/interval.c:521-522 | retaining the end and exchanging last_lock is one action |
| SchedulerThread.Thread.AddHbUnchecked | Intervals/interval.c:754-805 | the new edge owns a wait if its source has not occurred and a reference if it has |
| SchedulerThread.Thread.PointRelease | Intervals/interval.c:1065-1088 | releases one reference and whatever that frees, however long the chain, and nothing else |
| SchedulerThread.Thread.PointFree | Intervals/interval.c:1049-1063 | frees the point and releases exactly the successors it retained |
| SchedulerThread.Thread.FreeEdges | Intervals/interval.c:338-353 | every entry of out_edges is released, each once |
| SchedulerThread.Thread.GuardRelease | Intervals/interval.c:1089-1098 | the last release of a guard releases its last_lock |
| SchedulerThread.Thread.IntervalScheduleUnchecked | Intervals/interval.c:844-851 | every start on the unscheduled list arrives and the list is empty |
| SchedulerThread.Thread.IntervalEnd | Intervals/interval.c:478-479 | what a block created is scheduled and its end arrives, with nothing left half done |
| SchedulerApi.Interval | Intervals/interval.c:642-700 | without a named bound it never fails inside a task: the new end is bounded by the bound of the current end, stands on its level, and leaves its wait count alone, or, if that is the end of the root, is bounded by it; a named bound is refused, changing nothing, exactly when it is not the current end, not unscheduled and not after the current end, or comes before the current start (as point_hb() answers, and by the paths themselves where the walk loses nothing new); the new start comes after the current start and before the new end, and just these two become unscheduled |
| SchedulerApi.DefaultIsAllowed | Intervals/interval.c:642-673 | the default bound passes the safety checks in every sound state |
| SchedulerApi.IntervalJoins | Intervals/interval.c:397-411 | the new start and the new end, and no other points, have become unscheduled |
| SchedulerApi.CreateInterval | Intervals/interval.c:677-694 | the counts and links of the two new points and of the bound |
| SchedulerApi.Subinterval | Intervals/interval.c:709-738 | one creation of a subinterval below the current end, placed after the current start, with a start that has occurred and a block that runs at once while the caller is blocked |
| SchedulerApi.CreateSubinterval | Intervals/interval.c:726-730 | the counts and links of a subinterval whose start has occurred from the outset |
| SchedulerApi.IntervalAddHb | Intervals/interval.c:807-821 | refuses a target that is not the current end, not unscheduled and not after the current end, then one that comes before the source, and nothing else (as point_hb() answers, and by the paths themselves where the walk loses nothing new); otherwise adds exactly one edge, so that before happens before after |
| SchedulerApi.IntervalAddLock | Intervals/interval.c:823-842 | refuses exactly the targets that the client may not add to; otherwise adds exactly one request, which holds a reference on the guard |
| SchedulerApi.CheckCanAddDep | Intervals/interval.c:583-594 | OK exactly for the current end, for unscheduled points, and for what comes after the current end: as point_hb() answers, and by the paths themselves where the walk loses nothing new; OK implies that the client may add to the point |
| SchedulerApi.CheckCanAddHb | Intervals/interval.c:596-606 | EDGE_REQUIRED exactly for the other targets; for these CYCLE exactly when the target comes before the source, and otherwise OK, both as point_hb() answers and by the paths themselves where the walk loses nothing new; CYCLE implies a real cycle |
| SchedulerApi.CheckAllows | Intervals/interval.c:583-594 | OK implies that the point is the current end, on the unscheduled list, or after the current end |
| SchedulerApi.BeginTask | Intervals/interval.c:459-473 | the block starts with its start as the current start if and only if that is not dead, and with nothing on its unscheduled list |
| SchedulerApi.TaskReturns | Intervals/interval.c:257-268 | after the block returns its start is released by a chain of actions |
| SchedulerTurns.AllowedTarget | Intervals/interval.c:583-594 | a point a client may add to has not occurred and cannot yet; it has begun to take its guards if and only if a synthetic edge leads to it |
| SchedulerTurns.AllowedTargetStays | Intervals/interval.c:583-594 | the current end and all that comes after it stay unoccurred until the current block and its end are over, and do not begin to take guards if they had not |
| SchedulerTurns.UnscheduledTargetStays | Intervals/interval.c:397-411 | a start on an unscheduled list, and its bound, do not occur while it is there |
| SchedulerTurns.ReachableBoundsCount | Intervals/interval.c:415-419 | depth counts bounds, and no point but the end of the root is without a bound |
| SchedulerExample.AddingAfterTurning | Intervals/interval.c:583-594 | a run in which a point that has begun to take its guards may still be added to |
| SchedulerSplitArrival.HalvesMakeArrival | Intervals/interval.c:493-512 | adjusting the reference count and then the wait count is one arrival |
| SchedulerSplitArrival.WhenTheHalvesMayPart | Intervals/interval.c:493-501 | another arrival between the two halves changes the outcome if and only if the two are the last ones, no guard is pending, the scheduler holds the only reference and only the other thread adds one |
| SchedulerSplitArrival.InterruptionLosesReference | Intervals/interval.c:493-501 | in that case the point is declared dead with two references on it, and the invariant is lost |
| SchedulerSplitArrival.StaleCountMatters | Intervals/interval.c:493-512 | whatever happened since the first half, the second half with the count read then differs from one with the present count if and only if it is the last arrival, no guard is pending, and the two counts disagree on being 1 |
| SchedulerSplitArrival.LateHalfKeepsInvariant | Intervals/interval.c:493-512 | and a delayed arrival, be it from a notification, the schedule, the end of a block or the taking of guards, keeps the whole invariant if and only if not, in that case, it read a count of 1 and the point has been retained since |
| SchedulerRaces.StaleCountIsRead | Intervals/interval.c:493-512 | a run in which it does: a worker reads a count of 1, the client retains the end of the root and ends its block, and the worker's second half breaks the invariant |
| PointWalk.PointWalk.constructor | Intervals/interval.c:886-895 | an empty walk |
| PointWalk.PointWalk.Visited | Intervals/interval.c:900-905 | a bucket is searched along its chain: found if and only if visited |
| PointWalk.PointWalk.Enqueue | Intervals/interval.c:899-920 | a visited point changes nothing; a new one is hashed and linked: behind queue_last, which stays what it is, and as the only entry if there is none |
| PointWalk.PointWalk.Link | Intervals/interval.c:912-919 | the new entry is the successor of queue_last, whatever stood there before, or the only one |
| PointWalk.PointWalk.Dequeue | Intervals/interval.c:922-937 | the first entry is returned, its successor becomes the first, and queue_last is kept unless nothing is left |
| PointWalk.PointWalk.EnqueueNeighbors | Intervals/interval.c:951-965 | true if and only if the target is a direct successor; otherwise all successors were enqueued in order |
| PointWalk.PointHb | Intervals/interval.c:967-991 | the search terminates with the answer of Answer |
| PointWalk.AnswerIsSound | Intervals/interval.c:1007-1009 | the answer true means a path of edges, or the direct bound |
| PointWalk.SearchFinds | Intervals/interval.c:951-991 | the search finds exactly the successors of the points it explores |
| PointWalkTrail.WalkFollowsTrail | Intervals/interval.c:951-991 | the points that are taken from the queue are those of a trail told without one: a point, the first of its new successors, and on to the last of them |
| PointWalkTrail.AnswerFollowsTrail | Intervals/interval.c:967-991 | so the answer is true if and only if the target is the direct bound or a successor of a point of the trail |
| PointWalkTrail.QueuedIsExplored | Intervals/interval.c:922-937 | whatever is in the queue is dequeued in its turn |
| PointWalkTrail.WhichAreExplored | Intervals/interval.c:915-919 | of the new successors of a point exactly the first and the last are explored in their turn if nothing else is queued, and otherwise none |
| PointWalkAnswers.WhenTheSearchIsComplete | Intervals/interval.c:915-919 | the search finds everything that out_edges lead to if and only if the entries lost from the queue lead only to points it finds on other ways |
| PointWalkAnswers.WhenTheAnswerIsExact | Intervals/interval.c:967-991 | then the answer is true if and only if the target is the direct bound or a path of out_edges leads there |
| PointWalkAnswers.RoomIsEnough | Intervals/interval.c:915-919 | that is so if every round finds at most two new points when the queue is left empty, and otherwise none |
| PointWalkAnswers.LinesHaveRoom | Intervals/interval.c:915-919 | and so in every graph in which no point has more than one successor |
| PointWalkAnswers.AnswerIsIncomplete | Intervals/interval.c:567-581 | a reachable state, made by two intervals and four edges, listed in the order of their insertion, in which a path exists, the answer is false, and check_can_add_hb() permits an edge that closes a cycle |
| PointWalkAnswers.EdgesOfOne | Intervals/interval.c:302-319 | inserting the edges of that run into the list of the point lists them in that order |
| PointWalk.CheckIsSound | Intervals/interval.c:583-594 | when check_can_add_dep() says OK, the point has not occurred, and has begun to take guards only if it was handed a lock |
| PointWalk.CycleIsReal | Intervals/interval.c:569-581 | an edge refused as a cycle would have closed one |
| PointWalk.PointBoundedBy | Intervals/interval.c:1011-1015 | climbing until the depths agree decides, both ways, whether bnd is among the bounds of pnt |
| EdgeList.EdgeList.InsertEdge | Intervals/interval.c:302-319 | one entry more, at a place that is stated; all others keep their order, and only the head chunk is written to |
| EdgeList.InsertFirst | Intervals/interval.c:302-319 | as long as the first chunk has room, entries stay in the order of insertion |
| EdgeList.EdgeList.Snapshot | Intervals/interval.c:534-546 | a copy by value of the head chunk lists exactly the edges present, and shares no chunk that insertion writes to |
| EdgeList.ArriveEdge | Intervals/interval.c:323-334 | the walk of a snapshot finds exactly its edges, in order, whatever is inserted between any two of its reads |
| EdgeList.NotifySnapshot | Intervals/interval.c:538-562 | exactly the edges present at the copy are notified, and none that came later |
| EdgeList.InsertAll | Intervals/interval.c:302-319 | any number of insertions adds exactly those edges |
| EdgeList.PrefixIs | Intervals/interval.c:325-330 | reading a chunk up to the first null entry |
| DequeRing.MaskIsMod | Intervals/thread_pool.c:129-132 | masking with a power of two less one is the remainder, for every position |
| DequeRing.PushLast | Intervals/thread_pool.c:245-251 | in a ring that is not full the slot after the last item is null, and takes the next one |
| DequeRing.PopLast | Intervals/thread_pool.c:268-282 | the slot before the tail holds the newest item |
| DequeRing.PopFirst | Intervals/thread_pool.c:291-297 | the slot at the head holds the oldest item |
| DequeRing.HoldsOne | Intervals/thread_pool.c:49-56 | a ring and a head determine the sequence held |
| DequeRing.CopyHolds | Intervals/thread_pool.c:187-190 | the copy loop keeps every item at its position |
| DequeRing.RebaseKeeps | Intervals/thread_pool.c:195-196 | restarting positions at 0 is harmless if nothing was copied or the head is a multiple of the new length |
| DequeRing.RebaseLoses | Intervals/thread_pool.c:195-196 | and otherwise the oldest of distinct items is not at the head any more |
| Deque.Deque.constructor | Intervals/thread_pool.c:159-168 | a new deque is empty and has 1024 slots |
| Deque.Deque.CopyArray | Intervals/thread_pool.c:179-197 | the new array as the copy loop leaves it, and when the contents are kept and when displaced |
| Deque.Deque.Expand | Intervals/thread_pool.c:202-228 | with more than a sixteenth of the ring free the array and its contents stay as they are, unless the tail index is about to roll over; with less the length doubles; in every case there is room afterwards and the head is up to date; the contents are kept when the expansion is safe and displaced when it is not |
| Deque.Deque.OwnerPut | Intervals/thread_pool.c:232-254 | terminates after at most one expansion; while the owner sees a free slot, or more than a sixteenth of the ring is free, and the tail index is not about to roll over, the array stays and holds the new item after the old ones; a full ring with at most a sixteenth free doubles; for distinct items the new contents are held if and only if no unsafe expansion was due |
| Deque.Deque.OwnerTake | Intervals/thread_pool.c:259-283 | the newest item, or a null pointer exactly when the deque is empty, despite the stale head of the owner, which is then brought up to date |
| Deque.Deque.Steal | Intervals/thread_pool.c:287-301 | the oldest item, or a null pointer exactly when the deque is empty |
| Deque.DisplacedIsLost | Intervals/thread_pool.c:195-196 | a deque with displaced items does not hold them, nor them and later ones |
| DequeMachine.EachStep | Intervals/thread_pool.c:232-301 | every memory operation of owner or thief keeps the invariant; puts add the newest, takes get the newest, steals the oldest, null only if the deque is empty at the exchange, and nothing else changes the contents |
| DequeMachine.NothingLostOrInvented | Intervals/thread_pool.c:232-301 | over every interleaving with safe expansions: items put are those taken, stolen and present; stolen ones come in the order they were put and before all present ones; no index wraps |
| DequeMachine.NothingDeliveredTwice | Intervals/thread_pool.c:232-301 | over every interleaving, with expansions safe or not: no item is taken and stolen more often than it was put |
| DequeMachine.DeliveredOnce | Intervals/thread_pool.c:259-301 | an item put once is delivered at most once, to one side only, and not while it is still there |
| DequeMachine.OneExpansionIsEnough | Intervals/thread_pool.c:240-243 | after one expansion, safe or not, there is room, with indices below the maximum |
| DequeMachine.PutFindsRoom | Intervals/thread_pool.c:240-240 | a put goes ahead if and only if the owner sees a free slot and the tail index does not roll over |
| DequeMachine.ExpandedByRoom | Intervals/thread_pool.c:206-225 | whatever thieves did meanwhile: the length doubles if and only if at most a sixteenth of the ring is free of items; with more the ring and its contents stay, unless the tail index is about to roll over |
| DequeMachine.UnsafeExpansionLoses | Intervals/thread_pool.c:206-225 | with a thief possible between any two steps, expansion keeps the contents of distinct items if and only if it is safe |
| DequeMachine.DoublingAfterAStealLoses | Intervals/thread_pool.c:212-216 | fill the initial ring, steal one item, put one more: a thief then gets a null pointer though 1023 items are there |
| Queens.Completions | Intervals/nqueens.c:43-51 | the set of boards that complete the given queens without conflicts, characterised pairwise |
| Queens.CountIsCardinality | Intervals/nqueens.c:144-159 | counting column by column gives the size of that set |
| Queens.BoardCreate | Intervals/nqueens.c:29-36 | a board of empty rows |
| Queens.IsValidMove | Intervals/nqueens.c:43-51 | true if and only if no earlier queen attacks the field |
| Queens.SolveSequentially | Intervals/nqueens.c:144-159 | adds the number of completions of the first row queens, leaves those rows alone, and all others as they were or empty |
| Queens.SolveColumn | Intervals/nqueens.c:150-155 | one column tried and undone |
| Queens.Sequential | Intervals/nqueens.c:227-231 | the sequential count is the number of solutions |
| Queens.SolutionsAreConflictFree | Intervals/nqueens.c:43-51 | a completion of the empty board is a placement of n queens no two of which attack each other |
| QueensParallel.PositionListToBoard | Intervals/nqueens.c:109-117 | the board with the queens of the list, and all later rows empty |
| QueensParallel.SolveBelowCutoff | Intervals/nqueens.c:172-176 | adds the number of completions of the queens of the list |
| QueensParallel.MarkInvalid | Intervals/nqueens.c:121-132 | exactly the attacked columns of the next row are marked |
| QueensParallel.GenerateValidModes | Intervals/nqueens.c:120-142 | the moves to exactly the free columns, from left to right, then a null pointer |
| QueensParallel.MovesAreValidMoves | Intervals/nqueens.c:120-142 | a column is among the moves just if is_valid_move() accepts it for the same queens |
| QueensParallel.StepStaysOnCourse | Intervals/nqueens.c:161-196 | whatever piece of work is done next, the count so far plus what is to come stays the same |
| QueensParallel.ParallelEqualsSequential | Intervals/nqueens.c:248-248 | when all work is done, in any order, the parallel count is the number of solutions if and only if n is at least 1 |
| QueensParallel.RunsEnd | Intervals/nqueens.c:198-214 | every order of work comes to an end, and only when nothing is pending |

## Left out

- SchedulerThread.Thread.Arrive: takes the adjustment of the reference count and that of the wait count as one atomic step; SchedulerSplitArrival states exactly when a delay between the two makes a difference, and when it breaks the invariant. As for all methods of Thread, no other thread acts while it runs; that actions of several threads may alternate is what the machine is for.
- SchedulerThread.Thread.ArriveEdges: notifies the edges of the snapshot in any order; the order of the list is the subject of EdgeList.
- SchedulerThread.Thread.FreeEdges: likewise releases the entries in any order.
- SchedulerThread.Thread.LockPendingGuards: takes the pending guards in any order, and abstracts the tagged one-or-many list they are kept in; its pops are single actions, which SchedulerSplitLists takes apart.
- SchedulerRuns.RunKeepsInvariant: takes pushes and pops of pending guards as single actions; without that it holds exactly under the condition of SchedulerSplitExact.
- SchedulerGuardTheorems.OccursOnlyWithItsLocks: likewise.
- SchedulerGuardTheorems.LockedIntervalsDoNotOverlap: likewise.
- SchedulerSplitLists: the word of a list stands for its entries; that a pop also frees the cell it takes off, which a push may have read, is not modelled.
- SchedulerApi.IntervalAddLock: is given a guard; a null pointer, which interval.h says has no effect, is not modelled.
- SchedulerThread.Thread.PointFree: marks the point as freed before its successors are released, where the source returns the memory last; nothing reads the point in between.
- SchedulerApi.Subinterval: ends where the block of the subinterval begins; what follows are the actions of running a block, and returning from subinterval() is an action of its own.
- SchedulerLiveness.DeadlockFreedom: a cycle of happens-before can be closed by clients, by locks or by edges that check_no_cycle() does not find, so acyclicity is a condition; the other condition is that no start stays on the unscheduled list of a block that waits in subinterval().
- PointWalk.AnswerIsSound: is not an equivalence, since entries are lost from the queue and bounds are looked at only for the first point; PointWalkAnswers says when the answer is exact with respect to out_edges and the direct bound.
- PointWalk.PointHb: reads edges and bounds from a value; that other threads may insert edges during the walk is not modelled.
- DequeMachine.NothingLostOrInvented: is about runs whose expansions are safe; DequeMachine.UnsafeExpansionLoses says what the others do, and DequeMachine.NothingDeliveredTwice what they never do.
- DequeMachine.EachStep: leaves out expansions that are not safe, which change the contents.
- DequeMachine.DeliveredOnce: says for runs with safe expansions that an item is in exactly one place; for all others it is delivered at most once.
- Deque.Deque.OwnerPut: when a doubling is due the length must be at most 2^30, so that the doubled length fits the index type; the same holds for Deque.Deque.Expand and for the expansions of DequeMachine.
- QueensParallel.ParallelEqualsSequential: the counts are unbounded integers, and the cutoff is at least 1, as solve_in_parallel() asserts.
- The counters of points are assumed to stay below the sentinel values; they do as long as the edges, requests, guards and points together with the client's references to any one point number a few less than 2^64.
- Memory is sequentially consistent; barriers, spin locks and thread-local storage are abstracted to atomic actions.
- The thread pool beyond its deque: workers, idling, shutdown, latches as condition variables, removal of workers.
- The variant of the pool over libdispatch.
- Memory for chunks of edges is not reclaimed in EdgeList; the order of free() and the read of the next chunk in free_edges() is not modelled.
- Block copying and release, debug output, timing, and the printing of boards and position lists.
- Autorelease is treated as a reference of the client that is released later.
