/** Every transition keeps the invariant, so every reachable state satisfies it. */
module SchedulerRuns {
  import opened SchedulerState
  import opened SchedulerSteps
  import opened SchedulerInvariant
  import opened SchedulerArrive
  import opened SchedulerClient
  import opened SchedulerGuards
  import opened SchedulerIntervals
  import opened SchedulerWorkers
  import opened SchedulerTaking

  /** Requests and takers name guards and points that exist. */
  lemma Known(s: State)
    requires Locks(s) && Shape(s)
    ensures forall g :: g in s.guards && s.guards[g].last.Some? ==> s.guards[g].last.value in s.points
    ensures forall e :: e in s.edges ==> ConnectedIn(s, e)
  {
  }

  lemma RetainStep(s: State, p: PointId, s': State)
    requires Invariant(s) && Step(s, Retain(p), s')
    ensures Invariant(s')
  {
    RetainKeeps(s, p, s.points[p].(rc := s.points[p].rc + 1, user := s.points[p].user + 1), s');
  }

  lemma UserReleaseStep(s: State, p: PointId, s': State)
    requires Invariant(s) && CountsInRange(s) && Step(s, UserRelease(p), s')
    ensures Invariant(s')
  {
    var pt := s.points[p].(user := s.points[p].user - 1);
    UserReleaseKeeps(s, p, pt, WithPoint(s, p, pt));
  }

  lemma GuardStep(s: State, a: Action, s': State)
    requires Invariant(s) && CountsInRange(s) && Step(s, a, s')
    requires a.CreateGuard? || a.RetainGuard? || a.UserReleaseGuard? || a.ReleaseGuardLast?
    ensures Invariant(s')
  {
    match a
    case CreateGuard(g) => CreateGuardKeeps(s, g, s');
    case RetainGuard(g) =>
      RetainGuardKeeps(s, g, s.guards[g].(rc := s.guards[g].rc + 1, user := s.guards[g].user + 1), s');
    case UserReleaseGuard(g) =>
      UserReleaseGuardKeeps(s, g, s.(guards := s.guards[g := s.guards[g].(user := s.guards[g].user - 1)]));
    case ReleaseGuardLast(g) =>
      ReleaseGuardLastKeeps(s, g, s.(guards := s.guards[g := s.guards[g].(last := None)]), s.guards[g].last.value);
    case _ =>
  }

  lemma ScheduleStep(s: State, t: PointId, p: PointId, s': State)
    requires Invariant(s) && Step(s, Schedule(t, p), s')
    ensures Invariant(s')
  {
    var pt := s.points[p].(owner := None);
    ScheduleKeeps(s, p, pt, WithPoint(s, p, pt));
  }

  lemma EndTaskStep(s: State, t: PointId, s': State)
    requires Invariant(s) && Step(s, EndTask(t), s')
    ensures Invariant(s')
  {
    var pt := s.points[t].(run := Closed);
    EndTaskKeeps(s, t, pt, WithPoint(s, t, pt));
  }

  lemma SubintervalReturnStep(s: State, t: PointId, s': State)
    requires Invariant(s) && Step(s, SubintervalReturn(t), s')
    ensures Invariant(s')
  {
    SubintervalReturnKeeps(s, t, s.points[t].(run := Body(s.points[t].run.cur, None)), s');
  }

  lemma DispatchStep(s: State, p: PointId, s': State)
    requires Invariant(s) && CountsInRange(s) && Step(s, Dispatch(p), s')
    ensures Invariant(s')
  {
    var pt := s.points[p].(life := s.points[p].life.(stage := if s.points[p].task == Block then Queued else Done));
    DispatchKeeps(s, p, pt, WithPoint(s, p, pt));
  }

  lemma StartTaskStep(s: State, p: PointId, s': State)
    requires Invariant(s) && Step(s, StartTask(p), s')
    ensures Invariant(s')
  {
    QueuedIsBlock(s, p);
    var end := s.points[p].bound.value;
    var endPt := s.points[end].(run := Body(if s.points[p].rc == RC_DEAD_PRE then None else Some(p), None));
    var s1 := WithPoint(s, end, endPt);
    StartTaskKeeps(s, p, end, endPt, s.points[p].(life := s.points[p].life.(stage := Running)), s1, s');
  }

  lemma FinishBodyStep(s: State, t: PointId, s': State)
    requires Invariant(s) && CountsInRange(s) && Step(s, FinishBody(t), s')
    ensures Invariant(s')
  {
    var tPt := s.points[t].(run := Flushing);
    if s.points[t].start.None? {
      FinishRootKeeps(s, t, tPt, s');
    } else {
      RunningStart(s, t);
      var p := s.points[t].start.value;
      var s1 := WithPoint(s, t, tPt);
      var pt := s.points[p].(life := s.points[p].life.(stage := Done));
      FinishBodyKeeps(s, t, tPt, p, pt, s1, WithPoint(s1, p, pt));
    }
  }

  lemma DeliverMeans(s: State, e: EdgeId, q: PointId, pt: Point, s': State)
    requires Step(s, Deliver(e), s') && q == s.edges[e].dst
    requires pt == s.points[q].(rc := s.points[q].rc + Bit(!IsDead(s.points[s.edges[e].src].life)))
    ensures var s1 := WithPoint(s, q, pt).(inflight := s.inflight - {e});
            Arrived(s, e, q, pt, s1) && s' == Arrive(s1, q, 0)
  {
    var s0 := s.(inflight := s.inflight - {e});
    ArriveWith(s0, q, Bit(!IsDead(s.points[s.edges[e].src].life)));
    assert WithPoint(s0, q, pt) == WithPoint(s, q, pt).(inflight := s.inflight - {e});
  }

  lemma DeliverStep(s: State, e: EdgeId, s': State)
    requires Invariant(s) && Step(s, Deliver(e), s')
    ensures Invariant(s')
  {
    var q := s.edges[e].dst;
    var pt := s.points[q].(rc := s.points[q].rc + Bit(!IsDead(s.points[s.edges[e].src].life)));
    DeliverMeans(s, e, q, pt, s');
    DeliverKeeps(s, e, q, pt, WithPoint(s, q, pt).(inflight := s.inflight - {e}));
  }

  lemma ReleaseEdgeStep(s: State, e: EdgeId, s': State)
    requires Invariant(s) && CountsInRange(s) && Step(s, ReleaseEdge(e), s')
    ensures Invariant(s')
  {
    ReleaseEdgeKeeps(s, e, s.edges[e].dst, s.(releasing := s.releasing - {e}));
  }

  lemma SwapLockStep(s: State, p: PointId, r: RequestId, s': State)
    requires Invariant(s) && Step(s, SwapLock(p, r), s')
    ensures Invariant(s')
  {
    SwapLockMeans(s, p, r, s');
    SwapLockKeeps(s, p, r, s.points[p].bound, s.requests[r].guard, s');
  }

  lemma SwapLockMeans(s: State, p: PointId, r: RequestId, s': State)
    requires Shape(s) && Step(s, SwapLock(p, r), s')
    ensures Swap(s, p, r, s.points[p].bound, s.requests[r].guard, s')
  {
    assert BoundOk(s, p);
  }

  lemma LinkLockStep(s: State, p: PointId, e: EdgeId, s': State)
    requires Invariant(s) && CountsInRange(s) && Step(s, LinkLock(p, e), s')
    ensures Invariant(s')
  {
    var g, f := s.points[p].life.taking.guard, s.points[p].life.taking.former;
    var s1 := AddEdge(s, f, p, true, e);
    LinkLockMeans(s, p, f, g, e, s1, s');
    LinkLockKeeps(s, p, f, g, e, s1, s'.points[p], s');
  }

  lemma LinkLockMeans(s: State, p: PointId, f: PointId, g: GuardId, e: EdgeId, s1: State, s': State)
    requires Step(s, LinkLock(p, e), s') && s.points[p].life == Acquiring(Swapped(g, f)) && s1 == AddEdge(s, f, p, true, e)
    ensures p in s'.points && s'.points[p].life == Acquiring(Linked(g, f)) && Stepped(s1, p, s'.points[p], s')
  {
    assert s'.points == WithPoint(s1, p, s'.points[p]).points;
  }

  lemma ReleaseFormerStep(s: State, p: PointId, s': State)
    requires Invariant(s) && CountsInRange(s) && Step(s, ReleaseFormer(p), s')
    ensures Invariant(s')
  {
    var pt := s.points[p].(life := Acquiring(Letting(s.points[p].life.taking.guard)));
    ReleaseFormerKeeps(s, p, pt, WithPoint(s, p, pt), s.points[p].life.taking.former);
  }

  lemma ReleaseTakenStep(s: State, p: PointId, s': State)
    requires Invariant(s) && Step(s, ReleaseTaken(p), s')
    ensures Invariant(s')
  {
    var pt := s.points[p].(life := Acquiring(Popping));
    ReleaseTakenKeeps(s, p, pt, WithPoint(s, p, pt), s.points[p].life.taking.guard);
  }

  lemma LocksTakenStep(s: State, p: PointId, s': State)
    requires Invariant(s) && Step(s, LocksTaken(p), s')
    ensures Invariant(s')
  {
    var pt := s.points[p].(life := Waiting);
    LocksTakenKeeps(s, p, pt, WithPoint(s, p, pt));
  }

  /** Every transition keeps the invariant. */
  lemma StepKeepsInvariant(s: State, a: Action, s': State)
    requires Invariant(s) && CountsInRange(s) && Step(s, a, s')
    ensures Invariant(s')
  {
    match a
    case Retain(p) => RetainStep(s, p, s');
    case UserRelease(p) => UserReleaseStep(s, p, s');
    case CreateGuard(g) => GuardStep(s, a, s');
    case RetainGuard(g) => GuardStep(s, a, s');
    case UserReleaseGuard(g) => GuardStep(s, a, s');
    case NewInterval(t, bound, start, end, e) => NewIntervalKeeps(s, t, bound, start, end, e, s');
    case Subinterval(t, start, end, e) => SubintervalKeeps(s, t, start, end, e, s');
    case SubintervalReturn(t) => SubintervalReturnStep(s, t, s');
    case AddHb(t, before, after, e) => AddHbKeeps(s, t, before, after, e, s');
    case AddLock(t, p, g, r) => AddLockKeeps(s, t, p, g, r, s');
    case Schedule(t, p) => ScheduleStep(s, t, p, s');
    case StartTask(p) => StartTaskStep(s, p, s');
    case FinishBody(t) => FinishBodyStep(s, t, s');
    case EndTask(t) => EndTaskStep(s, t, s');
    case Deliver(e) => DeliverStep(s, e, s');
    case Dispatch(p) => DispatchStep(s, p, s');
    case SwapLock(p, r) => SwapLockStep(s, p, r, s');
    case LinkLock(p, e) => LinkLockStep(s, p, e, s');
    case ReleaseFormer(p) => ReleaseFormerStep(s, p, s');
    case ReleaseTaken(p) => ReleaseTakenStep(s, p, s');
    case LocksTaken(p) => LocksTakenStep(s, p, s');
    case ReleaseEdge(e) => ReleaseEdgeStep(s, e, s');
    case ReleaseGuardLast(g) => GuardStep(s, a, s');
  }

  /** A run: it begins in the initial state, each state follows by an action, and no
      counter reaches the sentinel. */
  ghost predicate IsRun(states: seq<State>, actions: seq<Action>) {
    |states| == |actions| + 1 && states[0] == Initial() &&
    (forall i :: 0 <= i < |states| ==> CountsInRange(states[i])) &&
    (forall i {:trigger actions[i]} :: 0 <= i < |actions| ==> Step(states[i], actions[i], states[i + 1]))
  }

  ghost predicate Reachable(s: State) {
    exists states: seq<State>, actions: seq<Action> :: IsRun(states, actions) && states[|states| - 1] == s
  }

  lemma {:induction false} RunKeepsInvariant(states: seq<State>, actions: seq<Action>, i: nat)
    requires IsRun(states, actions) && i < |states|
    ensures Invariant(states[i])
  {
    if i == 0 {
      InitialInvariant();
    } else {
      RunKeepsInvariant(states, actions, i - 1);
      StepKeepsInvariant(states[i - 1], actions[i - 1], states[i]);
    }
  }

  lemma ReachableInvariant(s: State)
    requires Reachable(s)
    ensures Invariant(s) && CountsInRange(s)
  {
    var states: seq<State>, actions: seq<Action> :| IsRun(states, actions) && states[|states| - 1] == s;
    RunKeepsInvariant(states, actions, |states| - 1);
  }
}
