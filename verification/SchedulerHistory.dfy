/** How a run unfolds: points, tasks and lock histories only ever move forward. */
module SchedulerHistory {
  import opened SchedulerState
  import opened SchedulerSteps
  import opened SchedulerInvariant
  import opened SchedulerFrames
  import opened SchedulerRelease
  import opened SchedulerIntervals
  import opened SchedulerWorkers
  import opened SchedulerTaking
  import opened SchedulerRuns

  function StageRank(stage: Stage): nat {
    match stage
    case Notifying => 0
    case Queued => 1
    case Running => 2
    case Done => 3
  }

  /** A point occurs once, at one time, and is freed at most once, after its dispatch. */
  predicate LifeAdvances(life: Life, life': Life) {
    match life
    case Freed(_, _) => life' == life
    case Occurred(at, dead, stage) =>
      (life'.Occurred? && life'.at == at && life'.dead == dead && StageRank(stage) <= StageRank(life'.stage)) ||
      life' == Freed(at, dead)
    case Waiting => true
    case Acquiring(_) => true
  }

  function RunRank(run: Run): nat {
    match run
    case NotRun => 0
    case Body(_, _) => 1
    case Flushing => 2
    case Closed => 3
  }

  predicate PointAdvances(pt: Point, pt': Point) {
    pt'.bound == pt.bound && pt'.depth == pt.depth && pt'.task == pt.task && pt'.start == pt.start &&
    LifeAdvances(pt.life, pt'.life) && RunRank(pt.run) <= RunRank(pt'.run)
  }

  /** Requests stay until they are met, and lock histories only grow. */
  ghost predicate RemembersLocks(s: State, s': State) {
    (forall r :: r in s.requests && (r !in s'.requests || s'.requests[r] != s.requests[r]) ==>
       s.requests[r].guard in s'.guards && s.requests[r].point in s'.guards[s.requests[r].guard].holders) &&
    (forall g :: g in s.guards ==> g in s'.guards && s.guards[g].holders <= s'.guards[g].holders)
  }

  ghost predicate PointsAdvance(s: State, s': State) {
    forall p :: p in s.points ==> p in s'.points && PointAdvances(s.points[p], s'.points[p])
  }

  ghost predicate EdgesStay(s: State, s': State) {
    forall e :: e in s.edges ==> e in s'.edges && s'.edges[e] == s.edges[e]
  }

  ghost predicate Advances(s: State, s': State) {
    PointsAdvance(s, s') && EdgesStay(s, s') && RemembersLocks(s, s')
  }

  lemma AdvancesFurther(s0: State, s1: State, s2: State)
    requires PointsAdvance(s0, s1) && PointsAdvance(s1, s2) && EdgesStay(s0, s1) && EdgesStay(s1, s2)
    ensures PointsAdvance(s0, s2) && EdgesStay(s0, s2)
  {
  }

  lemma SameTables(s: State, s': State)
    requires s'.requests == s.requests
    requires forall g :: g in s.guards ==> g in s'.guards && s'.guards[g].holders == s.guards[g].holders
    ensures RemembersLocks(s, s')
  {
  }

  /** Changing one point. */
  lemma OnePointAdvances(s: State, p: PointId, pt: Point, s': State)
    requires p in s.points && PointAdvances(s.points[p], pt) && s'.points == s.points[p := pt] && EdgesStay(s, s')
    requires s'.requests == s.requests && s'.guards == s.guards
    ensures Advances(s, s')
  {
    SameTables(s, s');
  }

  lemma ArriveAdvances(s: State, q: PointId, add: nat)
    requires q in s.points && !HasOccurred(s.points[q].life)
    ensures Advances(s, Arrive(s, q, add))
    ensures Arrive(s, q, add).requests == s.requests && Arrive(s, q, add).guards == s.guards
  {
    var s' := Arrive(s, q, add);
    assert s'.points == s.points[q := s'.points[q]];
    OnePointAdvances(s, q, s'.points[q], s');
  }

  lemma ReleaseAdvances(s: State, p: PointId)
    requires p in s.points && RefsOk(s, p, 1) && PointInRange(s.points[p])
    ensures Advances(s, Release(s, p))
    ensures Release(s, p).requests == s.requests && Release(s, p).guards == s.guards
  {
    LastReference(s, p);
    var s' := Release(s, p);
    assert s'.points == s.points[p := s'.points[p]];
    OnePointAdvances(s, p, s'.points[p], s');
  }

  /** A change of one point, then the release of a reference. */
  lemma ThenRelease(s: State, s1: State, p: PointId)
    requires PointsAdvance(s, s1) && s1.edges == s.edges && s1.requests == s.requests
    requires forall g :: g in s.guards ==> g in s1.guards && s1.guards[g].holders == s.guards[g].holders
    requires p in s1.points && RefsOk(s1, p, 1) && PointInRange(s1.points[p])
    ensures Advances(s, Release(s1, p))
  {
    ReleaseAdvances(s1, p);
    AdvancesFurther(s, s1, Release(s1, p));
    SameTables(s, Release(s1, p));
  }

  lemma ThenArrive(s: State, s1: State, q: PointId, add: nat)
    requires PointsAdvance(s, s1) && s1.edges == s.edges && s1.requests == s.requests && s1.guards == s.guards
    requires q in s1.points && !HasOccurred(s1.points[q].life)
    ensures Advances(s, Arrive(s1, q, add))
  {
    ArriveAdvances(s1, q, add);
    AdvancesFurther(s, s1, Arrive(s1, q, add));
    SameTables(s, Arrive(s1, q, add));
  }

  // ----- Action by action --------------------------------------------------------------------

  lemma ReferenceAdvances(s: State, a: Action, s': State)
    requires Invariant(s) && CountsInRange(s) && Step(s, a, s') && (a.Retain? || a.UserRelease?)
    ensures Advances(s, s')
  {
    var p := a.p;
    if a.Retain? {
      OnePointAdvances(s, p, s'.points[p], s');
    } else {
      var pt := s.points[p].(user := s.points[p].user - 1);
      var s1 := WithPoint(s, p, pt);
      UserDebt(s, p, pt, s1);
      ThenRelease(s, s1, p);
    }
  }

  lemma UserDebt(s: State, p: PointId, pt: Point, s1: State)
    requires RefCounts(s, None) && p in s.points && s.points[p].user > 0
    requires pt == s.points[p].(user := s.points[p].user - 1) && s1 == WithPoint(s, p, pt)
    ensures RefsOk(s1, p, 1) && PointsAdvance(s, s1)
  {
    assert RefsOk(s, p, Debt(None, p));
    NewCountsKeepTotals(s, p, pt, s1, p);
  }

  lemma GuardActionAdvances(s: State, a: Action, s': State)
    requires Invariant(s) && Step(s, a, s') && (a.CreateGuard? || a.RetainGuard? || a.UserReleaseGuard? || a.AddLock?)
    ensures Advances(s, s')
  {
    assert s'.points == s.points && s'.edges == s.edges;
  }

  lemma ReleaseGuardLastAdvances(s: State, g: GuardId, s': State)
    requires Invariant(s) && CountsInRange(s) && Step(s, ReleaseGuardLast(g), s')
    ensures Advances(s, s')
  {
    var p := s.guards[g].last.value;
    var s1 := s.(guards := s.guards[g := s.guards[g].(last := None)]);
    GuardDebt(s, g, s1, p);
    ThenRelease(s, s1, p);
  }

  lemma GuardDebt(s: State, g: GuardId, s1: State, p: PointId)
    requires RefCounts(s, None) && g in s.guards && s.guards[g].last == Some(p) && p in s.points
    requires s1 == s.(guards := s.guards[g := s.guards[g].(last := None)])
    ensures RefsOk(s1, p, 1)
  {
    assert RefsOk(s, p, Debt(None, p));
    assert forall e :: ConnectedIn(s1, e) == ConnectedIn(s, e);
    assert RefEdges(s1, p) == RefEdges(s, p) && RefTakers(s1, p) == RefTakers(s, p);
    assert RefGuards(s1, p) == RefGuards(s, p) - {g};
  }

  lemma CreationAdvances(s: State, s': State, b: Birth)
    requires Shape(s) && IntervalAdded(s, s', b)
    requires s.points[b.bound].run == s'.points[b.bound].run || (s.points[b.bound].run.Body? && s'.points[b.bound].run.Body?)
    ensures Advances(s, s')
  {
    AddedOld(s, s', b);
    SameTables(s, s');
  }

  lemma NewIntervalAdvances(s: State, a: Action, s': State)
    requires Invariant(s) && Step(s, a, s') && a.NewInterval?
    ensures Advances(s, s')
  {
    NewIntervalMeans(s, a.t, a.bound, a.start, a.end, a.e, s');
    CreatedAdds(s, a.t, a.bound, a.start, a.end, a.e, s');
    CreationAdvances(s, s', Birth(a.bound, a.end, a.start, s.points[a.t].run.cur, a.e));
  }

  lemma SubintervalAdvances(s: State, a: Action, s': State)
    requires Invariant(s) && Step(s, a, s') && a.Subinterval?
    ensures Advances(s, s')
  {
    SubintervalMeans(s, a.t, a.start, a.end, a.e, s');
    NestedAdds(s, a.t, a.start, a.end, a.e, s');
    CreationAdvances(s, s', Birth(a.t, a.end, a.start, s.points[a.t].run.cur, a.e));
  }

  lemma SubintervalReturnAdvances(s: State, t: PointId, s': State)
    requires Step(s, SubintervalReturn(t), s')
    ensures Advances(s, s')
  {
    OnePointAdvances(s, t, s'.points[t], s');
  }

  lemma AddHbAdvances(s: State, a: Action, s': State)
    requires Step(s, a, s') && a.AddHb?
    ensures Advances(s, s')
  {
    OnePointAdvances(s, a.after, s'.points[a.after], s');
  }

  lemma ScheduleAdvances(s: State, t: PointId, p: PointId, s': State)
    requires Ordered(s) && Step(s, Schedule(t, p), s')
    ensures Advances(s, s')
  {
    ThenArrive(s, WithPoint(s, p, s.points[p].(owner := None)), p, 0);
  }

  lemma EndTaskAdvances(s: State, t: PointId, s': State)
    requires Ordered(s) && Step(s, EndTask(t), s')
    ensures Advances(s, s')
  {
    ThenArrive(s, WithPoint(s, t, s.points[t].(run := Closed)), t, 0);
  }

  lemma LocksTakenAdvances(s: State, p: PointId, s': State)
    requires Step(s, LocksTaken(p), s')
    ensures Advances(s, s')
  {
    ThenArrive(s, WithLife(s, p, Waiting), p, 0);
  }

  lemma DeliverAdvances(s: State, e: EdgeId, s': State)
    requires Invariant(s) && Step(s, Deliver(e), s')
    ensures Advances(s, s')
  {
    ThenArrive(s, s.(inflight := s.inflight - {e}), s.edges[e].dst, Bit(!IsDead(s.points[s.edges[e].src].life)));
  }

  lemma DispatchedAdvances(s: State, p: PointId, pt: Point, s1: State)
    requires WaitCounts(s, None) && RefCounts(s, None) && CountsInRange(s) && Dispatched(s, p, pt, s1)
    ensures Advances(s, if pt.task == Block then s1 else Release(s1, p))
  {
    if pt.task == Block {
      OnePointAdvances(s, p, pt, s1);
    } else {
      DispatchedTotals(s, p, pt, s1);
      assert RefsOk(s1, p, Debt(Some(p), p));
      ThenRelease(s, s1, p);
    }
  }

  lemma DispatchAdvances(s: State, p: PointId, s': State)
    requires Invariant(s) && CountsInRange(s) && Step(s, Dispatch(p), s')
    ensures Advances(s, s')
  {
    var pt := s.points[p].(life := s.points[p].life.(stage := if s.points[p].task == Block then Queued else Done));
    DispatchedAdvances(s, p, pt, WithPoint(s, p, pt));
  }

  lemma TwoPointsAdvance(s: State, p: PointId, pt: Point, q: PointId, qt: Point, s': State)
    requires p in s.points && q in s.points && p != q && PointAdvances(s.points[p], pt) && PointAdvances(s.points[q], qt)
    requires s'.points == s.points[p := pt][q := qt] && s'.edges == s.edges
    ensures PointsAdvance(s, s')
  {
  }

  lemma StartTaskAdvances(s: State, p: PointId, s': State)
    requires Invariant(s) && Step(s, StartTask(p), s')
    ensures Advances(s, s')
  {
    QueuedIsBlock(s, p);
    assert TaskOk(s, p);
    var end := s.points[p].bound.value;
    TwoPointsAdvance(s, end, s'.points[end], p, s'.points[p], s');
    SameTables(s, s');
  }

  lemma FinishBodyAdvances(s: State, t: PointId, s': State)
    requires Invariant(s) && CountsInRange(s) && Step(s, FinishBody(t), s')
    ensures Advances(s, s')
  {
    var tPt := s.points[t].(run := Flushing);
    var s1 := WithPoint(s, t, tPt);
    if s.points[t].start.None? {
      OnePointAdvances(s, t, tPt, s1);
    } else {
      RunningStart(s, t);
      var p := s.points[t].start.value;
      var pt := s.points[p].(life := s.points[p].life.(stage := Done));
      var s2 := WithPoint(s1, p, pt);
      ReturnedTotals(s, t, tPt, p, pt, s1, s2);
      assert RefsOk(s2, p, Debt(Some(p), p));
      TwoPointsAdvance(s, t, tPt, p, pt, s2);
      ThenRelease(s, s2, p);
    }
  }

  lemma SwapLockAdvances(s: State, p: PointId, r: RequestId, s': State)
    requires Shape(s) && Step(s, SwapLock(p, r), s')
    ensures Advances(s, s')
  {
    SwapLockMeans(s, p, r, s');
    if s.points[p].bound.Some? {
      var end := s.points[p].bound.value;
      TwoPointsAdvance(s, end, s'.points[end], p, s'.points[p], s');
    } else {
      assert s'.points == s.points[p := s'.points[p]];
    }
    assert s'.guards[s.requests[r].guard].holders == s.guards[s.requests[r].guard].holders + [p];
  }

  lemma LinkLockAdvances(s: State, p: PointId, e: EdgeId, s': State)
    requires Step(s, LinkLock(p, e), s')
    ensures Advances(s, s')
  {
    OnePointAdvances(s, p, s'.points[p], s');
  }

  lemma ReleaseFormerAdvances(s: State, p: PointId, s': State)
    requires Invariant(s) && CountsInRange(s) && Step(s, ReleaseFormer(p), s')
    ensures Advances(s, s')
  {
    var f := s.points[p].life.taking.former;
    var pt := s.points[p].(life := Acquiring(Letting(s.points[p].life.taking.guard)));
    var s1 := WithPoint(s, p, pt);
    FormerLeft(s, p, pt, s1, f);
    SteppedTotals(s, p, pt, s1, Some(f));
    assert RefsOk(s1, f, Debt(Some(f), f));
    ThenRelease(s, s1, f);
  }

  lemma ReleaseTakenAdvances(s: State, p: PointId, s': State)
    requires Step(s, ReleaseTaken(p), s')
    ensures Advances(s, s')
  {
    assert s'.points == s.points[p := s'.points[p]] && s'.edges == s.edges;
    SameTables(s, s');
  }

  lemma ReleaseEdgeAdvances(s: State, e: EdgeId, s': State)
    requires Invariant(s) && CountsInRange(s) && Step(s, ReleaseEdge(e), s')
    ensures Advances(s, s')
  {
    var q := s.edges[e].dst;
    var s1 := s.(releasing := s.releasing - {e});
    LetGoTotals(s, e, q, s1);
    assert RefsOk(s1, q, Debt(Some(q), q));
    ThenRelease(s, s1, q);
  }

  lemma StepAdvances(s: State, a: Action, s': State)
    requires Invariant(s) && CountsInRange(s) && Step(s, a, s')
    ensures Advances(s, s')
  {
    match a
    case Retain(_) => ReferenceAdvances(s, a, s');
    case UserRelease(_) => ReferenceAdvances(s, a, s');
    case CreateGuard(_) => GuardActionAdvances(s, a, s');
    case RetainGuard(_) => GuardActionAdvances(s, a, s');
    case UserReleaseGuard(_) => GuardActionAdvances(s, a, s');
    case NewInterval(_, _, _, _, _) => NewIntervalAdvances(s, a, s');
    case Subinterval(_, _, _, _) => SubintervalAdvances(s, a, s');
    case SubintervalReturn(t) => SubintervalReturnAdvances(s, t, s');
    case AddHb(_, _, _, _) => AddHbAdvances(s, a, s');
    case AddLock(_, _, _, _) => GuardActionAdvances(s, a, s');
    case Schedule(t, p) => ScheduleAdvances(s, t, p, s');
    case StartTask(p) => StartTaskAdvances(s, p, s');
    case FinishBody(t) => FinishBodyAdvances(s, t, s');
    case EndTask(t) => EndTaskAdvances(s, t, s');
    case Deliver(e) => DeliverAdvances(s, e, s');
    case Dispatch(p) => DispatchAdvances(s, p, s');
    case SwapLock(p, r) => SwapLockAdvances(s, p, r, s');
    case LinkLock(p, e) => LinkLockAdvances(s, p, e, s');
    case ReleaseFormer(p) => ReleaseFormerAdvances(s, p, s');
    case ReleaseTaken(p) => ReleaseTakenAdvances(s, p, s');
    case LocksTaken(p) => LocksTakenAdvances(s, p, s');
    case ReleaseEdge(e) => ReleaseEdgeAdvances(s, e, s');
    case ReleaseGuardLast(g) => ReleaseGuardLastAdvances(s, g, s');
  }

  lemma StepMovesForward(s: State, a: Action, s': State)
    requires Invariant(s) && CountsInRange(s) && Step(s, a, s')
    ensures PointsAdvance(s, s') && EdgesStay(s, s')
  {
    StepAdvances(s, a, s');
  }

  lemma RunStepMovesForward(states: seq<State>, actions: seq<Action>, k: nat)
    requires IsRun(states, actions) && k < |actions|
    ensures PointsAdvance(states[k], states[k + 1]) && EdgesStay(states[k], states[k + 1])
  {
    RunKeepsInvariant(states, actions, k);
    StepMovesForward(states[k], actions[k], states[k + 1]);
  }

  /** Over a whole run: a point that has occurred stays so, at the same time and with the
      same decision about its successors; one that was freed is never touched again; the
      run of a task never goes back, so no block runs twice; no edge is forgotten. */
  lemma {:induction false} RunsMoveForward(states: seq<State>, actions: seq<Action>, i: nat, k: nat)
    requires IsRun(states, actions) && i <= k < |states|
    ensures PointsAdvance(states[i], states[k]) && EdgesStay(states[i], states[k])
  {
    if i < k {
      RunsMoveForward(states, actions, i, k - 1);
      RunStepMovesForward(states, actions, k - 1);
      AdvancesFurther(states[i], states[k - 1], states[k]);
    }
  }
}
