/** How points leave memory: each is freed at most once, only after it has occurred and
    its task is over, and it gives back the references on its successors exactly once if
    it had taken them, and never if it had not. */
module SchedulerFreeing {
  import opened SchedulerState
  import opened SchedulerSteps
  import opened SchedulerInvariant
  import opened SchedulerRelease
  import opened SchedulerIntervals
  import opened SchedulerWorkers
  import opened SchedulerTaking
  import opened SchedulerRuns
  import opened SchedulerHistory

  ghost predicate IsFreed(s: State, p: PointId) {
    p in s.points && s.points[p].life.Freed?
  }

  /** A point that is freed in this step had occurred and been dispatched, and now has
      the references of all its edges to release, unless it was dead. */
  ghost predicate FreesDone(s: State, s': State) {
    forall p :: p in s.points && IsFreed(s', p) && !IsFreed(s, p) ==>
      s.points[p].life.Occurred? &&
      s'.points[p].life == Freed(s.points[p].life.at, s.points[p].life.dead) &&
      (!s.points[p].life.dead ==> OutEdges(s', p) <= s'.releasing)
  }

  /** References begin to be released only by points freed in this step. */
  ghost predicate ReleasingStartsOnce(s: State, s': State) {
    forall e :: e in s'.releasing && e !in s.releasing ==>
      e in s.edges && s.edges[e].src in s.points && !IsFreed(s, s.edges[e].src) && IsFreed(s', s.edges[e].src)
  }

  ghost predicate FreesWell(s: State, s': State) {
    FreesDone(s, s') && ReleasingStartsOnce(s, s')
  }

  lemma NothingFreed(s: State, s': State)
    requires s'.releasing <= s.releasing
    requires forall p :: IsFreed(s', p) ==> IsFreed(s, p)
    ensures FreesWell(s, s')
  {
  }

  lemma ReleaseMeans(s: State, p: PointId)
    requires p in s.points && RefsOk(s, p, 1) && PointInRange(s.points[p])
    ensures var s' := Release(s, p);
      && s'.edges == s.edges && s'.points.Keys == s.points.Keys
      && (forall q :: q in s.points && q != p ==> s'.points[q] == s.points[q])
      && (if s'.points[p].life.Freed? then
            s.points[p].life.Occurred? && s'.points[p].life == Freed(s.points[p].life.at, s.points[p].life.dead) &&
            s'.releasing == if s.points[p].life.dead then s.releasing else s.releasing + OutEdges(s, p)
          else s'.releasing == s.releasing)
  {
    LastReference(s, p);
  }

  /** A release after a change that leaves nobody freed who was not. */
  lemma ReleaseFreesWell(s: State, s1: State, p: PointId)
    requires p in s1.points && RefsOk(s1, p, 1) && PointInRange(s1.points[p])
    requires s1.edges == s.edges && s1.releasing <= s.releasing && s1.points.Keys == s.points.Keys
    requires forall q :: q in s.points ==> s1.points[q].life.Freed? == s.points[q].life.Freed?
    requires s.points[p].life.Occurred? == s1.points[p].life.Occurred?
    requires s.points[p].life.Occurred? ==>
      s1.points[p].life.at == s.points[p].life.at && s1.points[p].life.dead == s.points[p].life.dead
    requires !s1.points[p].life.Freed?
    ensures FreesWell(s, Release(s1, p))
  {
    ReleaseMeans(s1, p);
  }

  // ----- Action by action -----------------------------------------------------------------

  lemma UserReleaseFrees(s: State, p: PointId, s': State)
    requires Invariant(s) && CountsInRange(s) && Step(s, UserRelease(p), s')
    ensures FreesWell(s, s')
  {
    var pt := s.points[p].(user := s.points[p].user - 1);
    var s1 := WithPoint(s, p, pt);
    UserDebt(s, p, pt, s1);
    LastReference(s1, p);
    ReleaseFreesWell(s, s1, p);
  }

  lemma FinishBodyFrees(s: State, t: PointId, s': State)
    requires Invariant(s) && CountsInRange(s) && Step(s, FinishBody(t), s')
    ensures FreesWell(s, s')
  {
    var tPt := s.points[t].(run := Flushing);
    var s1 := WithPoint(s, t, tPt);
    if s.points[t].start.None? {
      NothingFreed(s, s1);
    } else {
      RunningStart(s, t);
      var p := s.points[t].start.value;
      var pt := s.points[p].(life := s.points[p].life.(stage := Done));
      var s2 := WithPoint(s1, p, pt);
      ReturnedTotals(s, t, tPt, p, pt, s1, s2);
      assert RefsOk(s2, p, Debt(Some(p), p));
      ReleaseFreesWell(s, s2, p);
    }
  }

  lemma DispatchFrees(s: State, p: PointId, s': State)
    requires Invariant(s) && CountsInRange(s) && Step(s, Dispatch(p), s')
    ensures FreesWell(s, s')
  {
    var pt := s.points[p].(life := s.points[p].life.(stage := if s.points[p].task == Block then Queued else Done));
    var s1 := WithPoint(s, p, pt);
    if s.points[p].task == Block {
      NothingFreed(s, s1);
    } else {
      DispatchedTotals(s, p, pt, s1);
      assert RefsOk(s1, p, Debt(Some(p), p));
      ReleaseFreesWell(s, s1, p);
    }
  }

  lemma ReleaseFormerFrees(s: State, p: PointId, s': State)
    requires Invariant(s) && CountsInRange(s) && Step(s, ReleaseFormer(p), s')
    ensures FreesWell(s, s')
  {
    var f := s.points[p].life.taking.former;
    var pt := s.points[p].(life := Acquiring(Letting(s.points[p].life.taking.guard)));
    var s1 := WithPoint(s, p, pt);
    FormerLeft(s, p, pt, s1, f);
    SteppedTotals(s, p, pt, s1, Some(f));
    assert RefsOk(s1, f, Debt(Some(f), f));
    LastReference(s1, f);
    ReleaseFreesWell(s, s1, f);
  }

  lemma ReleaseEdgeFrees(s: State, e: EdgeId, s': State)
    requires Invariant(s) && CountsInRange(s) && Step(s, ReleaseEdge(e), s')
    ensures FreesWell(s, s')
  {
    var q := s.edges[e].dst;
    var s1 := s.(releasing := s.releasing - {e});
    LetGoTotals(s, e, q, s1);
    assert RefsOk(s1, q, Debt(Some(q), q));
    LastReference(s1, q);
    ReleaseFreesWell(s, s1, q);
  }

  lemma ReleaseGuardLastFrees(s: State, g: GuardId, s': State)
    requires Invariant(s) && CountsInRange(s) && Step(s, ReleaseGuardLast(g), s')
    ensures FreesWell(s, s')
  {
    var p := s.guards[g].last.value;
    var s1 := s.(guards := s.guards[g := s.guards[g].(last := None)]);
    GuardDebt(s, g, s1, p);
    LastReference(s1, p);
    ReleaseFreesWell(s, s1, p);
  }

  lemma ArriveFrees(s: State, s1: State, q: PointId, add: nat)
    requires q in s1.points && !HasOccurred(s1.points[q].life)
    requires s1.releasing == s.releasing && forall p :: IsFreed(s1, p) ==> IsFreed(s, p)
    ensures FreesWell(s, Arrive(s1, q, add))
  {
    NothingFreed(s, Arrive(s1, q, add));
  }

  lemma ArrivingFrees(s: State, a: Action, s': State)
    requires Ordered(s) && Step(s, a, s') && (a.Schedule? || a.EndTask? || a.Deliver? || a.LocksTaken?)
    ensures FreesWell(s, s')
  {
    match a
    case Schedule(t, p) => ArriveFrees(s, WithPoint(s, p, s.points[p].(owner := None)), p, 0);
    case EndTask(t) => ArriveFrees(s, WithPoint(s, t, s.points[t].(run := Closed)), t, 0);
    case Deliver(e) =>
      ArriveFrees(s, s.(inflight := s.inflight - {e}), s.edges[e].dst, Bit(!IsDead(s.points[s.edges[e].src].life)));
    case LocksTaken(p) => ArriveFrees(s, WithLife(s, p, Waiting), p, 0);
  }

  lemma CreationFrees(s: State, a: Action, s': State)
    requires Invariant(s) && Step(s, a, s') && (a.NewInterval? || a.Subinterval?)
    ensures FreesWell(s, s')
  {
    if a.NewInterval? {
      NewIntervalMeans(s, a.t, a.bound, a.start, a.end, a.e, s');
      CreatedAdds(s, a.t, a.bound, a.start, a.end, a.e, s');
      AddedFreesNothing(s, s', Birth(a.bound, a.end, a.start, s.points[a.t].run.cur, a.e));
    } else {
      SubintervalMeans(s, a.t, a.start, a.end, a.e, s');
      NestedAdds(s, a.t, a.start, a.end, a.e, s');
      AddedFreesNothing(s, s', Birth(a.t, a.end, a.start, s.points[a.t].run.cur, a.e));
    }
  }

  lemma AddedFreesNothing(s: State, s': State, b: Birth)
    requires Shape(s) && IntervalAdded(s, s', b)
    ensures FreesWell(s, s')
  {
    AddedOld(s, s', b);
    NothingFreed(s, s');
  }

  lemma QuietFrees(s: State, a: Action, s': State)
    requires Step(s, a, s')
    requires a.Retain? || a.CreateGuard? || a.RetainGuard? || a.UserReleaseGuard? || a.SubintervalReturn? || a.AddHb? ||
             a.AddLock? || a.StartTask? || a.ReleaseTaken? || a.SwapLock? || a.LinkLock?
    ensures FreesWell(s, s')
  {
    NothingFreed(s, s');
  }

  lemma StepFreesWell(s: State, a: Action, s': State)
    requires Invariant(s) && CountsInRange(s) && Step(s, a, s')
    ensures FreesWell(s, s')
  {
    match a
    case UserRelease(p) => UserReleaseFrees(s, p, s');
    case FinishBody(t) => FinishBodyFrees(s, t, s');
    case Dispatch(p) => DispatchFrees(s, p, s');
    case ReleaseFormer(p) => ReleaseFormerFrees(s, p, s');
    case ReleaseEdge(e) => ReleaseEdgeFrees(s, e, s');
    case ReleaseGuardLast(g) => ReleaseGuardLastFrees(s, g, s');
    case NewInterval(_, _, _, _, _) => CreationFrees(s, a, s');
    case Subinterval(_, _, _, _) => CreationFrees(s, a, s');
    case Schedule(_, _) => ArrivingFrees(s, a, s');
    case EndTask(_) => ArrivingFrees(s, a, s');
    case Deliver(_) => ArrivingFrees(s, a, s');
    case LocksTaken(_) => ArrivingFrees(s, a, s');
    case _ => QuietFrees(s, a, s');
  }

  // ----- Over whole runs ---------------------------------------------------------------------

  /** When the j-th action frees p: p had occurred, nothing refers to it any more, and its
      successors are to be released if and only if it was not dead. */
  lemma FreedAfterOccurring(states: seq<State>, actions: seq<Action>, j: nat, p: PointId)
    requires IsRun(states, actions) && j < |actions| && p in states[j].points
    requires !IsFreed(states[j], p) && IsFreed(states[j + 1], p)
    ensures states[j].points[p].life.Occurred? && RefTotal(states[j + 1], p) == 0
    ensures var out := OutEdges(states[j + 1], p);
      if states[j].points[p].life.dead then states[j + 1].releasing !! out else out <= states[j + 1].releasing
  {
    RunKeepsInvariant(states, actions, j);
    RunKeepsInvariant(states, actions, j + 1);
    StepFreesWell(states[j], actions[j], states[j + 1]);
    assert RefsOk(states[j + 1], p, Debt(None, p));
  }

  /** A freed point stays as it is, so no later action frees it again; and a reference it
      has given back, or never had, is never released again. */
  lemma {:induction false} FreedForGood(states: seq<State>, actions: seq<Action>, i: nat, k: nat, p: PointId, e: EdgeId)
    requires IsRun(states, actions) && i <= k < |states| && IsFreed(states[i], p)
    ensures IsFreed(states[k], p) && states[k].points[p].life == states[i].points[p].life
    ensures e in states[i].edges && states[i].edges[e].src == p && e !in states[i].releasing ==> e !in states[k].releasing
  {
    RunsMoveForward(states, actions, i, k);
    if i < k {
      FreedForGood(states, actions, i, k - 1, p, e);
      RunsMoveForward(states, actions, i, k - 1);
      RunKeepsInvariant(states, actions, k - 1);
      StepFreesWell(states[k - 1], actions[k - 1], states[k]);
    }
  }
}
