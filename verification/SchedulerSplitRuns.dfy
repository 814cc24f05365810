/** When the halves of pushes and pops may come apart: exactly when each write-back finds
    the list as it was read. Then the lists, and all that is proved of locks, are as if
    pushes and pops were atomic. */
module SchedulerSplitRuns {
  import opened SchedulerState
  import opened SchedulerSteps
  import opened SchedulerInvariant
  import opened SchedulerSafety
  import opened SchedulerRuns
  import opened SchedulerHistory
  import opened SchedulerTurns
  import opened SchedulerSplitLists

  // ----- What a task may add to stays so while it is busy -----------------------------------------

  /** The block of t goes on, and its unscheduled list keeps what it has. */
  ghost predicate LeavesTask(s: State, s': State, t: PointId) {
    t in s.points && t in s'.points && s'.points[t].run == s.points[t].run &&
    forall u :: u in s.points && s.points[u].owner == Some(t) ==> u in s'.points && s'.points[u].owner == Some(t)
  }

  lemma ArriveLeavesTask(s: State, q: PointId, addRefs: nat, t: PointId)
    requires q in s.points && t in s.points
    ensures LeavesTask(s, Arrive(s, q, addRefs), t)
  {
  }

  lemma ReleaseLeavesTask(s: State, q: PointId, t: PointId)
    requires q in s.points && t in s.points
    ensures LeavesTask(s, Release(s, q), t)
  {
  }

  lemma LeavesTaskOn(s: State, s1: State, s2: State, t: PointId)
    requires LeavesTask(s, s1, t) && LeavesTask(s1, s2, t)
    ensures LeavesTask(s, s2, t)
  {
  }

  lemma StartLeavesTask(s: State, p: PointId, t: PointId)
    requires Enabled(s, StartTask(p)) && Tasks(s) && InBody(s, t)
    ensures LeavesTask(s, Do(s, StartTask(p)), t)
  {
    assert TaskOk(s, p);
  }

  lemma ArrivalLeavesTask(s: State, a: Action, t: PointId)
    requires Enabled(s, a) && ArrivesAt(s, a).Some? && InBody(s, t) && TaskOf(a) != Some(t)
    ensures LeavesTask(s, Do(s, a), t)
  {
    match a
    case Schedule(_, p) => ArriveLeavesTask(WithPoint(s, p, s.points[p].(owner := None)), p, 0, t);
    case EndTask(u) => ArriveLeavesTask(WithPoint(s, u, s.points[u].(run := Closed)), u, 0, t);
    case Deliver(e) =>
      ArriveLeavesTask(s.(inflight := s.inflight - {e}), s.edges[e].dst, Bit(!IsDead(s.points[s.edges[e].src].life)), t);
    case LocksTaken(p) => ArriveLeavesTask(WithLife(s, p, Waiting), p, 0, t);
  }

  lemma ReleasedLeavesTask(s: State, s1: State, q: PointId, t: PointId)
    requires LeavesTask(s, s1, t) && q in s1.points
    ensures LeavesTask(s, Release(s1, q), t)
  {
    ReleaseLeavesTask(s1, q, t);
  }

  lemma FinishBodyLeavesTask(s: State, u: PointId, t: PointId)
    requires Enabled(s, FinishBody(u)) && t in s.points && t != u
    ensures LeavesTask(s, Do(s, FinishBody(u)), t)
  {
    var s1 := WithPoint(s, u, s.points[u].(run := Flushing));
    if s.points[u].start.Some? {
      var start := s.points[u].start.value;
      ReleasedLeavesTask(s, WithLife(s1, start, s1.points[start].life.(stage := Done)), start, t);
    }
  }

  lemma UserReleaseLeavesTask(s: State, p: PointId, t: PointId)
    requires Enabled(s, UserRelease(p)) && t in s.points
    ensures LeavesTask(s, Do(s, UserRelease(p)), t)
  {
    ReleasedLeavesTask(s, WithPoint(s, p, s.points[p].(user := s.points[p].user - 1)), p, t);
  }

  lemma DispatchLeavesTask(s: State, p: PointId, t: PointId)
    requires Enabled(s, Dispatch(p)) && t in s.points
    ensures LeavesTask(s, Do(s, Dispatch(p)), t)
  {
    ReleasedLeavesTask(s, WithLife(s, p, s.points[p].life.(stage := Done)), p, t);
  }

  lemma ReleaseFormerLeavesTask(s: State, p: PointId, t: PointId)
    requires Enabled(s, ReleaseFormer(p)) && t in s.points
    ensures LeavesTask(s, Do(s, ReleaseFormer(p)), t)
  {
    var taking := s.points[p].life.taking;
    ReleasedLeavesTask(s, WithLife(s, p, Acquiring(Letting(taking.guard))), taking.former, t);
  }

  lemma ReleaseEdgeLeavesTask(s: State, e: EdgeId, t: PointId)
    requires Enabled(s, ReleaseEdge(e)) && t in s.points
    ensures LeavesTask(s, Do(s, ReleaseEdge(e)), t)
  {
    ReleasedLeavesTask(s, s.(releasing := s.releasing - {e}), s.edges[e].dst, t);
  }

  lemma ReleaseGuardLastLeavesTask(s: State, g: GuardId, t: PointId)
    requires Enabled(s, ReleaseGuardLast(g)) && t in s.points
    ensures LeavesTask(s, Do(s, ReleaseGuardLast(g)), t)
  {
    ReleasedLeavesTask(s, s.(guards := s.guards[g := s.guards[g].(last := None)]), s.guards[g].last.value, t);
  }

  lemma ReleasingLeavesTask(s: State, a: Action, t: PointId)
    requires IsReleasing(a) && Enabled(s, a) && t in s.points && TaskOf(a) != Some(t)
    ensures LeavesTask(s, Do(s, a), t)
  {
    match a
    case UserRelease(p) => UserReleaseLeavesTask(s, p, t);
    case FinishBody(u) => FinishBodyLeavesTask(s, u, t);
    case Dispatch(p) => DispatchLeavesTask(s, p, t);
    case ReleaseFormer(p) => ReleaseFormerLeavesTask(s, p, t);
    case ReleaseEdge(e) => ReleaseEdgeLeavesTask(s, e, t);
    case ReleaseGuardLast(g) => ReleaseGuardLastLeavesTask(s, g, t);
  }

  lemma SmallLeavesTask(s: State, a: Action, t: PointId)
    requires IsSmall(a) && !a.StartTask? && Enabled(s, a) && InBody(s, t) && TaskOf(a) != Some(t)
    ensures LeavesTask(s, Do(s, a), t)
  {
  }

  lemma LockLeavesTask(s: State, a: Action, t: PointId)
    requires a.AddLock? || a.SwapLock?
    requires Enabled(s, a) && InBody(s, t)
    ensures LeavesTask(s, Do(s, a), t)
  {
  }

  lemma CreationLeavesTask(s: State, a: Action, t: PointId)
    requires a.NewInterval? || a.Subinterval?
    requires Enabled(s, a) && InBody(s, t) && TaskOf(a) != Some(t)
    ensures LeavesTask(s, Do(s, a), t)
  {
  }

  lemma OthersLeaveTask(s: State, a: Action, t: PointId)
    requires Enabled(s, a) && Tasks(s) && InBody(s, t) && (a.AddLock? || TaskOf(a) != Some(t))
    ensures LeavesTask(s, Do(s, a), t)
  {
    if IsReleasing(a) {
      ReleasingLeavesTask(s, a, t);
    } else if a.NewInterval? || a.Subinterval? {
      CreationLeavesTask(s, a, t);
    } else if a.AddLock? || a.SwapLock? {
      LockLeavesTask(s, a, t);
    } else if a.StartTask? {
      StartLeavesTask(s, a.p, t);
    } else if ArrivesAt(s, a).Some? {
      ArrivalLeavesTask(s, a, t);
    } else {
      SmallLeavesTask(s, a, t);
    }
  }

  lemma StillMayAdd(s: State, a: Action, s': State, t: PointId, q: PointId)
    requires Invariant(s) && CountsInRange(s) && Step(s, a, s') && (a.AddLock? || TaskOf(a) != Some(t))
    requires InBody(s, t) && CanAddDep(s, t, q)
    ensures InBody(s', t) && CanAddDep(s', t, q)
  {
    OthersLeaveTask(s, a, t);
    StepAdvances(s, a, s');
    MayAddOn(s, s', t, q);
  }

  lemma MayAddOn(s: State, s': State, t: PointId, q: PointId)
    requires InBody(s, t) && CanAddDep(s, t, q) && LeavesTask(s, s', t) && PointsAdvance(s, s') && EdgesStay(s, s')
    ensures InBody(s', t) && CanAddDep(s', t, q)
  {
    if HappensBefore(s, t, q) {
      var es: seq<EdgeId> :| es != [] && IsPath(s, es, t, q);
      PathStays(s, s', es, t, q);
    } else if q != t {
      var u :| u in s.points && s.points[u].owner == Some(t) && (u == q || s.points[u].bound == Some(q));
      assert u in s'.points && s'.points[u].owner == Some(t) && s'.points[u].bound == s.points[u].bound;
    }
  }

  // ----- Runs in which nothing gets lost -----------------------------------------------------------

  /** If this is a write-back, the list is as it was read. */
  ghost predicate FoundAsRead(x: Split, b: SplitAction) {
    match b
    case PopWrite(p, _) => p in x.pops && x.pops[p] == ListOf(x.s, p)
    case PushWrite(r) => r in x.pushes && x.pushes[r].word == ListOf(x.s, x.pushes[r].point)
    case _ => true
  }

  /** The task that pushes may still do so. */
  ghost predicate PushOk(x: Split, r: RequestId)
    requires r in x.pushes
  {
    r !in x.s.requests && InBody(Atomic(x), x.pushes[r].task) && CanAddDep(Atomic(x), x.pushes[r].task, x.pushes[r].point)
  }

  ghost predicate AsAtomic(x: Split) {
    Reachable(Atomic(x)) && forall r {:trigger PushOk(x, r)} :: r in x.pushes ==> PushOk(x, r)
  }

  lemma StartIsAtomic()
    ensures AsAtomic(Start())
  {
    assert Atomic(Start()).requests == map[];
    assert IsRun([Initial()], []);
  }

  lemma WriteAsRead(s: State, p: PointId)
    ensures WriteList(s, p, ListOf(s, p)) == s
  {
    assert WriteList(s, p, ListOf(s, p)).requests == s.requests;
  }

  lemma WriteOneMore(s: State, r: RequestId, q: Request)
    requires r !in s.requests
    ensures WriteList(s, q.point, ListOf(s, q.point)[r := q]) == s.(requests := s.requests[r := q])
  {
    assert WriteList(s, q.point, ListOf(s, q.point)[r := q]).requests == s.requests[r := q];
  }

  lemma ReachedNext(s: State, a: Action, s': State)
    requires Reachable(s) && Step(s, a, s') && CountsInRange(s')
    ensures Reachable(s')
  {
    var states: seq<State>, actions: seq<Action> :| IsRun(states, actions) && states[|states| - 1] == s;
    assert IsRun(states + [s'], actions + [a]);
    assert (states + [s'])[|states + [s']| - 1] == s';
  }

  // ----- Actions other than pushes and pops ------------------------------------------------------

  lemma LastArrival(s: State, q: PointId, addRefs: nat)
    requires q in s.points && s.points[q].wc == 1 && HasRequest(s, q)
    ensures var s' := Arrive(s, q, addRefs); s'.points[q].life.Acquiring? && s'.points[q].wc == 1
  {
  }

  lemma LastArrivalIn(s: State, a: Action, s': State, q: PointId)
    requires Step(s, a, s') && ArrivesAt(s, a) == Some(q) && q in s.points && s.points[q].wc == 1 && HasRequest(s, q)
    ensures q in s'.points && s'.points[q].life.Acquiring? && s'.points[q].wc == 1
  {
    match a
    case Schedule(_, p) => LastArrival(WithPoint(s, p, s.points[p].(owner := None)), p, 0);
    case EndTask(t) => LastArrival(WithPoint(s, t, s.points[t].(run := Closed)), t, 0);
    case Deliver(e) => LastArrival(s.(inflight := s.inflight - {e}), q, Bit(!IsDead(s.points[s.edges[e].src].life)));
    case LocksTaken(p) => LastArrival(WithLife(s, p, Waiting), p, 0);
  }

  lemma NotPinnedAtOne(s: State, q: PointId)
    requires WaitCounts(s, None) && q in s.points && s.points[q].life.Acquiring? && s.points[q].wc == 1
    ensures !Pinned(s, q)
  {
    assert WaitsOk(s, q, Debt(None, q));
  }

  /** A point that is still held up afterwards was not arrived at for the last time. */
  lemma PinnedIsNotLast(s: State, a: Action, s': State, q: PointId)
    requires Step(s, a, s') && WaitCounts(s', None) && ArrivesAt(s, a) == Some(q) && q in s.points
    requires HasRequest(s, q) && Pinned(s', q)
    ensures s.points[q].wc != 1
  {
    if s.points[q].wc == 1 {
      LastArrivalIn(s, a, s', q);
      NotPinnedAtOne(s', q);
    }
  }

  lemma DueHasRequest(x: Split, q: PointId)
    ensures HasRequest(Atomic(x), q) <==> HasRequest(x.s, q) || !Unlocked(x, q)
    requires forall r :: r in x.pushes ==> r !in x.s.requests
  {
    if HasRequest(x.s, q) {
      var r :| r in x.s.requests && x.s.requests[r].point == q;
      assert r in Due(x) && Due(x)[r] == x.s.requests[r];
    }
    if !Unlocked(x, q) {
      var r :| r in x.pushes && x.pushes[r].point == q;
      assert r in Due(x) && Due(x)[r].point == q;
    }
  }

  /** A push that is under way may go on. */
  lemma PushGoesOn(x: Split, a: Action, s': State, r: RequestId)
    requires AsAtomic(x) && Step(Atomic(x), a, s') && r in x.pushes && (a.AddLock? || TaskOf(a) != Some(x.pushes[r].task))
    ensures InBody(s', x.pushes[r].task) && CanAddDep(s', x.pushes[r].task, x.pushes[r].point)
  {
    ReachableInvariant(Atomic(x));
    assert PushOk(x, r);
    StillMayAdd(Atomic(x), a, s', x.pushes[r].task, x.pushes[r].point);
  }

  lemma PushedIsPinned(x: Split, a: Action, s': State, r: RequestId)
    requires AsAtomic(x) && Step(Atomic(x), a, s') && r in x.pushes && (a.AddLock? || TaskOf(a) != Some(x.pushes[r].task))
    ensures Pinned(s', x.pushes[r].point)
  {
    PushGoesOn(x, a, s', r);
    ReachableInvariant(Atomic(x));
    StepKeepsInvariant(Atomic(x), a, s');
    AllowedTargetIsPinned(s', x.pushes[r].task, x.pushes[r].point);
  }

  lemma AllFindSame(x: Split, a: Action, s': State)
    requires AsAtomic(x) && Step(Atomic(x), a, s')
    requires forall r :: r in x.pushes ==> TaskOf(a) != Some(x.pushes[r].task)
    ensures FindsSame(x.s, Due(x), a)
  {
    var to := ArrivesAt(x.s, a);
    forall r | r in x.pushes
      ensures r !in x.s.requests
    {
      assert PushOk(x, r);
    }
    if to.Some? && to.value in x.s.points {
      DueHasRequest(x, to.value);
      if r :| r in x.pushes && x.pushes[r].point == to.value {
        PushedIsPinned(x, a, s', r);
        ReachableInvariant(Atomic(x));
        StepKeepsInvariant(Atomic(x), a, s');
        PinnedIsNotLast(Atomic(x), a, s', to.value);
      }
    }
  }

  /** Any other action is the action of the atomic machine. */
  lemma WholeIsStep(x: Split, a: Action, x': Split)
    requires AsAtomic(x) && SplitStep(x, Whole(a), x')
    ensures Step(Atomic(x), a, Atomic(x')) && x'.pushes == x.pushes && x'.s.requests == x.s.requests
    ensures forall r :: r in x.pushes ==> TaskOf(a) != Some(x.pushes[r].task)
  {
    SameEnabled(x.s, Due(x), a);
    assert Enabled(Atomic(x), a);
    AllFindSame(x, a, Do(Atomic(x), a));
    SameDo(x.s, Due(x), a);
  }

  lemma WholeKeeps(x: Split, a: Action, x': Split)
    requires AsAtomic(x) && SplitStep(x, Whole(a), x') && CountsInRange(x'.s)
    ensures AsAtomic(x')
  {
    WholeIsStep(x, a, x');
    ReachedNext(Atomic(x), a, Atomic(x'));
    PushesGoOn(x, a, x');
  }

  lemma PushesGoOn(x: Split, a: Action, x': Split)
    requires AsAtomic(x) && Step(Atomic(x), a, Atomic(x')) && x'.pushes.Keys <= x.pushes.Keys
    requires x'.s.requests.Keys <= x.s.requests.Keys && forall r :: r in x'.pushes ==> x'.pushes[r] == x.pushes[r]
    requires forall r :: r in x'.pushes ==> a.AddLock? || TaskOf(a) != Some(x.pushes[r].task)
    ensures forall r {:trigger PushOk(x', r)} :: r in x'.pushes ==> PushOk(x', r)
  {
    forall r {:trigger PushOk(x', r)} | r in x'.pushes
      ensures PushOk(x', r)
    {
      assert PushOk(x, r);
      PushGoesOn(x, a, Atomic(x'), r);
    }
  }

  // ----- Pushes and pops --------------------------------------------------------------------------

  lemma SwapWithRequests(s: State, requests: Word, p: PointId, r: RequestId)
    requires Enabled(s, SwapLock(p, r)) && Enabled(WithRequests(s, requests), SwapLock(p, r)) && requests[r] == s.requests[r]
    ensures Do(WithRequests(s, requests), SwapLock(p, r)) == WithRequests(Do(s, SwapLock(p, r)), requests - {r})
    ensures Do(s, SwapLock(p, r)).requests == s.requests - {r}
  {
  }

  lemma MaySwapWith(s: State, requests: Word, p: PointId, r: RequestId)
    requires Enabled(s, SwapLock(p, r)) && r in requests && requests[r] == s.requests[r]
    ensures Enabled(WithRequests(s, requests), SwapLock(p, r))
  {
  }

  lemma DueLess(x: Split, x': Split, r: RequestId)
    requires r !in x.pushes && x'.pushes == x.pushes && x'.s.requests == x.s.requests - {r}
    ensures Due(x') == Due(x) - {r}
  {
  }

  lemma PopIsStep(x: Split, p: PointId, r: RequestId, x': Split)
    requires AsAtomic(x) && SplitStep(x, PopWrite(p, r), x') && FoundAsRead(x, PopWrite(p, r))
    ensures Step(Atomic(x), SwapLock(p, r), Atomic(x')) && x'.pushes == x.pushes && x'.s.requests == x.s.requests - {r}
  {
    WriteAsRead(x.s, p);
    assert r in x.s.requests && r !in x.pushes by {
      assert r in x.pushes ==> PushOk(x, r);
    }
    MaySwapWith(x.s, Due(x), p, r);
    SwapWithRequests(x.s, Due(x), p, r);
    DueLess(x, x', r);
  }

  lemma PopKeeps(x: Split, p: PointId, r: RequestId, x': Split)
    requires AsAtomic(x) && SplitStep(x, PopWrite(p, r), x') && FoundAsRead(x, PopWrite(p, r)) && CountsInRange(x'.s)
    ensures AsAtomic(x')
  {
    PopIsStep(x, p, r, x');
    ReachedNext(Atomic(x), SwapLock(p, r), Atomic(x'));
    PushesGoOn(x, SwapLock(p, r), x');
  }

  lemma DueMore(x: Split, x': Split, r: RequestId)
    requires r in x'.pushes && r !in x.s.requests && x'.s.requests == x.s.requests && x'.pushes == x.pushes[r := x'.pushes[r]]
    ensures Due(x') == Due(x)[r := Request(x'.pushes[r].point, x'.pushes[r].guard)]
  {
  }

  lemma PushIsStep(x: Split, t: PointId, p: PointId, g: GuardId, r: RequestId, x': Split)
    requires AsAtomic(x) && SplitStep(x, PushRead(t, p, g, r), x')
    ensures Step(Atomic(x), AddLock(t, p, g, r), Atomic(x'))
  {
    SameCanAddDep(x.s, Due(x), t, p);
    DueMore(x, x', r);
  }

  lemma PushKeeps(x: Split, t: PointId, p: PointId, g: GuardId, r: RequestId, x': Split)
    requires AsAtomic(x) && SplitStep(x, PushRead(t, p, g, r), x') && CountsInRange(x'.s)
    ensures AsAtomic(x')
  {
    PushIsStep(x, t, p, g, r, x');
    ReachedNext(Atomic(x), AddLock(t, p, g, r), Atomic(x'));
    forall q {:trigger PushOk(x', q)} | q in x'.pushes
      ensures PushOk(x', q)
    {
      if q == r {
        SameCanAddDep(x.s, Due(x), t, p);
        ReachableInvariant(Atomic(x));
        StillMayAdd(Atomic(x), AddLock(t, p, g, r), Atomic(x'), t, p);
      } else {
        assert PushOk(x, q);
        PushGoesOn(x, AddLock(t, p, g, r), Atomic(x'), q);
      }
    }
  }

  lemma DueStays(x: Split, x': Split, r: RequestId)
    requires r in x.pushes && x'.pushes == x.pushes - {r} && x'.s.requests == x.s.requests[r := Request(x.pushes[r].point, x.pushes[r].guard)]
    ensures Due(x') == Due(x)
  {
  }

  lemma WriteKeeps(x: Split, r: RequestId, x': Split)
    requires AsAtomic(x) && SplitStep(x, PushWrite(r), x') && FoundAsRead(x, PushWrite(r))
    ensures AsAtomic(x') && Atomic(x') == Atomic(x)
  {
    assert PushOk(x, r);
    WriteOneMore(x.s, r, Request(x.pushes[r].point, x.pushes[r].guard));
    DueStays(x, x', r);
    forall y {:trigger PushOk(x', y)} | y in x'.pushes
      ensures PushOk(x', y)
    {
      assert PushOk(x, y);
    }
  }

  lemma ReadKeeps(x: Split, p: PointId, x': Split)
    requires AsAtomic(x) && SplitStep(x, PopRead(p), x')
    ensures AsAtomic(x') && Atomic(x') == Atomic(x)
  {
    assert Due(x') == Due(x);
    forall y {:trigger PushOk(x', y)} | y in x'.pushes
      ensures PushOk(x', y)
    {
      assert PushOk(x, y);
    }
  }

  lemma StepKeepsAtomic(x: Split, b: SplitAction, x': Split)
    requires AsAtomic(x) && SplitStep(x, b, x') && FoundAsRead(x, b) && CountsInRange(x'.s)
    ensures AsAtomic(x')
  {
    match b
    case Whole(a) => WholeKeeps(x, a, x');
    case PopRead(p) => ReadKeeps(x, p, x');
    case PopWrite(p, r) => PopKeeps(x, p, r, x');
    case PushRead(t, p, g, r) => PushKeeps(x, t, p, g, r, x');
    case PushWrite(r) => WriteKeeps(x, r, x');
  }
}
