/** What a client can do so that no entry gets lost: not ask for a lock of a point that is
    taking its guards already. */
module SchedulerEarlyLocks {
  import opened SchedulerState
  import opened SchedulerSteps
  import opened SchedulerInvariant
  import opened SchedulerSafety
  import opened SchedulerRuns
  import opened SchedulerTurns
  import opened SchedulerSplitLists
  import opened SchedulerSplitRuns
  import opened SchedulerSplitExact

  // ----- A point goes on popping until its list is empty ----------------------------------------------

  ghost predicate IsPopping(s: State, p: PointId) {
    p in s.points && s.points[p].life == Acquiring(Popping)
  }

  lemma ArrivePopping(s: State, q: PointId, addRefs: nat, p: PointId)
    requires q in s.points && IsPopping(s, p) && HasRequest(s, p)
    ensures IsPopping(Arrive(s, q, addRefs), p)
  {
  }

  lemma ArrivalPopping(s: State, a: Action, p: PointId)
    requires Enabled(s, a) && ArrivesAt(s, a).Some? && a != LocksTaken(p) && IsPopping(s, p) && HasRequest(s, p)
    ensures IsPopping(Do(s, a), p)
  {
    match a
    case Schedule(_, q) => ArrivePopping(WithPoint(s, q, s.points[q].(owner := None)), q, 0, p);
    case EndTask(t) => ArrivePopping(WithPoint(s, t, s.points[t].(run := Closed)), t, 0, p);
    case Deliver(e) =>
      ArrivePopping(s.(inflight := s.inflight - {e}), s.edges[e].dst, Bit(!IsDead(s.points[s.edges[e].src].life)), p);
    case LocksTaken(q) => ArrivePopping(WithLife(s, q, Waiting), q, 0, p);
  }

  /** It pops, or it was freed. */
  ghost predicate PopsOrFreed(s: State, s': State, p: PointId) {
    p in s.points && p in s'.points && s'.points[p].wc == s.points[p].wc &&
    (s'.points[p].life == Acquiring(Popping) || s'.points[p].life.Freed?)
  }

  lemma ReleasePopping(s: State, s1: State, q: PointId, p: PointId)
    requires PopsOrFreed(s, s1, p) && q in s1.points
    ensures PopsOrFreed(s, Release(s1, q), p)
  {
  }

  lemma FinishBodyPopping(s: State, t: PointId, p: PointId)
    requires Enabled(s, FinishBody(t)) && IsPopping(s, p)
    ensures PopsOrFreed(s, Do(s, FinishBody(t)), p)
  {
    var s1 := WithPoint(s, t, s.points[t].(run := Flushing));
    if s.points[t].start.Some? {
      var start := s.points[t].start.value;
      ReleasePopping(s, WithLife(s1, start, s1.points[start].life.(stage := Done)), start, p);
    }
  }

  lemma UserReleasePopping(s: State, q: PointId, p: PointId)
    requires Enabled(s, UserRelease(q)) && IsPopping(s, p)
    ensures PopsOrFreed(s, Do(s, UserRelease(q)), p)
  {
    ReleasePopping(s, WithPoint(s, q, s.points[q].(user := s.points[q].user - 1)), q, p);
  }

  lemma DispatchPopping(s: State, q: PointId, p: PointId)
    requires Enabled(s, Dispatch(q)) && IsPopping(s, p)
    ensures PopsOrFreed(s, Do(s, Dispatch(q)), p)
  {
    ReleasePopping(s, WithLife(s, q, s.points[q].life.(stage := Done)), q, p);
  }

  lemma ReleaseFormerPopping(s: State, q: PointId, p: PointId)
    requires Enabled(s, ReleaseFormer(q)) && IsPopping(s, p)
    ensures PopsOrFreed(s, Do(s, ReleaseFormer(q)), p)
  {
    var taking := s.points[q].life.taking;
    ReleasePopping(s, WithLife(s, q, Acquiring(Letting(taking.guard))), taking.former, p);
  }

  lemma ReleaseEdgePopping(s: State, e: EdgeId, p: PointId)
    requires Enabled(s, ReleaseEdge(e)) && IsPopping(s, p)
    ensures PopsOrFreed(s, Do(s, ReleaseEdge(e)), p)
  {
    ReleasePopping(s, s.(releasing := s.releasing - {e}), s.edges[e].dst, p);
  }

  lemma ReleaseGuardLastPopping(s: State, g: GuardId, p: PointId)
    requires Enabled(s, ReleaseGuardLast(g)) && IsPopping(s, p)
    ensures PopsOrFreed(s, Do(s, ReleaseGuardLast(g)), p)
  {
    ReleasePopping(s, s.(guards := s.guards[g := s.guards[g].(last := None)]), s.guards[g].last.value, p);
  }

  lemma ReleasingPopping(s: State, a: Action, p: PointId)
    requires IsReleasing(a) && Enabled(s, a) && IsPopping(s, p)
    ensures PopsOrFreed(s, Do(s, a), p)
  {
    match a
    case UserRelease(q) => UserReleasePopping(s, q, p);
    case FinishBody(t) => FinishBodyPopping(s, t, p);
    case Dispatch(q) => DispatchPopping(s, q, p);
    case ReleaseFormer(q) => ReleaseFormerPopping(s, q, p);
    case ReleaseEdge(e) => ReleaseEdgePopping(s, e, p);
    case ReleaseGuardLast(g) => ReleaseGuardLastPopping(s, g, p);
  }

  /** A freed point has occurred, and its wait count shows it. */
  lemma NotFreed(s: State, s': State, p: PointId)
    requires CountsInRange(s) && Ordered(s') && PopsOrFreed(s, s', p) && IsPopping(s, p)
    ensures IsPopping(s', p)
  {
    assert PointInRange(s.points[p]);
  }

  lemma SmallPopping(s: State, a: Action, p: PointId)
    requires IsSmall(a) && Enabled(s, a) && IsPopping(s, p)
    ensures IsPopping(Do(s, a), p)
  {
  }

  lemma CreationPopping(s: State, a: Action, p: PointId)
    requires (a.NewInterval? || a.Subinterval?) && Enabled(s, a) && IsPopping(s, p)
    ensures IsPopping(Do(s, a), p)
  {
  }

  lemma StillPopping(s: State, a: Action, s': State, p: PointId)
    requires Invariant(s) && CountsInRange(s) && Step(s, a, s') && IsPopping(s, p) && HasRequest(s, p)
    requires !a.AddLock? && !a.SwapLock? && a != LocksTaken(p)
    ensures IsPopping(s', p)
  {
    if IsReleasing(a) {
      ReleasingPopping(s, a, p);
      StepKeepsInvariant(s, a, s');
      NotFreed(s, s', p);
    } else if a.NewInterval? || a.Subinterval? {
      CreationPopping(s, a, p);
    } else if ArrivesAt(s, a).Some? {
      ArrivalPopping(s, a, p);
    } else {
      SmallPopping(s, a, p);
    }
  }

  // ----- Nobody is in anybody's way ----------------------------------------------------------------

  /** The pop under way at p found a list with entries, and there it still is. */
  ghost predicate PopQuiet(x: Split, p: PointId)
    requires p in x.pops
  {
    IsPopping(x.s, p) && x.pops[p] == ListOf(x.s, p) && HasRequest(x.s, p) && Unlocked(x, p)
  }

  /** The push under way is for a point that does not take guards. */
  ghost predicate PushQuiet(x: Split, r: RequestId)
    requires r in x.pushes
  {
    var p := x.pushes[r].point;
    p in x.s.points && !x.s.points[p].life.Acquiring? && x.pushes[r].word == ListOf(x.s, p)
  }

  ghost predicate Quiet(x: Split) {
    (forall p {:trigger PopQuiet(x, p)} :: p in x.pops ==> PopQuiet(x, p)) &&
    (forall r {:trigger PushQuiet(x, r)} :: r in x.pushes ==> PushQuiet(x, r))
  }

  lemma QuietFindsAsRead(x: Split, b: SplitAction)
    requires Quiet(x) && SplitEnabled(x, b)
    ensures FoundAsRead(x, b)
  {
    match b
    case PopWrite(p, _) => assert PopQuiet(x, p);
    case PushWrite(r) => assert PushQuiet(x, r);
    case _ =>
  }

  /** The lock that is asked for is not one of a point that takes guards. */
  ghost predicate InTime(x: Split, b: SplitAction) {
    b.PushRead? && b.p in x.s.points ==> !x.s.points[b.p].life.Acquiring?
  }

  /** A point that waits for a busy task does not begin to take guards. */
  lemma DoesNotTurn(s: State, a: Action, s': State, q: PointId)
    requires Invariant(s) && CountsInRange(s) && Step(s, a, s') && q in s.points && !s.points[q].life.Acquiring? && Pinned(s', q)
    ensures q in s'.points && !s'.points[q].life.Acquiring?
  {
    StepKeepsInvariant(s, a, s');
    StepEffect(s, a, s');
    if s'.points[q].life.Acquiring? {
      NotPinnedAtOne(s', q);
    }
  }

  lemma WholePushQuiet(x: Split, a: Action, x': Split, r: RequestId)
    requires AsAtomic(x) && SplitStep(x, Whole(a), x') && r in x.pushes && PushQuiet(x, r)
    ensures r in x'.pushes && PushQuiet(x', r)
  {
    WholeIsStep(x, a, x');
    PushedIsPinned(x, a, Atomic(x'), r);
    ReachableInvariant(Atomic(x));
    DoesNotTurn(Atomic(x), a, Atomic(x'), x.pushes[r].point);
    SameLists(x.s, x'.s, x.pushes[r].point);
  }

  lemma WholePopQuiet(x: Split, a: Action, x': Split, p: PointId)
    requires AsAtomic(x) && SplitStep(x, Whole(a), x') && p in x.pops && PopQuiet(x, p)
    ensures p in x'.pops && PopQuiet(x', p)
  {
    WholeIsStep(x, a, x');
    ReachableInvariant(Atomic(x));
    InDue(x, p);
    StillPopping(Atomic(x), a, Atomic(x'), p);
    SameLists(x.s, x'.s, p);
  }

  lemma InDue(x: Split, p: PointId)
    requires AsAtomic(x) && HasRequest(x.s, p)
    ensures HasRequest(Atomic(x), p)
  {
    forall r | r in x.pushes
      ensures r !in x.s.requests
    {
      assert PushOk(x, r);
    }
    DueHasRequest(x, p);
  }

  lemma WholeQuiet(x: Split, a: Action, x': Split)
    requires AsAtomic(x) && Quiet(x) && SplitStep(x, Whole(a), x')
    ensures Quiet(x')
  {
    forall p {:trigger PopQuiet(x', p)} | p in x'.pops
      ensures PopQuiet(x', p)
    {
      assert PopQuiet(x, p);
      WholePopQuiet(x, a, x', p);
    }
    forall r {:trigger PushQuiet(x', r)} | r in x'.pushes
      ensures PushQuiet(x', r)
    {
      assert PushQuiet(x, r);
      WholePushQuiet(x, a, x', r);
    }
  }

  lemma PopReadQuiet(x: Split, p: PointId, x': Split)
    requires Quiet(x) && SplitStep(x, PopRead(p), x')
    ensures Quiet(x')
  {
    forall r | r in x.pushes
      ensures x.pushes[r].point != p
    {
      assert PushQuiet(x, r);
    }
    forall q {:trigger PopQuiet(x', q)} | q in x'.pops
      ensures PopQuiet(x', q)
    {
      assert q != p ==> PopQuiet(x, q);
    }
    forall r {:trigger PushQuiet(x', r)} | r in x'.pushes
      ensures PushQuiet(x', r)
    {
      assert PushQuiet(x, r);
    }
  }

  /** What a pop leaves alone: other points that take guards, or do not. */
  lemma SwapLives(s: State, p: PointId, r: RequestId, q: PointId)
    requires Enabled(s, SwapLock(p, r)) && q in s.points && q != p
    ensures q in Do(s, SwapLock(p, r)).points && Do(s, SwapLock(p, r)).points[q].life == s.points[q].life
  {
  }

  lemma PopWriteQuiet(x: Split, p: PointId, r: RequestId, x': Split, known: Word)
    requires Quiet(x) && Nested(x, known) && SplitStep(x, PopWrite(p, r), x')
    ensures Quiet(x')
  {
    assert PopQuiet(x, p);
    forall q {:trigger PopQuiet(x', q)} | q in x'.pops
      ensures PopQuiet(x', q)
    {
      assert PopQuiet(x, q);
      OtherPopQuiet(x, p, r, x', known, q);
    }
    forall y {:trigger PushQuiet(x', y)} | y in x'.pushes
      ensures PushQuiet(x', y)
    {
      assert PushQuiet(x, y);
      var q := x.pushes[y].point;
      PopWritten(x, p, r, x', known, q);
      SwapLives(WriteList(x.s, p, x.pops[p]), p, r, q);
    }
  }

  lemma OtherPopQuiet(x: Split, p: PointId, r: RequestId, x': Split, known: Word, q: PointId)
    requires Nested(x, known) && SplitStep(x, PopWrite(p, r), x') && q in x.pops && q != p && PopQuiet(x, q)
    ensures q in x'.pops && PopQuiet(x', q)
  {
    PopWritten(x, p, r, x', known, q);
    SwapLives(WriteList(x.s, p, x.pops[p]), p, r, q);
    SameListHasRequest(x.s, x'.s, q);
  }

  lemma SameListHasRequest(s: State, s': State, q: PointId)
    requires ListOf(s', q) == ListOf(s, q) && HasRequest(s, q)
    ensures HasRequest(s', q)
  {
    var r :| r in s.requests && s.requests[r].point == q;
    assert r in ListOf(s', q);
  }

  lemma PushReadQuiet(x: Split, t: PointId, p: PointId, g: GuardId, r: RequestId, x': Split)
    requires Quiet(x) && SplitStep(x, PushRead(t, p, g, r), x') && InTime(x, PushRead(t, p, g, r)) && p in x.s.points
    ensures Quiet(x')
  {
    forall q
      ensures ListOf(x'.s, q) == ListOf(x.s, q)
    {
      SameLists(x.s, x'.s, q);
    }
    forall q {:trigger PopQuiet(x', q)} | q in x'.pops
      ensures PopQuiet(x', q)
    {
      assert PopQuiet(x, q);
    }
    forall y {:trigger PushQuiet(x', y)} | y in x'.pushes
      ensures PushQuiet(x', y)
    {
      assert y != r ==> PushQuiet(x, y);
    }
  }

  lemma PushWriteQuiet(x: Split, r: RequestId, x': Split, known: Word)
    requires Quiet(x) && Nested(x, known) && SplitStep(x, PushWrite(r), x')
    ensures Quiet(x')
  {
    forall q {:trigger PopQuiet(x', q)} | q in x'.pops
      ensures PopQuiet(x', q)
    {
      assert PopQuiet(x, q);
      PushWritten(x, r, x', known, q);
      SameListHasRequest(x.s, x'.s, q);
    }
    forall y {:trigger PushQuiet(x', y)} | y in x'.pushes
      ensures PushQuiet(x', y)
    {
      assert PushQuiet(x, y) && PushNested(x, known, r);
      PushWritten(x, r, x', known, x.pushes[y].point);
    }
  }

  lemma StepStaysQuiet(x: Split, b: SplitAction, x': Split, known: Word)
    requires AsAtomic(x) && Quiet(x) && Nested(x, known) && SplitStep(x, b, x') && InTime(x, b)
    ensures Quiet(x')
  {
    match b
    case Whole(a) => WholeQuiet(x, a, x');
    case PopRead(p) => PopReadQuiet(x, p, x');
    case PopWrite(p, r) => PopWriteQuiet(x, p, r, x', known);
    case PushRead(t, p, g, r) => PushReadQuiet(x, t, p, g, r, x');
    case PushWrite(r) => PushWriteQuiet(x, r, x', known);
  }

  lemma RunStepStaysQuiet(xs: seq<Split>, bs: seq<SplitAction>, i: nat)
    requires SplitRun(xs, bs) && i < |bs| && AsAtomic(xs[i]) && Quiet(xs[i]) && InTime(xs[i], bs[i])
    ensures FoundAsRead(xs[i], bs[i]) && Quiet(xs[i + 1]) && AsAtomic(xs[i + 1])
  {
    var known := RunStepIsNested(xs, bs, i);
    QuietFindsAsRead(xs[i], bs[i]);
    StepStaysQuiet(xs[i], bs[i], xs[i + 1], known);
    StepKeepsAtomic(xs[i], bs[i], xs[i + 1]);
  }

  /** So is every lock in the run. */
  ghost predicate AllInTime(xs: seq<Split>, bs: seq<SplitAction>)
    requires |xs| == |bs| + 1
  {
    forall j {:trigger bs[j]} :: 0 <= j < |bs| ==> InTime(xs[j], bs[j])
  }

  lemma {:induction false} InTimeIsQuiet(xs: seq<Split>, bs: seq<SplitAction>, i: nat)
    requires SplitRun(xs, bs) && i < |xs| && AllInTime(xs, bs)
    ensures Quiet(xs[i]) && AsAtomic(xs[i])
    decreases i
  {
    if i == 0 {
      StartIsAtomic();
    } else {
      InTimeIsQuiet(xs, bs, i - 1);
      RunStepStaysQuiet(xs, bs, i - 1);
    }
  }

  /** If every lock is asked for before the point begins to take its guards, or between two
      times that it does, then every push and every pop finds the list as it read it. */
  lemma InTimeIsUndisturbed(xs: seq<Split>, bs: seq<SplitAction>)
    requires SplitRun(xs, bs) && AllInTime(xs, bs)
    ensures Undisturbed(xs, bs)
  {
    forall i {:trigger bs[i]} | 0 <= i < |bs|
      ensures FoundAsRead(xs[i], bs[i])
    {
      InTimeIsQuiet(xs, bs, i);
      RunStepStaysQuiet(xs, bs, i);
    }
  }

  /** It is asked for in time if no lock was ever handed over to the point. */
  lemma WithoutSyntheticInTime(x: Split, t: PointId, p: PointId, g: GuardId, r: RequestId)
    requires AsAtomic(x) && SplitEnabled(x, PushRead(t, p, g, r)) && !HasSynthetic(x.s, p)
    ensures InTime(x, PushRead(t, p, g, r))
  {
    SameCanAddDep(x.s, Due(x), t, p);
    AllowedTarget(Atomic(x), t, p);
  }
}
