/** What the threads come to once the client stops: a run of finite length to a state in
    which none of them can move. */
module SchedulerCompletion {
  import opened FiniteSets
  import opened SchedulerState
  import opened SchedulerSteps
  import opened SchedulerInvariant
  import opened SchedulerRuns
  import opened SchedulerRuntime
  import opened SchedulerLiveness
  import opened SchedulerTermination

  // ----- Room for the counters -----------------------------------------------------------------

  /** There is room also for the edges that are going to be added from former holders. */
  ghost predicate Spacious(s: State) {
    forall p :: p in s.points ==>
      |s.edges| + |s.requests| + |Linkers(s)| + |s.guards| + |s.points| + s.points[p].user + 4 < U64_MAX
  }

  lemma SpaciousIsRoomy(s: State)
    requires Invariant(s) && Spacious(s)
    ensures Roomy(s) && CountsInRange(s)
  {
    RoomInRange(s);
  }

  /** No edge, no request and no former holder more. */
  ghost predicate KeepsRoom(s: State, s': State) {
    s'.edges == s.edges && s'.requests == s.requests && s'.guards.Keys == s.guards.Keys && s'.points.Keys == s.points.Keys &&
    forall p :: p in s.points ==>
      s'.points[p].user == s.points[p].user &&
      (s'.points[p].life.Acquiring? && s'.points[p].life.taking.Swapped? ==>
         s.points[p].life.Acquiring? && s.points[p].life.taking.Swapped?)
  }

  lemma SpaciousOn(s: State, s': State)
    requires KeepsRoom(s, s') && Spacious(s)
    ensures Spacious(s')
  {
    SmallerSet(Linkers(s'), Linkers(s));
    assert |s'.guards.Keys| == |s.guards.Keys| && |s'.points.Keys| == |s.points.Keys|;
  }

  lemma ArriveKeepsRoom(s: State, s1: State, q: PointId, addRefs: nat)
    requires KeepsRoom(s, s1) && q in s1.points
    ensures KeepsRoom(s, Arrive(s1, q, addRefs))
  {
  }

  lemma ReleaseKeepsRoom(s: State, s1: State, q: PointId)
    requires KeepsRoom(s, s1) && q in s1.points
    ensures KeepsRoom(s, Release(s1, q))
  {
  }

  lemma ArrivalKeepsRoom(s: State, a: Action)
    requires Enabled(s, a) && ArrivesAt(s, a).Some?
    ensures KeepsRoom(s, Do(s, a))
  {
    match a
    case Schedule(_, p) => ArriveKeepsRoom(s, WithPoint(s, p, s.points[p].(owner := None)), p, 0);
    case EndTask(t) => ArriveKeepsRoom(s, WithPoint(s, t, s.points[t].(run := Closed)), t, 0);
    case Deliver(e) =>
      ArriveKeepsRoom(s, s.(inflight := s.inflight - {e}), s.edges[e].dst, Bit(!IsDead(s.points[s.edges[e].src].life)));
    case LocksTaken(p) => ArriveKeepsRoom(s, WithLife(s, p, Waiting), p, 0);
  }

  lemma FinishBodyKeepsRoom(s: State, t: PointId)
    requires Enabled(s, FinishBody(t))
    ensures KeepsRoom(s, Do(s, FinishBody(t)))
  {
    var s1 := WithPoint(s, t, s.points[t].(run := Flushing));
    if s.points[t].start.Some? {
      var start := s.points[t].start.value;
      ReleaseKeepsRoom(s, WithLife(s1, start, s1.points[start].life.(stage := Done)), start);
    }
  }

  lemma DispatchKeepsRoom(s: State, p: PointId)
    requires Enabled(s, Dispatch(p))
    ensures KeepsRoom(s, Do(s, Dispatch(p)))
  {
    ReleaseKeepsRoom(s, WithLife(s, p, s.points[p].life.(stage := Done)), p);
  }

  lemma ReleaseFormerKeepsRoom(s: State, p: PointId)
    requires Enabled(s, ReleaseFormer(p))
    ensures KeepsRoom(s, Do(s, ReleaseFormer(p)))
  {
    var taking := s.points[p].life.taking;
    ReleaseKeepsRoom(s, WithLife(s, p, Acquiring(Letting(taking.guard))), taking.former);
  }

  lemma ReleasingKeepsRoom(s: State, a: Action)
    requires IsReleasing(a) && !a.UserRelease? && Enabled(s, a)
    ensures KeepsRoom(s, Do(s, a))
  {
    match a
    case FinishBody(t) => FinishBodyKeepsRoom(s, t);
    case Dispatch(p) => DispatchKeepsRoom(s, p);
    case ReleaseFormer(p) => ReleaseFormerKeepsRoom(s, p);
    case ReleaseEdge(e) => ReleaseKeepsRoom(s, s.(releasing := s.releasing - {e}), s.edges[e].dst);
    case ReleaseGuardLast(g) =>
      ReleaseKeepsRoom(s, s.(guards := s.guards[g := s.guards[g].(last := None)]), s.guards[g].last.value);
  }

  lemma OtherKeepsRoom(s: State, a: Action)
    requires a.SubintervalReturn? || a.StartTask? || a.ReleaseTaken?
    requires Enabled(s, a)
    ensures KeepsRoom(s, Do(s, a))
  {
  }

  /** Only the life of p, and counts, have changed. */
  ghost predicate OthersStay(s: State, s': State, p: PointId) {
    s'.guards.Keys == s.guards.Keys && s'.points.Keys == s.points.Keys && p in s.points &&
    forall q :: q in s.points ==> s'.points[q].user == s.points[q].user && (q != p ==> s'.points[q].life == s.points[q].life)
  }

  lemma SwapTouches(s: State, p: PointId, r: RequestId, s': State)
    requires Step(s, SwapLock(p, r), s')
    ensures OthersStay(s, s', p) && s'.requests == s.requests - {r} && r in s.requests && s'.edges == s.edges
  {
  }

  lemma LinkTouches(s: State, p: PointId, e: EdgeId, s': State)
    requires Step(s, LinkLock(p, e), s')
    ensures OthersStay(s, s', p) && s'.requests == s.requests && p in Linkers(s) && p !in Linkers(s')
    ensures e !in s.edges && s'.edges.Keys == s.edges.Keys + {e}
  {
  }

  lemma OneMoreKey<T>(few: map<EdgeId, T>, more: map<EdgeId, T>, e: EdgeId)
    requires more.Keys == few.Keys + {e} && e !in few
    ensures |more| == |few| + 1
  {
    assert |more.Keys| == |few.Keys| + 1;
  }

  lemma OneRequestLess(s: State, s': State, r: RequestId)
    requires r in s.requests && s'.requests == s.requests - {r}
    ensures |s'.requests| + 1 == |s.requests|
  {
    assert s.requests.Keys == s'.requests.Keys + {r};
    assert |s.requests.Keys| == |s'.requests.Keys| + 1;
  }

  /** An entry makes place for a former holder, */
  lemma SwapKeepsSpace(s: State, p: PointId, r: RequestId, s': State)
    requires Step(s, SwapLock(p, r), s') && Spacious(s)
    ensures Spacious(s')
  {
    SwapTouches(s, p, r, s');
    OneRequestLess(s, s', r);
    OneLinkerMore(s, s', p);
    SameSizes(s, s');
  }

  lemma OneLinkerMore(s: State, s': State, p: PointId)
    requires OthersStay(s, s', p)
    ensures |Linkers(s')| <= |Linkers(s)| + 1
    ensures p in Linkers(s) && p !in Linkers(s') ==> |Linkers(s')| + 1 <= |Linkers(s)|
  {
    SmallerSet(Linkers(s'), Linkers(s) + {p});
    if p in Linkers(s) && p !in Linkers(s') {
      SmallerSet(Linkers(s') + {p}, Linkers(s));
    }
  }

  /** and a former holder for an edge. */
  lemma LinkKeepsSpace(s: State, p: PointId, e: EdgeId, s': State)
    requires Step(s, LinkLock(p, e), s') && Spacious(s)
    ensures Spacious(s')
  {
    LinkTouches(s, p, e, s');
    OneMoreKey(s.edges, s'.edges, e);
    OneLinkerMore(s, s', p);
    SameSizes(s, s');
  }

  lemma SameSizes(s: State, s': State)
    requires s'.guards.Keys == s.guards.Keys && s'.points.Keys == s.points.Keys
    ensures |s'.guards| == |s.guards| && |s'.points| == |s.points|
  {
    assert |s'.guards.Keys| == |s.guards.Keys| && |s'.points.Keys| == |s.points.Keys|;
  }

  lemma ThreadKeepsSpace(s: State, a: Action, s': State)
    requires Spacious(s) && Step(s, a, s') && !IsClientChoice(a)
    ensures Spacious(s')
  {
    if a.SwapLock? {
      SwapKeepsSpace(s, a.p, a.r, s');
    } else if a.LinkLock? {
      LinkKeepsSpace(s, a.p, a.e, s');
    } else {
      ThreadKeepsRoom(s, a, s');
      SpaciousOn(s, s');
    }
  }

  lemma ThreadKeepsRoom(s: State, a: Action, s': State)
    requires Step(s, a, s') && !IsClientChoice(a) && !a.SwapLock? && !a.LinkLock?
    ensures KeepsRoom(s, s')
  {
    if IsReleasing(a) {
      ReleasingKeepsRoom(s, a);
    } else if ArrivesAt(s, a).Some? {
      ArrivalKeepsRoom(s, a);
    } else {
      OtherKeepsRoom(s, a);
    }
  }

  // ----- A run to the end -----------------------------------------------------------------------

  ghost predicate ByThreads(actions: seq<Action>) {
    forall a :: a in actions ==> !IsClientChoice(a)
  }

  lemma NextThread(s: State) returns (a: Action)
    requires Invariant(s) && Spacious(s) && !AtRest(s)
    ensures Enabled(s, a) && !IsClientChoice(a) && Nearer(Do(s, a), s) && Invariant(Do(s, a)) && Spacious(Do(s, a))
  {
    a :| Enabled(s, a) && !IsClientChoice(a) && Do(s, a) != s;
    SpaciousIsRoomy(s);
    ThreadsGetNearer(s, a, Do(s, a));
    StepKeepsInvariant(s, a, Do(s, a));
    ThreadKeepsSpace(s, a, Do(s, a));
  }

  lemma {:induction false} RunsToStuck(s: State) returns (actions: seq<Action>, s': State)
    requires Invariant(s) && Spacious(s)
    ensures RunsTo(s, actions, s') && ByThreads(actions) && Stuck(s') && Invariant(s') && Spacious(s')
    decreases |s.requests.Keys|, |Linkers(s)|, |Awaited(s)|, |Listed(s)|, |RunsLeft(s)|, |LivesLeft(s)|, |s.releasing|, |LastLocks(s)|
  {
    SpaciousIsRoomy(s);
    if AtRest(s) {
      AtRestIsStuck(s);
      actions, s' := [], s;
    } else {
      var a := NextThread(s);
      NearerIsLess(s, Do(s, a));
      var rest, end := RunsToStuck(Do(s, a));
      RunsFirst(s, a, rest, end);
      actions, s' := [a] + rest, end;
    }
  }

  /** What is true when no thread can move: everything has occurred, if happens-before is
      acyclic and every start was scheduled, and then only the client keeps anything. */
  ghost predicate Finished(s: State) {
    Stuck(s) && (AllOccurred(s) <==> Acyclic(s) && AllScheduled(s)) &&
    (AllOccurred(s) && ClientHoldsNothing(s) ==> LivePoints(s) == {} && LiveGuards(s) == {})
  }

  /** From every reachable state with room for its counters, the threads come to such an
      end in finitely many actions of their own. */
  lemma ThreadsFinish(s: State) returns (actions: seq<Action>, s': State)
    requires Reachable(s) && Spacious(s)
    ensures RunsTo(s, actions, s') && ByThreads(actions) && Reachable(s') && Finished(s')
  {
    ReachableInvariant(s);
    actions, s' := RunsToStuck(s);
    SpaciousIsRoomy(s');
    LeadsToReachable(s, actions, s');
    DeadlockFreedom(s');
    if AllOccurred(s') && ClientHoldsNothing(s') {
      NoLeak(s');
    }
  }
}
