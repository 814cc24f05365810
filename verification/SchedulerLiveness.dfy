/** What holds when no thread can move: everything has occurred unless happens-before has
    a cycle, and nothing is left in memory unless the client still holds it. */
module SchedulerLiveness {
  import opened FiniteSets
  import opened SchedulerPaths
  import opened SchedulerState
  import opened SchedulerSteps
  import opened SchedulerInvariant
  import opened SchedulerSafetyTheorems
  import opened SchedulerWorkers
  import opened SchedulerRuns

  /** Actions that only happen if the client chooses to. */
  predicate IsClientChoice(a: Action) {
    a.Retain? || a.UserRelease? || a.CreateGuard? || a.RetainGuard? || a.UserReleaseGuard? ||
    a.NewInterval? || a.Subinterval? || a.AddHb? || a.AddLock?
  }

  /** No thread can move of its own accord. */
  ghost predicate Stuck(s: State) {
    forall a: Action :: Enabled(s, a) ==> IsClientChoice(a)
  }

  ghost predicate AllOccurred(s: State) {
    forall p :: p in s.points ==> HasOccurred(s.points[p].life)
  }

  ghost predicate Acyclic(s: State) {
    forall p :: p in s.points ==> !HappensBefore(s, p, p)
  }

  /** Every start that was created has been scheduled. */
  ghost predicate AllScheduled(s: State) {
    forall p :: p in s.points ==> s.points[p].owner == None
  }

  // ----- A stuck state has nothing on its way ------------------------------------------------

  lemma {:induction false} FreshNumber(es: set<EdgeId>) returns (n: nat)
    ensures forall e :: e in es && e.Out? ==> e.n < n
  {
    if es == {} {
      n := 0;
    } else {
      var e :| e in es;
      var m := FreshNumber(es - {e});
      n := if e.Out? && e.n >= m then e.n + 1 else m;
      forall d | d in es && d.Out?
        ensures d.n < n
      {
        if d != e {
          assert d in es - {e};
        }
      }
    }
  }

  lemma NothingInFlight(s: State)
    requires Shape(s) && Flights(s) && Stuck(s)
    ensures s.inflight == {} && s.releasing == {}
  {
    forall e
      ensures e !in s.inflight && e !in s.releasing
    {
      assert e in s.inflight ==> Enabled(s, Deliver(e));
      assert e in s.releasing ==> Enabled(s, ReleaseEdge(e));
    }
  }

  lemma NobodyPops(s: State, p: PointId)
    requires Locks(s) && Shape(s) && Stuck(s) && p in s.points
    ensures s.points[p].life != Acquiring(Popping)
  {
    assert TakerOk(s, p) && BoundOk(s, p);
    assert !Enabled(s, LocksTaken(p));
    forall r | r in s.requests
      ensures !Enabled(s, SwapLock(p, r)) && RequestOk(s, r)
    {
    }
  }

  lemma NobodyLinks(s: State, p: PointId)
    requires Locks(s) && Stuck(s) && p in s.points && s.points[p].life.Acquiring?
    ensures !s.points[p].life.taking.Swapped?
  {
    assert TakerOk(s, p);
    var n := FreshNumber(s.edges.Keys);
    assert Out(n) !in s.edges;
    assert !Enabled(s, LinkLock(p, Out(n)));
  }

  lemma NobodyLetsGo(s: State, p: PointId)
    requires Locks(s) && Stuck(s) && p in s.points && s.points[p].life.Acquiring?
    ensures !s.points[p].life.taking.Linked? && !s.points[p].life.taking.Letting?
  {
    assert TakerOk(s, p);
    assert !Enabled(s, ReleaseFormer(p)) && !Enabled(s, ReleaseTaken(p));
  }

  lemma NobodyTakesGuards(s: State, p: PointId)
    requires Locks(s) && Shape(s) && Stuck(s) && p in s.points
    ensures !s.points[p].life.Acquiring?
  {
    NobodyPops(s, p);
    if s.points[p].life.Acquiring? {
      NobodyLinks(s, p);
      NobodyLetsGo(s, p);
    }
  }

  lemma DispatchesAreOver(s: State, p: PointId)
    requires Invariant(s) && Stuck(s) && p in s.points && s.points[p].life.Occurred?
    ensures s.points[p].life.stage == Running || s.points[p].life.stage == Done
  {
    NothingInFlight(s);
    assert !Enabled(s, Dispatch(p)) && !Enabled(s, StartTask(p));
    if s.points[p].life.stage == Queued {
      QueuedIsBlock(s, p);
    }
  }

  lemma NobodyFlushes(s: State, t: PointId)
    requires Stuck(s) && AllScheduled(s) && t in s.points
    ensures !s.points[t].run.Flushing?
  {
    assert !Enabled(s, EndTask(t));
  }

  lemma BodiesAreBlocked(s: State, t: PointId)
    requires Tasks(s) && Stuck(s) && t in s.points && s.points[t].run.Body?
    ensures s.points[t].run.sub.Some?
  {
    assert TaskOk(s, t);
    if s.points[t].start.Some? {
      assert TaskOk(s, s.points[t].start.value);
    }
    assert !Enabled(s, FinishBody(t));
  }

  lemma BlockedOnUnoccurred(s: State, t: PointId)
    requires Invariant(s) && Stuck(s) && t in s.points && s.points[t].run.Body? && s.points[t].run.sub.Some?
    ensures !Occ(s, s.points[t].run.sub.value)
  {
    var p := s.points[t].run.sub.value;
    assert TaskOk(s, t) && TaskOk(s, p);
    if p in s.points && s.points[p].life.Occurred? {
      DispatchesAreOver(s, p);
    }
    assert !Enabled(s, SubintervalReturn(t));
  }

  lemma UnbegunStart(s: State, t: PointId)
    requires Invariant(s) && Stuck(s) && t in s.points && s.points[t].run == NotRun
    ensures s.points[t].start.Some? && !Occ(s, s.points[t].start.value)
  {
    assert TaskOk(s, t);
    var p := s.points[t].start.value;
    assert TaskOk(s, p);
    if s.points[p].life.Occurred? {
      DispatchesAreOver(s, p);
    }
  }

  /** A task that is still open is blocked in subinterval(), or has not begun because its
      start has not occurred. */
  lemma OpenTaskWaits(s: State, t: PointId)
    requires Invariant(s) && Stuck(s) && AllScheduled(s) && t in s.points && s.points[t].run != Closed
    ensures exists e :: e in s.edges && s.edges[e].dst == t && s.edges[e].src in s.points && !Occ(s, s.edges[e].src)
  {
    NobodyFlushes(s, t);
    assert TaskOk(s, t);
    var p;
    if s.points[t].run.Body? {
      BodiesAreBlocked(s, t);
      BlockedOnUnoccurred(s, t);
      p := s.points[t].run.sub.value;
    } else {
      UnbegunStart(s, t);
      p := s.points[t].start.value;
    }
    assert BoundOk(s, p);
    assert s.edges[BoundOf(p)] == Edge(p, t, false);
  }

  lemma UnoccurredWaitsForUnoccurred(s: State, q: PointId)
    requires Invariant(s) && Stuck(s) && AllScheduled(s) && q in s.points && !Occ(s, q)
    ensures exists e :: e in s.edges && s.edges[e].dst == q && s.edges[e].src in s.points && !Occ(s, s.edges[e].src)
  {
    NobodyTakesGuards(s, q);
    NothingInFlight(s);
    if s.points[q].run != Closed {
      OpenTaskWaits(s, q);
    } else {
      assert WaitsOk(s, q, Debt(None, q));
      var e :| e in WaitEdges(s, q);
    }
  }

  // ----- Paths ---------------------------------------------------------------------------------

  ghost function Ancestors(s: State, q: PointId): set<PointId> {
    set p | p in s.points && HappensBefore(s, p, q)
  }

  /** Following unoccurred predecessors upwards must lead round a cycle. */
  lemma {:induction false} EndlessAscent(s: State, q: PointId)
    requires Invariant(s) && Stuck(s) && AllScheduled(s) && Acyclic(s) && q in s.points && !Occ(s, q)
    ensures false
    decreases |Ancestors(s, q)|
  {
    UnoccurredWaitsForUnoccurred(s, q);
    var e :| e in s.edges && s.edges[e].dst == q && s.edges[e].src in s.points && !Occ(s, s.edges[e].src);
    var p := s.edges[e].src;
    EdgePath(s, e);
    forall a | a in Ancestors(s, p)
      ensures a in Ancestors(s, q)
    {
      HappensBeforeTransitive(s, a, p, q);
    }
    assert p in Ancestors(s, q) && p !in Ancestors(s, p);
    assert Ancestors(s, p) < Ancestors(s, q);
    FewerMembers(Ancestors(s, p), Ancestors(s, q));
    EndlessAscent(s, p);
  }

  // ----- Deadlock freedom ------------------------------------------------------------------------

  /** When no thread can move, every point has occurred, the end of the root included, if
      and only if happens-before is acyclic and no start was left unscheduled by a task
      blocked in subinterval(). */
  lemma DeadlockFreedom(s: State)
    requires Reachable(s) && Stuck(s)
    ensures AllOccurred(s) <==> Acyclic(s) && AllScheduled(s)
  {
    ReachableInvariant(s);
    if AllOccurred(s) {
      forall p | p in s.points
        ensures !HappensBefore(s, p, p)
      {
        if HappensBefore(s, p, p) {
          HappensBeforeIsRespected(s, p, p);
        }
      }
    } else if Acyclic(s) && AllScheduled(s) {
      var p :| p in s.points && !HasOccurred(s.points[p].life);
      EndlessAscent(s, p);
    }
  }

  /** While happens-before is acyclic and everything is scheduled, a point that has not
      occurred means that some thread can take a step. */
  lemma SomeThreadCanMove(s: State, p: PointId)
    requires Reachable(s) && Acyclic(s) && AllScheduled(s) && p in s.points && !Occ(s, p)
    ensures exists a: Action :: Enabled(s, a) && !IsClientChoice(a)
  {
    if Stuck(s) {
      DeadlockFreedom(s);
    }
  }

  // ----- No leak -----------------------------------------------------------------------------------

  /** The client has given back every reference to points and guards. */
  ghost predicate ClientHoldsNothing(s: State) {
    (forall p :: p in s.points ==> s.points[p].user == 0) && (forall g :: g in s.guards ==> s.guards[g].user == 0)
  }

  /** What interval_live_objects counts. */
  function LivePoints(s: State): set<PointId> {
    set p | p in s.points && !s.points[p].life.Freed?
  }

  function LiveGuards(s: State): set<GuardId> {
    set g | g in s.guards && s.guards[g].live
  }

  lemma RequestWaits(s: State, r: RequestId)
    requires Locks(s) && r in s.requests
    ensures s.requests[r].point in s.points && !HasOccurred(s.points[s.requests[r].point].life)
  {
    assert RequestOk(s, r);
  }

  lemma NothingRequested(s: State)
    requires Locks(s) && AllOccurred(s)
    ensures s.requests.Keys == {}
  {
    if r :| r in s.requests {
      RequestWaits(s, r);
    }
  }

  lemma GuardsAreGone(s: State, g: GuardId)
    requires Invariant(s) && Stuck(s) && AllOccurred(s) && ClientHoldsNothing(s) && g in s.guards
    ensures !s.guards[g].live && s.guards[g].last == None
  {
    assert GuardOk(s, g, Debt(None, g));
    NothingRequested(s);
    assert GuardRequests(s, g) == {};
    assert GuardTakers(s, g) == {};
    assert !Enabled(s, ReleaseGuardLast(g));
  }

  lemma TasksAreOver(s: State, p: PointId)
    requires Invariant(s) && Stuck(s) && AllOccurred(s) && p in s.points
    ensures s.points[p].life.Freed? || s.points[p].life.stage == Done
  {
    if s.points[p].life.Occurred? {
      DispatchesAreOver(s, p);
      assert TaskOk(s, p);
    }
  }

  /** A live point would be kept by a live predecessor that occurred earlier. */
  lemma {:induction false} PointsAreGone(s: State, p: PointId)
    requires Invariant(s) && Stuck(s) && AllOccurred(s) && ClientHoldsNothing(s) && p in s.points
    ensures s.points[p].life.Freed?
    decreases TimeOf(s.points[p].life)
  {
    NothingInFlight(s);
    TasksAreOver(s, p);
    assert RefsOk(s, p, Debt(None, p));
    forall g
      ensures g !in RefGuards(s, p)
    {
      if g in s.guards {
        GuardsAreGone(s, g);
      }
    }
    assert RefGuards(s, p) == {} && RefTakers(s, p) == {};
    forall e
      ensures e !in RefEdges(s, p)
    {
      if e in RefEdges(s, p) {
        PointsAreGone(s, s.edges[e].src);
      }
    }
    assert RefEdges(s, p) == {};
  }

  /** When no thread can move, everything has occurred and the client has given back what
      it held, no point and no guard is left. */
  lemma NoLeak(s: State)
    requires Reachable(s) && Stuck(s) && AllOccurred(s) && ClientHoldsNothing(s)
    ensures LivePoints(s) == {} && LiveGuards(s) == {}
  {
    ReachableInvariant(s);
    forall p | p in s.points
      ensures s.points[p].life.Freed?
    {
      PointsAreGone(s, p);
    }
    forall g | g in s.guards
      ensures !s.guards[g].live
    {
      GuardsAreGone(s, g);
    }
  }

  lemma LiveGuardIsHeld(s: State, g: GuardId)
    requires Locks(s) && GuardCounts(s, None) && AllOccurred(s) && g in s.guards && s.guards[g].live
    ensures s.guards[g].user > 0
  {
    assert GuardOk(s, g, Debt(None, g));
    NothingRequested(s);
    assert GuardRequests(s, g) == {};
    assert GuardTakers(s, g) == {};
  }

  /** A path leads to p from a point that the client holds, or that was the last to be
      locked by a guard that the client holds. */
  ghost predicate KeptByClient(s: State, p: PointId) {
    exists q, es :: q in s.points && IsPath(s, es, q, p) && HeldByClient(s, q)
  }

  ghost predicate HeldByClient(s: State, q: PointId)
    requires q in s.points
  {
    s.points[q].user > 0 || exists g :: g in s.guards && s.guards[g].user > 0 && s.guards[g].last == Some(q)
  }

  lemma HeldIsKept(s: State, p: PointId)
    requires p in s.points && HeldByClient(s, p)
    ensures KeptByClient(s, p)
  {
    assert IsPath(s, [], p, p);
  }

  lemma KeptAlong(s: State, e: EdgeId)
    requires e in s.edges && KeptByClient(s, s.edges[e].src)
    ensures KeptByClient(s, s.edges[e].dst)
  {
    var q, es :| q in s.points && IsPath(s, es, q, s.edges[e].src) && HeldByClient(s, q);
    EdgePath(s, e);
    PathsJoin(s, es, [e], q, s.edges[e].src, s.edges[e].dst);
  }

  /** Whoever still keeps p is a live predecessor that occurred earlier, a live guard, or
      the client. */
  lemma {:induction false} LivePointIsKept(s: State, p: PointId)
    requires Invariant(s) && Stuck(s) && AllOccurred(s) && p in s.points && !s.points[p].life.Freed?
    ensures KeptByClient(s, p)
    decreases TimeOf(s.points[p].life)
  {
    KeeperOf(s, p);
    if g :| g in RefGuards(s, p) {
      LastLockIsLive(s, g);
      LiveGuardIsHeld(s, g);
      HeldIsKept(s, p);
    } else if e :| e in RefEdges(s, p) {
      NothingInFlight(s);
      LivePointIsKept(s, s.edges[e].src);
      KeptAlong(s, e);
    } else {
      HeldIsKept(s, p);
    }
  }

  lemma KeeperOf(s: State, p: PointId)
    requires Invariant(s) && Stuck(s) && AllOccurred(s) && p in s.points && !s.points[p].life.Freed?
    ensures RefGuards(s, p) != {} || RefEdges(s, p) != {} || s.points[p].user > 0
  {
    TasksAreOver(s, p);
    assert RefsOk(s, p, Debt(None, p));
    assert RefTakers(s, p) == {};
  }

  lemma LastLockIsLive(s: State, g: GuardId)
    requires Invariant(s) && Stuck(s) && g in s.guards && s.guards[g].last.Some?
    ensures s.guards[g].live
  {
    assert !Enabled(s, ReleaseGuardLast(g));
  }

  /** Conversely, what is left in memory at the end is what the client keeps there: a live
      guard is held by the client, and to a live point leads a path from one that is. */
  lemma LeaksAreTheClients(s: State)
    requires Reachable(s) && Stuck(s) && AllOccurred(s)
    ensures (LivePoints(s) == {} && LiveGuards(s) == {}) <==> ClientHoldsNothing(s)
    ensures forall g :: g in LiveGuards(s) ==> s.guards[g].user > 0
    ensures forall p :: p in LivePoints(s) ==> KeptByClient(s, p)
  {
    ReachableInvariant(s);
    forall g | g in LiveGuards(s)
      ensures s.guards[g].user > 0
    {
      LiveGuardIsHeld(s, g);
    }
    forall p | p in LivePoints(s)
      ensures KeptByClient(s, p)
    {
      LivePointIsKept(s, p);
    }
    LeaksIffClientHolds(s);
  }

  lemma LeaksIffClientHolds(s: State)
    requires Reachable(s) && Stuck(s) && AllOccurred(s)
    ensures (LivePoints(s) == {} && LiveGuards(s) == {}) <==> ClientHoldsNothing(s)
  {
    ReachableInvariant(s);
    if ClientHoldsNothing(s) {
      NoLeak(s);
    } else if LivePoints(s) == {} && LiveGuards(s) == {} {
      forall p | p in s.points
        ensures s.points[p].user == 0
      {
        assert p !in LivePoints(s);
        assert RefsOk(s, p, Debt(None, p));
      }
      forall g | g in s.guards
        ensures s.guards[g].user == 0
      {
        assert g !in LiveGuards(s);
        assert GuardOk(s, g, Debt(None, g));
      }
    }
  }

  lemma NothingHoldsFreed(s: State, q: PointId)
    requires RefCounts(s, None) && q in s.points && s.points[q].life.Freed?
    ensures RefEdges(s, q) == {} && RefGuards(s, q) == {}
  {
    assert RefsOk(s, q, Debt(None, q));
  }

  ghost predicate AllFreed(s: State) {
    (forall p :: p in s.points ==> s.points[p].life.Freed?) && (forall g :: g in s.guards ==> !s.guards[g].live)
  }

  lemma ReleasingIsHeld(s: State, e: EdgeId)
    requires Shape(s) && Flights(s) && e in s.releasing
    ensures e in s.edges && s.edges[e].dst in s.points && e in RefEdges(s, s.edges[e].dst)
  {
  }

  lemma NothingReleasing(s: State)
    requires Invariant(s) && AllFreed(s)
    ensures s.releasing == {}
  {
    if e :| e in s.releasing {
      ReleasingIsHeld(s, e);
      NothingHoldsFreed(s, s.edges[e].dst);
    }
  }

  lemma NoLastLock(s: State, g: GuardId)
    requires Invariant(s) && AllFreed(s) && g in s.guards
    ensures s.guards[g].last == None
  {
    var last := s.guards[g].last;
    if last.Some? {
      LastIsHeld(s, g, last.value);
      NothingHoldsFreed(s, last.value);
    }
  }

  lemma LastIsHeld(s: State, g: GuardId, q: PointId)
    requires Locks(s) && g in s.guards && s.guards[g].last == Some(q)
    ensures q in s.points && g in RefGuards(s, q)
  {
  }

  lemma NothingLeftToDo(s: State, a: Action)
    requires Invariant(s) && AllFreed(s)
    ensures Enabled(s, a) ==> IsClientChoice(a)
  {
    NothingReleasing(s);
    forall g | g in s.guards
      ensures s.guards[g].last == None
    {
      NoLastLock(s, g);
    }
  }

  /** The assertion that closes root_interval(): once everything has occurred and the
      client has given back what it held, nothing is live just if no thread has anything
      left to do. */
  lemma ClosingAssertion(s: State)
    requires Reachable(s) && AllOccurred(s) && ClientHoldsNothing(s)
    ensures LivePoints(s) == {} && LiveGuards(s) == {} <==> Stuck(s)
  {
    if Stuck(s) {
      NoLeak(s);
    }
    ReachableInvariant(s);
    if LivePoints(s) == {} && LiveGuards(s) == {} {
      assert forall p :: p in s.points ==> p !in LivePoints(s);
      assert forall g :: g in s.guards ==> g !in LiveGuards(s);
      forall a: Action | Enabled(s, a)
        ensures IsClientChoice(a)
      {
        NothingLeftToDo(s, a);
      }
    }
  }
}
