/** point_release() and point_free() keep the invariant: the release settles the unit
    of the reference count it was called for. */
module SchedulerRelease {
  import opened SchedulerState
  import opened SchedulerSteps
  import opened SchedulerInvariant
  import opened SchedulerFrames

  /** p has occurred, its dispatch is over, and nothing refers to it; s' is s with p
      freed. Its successors' references are to be released if it ever held them. */
  ghost predicate JustFreed(s: State, p: PointId, rc: nat, s': State) {
    p in s.points && s.points[p].life.Occurred? && s.points[p].life.stage == Done &&
    s' == Free(WithPoint(s, p, s.points[p].(rc := rc)), p, !s.points[p].life.dead)
  }

  lemma FreeKeepsOwners(s: State, p: PointId, rc: nat, s': State)
    requires Flights(s) && JustFreed(s, p, rc, s')
    ensures SameEdgeOwners(s, s')
  {
    forall e | ConnectedIn(s, e)
      ensures Waits(s', e) == Waits(s, e) && HoldsRef(s', e) == HoldsRef(s, e)
    {
      if s.edges[e].src == p {
        assert e !in s.inflight;
        assert !s.points[p].life.dead ==> e in OutEdges(s, p);
      }
    }
  }

  lemma FreeKeepsTotals(s: State, p: PointId, rc: nat, s': State)
    requires Flights(s) && WaitCounts(s, None) && RefCounts(s, Some(p)) && JustFreed(s, p, rc, s')
    requires RefTotal(s, p) == 0
    ensures WaitCounts(s', None) && RefCounts(s', None)
  {
    FreeKeepsOwners(s, p, rc, s');
    forall r | r in s'.points
      ensures WaitsOk(s', r, 0) && RefsOk(s', r, 0)
    {
      SameCounts(s, s', r);
      assert WaitsOk(s, r, Debt(None, r)) && RefsOk(s, r, Debt(Some(p), r));
    }
  }

  lemma FreeKeepsShape(s: State, p: PointId, rc: nat, s': State)
    requires Shape(s) && JustFreed(s, p, rc, s')
    ensures Shape(s')
  {
    ShapeStays(s, s');
  }

  lemma FreeKeepsFlights(s: State, p: PointId, rc: nat, s': State)
    requires Shape(s) && Flights(s) && JustFreed(s, p, rc, s')
    ensures Flights(s')
  {
  }

  lemma FreeKeepsOrder(s: State, p: PointId, rc: nat, s': State)
    requires Shape(s) && Ordered(s) && JustFreed(s, p, rc, s')
    ensures Ordered(s')
  {
  }

  lemma FreeKeepsTasks(s: State, p: PointId, rc: nat, s': State)
    requires Tasks(s) && JustFreed(s, p, rc, s')
    ensures Tasks(s')
  {
    forall q | q in s'.points
      ensures TaskOk(s', q)
    {
      assert TaskOk(s, q) && TaskOk(s, p);
    }
  }

  lemma FreeKeepsLocks(s: State, p: PointId, rc: nat, s': State)
    requires Locks(s) && GuardCounts(s, None) && Chains(s) && JustFreed(s, p, rc, s')
    ensures Locks(s') && GuardCounts(s', None) && Chains(s')
  {
    LocksStay(s, s');
  }

  lemma FreeKeeps(s: State, p: PointId, rc: nat, s': State)
    requires InvariantUpTo(s, None, Some(p)) && JustFreed(s, p, rc, s') && RefTotal(s, p) == 0
    ensures Invariant(s')
  {
    FreeKeepsShape(s, p, rc, s');
    FreeKeepsFlights(s, p, rc, s');
    FreeKeepsOrder(s, p, rc, s');
    FreeKeepsTotals(s, p, rc, s');
    FreeKeepsTasks(s, p, rc, s');
    FreeKeepsLocks(s, p, rc, s');
  }

  /** One reference of several is given up. */
  lemma LowerKeepsTotals(s: State, p: PointId, pt: Point, s': State)
    requires WaitCounts(s, None) && RefCounts(s, Some(p)) && NewCounts(s, p, pt, s')
    requires pt.rc == s.points[p].rc - 1 && pt.rc >= 1 && pt.user == s.points[p].user && pt.wc == s.points[p].wc
    ensures WaitCounts(s', None) && RefCounts(s', None)
  {
    forall r | r in s'.points
      ensures WaitsOk(s', r, 0) && RefsOk(s', r, 0)
    {
      NewCountsKeepTotals(s, p, pt, s', r);
      assert WaitsOk(s, r, Debt(None, r)) && RefsOk(s, r, Debt(Some(p), r));
    }
  }

  /** What the count says when a reference is given up. Only a point that has occurred
      and been dispatched can be freed. */
  lemma LastReference(s: State, p: PointId)
    requires p in s.points && RefsOk(s, p, 1) && PointInRange(s.points[p])
    ensures !s.points[p].life.Freed?
    ensures AtomicSub(s.points[p].rc) == RC_DEAD_POST <==> IsDead(s.points[p].life)
    ensures s.points[p].rc <= 1 ==> RefTotal(s, p) == 0 && s.points[p].life.Occurred? && s.points[p].life.stage == Done
  {
  }

  lemma ReleaseKeeps(s: State, p: PointId)
    requires p in s.points && InvariantUpTo(s, None, Some(p)) && PointInRange(s.points[p])
    ensures Invariant(Release(s, p))
  {
    assert RefsOk(s, p, Debt(Some(p), p));
    LastReference(s, p);
    var s' := Release(s, p);
    if s.points[p].rc >= 2 {
      var pt := s.points[p].(rc := s.points[p].rc - 1);
      LowerKeepsTotals(s, p, pt, s');
      NewCountsKeepShape(s, p, pt, s');
      NewCountsKeepTasks(s, p, pt, s');
      NewCountsKeepLocks(s, p, pt, s');
    } else {
      FreeKeeps(s, p, AtomicSub(s.points[p].rc), s');
    }
  }
}
