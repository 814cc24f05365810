/** The operations of the client keep the invariant. */
module SchedulerClient {
  import opened SchedulerState
  import opened SchedulerSteps
  import opened SchedulerInvariant
  import opened SchedulerFrames
  import opened SchedulerSafety
  import opened SchedulerRelease

  // ----- References --------------------------------------------------------------------

  lemma RetainKeepsTotals(s: State, p: PointId, pt: Point, s': State)
    requires WaitCounts(s, None) && RefCounts(s, None) && Usable(s, p) && NewCounts(s, p, pt, s')
    requires pt == s.points[p].(rc := s.points[p].rc + 1, user := s.points[p].user + 1)
    ensures WaitCounts(s', None) && RefCounts(s', None)
  {
    forall r | r in s'.points
      ensures WaitsOk(s', r, 0) && RefsOk(s', r, 0)
    {
      NewCountsKeepTotals(s, p, pt, s', r);
      assert WaitsOk(s, r, Debt(None, r)) && RefsOk(s, r, Debt(None, r));
    }
  }

  lemma RetainKeeps(s: State, p: PointId, pt: Point, s': State)
    requires Invariant(s) && Usable(s, p) && s' == WithPoint(s, p, pt)
    requires pt == s.points[p].(rc := s.points[p].rc + 1, user := s.points[p].user + 1)
    ensures Invariant(s')
  {
    RetainKeepsTotals(s, p, pt, s');
    NewCountsKeepShape(s, p, pt, s');
    NewCountsKeepTasks(s, p, pt, s');
    NewCountsKeepLocks(s, p, pt, s');
  }

  lemma GiveUpKeepsTotals(s: State, p: PointId, pt: Point, s': State)
    requires WaitCounts(s, None) && RefCounts(s, None) && NewCounts(s, p, pt, s') && s.points[p].user > 0
    requires pt == s.points[p].(user := s.points[p].user - 1)
    ensures WaitCounts(s', None) && RefCounts(s', Some(p))
  {
    forall r | r in s'.points
      ensures WaitsOk(s', r, 0) && RefsOk(s', r, Debt(Some(p), r))
    {
      NewCountsKeepTotals(s, p, pt, s', r);
      assert WaitsOk(s, r, Debt(None, r)) && RefsOk(s, r, Debt(None, r));
    }
  }

  lemma UserReleaseKeeps(s: State, p: PointId, pt: Point, s1: State)
    requires Invariant(s) && p in s.points && PointInRange(s.points[p]) && s.points[p].user > 0
    requires pt == s.points[p].(user := s.points[p].user - 1) && s1 == WithPoint(s, p, pt)
    ensures Invariant(Release(s1, p))
  {
    GiveUpKeepsTotals(s, p, pt, s1);
    NewCountsKeepShape(s, p, pt, s1);
    NewCountsKeepTasks(s, p, pt, s1);
    NewCountsKeepLocks(s, p, pt, s1);
    ReleaseKeeps(s1, p);
  }

  // ----- Edges -------------------------------------------------------------------------

  /** The edge can be counted: the target is pinned, and a source that has occurred can
      hold a reference. */
  ghost predicate Linkable(s: State, before: PointId, after: PointId, e: EdgeId) {
    before in s.points && after in s.points && !HasOccurred(s.points[after].life) &&
    e.Out? && e !in s.edges && Usable(s, before)
  }

  lemma StartedMeansOccurred(s: State, p: PointId)
    requires p in s.points && Ordered(s) && CountsInRange(s)
    ensures s.points[p].wc == WC_STARTED <==> HasOccurred(s.points[p].life)
  {
  }

  lemma AddEdgeCounts(s: State, before: PointId, after: PointId, synthetic: bool, e: EdgeId, r: PointId)
    requires Shape(s) && Flights(s) && Linkable(s, before, after, e)
    ensures var s' := AddEdge(s, before, after, synthetic, e);
            var waits := !HasOccurred(s.points[before].life);
            WaitEdges(s', r) == (if r == after && waits then WaitEdges(s, r) + {e} else WaitEdges(s, r)) &&
            RefEdges(s', r) == (if r == after && !waits then RefEdges(s, r) + {e} else RefEdges(s, r)) &&
            RefGuards(s', r) == RefGuards(s, r) && RefTakers(s', r) == RefTakers(s, r)
    ensures e !in WaitEdges(s, r) && e !in RefEdges(s, r)
  {
    var s' := AddEdge(s, before, after, synthetic, e);
    assert EdgeAdded(s, s', e);
    EdgeAddedCounts(s, s', e, r);
    SameTakers(s, s', r);
  }

  lemma AddEdgeTotals(s: State, before: PointId, after: PointId, synthetic: bool, e: EdgeId, r: PointId)
    requires Shape(s) && Flights(s) && Linkable(s, before, after, e) && r in s.points
    ensures var s' := AddEdge(s, before, after, synthetic, e);
            var waits := !HasOccurred(s.points[before].life);
            WaitTotal(s', r) == WaitTotal(s, r) + Bit(r == after && waits) &&
            RefTotal(s', r) == RefTotal(s, r) + Bit(r == after && !waits)
  {
    AddEdgeCounts(s, before, after, synthetic, e, r);
  }

  lemma AddEdgeKeepsTotal(s: State, before: PointId, after: PointId, synthetic: bool, e: EdgeId, r: PointId)
    requires Shape(s) && Flights(s) && Linkable(s, before, after, e) && r in s.points
    requires s.points[before].wc == WC_STARTED <==> HasOccurred(s.points[before].life)
    requires WaitsOk(s, r, 0) && RefsOk(s, r, 0)
    ensures WaitsOk(AddEdge(s, before, after, synthetic, e), r, 0) && RefsOk(AddEdge(s, before, after, synthetic, e), r, 0)
  {
    AddEdgeTotals(s, before, after, synthetic, e, r);
  }

  lemma AddEdgeKeepsShape(s: State, before: PointId, after: PointId, synthetic: bool, e: EdgeId)
    requires Shape(s) && Linkable(s, before, after, e)
    ensures Shape(AddEdge(s, before, after, synthetic, e))
  {
    ShapeStays(s, AddEdge(s, before, after, synthetic, e));
  }

  lemma AddEdgeKeepsOrder(s: State, before: PointId, after: PointId, synthetic: bool, e: EdgeId)
    requires Shape(s) && Flights(s) && Ordered(s) && Linkable(s, before, after, e)
    ensures var s' := AddEdge(s, before, after, synthetic, e); Flights(s') && Ordered(s')
  {
  }

  lemma AddEdgeKeepsTasks(s: State, before: PointId, after: PointId, synthetic: bool, e: EdgeId)
    requires Tasks(s) && Linkable(s, before, after, e)
    ensures Tasks(AddEdge(s, before, after, synthetic, e))
  {
    var s' := AddEdge(s, before, after, synthetic, e);
    forall p | p in s'.points
      ensures TaskOk(s', p)
    {
      assert TaskOk(s, p) && TaskOk(s, after);
    }
  }

  lemma AddEdgeKeepsLocks(s: State, before: PointId, after: PointId, synthetic: bool, e: EdgeId)
    requires Locks(s) && GuardCounts(s, None) && Chains(s) && Linkable(s, before, after, e)
    ensures var s' := AddEdge(s, before, after, synthetic, e); Locks(s') && GuardCounts(s', None) && Chains(s')
  {
    LocksStay(s, AddEdge(s, before, after, synthetic, e));
  }

  lemma AddEdgeKeepsTotals(s: State, before: PointId, after: PointId, synthetic: bool, e: EdgeId)
    requires Shape(s) && Flights(s) && Linkable(s, before, after, e) && WaitCounts(s, None) && RefCounts(s, None)
    requires s.points[before].wc == WC_STARTED <==> HasOccurred(s.points[before].life)
    ensures var s' := AddEdge(s, before, after, synthetic, e); WaitCounts(s', None) && RefCounts(s', None)
  {
    var s' := AddEdge(s, before, after, synthetic, e);
    forall r | r in s'.points
      ensures WaitsOk(s', r, 0) && RefsOk(s', r, 0)
    {
      assert WaitsOk(s, r, Debt(None, r)) && RefsOk(s, r, Debt(None, r));
      AddEdgeKeepsTotal(s, before, after, synthetic, e, r);
    }
  }

  lemma AddEdgeKeeps(s: State, before: PointId, after: PointId, synthetic: bool, e: EdgeId)
    requires Invariant(s) && CountsInRange(s) && Linkable(s, before, after, e)
    ensures Invariant(AddEdge(s, before, after, synthetic, e))
  {
    StartedMeansOccurred(s, before);
    AddEdgeKeepsShape(s, before, after, synthetic, e);
    AddEdgeKeepsOrder(s, before, after, synthetic, e);
    AddEdgeKeepsTotals(s, before, after, synthetic, e);
    AddEdgeKeepsTasks(s, before, after, synthetic, e);
    AddEdgeKeepsLocks(s, before, after, synthetic, e);
  }

  lemma AddHbMeans(s: State, t: PointId, before: PointId, after: PointId, e: EdgeId, s': State)
    requires Shape(s) && Ordered(s) && Tasks(s) && Step(s, AddHb(t, before, after, e), s')
    ensures Linkable(s, before, after, e) && s' == AddEdge(s, before, after, false, e)
  {
    AllowedTargetIsPinned(s, t, after);
  }

  lemma AddHbKeeps(s: State, t: PointId, before: PointId, after: PointId, e: EdgeId, s': State)
    requires Invariant(s) && CountsInRange(s) && Step(s, AddHb(t, before, after, e), s')
    ensures Invariant(s')
  {
    AddHbMeans(s, t, before, after, e, s');
    AddEdgeKeeps(s, before, after, false, e);
  }
}
