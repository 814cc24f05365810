/** Changes that leave parts of the invariant alone. */
module SchedulerFrames {
  import opened SchedulerState
  import opened SchedulerSteps
  import opened SchedulerInvariant

  /** No edge begins or stops to own a unit of a count. */
  ghost predicate SameEdgeOwners(s: State, s': State) {
    && s'.edges == s.edges && s'.points.Keys == s.points.Keys
    && (forall e :: ConnectedIn(s, e) ==> Waits(s', e) == Waits(s, e) && HoldsRef(s', e) == HoldsRef(s, e))
  }

  ghost predicate SameRefGuards(s: State, s': State) {
    s'.guards.Keys == s.guards.Keys && (forall g :: g in s.guards ==> s'.guards[g].last == s.guards[g].last)
  }

  predicate TakesNothing(life: Life) {
    life.Acquiring? ==> life.taking.Popping?
  }

  /** Threads that take guards have not moved. */
  ghost predicate SameTaking(s: State, s': State) {
    s'.points.Keys == s.points.Keys &&
    (forall p :: p in s.points ==>
       s'.points[p].life == s.points[p].life ||
       (TakesNothing(s'.points[p].life) && TakesNothing(s.points[p].life)))
  }

  lemma SameCounts(s: State, s': State, q: PointId)
    requires SameEdgeOwners(s, s') && SameRefGuards(s, s') && SameTaking(s, s')
    ensures WaitEdges(s', q) == WaitEdges(s, q)
    ensures RefEdges(s', q) == RefEdges(s, q)
    ensures RefGuards(s', q) == RefGuards(s, q)
    ensures RefTakers(s', q) == RefTakers(s, q)
  {
    SameTakers(s, s', q);
    SameEdgeCounts(s, s', q);
  }

  lemma SameEdgeCounts(s: State, s': State, q: PointId)
    requires SameEdgeOwners(s, s')
    ensures WaitEdges(s', q) == WaitEdges(s, q)
    ensures RefEdges(s', q) == RefEdges(s, q)
  {
    assert forall e :: ConnectedIn(s', e) == ConnectedIn(s, e);
  }

  lemma SameTakers(s: State, s': State, q: PointId)
    requires SameTaking(s, s')
    ensures RefTakers(s', q) == RefTakers(s, q)
  {
  }

  lemma SameGuardTakers(s: State, s': State, g: GuardId)
    requires SameTaking(s, s')
    ensures GuardTakers(s', g) == GuardTakers(s, g)
  {
  }

  /** Edges are only added, and bounds are for ever. */
  ghost predicate Extends(s: State, s': State) {
    && (forall p :: p in s.points ==> p in s'.points && s'.points[p].bound == s.points[p].bound)
    && (forall e :: e in s.edges ==> e in s'.edges && s'.edges[e] == s.edges[e])
  }

  lemma HandedOverStays(s: State, s': State, g: GuardId, a: PointId, b: PointId)
    requires Extends(s, s') && HandedOver(s, g, a, b)
    requires s.points[a].bound.Some? && s.points[b].life == Acquiring(Swapped(g, s.points[a].bound.value)) ==>
      s'.points[b].life == s.points[b].life
    ensures HandedOver(s', g, a, b)
  {
    if s.points[a].bound.Some? && exists e :: e in s.edges && s.edges[e].src == s.points[a].bound.value && s.edges[e].dst == b {
      var e :| e in s.edges && s.edges[e].src == s.points[a].bound.value && s.edges[e].dst == b;
      assert e in s'.edges && s'.edges[e].src == s'.points[a].bound.value && s'.edges[e].dst == b;
    }
  }

  lemma ChainStays(s: State, s': State, g: GuardId)
    requires g in s.guards && ChainOk(s, g) && Extends(s, s') && SameTakingOfOld(s, s')
    requires g in s'.guards && s'.guards[g].holders == s.guards[g].holders
    requires s'.guards[g].live ==> s.guards[g].live && s'.guards[g].last == s.guards[g].last
    ensures ChainOk(s', g)
  {
    var h := s.guards[g].holders;
    forall i | 0 < i < |h|
      ensures HandedOver(s', g, h[i - 1], h[i])
    {
      HandedOverStays(s, s', g, h[i - 1], h[i]);
    }
  }

  /** As SameTaking, for changes that also add points. */
  ghost predicate SameTakingOfOld(s: State, s': State) {
    forall p :: p in s.points && p in s'.points ==>
      s'.points[p].life == s.points[p].life ||
      (TakesNothing(s'.points[p].life) && TakesNothing(s.points[p].life))
  }

  /** No point changes its bound, and new edges are no bounds. */
  ghost predicate SameBounds(s: State, s': State) {
    && s'.points.Keys == s.points.Keys
    && (forall p :: p in s.points ==>
          s'.points[p].bound == s.points[p].bound && s'.points[p].depth == s.points[p].depth)
    && (forall e :: e in s.edges ==> e in s'.edges && s'.edges[e] == s.edges[e])
    && (forall e :: e in s'.edges && e !in s.edges ==> e.Out? && ConnectedIn(s', e))
  }

  lemma ShapeStays(s: State, s': State)
    requires Shape(s) && SameBounds(s, s')
    ensures Shape(s')
  {
    forall p {:trigger BoundOk(s', p)} | p in s'.points
      ensures BoundOk(s', p)
    {
      assert BoundOk(s, p);
    }
  }

  /** Requests and guards are as before, and no requesting point has occurred. */
  ghost predicate SameLocks(s: State, s': State) {
    && Extends(s, s') && SameTaking(s, s')
    && s'.guards == s.guards && s'.requests == s.requests
    && (forall p :: p in s.points && HasOccurred(s'.points[p].life) && !HasOccurred(s.points[p].life) ==> !HasRequest(s, p))
  }

  lemma LocksStay(s: State, s': State)
    requires Locks(s) && GuardCounts(s, None) && Chains(s) && SameLocks(s, s')
    ensures Locks(s') && GuardCounts(s', None) && Chains(s')
  {
    LockTablesStay(s, s');
    GuardsStay(s, s');
  }

  lemma LockTablesStay(s: State, s': State)
    requires Locks(s) && SameLocks(s, s')
    ensures Locks(s')
  {
    forall r {:trigger RequestOk(s', r)} | r in s'.requests
      ensures RequestOk(s', r)
    {
      assert RequestOk(s, r);
      var p := s.requests[r].point;
      assert HasOccurred(s'.points[p].life) && !HasOccurred(s.points[p].life) ==> !HasRequest(s, p);
    }
    forall p {:trigger TakerOk(s', p)} | p in s'.points
      ensures TakerOk(s', p)
    {
      assert TakerOk(s, p);
    }
  }

  lemma GuardsStay(s: State, s': State)
    requires GuardCounts(s, None) && Chains(s) && SameLocks(s, s')
    ensures GuardCounts(s', None) && Chains(s')
  {
    forall g | g in s'.guards
      ensures GuardOk(s', g, 0) && ChainOk(s', g)
    {
      SameGuardTakers(s, s', g);
      assert GuardRequests(s', g) == GuardRequests(s, g);
      assert GuardOk(s, g, Debt(None, g)) && ChainOk(s, g);
      ChainStays(s, s', g);
    }
    ByGuard(s');
  }

  /** The quantified forms, from every guard's own. */
  lemma ByGuard(s: State)
    requires forall g :: g in s.guards ==> GuardOk(s, g, 0) && ChainOk(s, g)
    ensures GuardCounts(s, None) && Chains(s)
  {
    forall g {:trigger GuardOk(s, g, Debt(None, g))} | g in s.guards
      ensures GuardOk(s, g, Debt(None, g))
    {
    }
  }

  /** Only the counts of p change. */
  ghost predicate NewCounts(s: State, p: PointId, pt: Point, s': State) {
    p in s.points && pt == s.points[p].(wc := pt.wc, rc := pt.rc, user := pt.user) &&
    (HasOccurred(pt.life) ==> pt.wc == s.points[p].wc) && s' == WithPoint(s, p, pt)
  }

  lemma NewCountsKeepShape(s: State, p: PointId, pt: Point, s': State)
    requires Shape(s) && Flights(s) && Ordered(s) && NewCounts(s, p, pt, s')
    ensures Shape(s') && Flights(s') && Ordered(s')
  {
    ShapeStays(s, s');
  }

  lemma NewCountsKeepTasks(s: State, p: PointId, pt: Point, s': State)
    requires Tasks(s) && NewCounts(s, p, pt, s')
    ensures Tasks(s')
  {
    forall q | q in s'.points
      ensures TaskOk(s', q)
    {
      assert TaskOk(s, q) && TaskOk(s, p);
    }
  }

  lemma NewCountsKeepLocks(s: State, p: PointId, pt: Point, s': State)
    requires Locks(s) && GuardCounts(s, None) && Chains(s) && NewCounts(s, p, pt, s')
    ensures Locks(s') && GuardCounts(s', None) && Chains(s')
  {
    LocksStay(s, s');
  }

  lemma NewCountsKeepTotals(s: State, p: PointId, pt: Point, s': State, q: PointId)
    requires NewCounts(s, p, pt, s') && q in s.points
    ensures WaitEdges(s', q) == WaitEdges(s, q) && RefEdges(s', q) == RefEdges(s, q)
    ensures RefGuards(s', q) == RefGuards(s, q) && RefTakers(s', q) == RefTakers(s, q)
  {
    assert SameEdgeOwners(s, s');
    SameCounts(s, s', q);
  }

  /** An edge is added; points may be added with it, but the old ones keep their state. */
  ghost predicate EdgeAdded(s: State, s': State, e: EdgeId) {
    e !in s.edges && e in s'.edges && s'.edges == s.edges[e := s'.edges[e]] && ConnectedIn(s', e) &&
    s'.inflight == s.inflight && s'.releasing == s.releasing &&
    (forall p :: p in s.points ==> p in s'.points && s'.points[p].life == s.points[p].life)
  }

  lemma EdgeAddedOwners(s: State, s': State, e: EdgeId, d: EdgeId)
    requires Shape(s) && Flights(s) && EdgeAdded(s, s', e) && d in s.edges
    ensures s'.edges[d] == s.edges[d] && ConnectedIn(s, d) && ConnectedIn(s', d)
    ensures Waits(s', d) == Waits(s, d) && HoldsRef(s', d) == HoldsRef(s, d)
  {
  }

  lemma EdgeAddedCounts(s: State, s': State, e: EdgeId, q: PointId)
    requires Shape(s) && Flights(s) && EdgeAdded(s, s', e)
    ensures WaitEdges(s', q) == if s'.edges[e].dst == q && Waits(s', e) then WaitEdges(s, q) + {e} else WaitEdges(s, q)
    ensures RefEdges(s', q) == if s'.edges[e].dst == q && HoldsRef(s', e) then RefEdges(s, q) + {e} else RefEdges(s, q)
  {
    forall d | d != e
      ensures d in WaitEdges(s', q) <==> d in WaitEdges(s, q)
      ensures d in RefEdges(s', q) <==> d in RefEdges(s, q)
    {
      if d in s.edges {
        EdgeAddedOwners(s, s', e, d);
      }
    }
  }
}
