/** interval() and subinterval() keep the invariant. */
module SchedulerIntervals {
  import opened SchedulerState
  import opened SchedulerSteps
  import opened SchedulerInvariant
  import opened SchedulerFrames
  import opened SchedulerSafety

  /** The current start, if the task keeps one, can hold references. */
  ghost predicate CurrentStartOk(s: State, cur: Option<PointId>) {
    cur.Some? ==> cur.value in s.points && s.points[cur.value].life.Occurred? && !s.points[cur.value].life.dead &&
                  s.points[cur.value].life.at < s.clock
  }

  lemma CurrentStart(s: State, t: PointId)
    requires Ordered(s) && Tasks(s) && t in s.points && s.points[t].run.Body?
    ensures CurrentStartOk(s, s.points[t].run.cur)
  {
    var cur := s.points[t].run.cur;
    assert TaskOk(s, t);
    if cur.Some? {
      assert TaskOk(s, cur.value);
    }
  }

  /** The end and the start of a new interval, its bound, and the edge from the current
      start if there is one. */
  datatype Birth = Birth(bound: PointId, end: PointId, start: PointId, cur: Option<PointId>, e: EdgeId)

  ghost predicate Possible(s: State, b: Birth) {
    b.bound in s.points && !HasOccurred(s.points[b.bound].life) && b.end !in s.points && b.start !in s.points &&
    b.end != b.start && b.e.Out? && b.e !in s.edges && CurrentStartOk(s, b.cur)
  }

  /** Only the wait count and the run of the bound change, and two points come. */
  ghost predicate PointsAdded(s: State, s': State, b: Birth) {
    && s'.points.Keys == s.points.Keys + {b.end, b.start}
    && (forall p :: p in s.points && p != b.bound ==> s'.points[p] == s.points[p])
    && (b.bound in s.points ==>
          s'.points[b.bound] == s.points[b.bound].(wc := s.points[b.bound].wc + 1, run := s'.points[b.bound].run))
  }

  ghost predicate EdgesAdded(s: State, s': State, b: Birth) {
    && s'.edges.Keys == s.edges.Keys + {BoundOf(b.end), BoundOf(b.start)} + (if b.cur.Some? then {b.e} else {})
    && (forall d :: d in s.edges ==> d in s'.edges && (d != BoundOf(b.end) && d != BoundOf(b.start) && d != b.e ==> s'.edges[d] == s.edges[d]))
    && s'.edges[BoundOf(b.end)] == Edge(b.end, b.bound, false)
    && s'.edges[BoundOf(b.start)] == Edge(b.start, b.end, false)
    && (b.cur.Some? ==> s'.edges[b.e] == Edge(b.cur.value, b.start, false))
  }

  predicate NewLives(end: Life, start: Life) {
    end.Waiting? && (start.Waiting? || (start.Occurred? && !start.dead && start.stage == Running))
  }

  ghost predicate IntervalAdded(s: State, s': State, b: Birth) {
    Possible(s, b) && PointsAdded(s, s', b) && EdgesAdded(s, s', b) &&
    s'.points[b.end].bound == Some(b.bound) && s'.points[b.start].bound == Some(b.end) &&
    s'.points[b.end].depth == s.points[b.bound].depth + 1 && s'.points[b.start].depth == s.points[b.bound].depth + 2 &&
    NewLives(s'.points[b.end].life, s'.points[b.start].life) &&
    s'.guards == s.guards && s'.requests == s.requests && s'.inflight == s.inflight && s'.releasing == s.releasing
  }

  predicate Begun(s': State, b: Birth) {
    b.start in s'.points && HasOccurred(s'.points[b.start].life)
  }

  lemma AddedOld(s: State, s': State, b: Birth)
    requires Shape(s) && IntervalAdded(s, s', b)
    ensures BoundOf(b.end) !in s.edges && BoundOf(b.start) !in s.edges
    ensures forall d :: d in s.edges ==> (d in s'.edges && s'.edges[d] == s.edges[d])
    ensures forall d :: d in s.edges ==> s.edges[d].dst != b.end && s.edges[d].dst != b.start
    ensures forall d :: d in s.edges ==> s.edges[d].src != b.end && s.edges[d].src != b.start
    ensures forall p :: p in s.points ==>
              (p in s'.points && s'.points[p].life == s.points[p].life && s'.points[p].bound == s.points[p].bound &&
               s'.points[p].depth == s.points[p].depth)
  {
  }

  lemma AddedShape(s: State, s': State, b: Birth)
    requires Shape(s) && IntervalAdded(s, s', b)
    ensures Shape(s')
  {
    AddedOld(s, s', b);
    forall p {:trigger BoundOk(s', p)} | p in s'.points
      ensures BoundOk(s', p)
    {
      if p in s.points {
        assert BoundOk(s, p);
      }
    }
  }

  lemma AddedFlights(s: State, s': State, b: Birth)
    requires Shape(s) && Flights(s) && IntervalAdded(s, s', b)
    ensures Flights(s')
  {
    AddedOld(s, s', b);
  }

  lemma AddedOrder(s: State, s': State, b: Birth)
    requires Shape(s) && Flights(s) && Ordered(s) && IntervalAdded(s, s', b) && s'.clock >= s.clock
    requires HasOccurred(s'.points[b.start].life) ==>
               s'.points[b.start].wc == WC_STARTED && s'.points[b.start].owner == None &&
               s'.points[b.start].run == Closed && s'.points[b.start].life.at == s.clock < s'.clock
    ensures Ordered(s')
  {
    AddedOld(s, s', b);
    forall d | d in s'.edges && s'.edges[d].dst in s'.points && HasOccurred(s'.points[s'.edges[d].dst].life)
      ensures s'.edges[d].src in s'.points && HasOccurred(s'.points[s'.edges[d].src].life) && d !in s'.inflight &&
              s'.points[s'.edges[d].src].life.at < s'.points[s'.edges[d].dst].life.at
    {
      if d in s.edges {
        assert s'.edges[d] == s.edges[d];
      } else {
        assert b.cur.Some? && d == b.e;
      }
    }
  }

  lemma AddedOwner(s: State, s': State, b: Birth, d: EdgeId)
    requires Shape(s) && Flights(s) && IntervalAdded(s, s', b) && d in s'.edges
    ensures ConnectedIn(s', d)
    ensures d in s.edges ==> Waits(s', d) == Waits(s, d) && HoldsRef(s', d) == HoldsRef(s, d)
    ensures d !in s.edges && s'.edges[d].dst == b.bound ==> d == BoundOf(b.end) && Waits(s', d) && !HoldsRef(s', d)
    ensures d !in s.edges && s'.edges[d].dst == b.end ==>
              d == BoundOf(b.start) && Waits(s', d) == !Begun(s', b) && HoldsRef(s', d) == Begun(s', b)
    ensures d !in s.edges && s'.edges[d].dst == b.start ==> b.cur.Some? && d == b.e && !Waits(s', d) && HoldsRef(s', d)
    ensures d !in s.edges ==> s'.edges[d].dst in {b.bound, b.end, b.start}
  {
    AddedOld(s, s', b);
  }

  /** What the new edges add to the waits and to the references of r. */
  ghost function NewWaits(s': State, b: Birth, r: PointId): set<EdgeId> {
    if r == b.bound then {BoundOf(b.end)} else if r == b.end && !Begun(s', b) then {BoundOf(b.start)} else {}
  }

  ghost function NewRefs(s': State, b: Birth, r: PointId): set<EdgeId> {
    if r == b.start && b.cur.Some? then {b.e} else if r == b.end && Begun(s', b) then {BoundOf(b.start)} else {}
  }

  lemma AddedMember(s: State, s': State, b: Birth, r: PointId, d: EdgeId)
    requires Shape(s) && Flights(s) && IntervalAdded(s, s', b)
    ensures d in WaitEdges(s', r) <==> d in WaitEdges(s, r) || d in NewWaits(s', b, r)
    ensures d in RefEdges(s', r) <==> d in RefEdges(s, r) || d in NewRefs(s', b, r)
    ensures r == b.end || r == b.start ==> d !in WaitEdges(s, r) && d !in RefEdges(s, r)
    ensures d in s.edges ==> d !in NewWaits(s', b, r) && d !in NewRefs(s', b, r)
  {
    AddedOld(s, s', b);
    if d in s'.edges {
      AddedOwner(s, s', b, d);
    }
  }

  lemma AddedSets(s: State, s': State, b: Birth, r: PointId)
    requires Shape(s) && Flights(s) && IntervalAdded(s, s', b)
    ensures WaitEdges(s', r) == WaitEdges(s, r) + NewWaits(s', b, r) && WaitEdges(s, r) !! NewWaits(s', b, r)
    ensures RefEdges(s', r) == RefEdges(s, r) + NewRefs(s', b, r) && RefEdges(s, r) !! NewRefs(s', b, r)
    ensures r == b.end || r == b.start ==> WaitEdges(s, r) == {} && RefEdges(s, r) == {}
  {
    forall d
      ensures d in WaitEdges(s', r) <==> d in WaitEdges(s, r) + NewWaits(s', b, r)
      ensures d in RefEdges(s', r) <==> d in RefEdges(s, r) + NewRefs(s', b, r)
      ensures !(d in WaitEdges(s, r) && d in NewWaits(s', b, r)) && !(d in RefEdges(s, r) && d in NewRefs(s', b, r))
      ensures r == b.end || r == b.start ==> d !in WaitEdges(s, r) && d !in RefEdges(s, r)
    {
      AddedMember(s, s', b, r, d);
    }
  }

  lemma AddedCounts(s: State, s': State, b: Birth, r: PointId)
    requires Shape(s) && Flights(s) && IntervalAdded(s, s', b)
    ensures |WaitEdges(s', r)| == |WaitEdges(s, r)| + |NewWaits(s', b, r)|
    ensures |RefEdges(s', r)| == |RefEdges(s, r)| + |NewRefs(s', b, r)|
    ensures r == b.end || r == b.start ==> WaitEdges(s, r) == {} && RefEdges(s, r) == {}
  {
    AddedSets(s, s', b, r);
  }

  lemma AddedHolders(s: State, s': State, b: Birth, r: PointId)
    requires Locks(s) && IntervalAdded(s, s', b)
    ensures RefGuards(s', r) == RefGuards(s, r) && RefTakers(s', r) == RefTakers(s, r)
    ensures r == b.end || r == b.start ==> RefGuards(s, r) == {} && RefTakers(s, r) == {}
  {
    assert forall p :: p in s.points ==> s'.points[p].life == s.points[p].life;
    if p :| p in RefTakers(s, r) {
      assert TakerOk(s, p);
    }
  }

  /** The counts of the new points are what keeps them waiting and alive. */
  ghost predicate CountsFit(s: State, s': State, b: Birth) {
    b.bound in s'.points && b.end in s'.points && b.start in s'.points && b.bound in s.points &&
    var begun := Begun(s', b);
    && (s.points[b.bound].run != Closed <==> s'.points[b.bound].run != Closed)
    && s'.points[b.end].owner == None && s'.points[b.end].run != Closed && s'.points[b.start].run == Closed
    && s'.points[b.end].wc == (if begun then 1 else 2) && s'.points[b.end].rc == (if begun then 2 else 1)
    && (!begun ==> s'.points[b.start].wc == 1 && s'.points[b.start].owner.Some?)
    && s'.points[b.start].rc == (if b.cur.Some? then 2 else 1)
    && s'.points[b.start].user == 0 && s'.points[b.end].user == 0
  }

  lemma AddedWaitTotal(s: State, s': State, b: Birth, r: PointId)
    requires Shape(s) && Flights(s) && IntervalAdded(s, s', b) && r in s.points
    requires s.points[b.bound].run != Closed <==> s'.points[b.bound].run != Closed
    ensures WaitTotal(s', r) == WaitTotal(s, r) + Bit(r == b.bound)
  {
    AddedCounts(s, s', b, r);
  }

  lemma AddedRefTotal(s: State, s': State, b: Birth, r: PointId)
    requires Shape(s) && Flights(s) && Locks(s) && IntervalAdded(s, s', b) && r in s.points
    ensures RefTotal(s', r) == RefTotal(s, r)
  {
    AddedCounts(s, s', b, r);
    AddedHolders(s, s', b, r);
  }

  lemma AddedNewTotal(s: State, s': State, b: Birth, r: PointId)
    requires Shape(s) && Flights(s) && Locks(s) && IntervalAdded(s, s', b) && CountsFit(s, s', b)
    requires r == b.end || r == b.start
    ensures WaitsOk(s', r, 0) && RefsOk(s', r, 0)
  {
    AddedCounts(s, s', b, r);
    AddedHolders(s, s', b, r);
  }

  lemma AddedTotal(s: State, s': State, b: Birth, r: PointId)
    requires Shape(s) && Flights(s) && Locks(s) && IntervalAdded(s, s', b) && CountsFit(s, s', b) && r in s'.points
    requires r in s.points ==> WaitsOk(s, r, 0) && RefsOk(s, r, 0)
    ensures WaitsOk(s', r, 0) && RefsOk(s', r, 0)
  {
    if r in s.points {
      AddedWaitTotal(s, s', b, r);
      AddedRefTotal(s, s', b, r);
    } else {
      AddedNewTotal(s, s', b, r);
    }
  }

  lemma AddedTotals(s: State, s': State, b: Birth)
    requires Shape(s) && Flights(s) && Locks(s) && IntervalAdded(s, s', b) && CountsFit(s, s', b)
    requires WaitCounts(s, None) && RefCounts(s, None)
    ensures WaitCounts(s', None) && RefCounts(s', None)
  {
    forall r | r in s'.points
      ensures WaitsOk(s', r, 0) && RefsOk(s', r, 0)
    {
      assert r in s.points ==> WaitsOk(s, r, Debt(None, r)) && RefsOk(s, r, Debt(None, r));
      AddedTotal(s, s', b, r);
    }
  }

  lemma AddedGuard(s: State, s': State, b: Birth, g: GuardId)
    requires Shape(s) && IntervalAdded(s, s', b) && g in s.guards && GuardOk(s, g, 0) && ChainOk(s, g)
    ensures GuardOk(s', g, 0) && ChainOk(s', g)
  {
    AddedOld(s, s', b);
    assert GuardRequests(s', g) == GuardRequests(s, g);
    assert GuardTakers(s', g) == GuardTakers(s, g);
    ChainStays(s, s', g);
  }

  lemma AddedLocks(s: State, s': State, b: Birth)
    requires Shape(s) && Locks(s) && IntervalAdded(s, s', b)
    ensures Locks(s')
  {
    AddedOld(s, s', b);
    forall r {:trigger RequestOk(s', r)} | r in s'.requests
      ensures RequestOk(s', r)
    {
      assert RequestOk(s, r);
    }
    forall p {:trigger TakerOk(s', p)} | p in s'.points
      ensures TakerOk(s', p)
    {
      if p in s.points {
        assert TakerOk(s, p);
      }
    }
  }

  lemma AddedGuards(s: State, s': State, b: Birth)
    requires Shape(s) && GuardCounts(s, None) && Chains(s) && IntervalAdded(s, s', b)
    ensures GuardCounts(s', None) && Chains(s')
  {
    forall g | g in s'.guards
      ensures GuardOk(s', g, 0) && ChainOk(s', g)
    {
      assert GuardOk(s, g, Debt(None, g)) && ChainOk(s, g);
      AddedGuard(s, s', b, g);
    }
    ByGuard(s');
  }

  /** All but the tasks. */
  lemma AddedKeeps(s: State, s': State, b: Birth)
    requires Invariant(s) && IntervalAdded(s, s', b) && CountsFit(s, s', b) && s'.clock >= s.clock
    requires HasOccurred(s'.points[b.start].life) ==>
               s'.points[b.start].wc == WC_STARTED && s'.points[b.start].owner == None &&
               s'.points[b.start].run == Closed && s'.points[b.start].life.at == s.clock < s'.clock
    requires Tasks(s')
    ensures Invariant(s')
  {
    AddedShape(s, s', b);
    AddedFlights(s, s', b);
    AddedOrder(s, s', b);
    AddedTotals(s, s', b);
    AddedLocks(s, s', b);
    AddedGuards(s, s', b);
  }

  // ----- interval() --------------------------------------------------------------------

  ghost predicate Created(s: State, t: PointId, bound: PointId, start: PointId, end: PointId, e: EdgeId, s': State) {
    t in s.points && s.points[t].run.Body? && bound in s.points && !HasOccurred(s.points[bound].life) &&
    start !in s.points && end !in s.points && start != end && e.Out? && e !in s.edges &&
    CurrentStartOk(s, s.points[t].run.cur) && s' == DoNewInterval(s, t, bound, start, end, e)
  }

  lemma CreatedAdds(s: State, t: PointId, bound: PointId, start: PointId, end: PointId, e: EdgeId, s': State)
    requires Created(s, t, bound, start, end, e, s')
    ensures IntervalAdded(s, s', Birth(bound, end, start, s.points[t].run.cur, e))
    ensures CountsFit(s, s', Birth(bound, end, start, s.points[t].run.cur, e))
    ensures s'.clock == s.clock && s'.points[bound].run == s.points[bound].run
    ensures s'.points[end].run == NotRun && s'.points[end].start == Some(start) && s'.points[end].task == Empty
    ensures s'.points[start].task == Block && s'.points[start].owner == Some(t) && s'.points[start].life == Waiting
    ensures s'.points[start].start == None
  {
  }

  lemma CreatedTasks(s: State, t: PointId, bound: PointId, start: PointId, end: PointId, e: EdgeId, s': State)
    requires Tasks(s) && Created(s, t, bound, start, end, e, s')
    ensures Tasks(s')
  {
    CreatedAdds(s, t, bound, start, end, e, s');
    forall p | p in s'.points
      ensures TaskOk(s', p)
    {
      if p in s.points {
        assert TaskOk(s, p);
      }
    }
  }

  lemma CreatedKeeps(s: State, t: PointId, bound: PointId, start: PointId, end: PointId, e: EdgeId, s': State)
    requires Invariant(s) && Created(s, t, bound, start, end, e, s')
    ensures Invariant(s')
  {
    CreatedAdds(s, t, bound, start, end, e, s');
    CreatedTasks(s, t, bound, start, end, e, s');
    AddedKeeps(s, s', Birth(bound, end, start, s.points[t].run.cur, e));
  }

  lemma NewIntervalMeans(s: State, t: PointId, bound: PointId, start: PointId, end: PointId, e: EdgeId, s': State)
    requires Shape(s) && Ordered(s) && Tasks(s) && Step(s, NewInterval(t, bound, start, end, e), s')
    ensures Created(s, t, bound, start, end, e, s')
  {
    AllowedTargetIsPinned(s, t, bound);
    CurrentStart(s, t);
  }

  lemma NewIntervalKeeps(s: State, t: PointId, bound: PointId, start: PointId, end: PointId, e: EdgeId, s': State)
    requires Invariant(s) && Step(s, NewInterval(t, bound, start, end, e), s')
    ensures Invariant(s')
  {
    NewIntervalMeans(s, t, bound, start, end, e, s');
    CreatedKeeps(s, t, bound, start, end, e, s');
  }

  // ----- subinterval() -----------------------------------------------------------------

  ghost predicate Nested(s: State, t: PointId, start: PointId, end: PointId, e: EdgeId, s': State) {
    t in s.points && s.points[t].run.Body? && s.points[t].run.sub.None? && !HasOccurred(s.points[t].life) &&
    start !in s.points && end !in s.points && start != end && e.Out? && e !in s.edges &&
    CurrentStartOk(s, s.points[t].run.cur) && s' == DoSubinterval(s, t, start, end, e)
  }

  lemma NestedAdds(s: State, t: PointId, start: PointId, end: PointId, e: EdgeId, s': State)
    requires Nested(s, t, start, end, e, s')
    ensures IntervalAdded(s, s', Birth(t, end, start, s.points[t].run.cur, e))
    ensures CountsFit(s, s', Birth(t, end, start, s.points[t].run.cur, e))
    ensures s'.clock == s.clock + 1 && s'.points[t].run == Body(s.points[t].run.cur, Some(end))
    ensures s'.points[end].run == Body(Some(start), None) && s'.points[end].start == Some(start) && s'.points[end].task == Latch
    ensures s'.points[start].task == Block && s'.points[start].owner == None && s'.points[start].start == None
    ensures s'.points[start].life == Occurred(s.clock, false, Running) && s'.points[start].wc == WC_STARTED
  {
  }

  lemma NestedTasks(s: State, t: PointId, start: PointId, end: PointId, e: EdgeId, s': State)
    requires Tasks(s) && Nested(s, t, start, end, e, s')
    ensures Tasks(s')
  {
    NestedAdds(s, t, start, end, e, s');
    assert TaskOk(s, t);
    forall p | p in s'.points
      ensures TaskOk(s', p)
    {
      if p in s.points {
        assert TaskOk(s, p);
      }
    }
  }

  lemma NestedKeeps(s: State, t: PointId, start: PointId, end: PointId, e: EdgeId, s': State)
    requires Invariant(s) && Nested(s, t, start, end, e, s')
    ensures Invariant(s')
  {
    NestedAdds(s, t, start, end, e, s');
    NestedTasks(s, t, start, end, e, s');
    AddedKeeps(s, s', Birth(t, end, start, s.points[t].run.cur, e));
  }

  lemma SubintervalMeans(s: State, t: PointId, start: PointId, end: PointId, e: EdgeId, s': State)
    requires Ordered(s) && Tasks(s) && Step(s, Subinterval(t, start, end, e), s')
    ensures Nested(s, t, start, end, e, s')
  {
    CurrentStart(s, t);
  }

  lemma SubintervalKeeps(s: State, t: PointId, start: PointId, end: PointId, e: EdgeId, s': State)
    requires Invariant(s) && Step(s, Subinterval(t, start, end, e), s')
    ensures Invariant(s')
  {
    SubintervalMeans(s, t, start, end, e, s');
    NestedKeeps(s, t, start, end, e, s');
  }
}
