/** What worker threads do keeps the invariant: scheduling, running and ending tasks,
    delivering notifications, dispatching, and releasing the references of freed points. */
module SchedulerWorkers {
  import opened SchedulerState
  import opened SchedulerSteps
  import opened SchedulerInvariant
  import opened SchedulerFrames
  import opened SchedulerArrive
  import opened SchedulerRelease

  // ----- One point moving on -----------------------------------------------------------

  /** p moves on without beginning or ceasing to own counts of others: it stays occurred
      or not, dead or not, and keeps its time. */
  ghost predicate MovedOn(s: State, p: PointId, pt: Point, s': State) {
    p in s.points && s' == WithPoint(s, p, pt) &&
    pt.bound == s.points[p].bound && pt.depth == s.points[p].depth &&
    SameStanding(s.points[p].life, pt.life)
  }

  predicate SameStanding(life: Life, life': Life) {
    life' == life ||
    (life.Acquiring? && life.taking.Popping? && life'.Waiting?) ||
    (life.Occurred? && life'.Occurred? && life'.at == life.at && life'.dead == life.dead && life.stage != Notifying)
  }

  lemma MovedOnCounts(s: State, p: PointId, pt: Point, s': State, q: PointId)
    requires MovedOn(s, p, pt, s')
    ensures WaitEdges(s', q) == WaitEdges(s, q) && RefEdges(s', q) == RefEdges(s, q)
    ensures RefGuards(s', q) == RefGuards(s, q) && RefTakers(s', q) == RefTakers(s, q)
  {
    assert SameEdgeOwners(s, s');
    SameCounts(s, s', q);
  }

  lemma MovedOnShape(s: State, p: PointId, pt: Point, s': State)
    requires Shape(s) && Flights(s) && MovedOn(s, p, pt, s')
    ensures Shape(s') && Flights(s')
  {
    ShapeStays(s, s');
  }

  lemma MovedOnOrder(s: State, p: PointId, pt: Point, s': State)
    requires Ordered(s) && MovedOn(s, p, pt, s')
    requires HasOccurred(pt.life) ==> pt.wc == WC_STARTED && pt.owner == None && pt.run == Closed
    ensures Ordered(s')
  {
  }

  lemma MovedOnLocks(s: State, p: PointId, pt: Point, s': State)
    requires Locks(s) && GuardCounts(s, None) && Chains(s) && MovedOn(s, p, pt, s')
    ensures Locks(s') && GuardCounts(s', None) && Chains(s')
  {
    LocksStay(s, s');
  }

  /** The part of one point's books that its own fields keep. */
  ghost predicate BooksKept(pt: Point, wd: nat, rd: nat, pt': Point, wd': nat, rd': nat) {
    && (!HasOccurred(pt.life) ==>
          pt'.wc >= 1 &&
          pt'.wc + Bit(pt.owner.Some?) + Bit(pt.run != Closed) + Bit(pt.life.Acquiring?) + wd ==
          pt.wc + Bit(pt'.owner.Some?) + Bit(pt'.run != Closed) + Bit(pt'.life.Acquiring?) + wd')
    && pt'.rc == pt.rc
    && Bit(SchedulerHolds(pt.life)) + pt.user + rd == Bit(SchedulerHolds(pt'.life)) + pt'.user + rd'
    && (IsDead(pt'.life) && pt'.life.Occurred? && pt'.life.stage == Done ==> rd' == 1)
  }

  lemma MovedOnTotal(s: State, p: PointId, pt: Point, s': State, wd: nat, rd: nat, wd': nat, rd': nat)
    requires MovedOn(s, p, pt, s') && WaitsOk(s, p, wd) && RefsOk(s, p, rd)
    requires !s.points[p].life.Freed? && BooksKept(s.points[p], wd, rd, pt, wd', rd')
    ensures WaitsOk(s', p, wd') && RefsOk(s', p, rd')
  {
    MovedOnCounts(s, p, pt, s', p);
  }

  lemma MovedOnTotals(s: State, p: PointId, pt: Point, s': State, q': Option<PointId>, r': Option<PointId>)
    requires MovedOn(s, p, pt, s') && WaitCounts(s, None) && RefCounts(s, None) && !s.points[p].life.Freed?
    requires q' == None || q' == Some(p)
    requires r' == None || r' == Some(p)
    requires BooksKept(s.points[p], 0, 0, pt, Bit(q'.Some?), Bit(r'.Some?))
    ensures WaitCounts(s', q') && RefCounts(s', r')
  {
    forall r | r in s'.points
      ensures WaitsOk(s', r, Debt(q', r)) && RefsOk(s', r, Debt(r', r))
    {
      assert WaitsOk(s, r, Debt(None, r)) && RefsOk(s, r, Debt(None, r));
      if r == p {
        MovedOnTotal(s, p, pt, s', 0, 0, Bit(q'.Some?), Bit(r'.Some?));
      } else {
        MovedOnCounts(s, p, pt, s', r);
      }
    }
  }

  lemma MovedOnKeeps(s: State, p: PointId, pt: Point, s': State, q': Option<PointId>, r': Option<PointId>)
    requires Invariant(s) && MovedOn(s, p, pt, s') && !s.points[p].life.Freed?
    requires q' == None || q' == Some(p)
    requires r' == None || r' == Some(p)
    requires BooksKept(s.points[p], 0, 0, pt, Bit(q'.Some?), Bit(r'.Some?))
    requires HasOccurred(pt.life) ==> pt.wc == WC_STARTED && pt.owner == None && pt.run == Closed
    requires Tasks(s')
    ensures InvariantUpTo(s', q', r')
  {
    MovedOnShape(s, p, pt, s');
    MovedOnOrder(s, p, pt, s');
    MovedOnTotals(s, p, pt, s', q', r');
    MovedOnLocks(s, p, pt, s');
  }

  // ----- interval_schedule_unchecked() ---------------------------------------------------

  lemma ScheduleKeepsTasks(s: State, p: PointId, pt: Point, s1: State)
    requires Tasks(s) && p in s.points && pt == s.points[p].(owner := None) && s1 == WithPoint(s, p, pt)
    ensures Tasks(s1)
  {
    forall q | q in s1.points
      ensures TaskOk(s1, q)
    {
      assert TaskOk(s, q) && TaskOk(s, p);
    }
  }

  lemma Unstarted(s: State, p: PointId)
    requires Ordered(s) && p in s.points && (s.points[p].owner.Some? || s.points[p].run != Closed)
    ensures !HasOccurred(s.points[p].life)
  {
  }

  lemma CountsNow(s: State, p: PointId)
    requires WaitCounts(s, None) && RefCounts(s, None) && p in s.points
    ensures WaitsOk(s, p, 0) && RefsOk(s, p, 0)
  {
    assert WaitsOk(s, p, Debt(None, p)) && RefsOk(s, p, Debt(None, p));
  }

  lemma ScheduleKeeps(s: State, p: PointId, pt: Point, s1: State)
    requires Invariant(s) && p in s.points && s.points[p].owner.Some?
    requires pt == s.points[p].(owner := None) && s1 == WithPoint(s, p, pt)
    ensures Invariant(Arrive(s1, p, 0))
  {
    Unstarted(s, p);
    CountsNow(s, p);
    ScheduleKeepsTasks(s, p, pt, s1);
    MovedOnKeeps(s, p, pt, s1, Some(p), None);
    ArriveKeeps(s1, p);
  }

  // ----- The end of a task ---------------------------------------------------------------

  lemma EndTaskKeepsTasks(s: State, t: PointId, pt: Point, s1: State)
    requires Tasks(s) && t in s.points && s.points[t].run.Flushing?
    requires forall p :: p in s.points ==> s.points[p].owner != Some(t)
    requires pt == s.points[t].(run := Closed) && s1 == WithPoint(s, t, pt)
    ensures Tasks(s1)
  {
    forall q | q in s1.points
      ensures TaskOk(s1, q)
    {
      assert TaskOk(s, q) && TaskOk(s, t);
    }
  }

  lemma EndTaskKeeps(s: State, t: PointId, pt: Point, s1: State)
    requires Invariant(s) && t in s.points && s.points[t].run.Flushing?
    requires forall p :: p in s.points ==> s.points[p].owner != Some(t)
    requires pt == s.points[t].(run := Closed) && s1 == WithPoint(s, t, pt)
    ensures Invariant(Arrive(s1, t, 0))
  {
    Unstarted(s, t);
    CountsNow(s, t);
    EndTaskKeepsTasks(s, t, pt, s1);
    MovedOnKeeps(s, t, pt, s1, Some(t), None);
    ArriveKeeps(s1, t);
  }

  lemma SubintervalReturnKeepsTasks(s: State, t: PointId, pt: Point, s': State)
    requires Tasks(s) && t in s.points && s.points[t].run.Body?
    requires pt == s.points[t].(run := Body(s.points[t].run.cur, None)) && s' == WithPoint(s, t, pt)
    ensures Tasks(s')
  {
    forall q | q in s'.points
      ensures TaskOk(s', q)
    {
      assert TaskOk(s, q) && TaskOk(s, t);
    }
  }

  lemma SubintervalReturnKeeps(s: State, t: PointId, pt: Point, s': State)
    requires Invariant(s) && t in s.points && s.points[t].run.Body?
    requires pt == s.points[t].(run := Body(s.points[t].run.cur, None)) && s' == WithPoint(s, t, pt)
    ensures Invariant(s')
  {
    Unstarted(s, t);
    CountsNow(s, t);
    SubintervalReturnKeepsTasks(s, t, pt, s');
    MovedOnKeeps(s, t, pt, s', None, None);
  }

  // ----- task_dispatch() -------------------------------------------------------------------

  /** All notifications of p have arrived, and it goes on to stage. */
  ghost predicate Dispatched(s: State, p: PointId, pt: Point, s': State) {
    p in s.points && s.points[p].life.Occurred? && s.points[p].life.stage == Notifying && s.inflight !! OutEdges(s, p) &&
    pt == s.points[p].(life := s.points[p].life.(stage := if s.points[p].task == Block then Queued else Done)) &&
    s' == WithPoint(s, p, pt)
  }

  lemma DispatchedCounts(s: State, p: PointId, pt: Point, s': State, q: PointId)
    requires Dispatched(s, p, pt, s')
    ensures WaitEdges(s', q) == WaitEdges(s, q) && RefEdges(s', q) == RefEdges(s, q)
    ensures RefGuards(s', q) == RefGuards(s, q) && RefTakers(s', q) == RefTakers(s, q)
  {
    assert SameEdgeOwners(s, s');
    SameCounts(s, s', q);
  }

  lemma DispatchedShape(s: State, p: PointId, pt: Point, s': State)
    requires Shape(s) && Flights(s) && Dispatched(s, p, pt, s')
    ensures Shape(s') && Flights(s')
  {
    ShapeStays(s, s');
    assert forall e :: e in s.inflight ==> e !in OutEdges(s, p);
  }

  lemma DispatchedOrder(s: State, p: PointId, pt: Point, s': State)
    requires Ordered(s) && Dispatched(s, p, pt, s')
    ensures Ordered(s')
  {
  }

  lemma DispatchedTotals(s: State, p: PointId, pt: Point, s': State)
    requires WaitCounts(s, None) && RefCounts(s, None) && Dispatched(s, p, pt, s')
    ensures WaitCounts(s', None) && RefCounts(s', if pt.task == Block then None else Some(p))
  {
    var debtor := if pt.task == Block then None else Some(p);
    forall r | r in s'.points
      ensures WaitsOk(s', r, 0) && RefsOk(s', r, Debt(debtor, r))
    {
      assert WaitsOk(s, r, Debt(None, r)) && RefsOk(s, r, Debt(None, r));
      DispatchedCounts(s, p, pt, s', r);
    }
  }

  lemma DispatchedTasks(s: State, p: PointId, pt: Point, s': State)
    requires Tasks(s) && Dispatched(s, p, pt, s')
    ensures Tasks(s')
  {
    forall q | q in s'.points
      ensures TaskOk(s', q)
    {
      assert TaskOk(s, q) && TaskOk(s, p);
    }
  }

  lemma DispatchedLocks(s: State, p: PointId, pt: Point, s': State)
    requires Locks(s) && GuardCounts(s, None) && Chains(s) && Dispatched(s, p, pt, s')
    ensures Locks(s') && GuardCounts(s', None) && Chains(s')
  {
    LocksStay(s, s');
  }

  lemma DispatchKeeps(s: State, p: PointId, pt: Point, s1: State)
    requires Invariant(s) && Dispatched(s, p, pt, s1) && PointInRange(s.points[p])
    ensures Invariant(if pt.task == Block then s1 else Release(s1, p))
  {
    DispatchedShape(s, p, pt, s1);
    DispatchedOrder(s, p, pt, s1);
    DispatchedTotals(s, p, pt, s1);
    DispatchedTasks(s, p, pt, s1);
    DispatchedLocks(s, p, pt, s1);
    if pt.task != Block {
      ReleaseKeeps(s1, p);
    }
  }

  // ----- interval_execute() ------------------------------------------------------------------

  /** The block of p is taken from a deque and begins to run. */
  ghost predicate Began(s: State, p: PointId, end: PointId, endPt: Point, pt: Point, s1: State, s': State) {
    p in s.points && end in s.points && p != end && s.points[p].bound == Some(end) &&
    s.points[p].life.Occurred? && s.points[p].life.stage == Queued &&
    endPt == s.points[end].(run := Body(if s.points[p].rc == RC_DEAD_PRE then None else Some(p), None)) &&
    pt == s.points[p].(life := s.points[p].life.(stage := Running)) &&
    s1 == WithPoint(s, end, endPt) && s' == WithPoint(s1, p, pt)
  }

  lemma BeganTasks(s: State, p: PointId, end: PointId, endPt: Point, pt: Point, s1: State, s': State)
    requires Tasks(s) && Began(s, p, end, endPt, pt, s1, s') && s.points[p].task == Block
    requires IsDead(s.points[p].life) ==> s.points[p].rc == RC_DEAD_PRE
    ensures Tasks(s') && s.points[end].run == NotRun
  {
    assert TaskOk(s, p) && TaskOk(s, end);
    forall q | q in s'.points
      ensures TaskOk(s', q)
    {
      assert TaskOk(s, q);
    }
  }

  lemma BeganShape(s: State, p: PointId, end: PointId, endPt: Point, pt: Point, s1: State, s': State)
    requires Shape(s) && Flights(s) && Ordered(s) && Began(s, p, end, endPt, pt, s1, s') && s.points[end].run == NotRun
    ensures Shape(s') && Flights(s') && Ordered(s')
  {
    MovedOnShape(s, end, endPt, s1);
    MovedOnShape(s1, p, pt, s');
    MovedOnOrder(s, end, endPt, s1);
    MovedOnOrder(s1, p, pt, s');
  }

  lemma BeganTotals(s: State, p: PointId, end: PointId, endPt: Point, pt: Point, s1: State, s': State)
    requires Ordered(s) && WaitCounts(s, None) && RefCounts(s, None) && Began(s, p, end, endPt, pt, s1, s') && s.points[end].run == NotRun
    ensures WaitCounts(s', None) && RefCounts(s', None)
  {
    CountsNow(s, end);
    MovedOnTotals(s, end, endPt, s1, None, None);
    MovedOnTotals(s1, p, pt, s', None, None);
  }

  lemma BeganLocks(s: State, p: PointId, end: PointId, endPt: Point, pt: Point, s1: State, s': State)
    requires Locks(s) && GuardCounts(s, None) && Chains(s) && Began(s, p, end, endPt, pt, s1, s')
    ensures Locks(s') && GuardCounts(s', None) && Chains(s')
  {
    MovedOnLocks(s, end, endPt, s1);
    MovedOnLocks(s1, p, pt, s');
  }

  lemma QueuedIsBlock(s: State, p: PointId)
    requires Tasks(s) && RefCounts(s, None) && Shape(s) && p in s.points && s.points[p].life.Occurred? && s.points[p].life.stage == Queued
    ensures s.points[p].task == Block && (IsDead(s.points[p].life) <==> s.points[p].rc == RC_DEAD_PRE)
    ensures s.points[p].bound.Some? && s.points[p].bound.value in s.points && s.points[p].bound.value != p
  {
    assert TaskOk(s, p) && BoundOk(s, p) && RefsOk(s, p, Debt(None, p));
  }

  lemma StartTaskKeeps(s: State, p: PointId, end: PointId, endPt: Point, pt: Point, s1: State, s': State)
    requires Invariant(s) && Began(s, p, end, endPt, pt, s1, s')
    ensures Invariant(s')
  {
    QueuedIsBlock(s, p);
    BeganTasks(s, p, end, endPt, pt, s1, s');
    BeganShape(s, p, end, endPt, pt, s1, s');
    BeganTotals(s, p, end, endPt, pt, s1, s');
    BeganLocks(s, p, end, endPt, pt, s1, s');
  }

  /** The block returns; a start point loses the reference kept for its task. */
  ghost predicate Returned(s: State, t: PointId, tPt: Point, p: PointId, pt: Point, s1: State, s': State) {
    t in s.points && p in s.points && p != t && s.points[t].run.Body? && s.points[t].start == Some(p) &&
    s.points[p].life.Occurred? && s.points[p].life.stage == Running &&
    tPt == s.points[t].(run := Flushing) && s1 == WithPoint(s, t, tPt) &&
    pt == s.points[p].(life := s.points[p].life.(stage := Done)) && s' == WithPoint(s1, p, pt)
  }

  lemma ReturnedTasks(s: State, t: PointId, tPt: Point, p: PointId, pt: Point, s1: State, s': State)
    requires Tasks(s) && Returned(s, t, tPt, p, pt, s1, s')
    ensures Tasks(s')
  {
    assert TaskOk(s, t) && TaskOk(s, p);
    forall q | q in s'.points
      ensures TaskOk(s', q)
    {
      assert TaskOk(s, q);
    }
  }

  lemma ReturnedShape(s: State, t: PointId, tPt: Point, p: PointId, pt: Point, s1: State, s': State)
    requires Shape(s) && Flights(s) && Ordered(s) && Returned(s, t, tPt, p, pt, s1, s')
    ensures Shape(s') && Flights(s') && Ordered(s')
  {
    MovedOnShape(s, t, tPt, s1);
    MovedOnShape(s1, p, pt, s');
    MovedOnOrder(s, t, tPt, s1);
    MovedOnOrder(s1, p, pt, s');
  }

  lemma ReturnedTotals(s: State, t: PointId, tPt: Point, p: PointId, pt: Point, s1: State, s': State)
    requires Ordered(s) && WaitCounts(s, None) && RefCounts(s, None) && Returned(s, t, tPt, p, pt, s1, s')
    ensures WaitCounts(s', None) && RefCounts(s', Some(p))
  {
    CountsNow(s, t);
    MovedOnTotals(s, t, tPt, s1, None, None);
    MovedOnTotals(s1, p, pt, s', None, Some(p));
  }

  lemma ReturnedLocks(s: State, t: PointId, tPt: Point, p: PointId, pt: Point, s1: State, s': State)
    requires Locks(s) && GuardCounts(s, None) && Chains(s) && Returned(s, t, tPt, p, pt, s1, s')
    ensures Locks(s') && GuardCounts(s', None) && Chains(s')
  {
    MovedOnLocks(s, t, tPt, s1);
    MovedOnLocks(s1, p, pt, s');
  }

  lemma FinishBodyKeeps(s: State, t: PointId, tPt: Point, p: PointId, pt: Point, s1: State, s': State)
    requires Invariant(s) && Returned(s, t, tPt, p, pt, s1, s') && PointInRange(s.points[p])
    ensures Invariant(Release(s', p))
  {
    ReturnedTasks(s, t, tPt, p, pt, s1, s');
    ReturnedShape(s, t, tPt, p, pt, s1, s');
    ReturnedTotals(s, t, tPt, p, pt, s1, s');
    ReturnedLocks(s, t, tPt, p, pt, s1, s');
    ReleaseKeeps(s', p);
  }

  lemma RunningStart(s: State, t: PointId)
    requires Shape(s) && Tasks(s) && t in s.points && s.points[t].run.Body? && s.points[t].start.Some?
    ensures var p := s.points[t].start.value;
            p in s.points && p != t && (s.points[p].life.Occurred? ==> s.points[p].life.stage == Running)
  {
    var p := s.points[t].start.value;
    assert TaskOk(s, t) && TaskOk(s, p) && BoundOk(s, p);
  }

  lemma FinishRootTasks(s: State, t: PointId, tPt: Point, s': State)
    requires Tasks(s) && t in s.points && s.points[t].run.Body? && s.points[t].start.None?
    requires tPt == s.points[t].(run := Flushing) && s' == WithPoint(s, t, tPt)
    ensures Tasks(s')
  {
    forall q | q in s'.points
      ensures TaskOk(s', q)
    {
      assert TaskOk(s, q) && TaskOk(s, t);
    }
  }

  lemma FinishRootKeeps(s: State, t: PointId, tPt: Point, s': State)
    requires Invariant(s) && t in s.points && s.points[t].run.Body? && s.points[t].start.None?
    requires tPt == s.points[t].(run := Flushing) && s' == WithPoint(s, t, tPt)
    ensures Invariant(s')
  {
    Unstarted(s, t);
    CountsNow(s, t);
    FinishRootTasks(s, t, tPt, s');
    MovedOnKeeps(s, t, tPt, s', None, None);
  }

  // ----- arrive_edge(), one entry ----------------------------------------------------------

  /** The edge e has arrived at its target q, whose reference count it may have raised. */
  ghost predicate Arrived(s: State, e: EdgeId, q: PointId, pt: Point, s': State) {
    e in s.inflight && ConnectedIn(s, e) && s.edges[e].dst == q &&
    pt == s.points[q].(rc := s.points[q].rc + Bit(!IsDead(s.points[s.edges[e].src].life))) &&
    s' == WithPoint(s, q, pt).(inflight := s.inflight - {e})
  }

  lemma ArrivedSets(s: State, e: EdgeId, q: PointId, pt: Point, s': State, r: PointId)
    requires Flights(s) && Arrived(s, e, q, pt, s')
    ensures WaitEdges(s', r) == WaitEdges(s, r) - (if r == q then {e} else {})
    ensures r == q ==> e in WaitEdges(s, r)
    ensures RefEdges(s', r) == RefEdges(s, r) + (if r == q && !IsDead(s.points[s.edges[e].src].life) then {e} else {})
    ensures e !in RefEdges(s, r)
  {
    forall d | d in s.edges && d != e
      ensures ConnectedIn(s', d) == ConnectedIn(s, d)
      ensures ConnectedIn(s, d) ==> Waits(s', d) == Waits(s, d) && HoldsRef(s', d) == HoldsRef(s, d)
    {
    }
  }

  lemma ArrivedCounts(s: State, e: EdgeId, q: PointId, pt: Point, s': State, r: PointId)
    requires Flights(s) && Arrived(s, e, q, pt, s')
    ensures |WaitEdges(s, r)| == |WaitEdges(s', r)| + Bit(r == q)
    ensures |RefEdges(s', r)| == |RefEdges(s, r)| + Bit(r == q && !IsDead(s.points[s.edges[e].src].life))
  {
    ArrivedSets(s, e, q, pt, s', r);
  }

  lemma ArrivedTotal(s: State, e: EdgeId, q: PointId, pt: Point, s': State, r: PointId)
    requires Flights(s) && Arrived(s, e, q, pt, s') && r in s.points && WaitsOk(s, r, 0) && RefsOk(s, r, 0)
    requires !HasOccurred(s.points[q].life)
    ensures WaitsOk(s', r, Bit(q == r)) && RefsOk(s', r, 0)
  {
    ArrivedCounts(s, e, q, pt, s', r);
    SameTakers(s, s', r);
    assert RefGuards(s', r) == RefGuards(s, r);
  }

  lemma ArrivedTotals(s: State, e: EdgeId, q: PointId, pt: Point, s': State)
    requires Flights(s) && Ordered(s) && WaitCounts(s, None) && RefCounts(s, None) && Arrived(s, e, q, pt, s')
    ensures WaitCounts(s', Some(q)) && RefCounts(s', None)
  {
    forall r | r in s'.points
      ensures WaitsOk(s', r, Debt(Some(q), r)) && RefsOk(s', r, 0)
    {
      assert WaitsOk(s, r, Debt(None, r)) && RefsOk(s, r, Debt(None, r));
      ArrivedTotal(s, e, q, pt, s', r);
    }
  }

  lemma ArrivedShape(s: State, e: EdgeId, q: PointId, pt: Point, s': State)
    requires Shape(s) && Flights(s) && Ordered(s) && Arrived(s, e, q, pt, s')
    ensures Shape(s') && Flights(s') && Ordered(s') && !HasOccurred(s.points[q].life)
  {
    ShapeStays(s, s');
    ArrivedOrder(s, e, q, pt, s');
  }

  lemma ArrivedOrder(s: State, e: EdgeId, q: PointId, pt: Point, s': State)
    requires Flights(s) && Ordered(s) && Arrived(s, e, q, pt, s')
    ensures Flights(s') && Ordered(s') && !HasOccurred(s.points[q].life)
  {
  }

  lemma ArrivedTasks(s: State, e: EdgeId, q: PointId, pt: Point, s': State)
    requires Tasks(s) && Arrived(s, e, q, pt, s')
    ensures Tasks(s')
  {
    forall p | p in s'.points
      ensures TaskOk(s', p)
    {
      assert TaskOk(s, p) && TaskOk(s, q);
    }
  }

  lemma ArrivedLocks(s: State, e: EdgeId, q: PointId, pt: Point, s': State)
    requires Locks(s) && GuardCounts(s, None) && Chains(s) && Arrived(s, e, q, pt, s')
    ensures Locks(s') && GuardCounts(s', None) && Chains(s')
  {
    LocksStay(s, s');
  }

  lemma DeliverKeeps(s: State, e: EdgeId, q: PointId, pt: Point, s1: State)
    requires Invariant(s) && Arrived(s, e, q, pt, s1)
    ensures Invariant(Arrive(s1, q, 0))
  {
    ArrivedShape(s, e, q, pt, s1);
    ArrivedTotals(s, e, q, pt, s1);
    ArrivedTasks(s, e, q, pt, s1);
    ArrivedLocks(s, e, q, pt, s1);
    ArriveKeeps(s1, q);
  }

  // ----- free_edges(), one entry -------------------------------------------------------------

  /** A freed point gives up the reference that e held on q. */
  ghost predicate LetGoOf(s: State, e: EdgeId, q: PointId, s': State) {
    e in s.releasing && ConnectedIn(s, e) && s.edges[e].dst == q && s' == s.(releasing := s.releasing - {e})
  }

  lemma LetGoSets(s: State, e: EdgeId, q: PointId, s': State, r: PointId)
    requires Flights(s) && LetGoOf(s, e, q, s')
    ensures WaitEdges(s', r) == WaitEdges(s, r) && RefGuards(s', r) == RefGuards(s, r) && RefTakers(s', r) == RefTakers(s, r)
    ensures RefEdges(s', r) == RefEdges(s, r) - (if r == q then {e} else {})
    ensures r == q ==> e in RefEdges(s, r)
  {
    forall d | d in s.edges && d != e
      ensures ConnectedIn(s', d) == ConnectedIn(s, d)
      ensures ConnectedIn(s, d) ==> Waits(s', d) == Waits(s, d) && HoldsRef(s', d) == HoldsRef(s, d)
    {
    }
  }

  lemma LetGoTotals(s: State, e: EdgeId, q: PointId, s': State)
    requires Flights(s) && WaitCounts(s, None) && RefCounts(s, None) && LetGoOf(s, e, q, s')
    ensures WaitCounts(s', None) && RefCounts(s', Some(q))
  {
    forall r | r in s'.points
      ensures WaitsOk(s', r, 0) && RefsOk(s', r, Debt(Some(q), r))
    {
      assert WaitsOk(s, r, Debt(None, r)) && RefsOk(s, r, Debt(None, r));
      LetGoSets(s, e, q, s', r);
    }
  }

  lemma LetGoRest(s: State, e: EdgeId, q: PointId, s': State)
    requires Shape(s) && Flights(s) && Ordered(s) && Tasks(s) && LetGoOf(s, e, q, s')
    ensures Shape(s') && Flights(s') && Ordered(s') && Tasks(s')
  {
    ShapeStays(s, s');
    forall p | p in s'.points
      ensures TaskOk(s', p)
    {
      assert TaskOk(s, p);
    }
  }

  lemma LetGoLocks(s: State, e: EdgeId, q: PointId, s': State)
    requires Locks(s) && GuardCounts(s, None) && Chains(s) && LetGoOf(s, e, q, s')
    ensures Locks(s') && GuardCounts(s', None) && Chains(s')
  {
    LocksStay(s, s');
  }

  lemma ReleaseEdgeKeeps(s: State, e: EdgeId, q: PointId, s1: State)
    requires Invariant(s) && LetGoOf(s, e, q, s1) && PointInRange(s.points[q])
    ensures Invariant(Release(s1, q))
  {
    LetGoTotals(s, e, q, s1);
    LetGoRest(s, e, q, s1);
    LetGoLocks(s, e, q, s1);
    ReleaseKeeps(s1, q);
  }
}
