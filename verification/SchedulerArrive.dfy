/** arrive() and occur() keep the invariant: the arrival settles the unit of the wait
    count it was called for. */
module SchedulerArrive {
  import opened SchedulerState
  import opened SchedulerSteps
  import opened SchedulerInvariant
  import opened SchedulerFrames

  /** s' is s, except that q, which was held up by nothing, has just occurred. It was not
      declared dead while somebody besides the scheduler held a reference. */
  ghost predicate JustOccurred(s: State, q: PointId, refCount: nat, s': State) {
    q in s.points && s.points[q].life.Waiting? && s.points[q].owner.None? && s.points[q].run == Closed &&
    WaitEdges(s, q) == {} && !HasRequest(s, q) && s.points[q].rc >= 1 &&
    (refCount == 1 ==> s.points[q].rc == 1) &&
    s' == Occur(WithPoint(s, q, s.points[q].(wc := 0)), q, refCount)
  }

  lemma OccurKeepsCounts(s: State, q: PointId, refCount: nat, s': State, r: PointId)
    requires Shape(s) && Flights(s) && JustOccurred(s, q, refCount, s')
    ensures WaitEdges(s', r) == WaitEdges(s, r)
    ensures RefEdges(s', r) == RefEdges(s, r)
    ensures RefGuards(s', r) == RefGuards(s, r)
    ensures RefTakers(s', r) == RefTakers(s, r)
  {
    forall e | e in s.edges
      ensures ConnectedIn(s', e) && Waits(s', e) == Waits(s, e) && HoldsRef(s', e) == HoldsRef(s, e)
    {
      assert (e in s'.inflight) == (e in s.inflight || s.edges[e].src == q);
    }
  }

  lemma OccurKeepsShape(s: State, q: PointId, refCount: nat, s': State)
    requires Shape(s) && Flights(s) && Ordered(s) && JustOccurred(s, q, refCount, s')
    ensures Shape(s') && Flights(s')
  {
    ShapeStays(s, s');
  }

  lemma OccurKeepsOrder(s: State, q: PointId, refCount: nat, s': State)
    requires Shape(s) && Flights(s) && Ordered(s) && JustOccurred(s, q, refCount, s')
    ensures Ordered(s')
  {
    forall e | e in s'.edges && HasOccurred(s'.points[s'.edges[e].dst].life)
      ensures HasOccurred(s'.points[s'.edges[e].src].life) && e !in s'.inflight &&
              s'.points[s'.edges[e].src].life.at < s'.points[s'.edges[e].dst].life.at
    {
      if s.edges[e].dst == q {
        assert e !in WaitEdges(s, q);
      }
    }
  }

  lemma OccurKeepsTotals(s: State, q: PointId, refCount: nat, s': State)
    requires Shape(s) && Flights(s) && WaitCounts(s, Some(q)) && RefCounts(s, None) && JustOccurred(s, q, refCount, s')
    ensures WaitCounts(s', None) && RefCounts(s', None)
  {
    forall r | r in s'.points
      ensures WaitsOk(s', r, 0) && RefsOk(s', r, 0)
    {
      OccurKeepsCounts(s, q, refCount, s', r);
      assert WaitsOk(s, r, Debt(Some(q), r)) && RefsOk(s, r, Debt(None, r));
    }
  }

  lemma OccurKeepsLocks(s: State, q: PointId, refCount: nat, s': State)
    requires Locks(s) && GuardCounts(s, None) && Chains(s) && JustOccurred(s, q, refCount, s')
    ensures Locks(s') && GuardCounts(s', None) && Chains(s')
  {
    LocksStay(s, s');
  }

  lemma OccurKeepsTasks(s: State, q: PointId, refCount: nat, s': State)
    requires Tasks(s) && JustOccurred(s, q, refCount, s')
    ensures Tasks(s')
  {
    forall p | p in s'.points
      ensures TaskOk(s', p)
    {
      assert TaskOk(s, p) && TaskOk(s, q);
    }
  }

  lemma OccurKeeps(s: State, q: PointId, refCount: nat, s': State)
    requires InvariantUpTo(s, Some(q), None) && JustOccurred(s, q, refCount, s')
    ensures Invariant(s')
  {
    OccurKeepsShape(s, q, refCount, s');
    OccurKeepsOrder(s, q, refCount, s');
    OccurKeepsTotals(s, q, refCount, s');
    OccurKeepsLocks(s, q, refCount, s');
    OccurKeepsTasks(s, q, refCount, s');
  }

  /** The arrival is not the last, or the point turns to its pending guards: pt is what
      becomes of q. */
  ghost predicate NotYet(s: State, q: PointId, pt: Point) {
    q in s.points && !HasOccurred(s.points[q].life) && !HasOccurred(pt.life) &&
    pt == s.points[q].(wc := pt.wc, life := pt.life) && pt.wc >= 1 &&
    pt.wc + 1 == s.points[q].wc + Bit(pt.life.Acquiring?) - Bit(s.points[q].life.Acquiring?) &&
    (pt.life == s.points[q].life ||
     (s.points[q].life.Waiting? && pt.life == Acquiring(Popping)))
  }

  lemma NotYetKeepsTotals(s: State, q: PointId, pt: Point, r: PointId)
    requires NotYet(s, q, pt) && r in s.points
    requires WaitsOk(s, r, Debt(Some(q), r)) && RefsOk(s, r, 0)
    ensures WaitsOk(WithPoint(s, q, pt), r, 0) && RefsOk(WithPoint(s, q, pt), r, 0)
  {
    var s' := WithPoint(s, q, pt);
    assert SameEdgeOwners(s, s');
    SameCounts(s, s', r);
  }

  lemma NotYetKeepsTasks(s: State, q: PointId, pt: Point, s': State)
    requires Tasks(s) && NotYet(s, q, pt) && s' == WithPoint(s, q, pt)
    ensures Tasks(s')
  {
    forall p | p in s'.points
      ensures TaskOk(s', p)
    {
      assert TaskOk(s, p) && TaskOk(s, q);
    }
  }

  lemma NotYetKeepsAllTotals(s: State, q: PointId, pt: Point, s': State)
    requires WaitCounts(s, Some(q)) && RefCounts(s, None) && NotYet(s, q, pt) && s' == WithPoint(s, q, pt)
    ensures WaitCounts(s', None) && RefCounts(s', None)
  {
    forall r | r in s'.points
      ensures WaitsOk(s', r, 0) && RefsOk(s', r, 0)
    {
      assert WaitsOk(s, r, Debt(Some(q), r)) && RefsOk(s, r, Debt(None, r));
      NotYetKeepsTotals(s, q, pt, r);
    }
  }

  lemma NotYetKeepsLocks(s: State, q: PointId, pt: Point, s': State)
    requires Locks(s) && GuardCounts(s, None) && Chains(s) && NotYet(s, q, pt) && s' == WithPoint(s, q, pt)
    ensures Locks(s') && GuardCounts(s', None) && Chains(s')
  {
    LocksStay(s, s');
  }

  lemma NotYetKeeps(s: State, q: PointId, pt: Point)
    requires InvariantUpTo(s, Some(q), None) && NotYet(s, q, pt)
    ensures Invariant(WithPoint(s, q, pt))
  {
    var s' := WithPoint(s, q, pt);
    NotYetKeepsAllTotals(s, q, pt, s');
    NotYetKeepsTasks(s, q, pt, s');
    NotYetKeepsShape(s, q, pt, s');
    NotYetKeepsLocks(s, q, pt, s');
  }

  lemma NotYetKeepsShape(s: State, q: PointId, pt: Point, s': State)
    requires Shape(s) && Flights(s) && Ordered(s) && NotYet(s, q, pt) && s' == WithPoint(s, q, pt)
    ensures Shape(s') && Flights(s') && Ordered(s')
  {
    ShapeStays(s, s');
  }

  lemma EarlyArrivalKeeps(s: State, q: PointId)
    requires q in s.points && !HasOccurred(s.points[q].life) && s.points[q].wc >= 2
    requires InvariantUpTo(s, Some(q), None)
    ensures Invariant(Arrive(s, q, 0))
  {
    var pt := s.points[q];
    NotYetKeeps(s, q, pt.(wc := pt.wc - 1));
    assert Arrive(s, q, 0) == WithPoint(s, q, pt.(wc := pt.wc - 1));
  }

  /** At the last arrival nothing holds q up any more. */
  lemma NothingLeft(s: State, q: PointId)
    requires q in s.points && !HasOccurred(s.points[q].life) && s.points[q].wc == 1 && WaitsOk(s, q, 1)
    ensures WaitEdges(s, q) == {} && s.points[q].life.Waiting? && s.points[q].owner.None? && s.points[q].run == Closed
  {
  }

  lemma ArriveAtLocks(s: State, q: PointId, pt: Point)
    requires q in s.points && s.points[q].wc == 1 && HasRequest(s, q)
    requires s.points[q].life.Waiting?
    requires pt == s.points[q].(life := Acquiring(Popping))
    ensures NotYet(s, q, pt) && Arrive(s, q, 0) == WithPoint(s, q, pt)
  {
  }

  lemma ArrivalBeforeLocksKeeps(s: State, q: PointId)
    requires q in s.points && !HasOccurred(s.points[q].life) && s.points[q].wc == 1 && HasRequest(s, q)
    requires InvariantUpTo(s, Some(q), None)
    ensures Invariant(Arrive(s, q, 0))
  {
    var pt := s.points[q];
    assert WaitsOk(s, q, Debt(Some(q), q));
    NothingLeft(s, q);
    var pt' := pt.(life := Acquiring(Popping));
    ArriveAtLocks(s, q, pt');
    NotYetKeeps(s, q, pt');
  }

  lemma LastArrivalKeeps(s: State, q: PointId)
    requires q in s.points && !HasOccurred(s.points[q].life) && s.points[q].wc == 1 && !HasRequest(s, q)
    requires InvariantUpTo(s, Some(q), None)
    ensures Invariant(Arrive(s, q, 0))
  {
    assert WaitsOk(s, q, Debt(Some(q), q)) && RefsOk(s, q, Debt(None, q));
    NothingLeft(s, q);
    var s' := Occur(WithPoint(s, q, s.points[q].(wc := 0)), q, s.points[q].rc);
    assert s' == Arrive(s, q, 0);
    OccurKeeps(s, q, s.points[q].rc, s');
  }

  /** An arrival with the reference count already adjusted. */
  lemma ArriveKeeps(s: State, q: PointId)
    requires q in s.points && !HasOccurred(s.points[q].life)
    requires InvariantUpTo(s, Some(q), None)
    ensures Invariant(Arrive(s, q, 0))
  {
    assert WaitsOk(s, q, Debt(Some(q), q));
    if s.points[q].wc >= 2 {
      EarlyArrivalKeeps(s, q);
    } else if HasRequest(s, q) {
      ArrivalBeforeLocksKeeps(s, q);
    } else {
      LastArrivalKeeps(s, q);
    }
  }

  /** An arrival that brings a reference. */
  lemma ArriveWith(s: State, q: PointId, addRefs: nat)
    requires q in s.points
    ensures Arrive(s, q, addRefs) == Arrive(WithPoint(s, q, s.points[q].(rc := s.points[q].rc + addRefs)), q, 0)
  {
    var s1 := WithPoint(s, q, s.points[q].(rc := s.points[q].rc + addRefs));
    var waitCount := AtomicSub(s.points[q].wc);
    assert HasRequest(s1, q) == HasRequest(s, q);
    var a := WithPoint(s, q, s.points[q].(rc := s.points[q].rc + addRefs, wc := waitCount));
    var b := WithPoint(s1, q, s1.points[q].(wc := waitCount));
    assert a.points == b.points;
    assert a == b;
  }
}
