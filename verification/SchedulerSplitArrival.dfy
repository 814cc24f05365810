/** arrive() is two operations on two counters. The scheduler's transitions take them
    together; here they come apart, to show exactly when that matters. */
module SchedulerSplitArrival {
  import opened SchedulerState
  import opened SchedulerSteps
  import opened SchedulerInvariant
  import opened SchedulerArrive
  import opened SchedulerTaking
  import opened SchedulerWorkers

  /** The first half: the reference count is adjusted, or just read. */
  function AdjustRefs(s: State, q: PointId, addRefs: nat): State
    requires q in s.points
  {
    WithPoint(s, q, s.points[q].(rc := s.points[q].rc + addRefs))
  }

  /** The second half, with the reference count the first half found. */
  function AdjustWait(s: State, q: PointId, refCount: nat): State
    requires q in s.points
  {
    var waitCount := AtomicSub(s.points[q].wc);
    var s1 := WithPoint(s, q, s.points[q].(wc := waitCount));
    if waitCount != 0 then s1
    else if HasRequest(s, q) then WithPoint(s, q, s.points[q].(wc := 1, life := Acquiring(Popping)))
    else Occur(s1, q, refCount)
  }

  lemma SamePoints(s: State, q: PointId, a: Point, b: Point)
    ensures WithPoint(WithPoint(s, q, a), q, b) == WithPoint(s, q, b)
  {
    assert s.points[q := a][q := b] == s.points[q := b];
  }

  /** Back to back the halves are an arrival. */
  lemma HalvesMakeArrival(s: State, q: PointId, addRefs: nat)
    requires q in s.points
    ensures AdjustWait(AdjustRefs(s, q, addRefs), q, s.points[q].rc + addRefs) == Arrive(s, q, addRefs)
  {
    var s1 := AdjustRefs(s, q, addRefs);
    SamePoints(s, q, s1.points[q], s1.points[q].(wc := AtomicSub(s.points[q].wc)));
    SamePoints(s, q, s1.points[q], s1.points[q].(wc := 1, life := Acquiring(Popping)));
    assert HasRequest(s1, q) == HasRequest(s, q);
  }

  /** One thread does its first half, another arrives, and then the first goes on. */
  function Interrupted(s: State, q: PointId, addRefs: nat, otherRefs: nat): State
    requires q in s.points
  {
    var s1 := AdjustRefs(s, q, addRefs);
    AdjustWait(Arrive(s1, q, otherRefs), q, s1.points[q].rc)
  }

  function InTurn(s: State, q: PointId, addRefs: nat, otherRefs: nat): State
    requires q in s.points
  {
    Arrive(Arrive(s, q, otherRefs), q, addRefs)
  }

  /** The other arrival only counts down. */
  lemma OtherArrival(s: State, q: PointId, addRefs: nat)
    requires q in s.points && s.points[q].wc >= 2
    ensures Arrive(s, q, addRefs) ==
      WithPoint(s, q, s.points[q].(rc := s.points[q].rc + addRefs, wc := s.points[q].wc - 1))
  {
  }

  /** What the last arrival comes to, when the counters of q stand at pt. */
  function Last(s: State, q: PointId, pt: Point, refCount: nat): State
    requires q in s.points && pt.wc >= 1
  {
    if pt.wc != 1 then WithPoint(s, q, pt.(wc := pt.wc - 1))
    else if HasRequest(s, q) then WithPoint(s, q, pt.(wc := 1, life := Acquiring(Popping)))
    else Occur(WithPoint(s, q, pt.(wc := 0)), q, refCount)
  }

  lemma InterruptedIs(s: State, q: PointId, addRefs: nat, otherRefs: nat)
    requires q in s.points && s.points[q].wc >= 2
    ensures var pt := s.points[q].(rc := s.points[q].rc + addRefs + otherRefs, wc := s.points[q].wc - 1);
      Interrupted(s, q, addRefs, otherRefs) == Last(s, q, pt, s.points[q].rc + addRefs)
  {
    var pt := s.points[q].(rc := s.points[q].rc + addRefs + otherRefs, wc := s.points[q].wc - 1);
    var s1 := AdjustRefs(s, q, addRefs);
    OtherArrival(s1, q, otherRefs);
    SamePoints(s, q, s1.points[q], pt);
    FinishIs(s, q, pt, s1.points[q].rc);
  }

  lemma FinishIs(s: State, q: PointId, pt: Point, refCount: nat)
    requires q in s.points && pt.wc >= 1
    ensures AdjustWait(WithPoint(s, q, pt), q, refCount) == Last(s, q, pt, refCount)
  {
    SamePoints(s, q, pt, pt.(wc := pt.wc - 1));
    SamePoints(s, q, pt, pt.(wc := 1, life := Acquiring(Popping)));
    assert HasRequest(WithPoint(s, q, pt), q) == HasRequest(s, q);
  }

  lemma InTurnIs(s: State, q: PointId, addRefs: nat, otherRefs: nat)
    requires q in s.points && s.points[q].wc >= 2
    ensures var pt := s.points[q].(rc := s.points[q].rc + addRefs + otherRefs, wc := s.points[q].wc - 1);
      InTurn(s, q, addRefs, otherRefs) == Last(s, q, pt, pt.rc)
  {
    var other := s.points[q].(rc := s.points[q].rc + otherRefs, wc := s.points[q].wc - 1);
    OtherArrival(s, q, otherRefs);
    HalvesMakeArrival(WithPoint(s, q, other), q, addRefs);
    SamePoints(s, q, other, other.(rc := other.rc + addRefs));
    FinishIs(s, q, other.(rc := other.rc + addRefs), other.rc + addRefs);
  }

  /** If all that happens in between is one other arrival, it makes no difference unless
      these are the last two, no guard is to be taken, the scheduler held the only
      reference, and only the other thread brings one: then the point is declared dead
      although it has been retained. */
  lemma WhenTheHalvesMayPart(s: State, q: PointId, addRefs: nat, otherRefs: nat)
    requires q in s.points && s.points[q].wc >= 2 && s.points[q].rc >= 1
    ensures Interrupted(s, q, addRefs, otherRefs) == InTurn(s, q, addRefs, otherRefs) <==>
      !(s.points[q].wc == 2 && !HasRequest(s, q) && s.points[q].rc == 1 && addRefs == 0 && otherRefs > 0)
  {
    var pt := s.points[q].(rc := s.points[q].rc + addRefs + otherRefs, wc := s.points[q].wc - 1);
    InterruptedIs(s, q, addRefs, otherRefs);
    InTurnIs(s, q, addRefs, otherRefs);
    DecisionShows(s, q, pt, s.points[q].rc + addRefs, pt.rc);
  }

  /** Two counts lead to the same state if they agree on whether the point is dead. */
  lemma DecisionShows(s: State, q: PointId, pt: Point, refCount: nat, refCount': nat)
    requires q in s.points && pt.wc >= 1
    ensures Last(s, q, pt, refCount) == Last(s, q, pt, refCount') <==>
      pt.wc != 1 || HasRequest(s, q) || ((refCount == 1) <==> (refCount' == 1))
  {
    if pt.wc == 1 && !HasRequest(s, q) {
      var s1 := WithPoint(s, q, pt.(wc := 0));
      assert Occur(s1, q, refCount).points[q].life.dead == (refCount == 1);
      assert Occur(s1, q, refCount').points[q].life.dead == (refCount' == 1);
    }
  }

  // ----- Whatever happens in between -----------------------------------------------------------

  lemma SamePoint(s: State, q: PointId)
    requires q in s.points
    ensures WithPoint(s, q, s.points[q]) == s
  {
    assert s.points[q := s.points[q]] == s.points;
  }

  /** The second half, with a count c read earlier, has another outcome than with the count
      as it stands if and only if it is the last arrival, no guard is pending, and the two
      counts disagree about whether the scheduler holds the only reference. */
  lemma StaleCountMatters(s: State, q: PointId, c: nat)
    requires q in s.points && s.points[q].wc >= 1
    ensures AdjustWait(s, q, c) == AdjustWait(s, q, s.points[q].rc) <==>
      !(s.points[q].wc == 1 && !HasRequest(s, q) && (c == 1) != (s.points[q].rc == 1))
  {
    SamePoint(s, q);
    FinishIs(s, q, s.points[q], c);
    FinishIs(s, q, s.points[q], s.points[q].rc);
    DecisionShows(s, q, s.points[q], c, s.points[q].rc);
  }

  /** The thread that delivers e has done its first half. */
  function HalfDelivered(s: State, e: EdgeId): State
    requires ConnectedIn(s, e)
  {
    AdjustRefs(s.(inflight := s.inflight - {e}), s.edges[e].dst, Bit(!IsDead(s.points[s.edges[e].src].life)))
  }

  lemma HalfDeliveredIs(s: State, e: EdgeId, pt: Point)
    requires Invariant(s) && e in s.inflight && ConnectedIn(s, e)
    requires pt == s.points[s.edges[e].dst].(rc := s.points[s.edges[e].dst].rc + Bit(!IsDead(s.points[s.edges[e].src].life)))
    ensures Arrived(s, e, s.edges[e].dst, pt, HalfDelivered(s, e))
    ensures HalfArrivedAt(HalfDelivered(s, e), s.edges[e].dst)
  {
    var q, s1 := s.edges[e].dst, HalfDelivered(s, e);
    assert s1 == WithPoint(s, q, pt).(inflight := s.inflight - {e});
    ArrivedShape(s, e, q, pt, s1);
    ArrivedTotals(s, e, q, pt, s1);
    ArrivedTasks(s, e, q, pt, s1);
    ArrivedLocks(s, e, q, pt, s1);
  }

  /** The first half of any arrival: the thread has given up what made q wait for it. Only
      a notification may bring a reference. */
  ghost function HalfArrival(s: State, a: Action): State
    requires Enabled(s, a) && ArrivesAt(s, a).Some?
  {
    match a
    case Schedule(_, p) => WithPoint(s, p, s.points[p].(owner := None))
    case EndTask(t) => WithPoint(s, t, s.points[t].(run := Closed))
    case Deliver(e) => HalfDelivered(s, e)
    case LocksTaken(p) => WithLife(s, p, Waiting)
  }

  /** One unit of the wait count of q has no owner any more. */
  ghost predicate HalfArrivedAt(s: State, q: PointId) {
    q in s.points && !HasOccurred(s.points[q].life) && InvariantUpTo(s, Some(q), None)
  }

  lemma HalfScheduled(s: State, t: PointId, p: PointId)
    requires Invariant(s) && Enabled(s, Schedule(t, p))
    ensures HalfArrivedAt(HalfArrival(s, Schedule(t, p)), p)
  {
    var s1 := HalfArrival(s, Schedule(t, p));
    Unstarted(s, p);
    CountsNow(s, p);
    ScheduleKeepsTasks(s, p, s1.points[p], s1);
    MovedOnKeeps(s, p, s1.points[p], s1, Some(p), None);
  }

  lemma HalfEnded(s: State, t: PointId)
    requires Invariant(s) && Enabled(s, EndTask(t))
    ensures HalfArrivedAt(HalfArrival(s, EndTask(t)), t)
  {
    var s1 := HalfArrival(s, EndTask(t));
    Unstarted(s, t);
    CountsNow(s, t);
    EndTaskKeepsTasks(s, t, s1.points[t], s1);
    MovedOnKeeps(s, t, s1.points[t], s1, Some(t), None);
  }

  lemma HalfTaken(s: State, p: PointId)
    requires Invariant(s) && Enabled(s, LocksTaken(p))
    ensures HalfArrivedAt(HalfArrival(s, LocksTaken(p)), p)
  {
    var s1 := HalfArrival(s, LocksTaken(p));
    CountsNow(s, p);
    LocksTakenTasks(s, p, s1.points[p], s1);
    MovedOnKeeps(s, p, s1.points[p], s1, Some(p), None);
  }

  lemma HalfArrivalIs(s: State, a: Action, q: PointId)
    requires Invariant(s) && Enabled(s, a) && ArrivesAt(s, a) == Some(q)
    ensures HalfArrivedAt(HalfArrival(s, a), q)
  {
    match a
    case Schedule(t, p) => HalfScheduled(s, t, p);
    case EndTask(t) => HalfEnded(s, t);
    case Deliver(e) => HalfDeliveredIs(s, e, HalfDelivered(s, e).points[q]);
    case LocksTaken(p) => HalfTaken(s, p);
  }

  /** What the last arrival finds. */
  lemma LastFinds(s: State, q: PointId)
    requires WaitCounts(s, Some(q)) && RefCounts(s, None) && q in s.points && !HasOccurred(s.points[q].life)
    ensures s.points[q].wc >= 1 && s.points[q].rc == RefTotal(s, q) >= 1
    ensures s.points[q].wc == 1 ==>
      WaitEdges(s, q) == {} && s.points[q].life.Waiting? && s.points[q].owner.None? && s.points[q].run == Closed
  {
    assert WaitsOk(s, q, Debt(Some(q), q)) && RefsOk(s, q, Debt(None, q));
  }

  /** A point declared dead while somebody else holds a reference breaks the count equation. */
  lemma FalselyDead(s: State, q: PointId)
    requires q in s.points && s.points[q].life.Waiting? && s.points[q].rc == RefTotal(s, q) > 1 && Flights(s) && Shape(s)
    requires s.points[q].owner.None? && s.points[q].run == Closed && WaitEdges(s, q) == {} && Ordered(s)
    ensures var s' := Occur(WithPoint(s, q, s.points[q].(wc := 0)), q, 1);
      q in s'.points && IsDead(s'.points[q].life) && RefTotal(s', q) == RefTotal(s, q) && !Invariant(s')
  {
    var s' := Occur(WithPoint(s, q, s.points[q].(wc := 0)), q, 1);
    forall e | e in s.edges
      ensures (e in RefEdges(s', q)) == (e in RefEdges(s, q))
    {
      assert (e in s'.inflight) == (e in s.inflight || s.edges[e].src == q);
    }
    assert RefEdges(s', q) == RefEdges(s, q) && RefGuards(s', q) == RefGuards(s, q) && RefTakers(s', q) == RefTakers(s, q);
    assert !RefsOk(s', q, Debt(None, q));
  }

  lemma LateSecondHalf(s: State, q: PointId, c: nat)
    requires HalfArrivedAt(s, q)
    ensures Invariant(AdjustWait(s, q, c)) <==> !(s.points[q].wc == 1 && !HasRequest(s, q) && c == 1 && s.points[q].rc > 1)
  {
    LastFinds(s, q);
    SamePoint(s, q);
    FinishIs(s, q, s.points[q], c);
    if s.points[q].wc != 1 || HasRequest(s, q) {
      StaleCountMatters(s, q, c);
      HalvesMakeArrival(s, q, 0);
      SamePoint(s, q);
      ArriveKeeps(s, q);
    } else if c == 1 && s.points[q].rc > 1 {
      FalselyDead(s, q);
    } else {
      OccurKeeps(s, q, c, AdjustWait(s, q, c));
    }
  }

  /** An arrival whose second half comes late keeps the invariant, whatever happened since
      its first half, unless it is the last arrival, no guard is pending, and it still
      believes in a count of 1 when the point has been retained. */
  lemma LateHalfKeepsInvariant(s: State, a: Action, q: PointId, c: nat)
    requires Invariant(s) && Enabled(s, a) && ArrivesAt(s, a) == Some(q)
    ensures q in HalfArrival(s, a).points
    ensures var s1 := HalfArrival(s, a);
      Invariant(AdjustWait(s1, q, c)) <==>
      !(s1.points[q].wc == 1 && !HasRequest(s1, q) && c == 1 && s1.points[q].rc > 1)
  {
    HalfArrivalIs(s, a, q);
    LateSecondHalf(HalfArrival(s, a), q, c);
  }

  /** In such a case the invariant is lost: the last two notifications of q, from the dead
      source of d and from the retaining source of e, leave q dead with two references. */
  lemma InterruptionLosesReference(s: State, q: PointId, d: EdgeId, e: EdgeId)
    requires Invariant(s) && q in s.points && s.points[q].wc == 2 && s.points[q].rc == 1 && !HasRequest(s, q)
    requires d in s.inflight && e in s.inflight && d != e && ConnectedIn(s, d) && ConnectedIn(s, e)
    requires s.edges[d].dst == q && s.edges[e].dst == q && !IsDead(s.points[s.edges[e].src].life)
    ensures var s' := Interrupted(s.(inflight := s.inflight - {d, e}), q, 0, 1);
      q in s'.points && IsDead(s'.points[q].life) && RefTotal(s', q) >= 2 && !Invariant(s')
  {
    var s0 := s.(inflight := s.inflight - {d, e});
    var pt := s0.points[q].(rc := 2, wc := 1);
    InterruptedIs(s0, q, 0, 1);
    var s' := Occur(WithPoint(s0, q, pt.(wc := 0)), q, 1);
    assert !HasOccurred(s.points[q].life);
    var p := s.edges[e].src;
    assert p != q && s'.points[p] == s.points[p];
    assert e !in s'.inflight;
    assert e in RefEdges(s', q);
    assert RefTotal(s', q) >= 2;
    assert !RefsOk(s', q, Debt(None, q));
  }
}
