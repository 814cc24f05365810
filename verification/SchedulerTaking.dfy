/** lock_pending_guards() keeps the invariant, step by step. */
module SchedulerTaking {
  import opened SchedulerState
  import opened SchedulerSteps
  import opened SchedulerInvariant
  import opened SchedulerFrames
  import opened SchedulerArrive
  import opened SchedulerRelease
  import opened SchedulerClient
  import opened SchedulerGuards
  import opened SchedulerWorkers

  // ----- All pending guards are taken ------------------------------------------------------

  lemma LocksTakenTasks(s: State, p: PointId, pt: Point, s1: State)
    requires Tasks(s) && p in s.points && s.points[p].life.Acquiring?
    requires pt == s.points[p].(life := pt.life) && (pt.life.Waiting? || pt.life.Acquiring?) && s1 == WithPoint(s, p, pt)
    ensures Tasks(s1)
  {
    forall q | q in s1.points
      ensures TaskOk(s1, q)
    {
      assert TaskOk(s, q) && TaskOk(s, p);
    }
  }

  lemma LocksTakenKeeps(s: State, p: PointId, pt: Point, s1: State)
    requires Invariant(s) && p in s.points && s.points[p].life == Acquiring(Popping)
    requires pt == s.points[p].(life := Waiting) && s1 == WithPoint(s, p, pt)
    ensures Invariant(Arrive(s1, p, 0))
  {
    CountsNow(s, p);
    LocksTakenTasks(s, p, pt, s1);
    MovedOnKeeps(s, p, pt, s1, Some(p), None);
    ArriveKeeps(s1, p);
  }

  // ----- Another step in taking one guard ----------------------------------------------------

  /** p, which is taking guards, takes a further step. */
  ghost predicate Stepped(s: State, p: PointId, pt: Point, s': State) {
    p in s.points && s.points[p].life.Acquiring? && pt.life.Acquiring? &&
    pt == s.points[p].(life := pt.life) && s' == WithPoint(s, p, pt)
  }

  lemma SteppedEdges(s: State, p: PointId, pt: Point, s': State, q: PointId)
    requires Stepped(s, p, pt, s')
    ensures WaitEdges(s', q) == WaitEdges(s, q) && RefEdges(s', q) == RefEdges(s, q) && RefGuards(s', q) == RefGuards(s, q)
  {
    assert SameEdgeOwners(s, s');
    SameEdgeCounts(s, s', q);
  }

  lemma SteppedShape(s: State, p: PointId, pt: Point, s': State)
    requires Shape(s) && Flights(s) && Ordered(s) && Stepped(s, p, pt, s')
    ensures Shape(s') && Flights(s') && Ordered(s')
  {
    ShapeStays(s, s');
    SteppedOrder(s, p, pt, s');
  }

  lemma SteppedOrder(s: State, p: PointId, pt: Point, s': State)
    requires Flights(s) && Ordered(s) && Stepped(s, p, pt, s')
    ensures Flights(s') && Ordered(s')
  {
  }

  lemma SteppedTables(s: State, p: PointId, pt: Point, s': State)
    requires Locks(s) && Stepped(s, p, pt, s') && TakerOk(s', p)
    ensures Locks(s')
  {
    forall r {:trigger RequestOk(s', r)} | r in s'.requests
      ensures RequestOk(s', r)
    {
      assert RequestOk(s, r);
    }
    forall q {:trigger TakerOk(s', q)} | q in s'.points
      ensures TakerOk(s', q)
    {
      assert TakerOk(s, q);
    }
  }

  /** The chain of g survives if p was not about to link to its former holder, or has
      done so. */
  lemma SteppedChain(s: State, p: PointId, pt: Point, s': State, g: GuardId)
    requires Stepped(s, p, pt, s') && g in s.guards && ChainOk(s, g)
    requires s.points[p].life.taking.Swapped? ==>
               exists e :: e in s.edges && s.edges[e].src == s.points[p].life.taking.former && s.edges[e].dst == p
    ensures ChainOk(s', g)
  {
    var h := s.guards[g].holders;
    forall i | 0 < i < |h|
      ensures HandedOver(s', g, h[i - 1], h[i])
    {
      assert HandedOver(s, g, h[i - 1], h[i]);
    }
  }

  lemma TakersWithout(s: State, p: PointId, pt: Point, s': State, q: PointId)
    requires Stepped(s, p, pt, s')
    ensures |RefTakers(s', q)| + Bit(HoldsFormer(s.points[p].life, q)) == |RefTakers(s, q)| + Bit(HoldsFormer(pt.life, q))
  {
    var others := RefTakers(s, q) - {p};
    assert RefTakers(s, q) == if HoldsFormer(s.points[p].life, q) then others + {p} else others;
    assert RefTakers(s', q) == if HoldsFormer(pt.life, q) then others + {p} else others;
  }

  lemma GuardTakersWithout(s: State, p: PointId, pt: Point, s': State, g: GuardId)
    requires Stepped(s, p, pt, s')
    ensures |GuardTakers(s', g)| + Bit(HoldsGuard(s.points[p].life, g)) == |GuardTakers(s, g)| + Bit(HoldsGuard(pt.life, g))
  {
    var others := GuardTakers(s, g) - {p};
    assert GuardTakers(s, g) == if HoldsGuard(s.points[p].life, g) then others + {p} else others;
    assert GuardTakers(s', g) == if HoldsGuard(pt.life, g) then others + {p} else others;
  }

  lemma SteppedTotals(s: State, p: PointId, pt: Point, s': State, debtor: Option<PointId>)
    requires WaitCounts(s, None) && RefCounts(s, None) && Stepped(s, p, pt, s')
    requires forall q :: Bit(HoldsFormer(s.points[p].life, q)) == Bit(HoldsFormer(pt.life, q)) + Debt(debtor, q)
    ensures WaitCounts(s', None) && RefCounts(s', debtor)
  {
    forall q | q in s'.points
      ensures WaitsOk(s', q, 0) && RefsOk(s', q, Debt(debtor, q))
    {
      assert WaitsOk(s, q, Debt(None, q)) && RefsOk(s, q, Debt(None, q));
      SteppedEdges(s, p, pt, s', q);
      TakersWithout(s, p, pt, s', q);
    }
  }

  lemma SteppedGuards(s: State, p: PointId, pt: Point, s': State, debtor: Option<GuardId>)
    requires GuardCounts(s, None) && Stepped(s, p, pt, s')
    requires forall g :: Bit(HoldsGuard(s.points[p].life, g)) == Bit(HoldsGuard(pt.life, g)) + Debt(debtor, g)
    ensures GuardCounts(s', debtor)
  {
    forall g | g in s'.guards
      ensures GuardOk(s', g, Debt(debtor, g))
    {
      assert GuardOk(s, g, Debt(None, g));
      assert GuardRequests(s', g) == GuardRequests(s, g);
      GuardTakersWithout(s, p, pt, s', g);
    }
  }

  lemma SteppedChains(s: State, p: PointId, pt: Point, s': State)
    requires Chains(s) && Stepped(s, p, pt, s')
    requires s.points[p].life.taking.Swapped? ==>
               exists e :: e in s.edges && s.edges[e].src == s.points[p].life.taking.former && s.edges[e].dst == p
    ensures Chains(s')
  {
    forall g {:trigger ChainOk(s', g)} | g in s'.guards
      ensures ChainOk(s', g)
    {
      assert ChainOk(s, g);
      SteppedChain(s, p, pt, s', g);
    }
  }

  // ----- point_release(last_lock) ----------------------------------------------------------------

  lemma FormerLeft(s: State, p: PointId, pt: Point, s1: State, f: PointId)
    requires Locks(s) && Stepped(s, p, pt, s1) && s.points[p].life.taking.Linked? && f == s.points[p].life.taking.former
    requires pt.life == Acquiring(Letting(s.points[p].life.taking.guard))
    ensures f in s1.points && TakerOk(s1, p)
    ensures forall q :: Bit(HoldsFormer(s.points[p].life, q)) == Bit(HoldsFormer(pt.life, q)) + Debt(Some(f), q)
    ensures forall g :: HoldsGuard(s.points[p].life, g) == HoldsGuard(pt.life, g)
  {
    assert TakerOk(s, p);
  }

  lemma ReleaseFormerKeeps(s: State, p: PointId, pt: Point, s1: State, f: PointId)
    requires Invariant(s) && Stepped(s, p, pt, s1) && s.points[p].life.taking.Linked? && f == s.points[p].life.taking.former
    requires pt.life == Acquiring(Letting(s.points[p].life.taking.guard))
    requires f in s.points && PointInRange(s.points[f])
    ensures Invariant(Release(s1, f))
  {
    FormerLeft(s, p, pt, s1, f);
    SteppedShape(s, p, pt, s1);
    SteppedTotals(s, p, pt, s1, Some(f));
    LocksTakenTasks(s, p, pt, s1);
    SteppedTables(s, p, pt, s1);
    SteppedGuards(s, p, pt, s1, None);
    SteppedChains(s, p, pt, s1);
    ReleaseKeeps(s1, f);
  }

  // ----- guard_release(guard) --------------------------------------------------------------------

  lemma GuardLeft(s: State, p: PointId, pt: Point, s1: State, g: GuardId)
    requires Locks(s) && Stepped(s, p, pt, s1) && s.points[p].life == Acquiring(Letting(g)) && pt.life == Acquiring(Popping)
    ensures g in s1.guards && TakerOk(s1, p)
    ensures forall q :: HoldsFormer(s.points[p].life, q) == HoldsFormer(pt.life, q)
    ensures forall h :: Bit(HoldsGuard(s.points[p].life, h)) == Bit(HoldsGuard(pt.life, h)) + Debt(Some(g), h)
  {
    assert TakerOk(s, p);
  }

  lemma ReleaseTakenKeeps(s: State, p: PointId, pt: Point, s1: State, g: GuardId)
    requires Invariant(s) && Stepped(s, p, pt, s1) && s.points[p].life == Acquiring(Letting(g)) && pt.life == Acquiring(Popping)
    requires g in s.guards
    ensures Invariant(DropGuard(s1, g))
  {
    GuardLeft(s, p, pt, s1, g);
    SteppedShape(s, p, pt, s1);
    SteppedTotals(s, p, pt, s1, None);
    LocksTakenTasks(s, p, pt, s1);
    SteppedTables(s, p, pt, s1);
    SteppedGuards(s, p, pt, s1, Some(g));
    SteppedChains(s, p, pt, s1);
    DropGuardKeeps(s1, g);
  }

  // ----- interval_add_hb_unchecked(last_lock, start) -----------------------------------------------

  /** Who is held by a thread is alive and retains its successors. */
  lemma FormerIsUsable(s: State, p: PointId)
    requires Locks(s) && RefCounts(s, None)
    requires p in s.points && s.points[p].life.Acquiring? && s.points[p].life.taking.Swapped?
    ensures Usable(s, s.points[p].life.taking.former)
  {
    var f := s.points[p].life.taking.former;
    assert TakerOk(s, p);
    assert p in RefTakers(s, f);
    assert RefsOk(s, f, Debt(None, f));
  }

  lemma LinkLockKeeps(s: State, p: PointId, f: PointId, g: GuardId, e: EdgeId, s1: State, pt: Point, s': State)
    requires Invariant(s) && CountsInRange(s) && p in s.points && s.points[p].life == Acquiring(Swapped(g, f))
    requires f in s.points && e.Out? && e !in s.edges && s1 == AddEdge(s, f, p, true, e)
    requires Stepped(s1, p, pt, s') && pt.life == Acquiring(Linked(g, f))
    ensures Invariant(s')
  {
    FormerIsUsable(s, p);
    AddEdgeKeeps(s, f, p, true, e);
    LinkedKeeps(s1, p, f, g, e, pt, s');
  }

  lemma LinkedTakes(s: State, p: PointId, f: PointId, g: GuardId, pt: Point, s': State)
    requires Locks(s) && Stepped(s, p, pt, s') && s.points[p].life == Acquiring(Swapped(g, f)) && pt.life == Acquiring(Linked(g, f))
    ensures TakerOk(s', p)
    ensures forall q :: HoldsFormer(s.points[p].life, q) == HoldsFormer(pt.life, q)
    ensures forall h :: HoldsGuard(s.points[p].life, h) == HoldsGuard(pt.life, h)
  {
    assert TakerOk(s, p);
  }

  lemma LinkedKeeps(s: State, p: PointId, f: PointId, g: GuardId, e: EdgeId, pt: Point, s': State)
    requires Invariant(s) && Stepped(s, p, pt, s') && s.points[p].life == Acquiring(Swapped(g, f)) && pt.life == Acquiring(Linked(g, f))
    requires e in s.edges && s.edges[e].src == f && s.edges[e].dst == p
    ensures Invariant(s')
  {
    LinkedTakes(s, p, f, g, pt, s');
    SteppedShape(s, p, pt, s');
    SteppedTotals(s, p, pt, s', None);
    LocksTakenTasks(s, p, pt, s');
    SteppedTables(s, p, pt, s');
    SteppedGuards(s, p, pt, s', None);
    SteppedChains(s, p, pt, s');
  }

  // ----- atomic_xchg_ptr(&guard->last_lock, end) ----------------------------------------------------

  /** p takes the guard g of its request r, so that end, if there is one, holds the lock. */
  ghost predicate Swap(s: State, p: PointId, r: RequestId, end: Option<PointId>, g: GuardId, s': State) {
    p in s.points && (end.Some? ==> end.value in s.points && p != end.value) && s.points[p].life == Acquiring(Popping) &&
    r in s.requests && s.requests[r] == Request(p, g) && g in s.guards && s.points[p].bound == end &&
    var gd := s.guards[g];
    var taking := if gd.last.Some? then Swapped(g, gd.last.value) else Letting(g);
    s' == s.(points := Retained(s, end).points[p := s.points[p].(life := Acquiring(taking))],
             requests := s.requests - {r},
             guards := s.guards[g := gd.(last := end, holders := gd.holders + [p])])
  }

  lemma SwapSets(s: State, p: PointId, r: RequestId, end: Option<PointId>, g: GuardId, s': State, q: PointId)
    requires Swap(s, p, r, end, g, s')
    ensures WaitEdges(s', q) == WaitEdges(s, q) && RefEdges(s', q) == RefEdges(s, q)
    ensures RefGuards(s', q) == if end == Some(q) then RefGuards(s, q) + {g} else RefGuards(s, q) - {g}
    ensures RefTakers(s', q) == if s.guards[g].last == Some(q) then RefTakers(s, q) + {p} else RefTakers(s, q)
    ensures p !in RefTakers(s, q) && (g in RefGuards(s, q) <==> s.guards[g].last == Some(q))
  {
    assert SameEdgeOwners(s, s');
    SameEdgeCounts(s, s', q);
  }

  lemma SwapCounts(s: State, p: PointId, r: RequestId, end: Option<PointId>, g: GuardId, s': State, q: PointId)
    requires Swap(s, p, r, end, g, s')
    ensures |RefGuards(s', q)| + |RefTakers(s', q)| == |RefGuards(s, q)| + |RefTakers(s, q)| + Bit(end == Some(q))
  {
    SwapSets(s, p, r, end, g, s', q);
  }

  lemma SwapTotal(s: State, p: PointId, r: RequestId, end: Option<PointId>, g: GuardId, s': State, q: PointId)
    requires Swap(s, p, r, end, g, s') && q in s.points && WaitsOk(s, q, 0) && RefsOk(s, q, 0)
    requires (end.Some? ==> !HasOccurred(s.points[end.value].life))
    ensures WaitsOk(s', q, 0) && RefsOk(s', q, 0)
  {
    SwapWaitTotal(s, p, r, end, g, s', q);
    SwapRefTotal(s, p, r, end, g, s', q);
  }

  lemma SwapPoint(s: State, p: PointId, r: RequestId, end: Option<PointId>, g: GuardId, s': State, q: PointId)
    requires Swap(s, p, r, end, g, s') && q in s.points
    ensures q in s'.points && s'.points[q] == s.points[q].(life := s'.points[q].life, rc := s.points[q].rc + Bit(end == Some(q)))
    ensures if q == p then s'.points[q].life.Acquiring? else s'.points[q].life == s.points[q].life
  {
  }

  lemma SwapWaitTotal(s: State, p: PointId, r: RequestId, end: Option<PointId>, g: GuardId, s': State, q: PointId)
    requires Swap(s, p, r, end, g, s') && q in s.points
    ensures q in s'.points && WaitTotal(s', q) == WaitTotal(s, q)
  {
    SwapPoint(s, p, r, end, g, s', q);
    SwapSets(s, p, r, end, g, s', q);
  }

  lemma SwapRefTotal(s: State, p: PointId, r: RequestId, end: Option<PointId>, g: GuardId, s': State, q: PointId)
    requires Swap(s, p, r, end, g, s') && q in s.points
    ensures q in s'.points && RefTotal(s', q) == RefTotal(s, q) + Bit(end == Some(q))
    ensures s'.points[q] == s.points[q].(life := s'.points[q].life, rc := s.points[q].rc + Bit(end == Some(q)))
    ensures if q == p then s'.points[q].life.Acquiring? else s'.points[q].life == s.points[q].life
  {
    SwapPoint(s, p, r, end, g, s', q);
    SwapSets(s, p, r, end, g, s', q);
    SwapCounts(s, p, r, end, g, s', q);
  }

  lemma SwapTotals(s: State, p: PointId, r: RequestId, end: Option<PointId>, g: GuardId, s': State)
    requires Swap(s, p, r, end, g, s') && WaitCounts(s, None) && RefCounts(s, None) && (end.Some? ==> !HasOccurred(s.points[end.value].life))
    ensures WaitCounts(s', None) && RefCounts(s', None)
  {
    forall q | q in s'.points
      ensures WaitsOk(s', q, 0) && RefsOk(s', q, 0)
    {
      assert WaitsOk(s, q, Debt(None, q)) && RefsOk(s, q, Debt(None, q));
      SwapTotal(s, p, r, end, g, s', q);
    }
  }

  lemma SwapBounds(s: State, p: PointId, r: RequestId, end: Option<PointId>, g: GuardId, s': State)
    requires Swap(s, p, r, end, g, s')
    ensures SameBounds(s, s')
  {
  }

  lemma SwapFlights(s: State, p: PointId, r: RequestId, end: Option<PointId>, g: GuardId, s': State)
    requires Flights(s) && Swap(s, p, r, end, g, s')
    ensures Flights(s')
  {
  }

  lemma SwapShape(s: State, p: PointId, r: RequestId, end: Option<PointId>, g: GuardId, s': State)
    requires Shape(s) && Flights(s) && Swap(s, p, r, end, g, s')
    ensures Shape(s') && Flights(s')
  {
    SwapBounds(s, p, r, end, g, s');
    ShapeStays(s, s');
    SwapFlights(s, p, r, end, g, s');
  }

  lemma SwapOrder(s: State, p: PointId, r: RequestId, end: Option<PointId>, g: GuardId, s': State)
    requires Ordered(s) && Swap(s, p, r, end, g, s') && (end.Some? ==> !HasOccurred(s.points[end.value].life))
    ensures Ordered(s')
  {
  }

  lemma SwapTasks(s: State, p: PointId, r: RequestId, end: Option<PointId>, g: GuardId, s': State)
    requires Tasks(s) && Swap(s, p, r, end, g, s')
    ensures Tasks(s')
  {
    assert s'.points.Keys == s.points.Keys;
    forall q | q in s'.points
      ensures TaskOk(s', q)
    {
      assert TaskOk(s, q);
      SwapTask(s, p, s', q);
    }
  }

  /** The task of q is where it was if only counts change, and a point taking guards goes
      on taking them. */
  lemma SwapTask(s: State, p: PointId, s': State, q: PointId)
    requires s'.points.Keys == s.points.Keys && p in s.points && q in s.points && TaskOk(s, q)
    requires s.points[p].life.Acquiring? && s'.points[p].life.Acquiring?
    requires forall r :: r in s.points ==>
      s'.points[r] == s.points[r].(rc := s'.points[r].rc, life := s'.points[r].life) &&
      (r != p ==> s'.points[r].life == s.points[r].life)
    ensures TaskOk(s', q)
  {
  }

  lemma SwapTables(s: State, p: PointId, r: RequestId, end: Option<PointId>, g: GuardId, s': State)
    requires Locks(s) && Swap(s, p, r, end, g, s')
    ensures Locks(s')
  {
    forall q {:trigger RequestOk(s', q)} | q in s'.requests
      ensures RequestOk(s', q)
    {
      assert RequestOk(s, q);
    }
    forall q {:trigger TakerOk(s', q)} | q in s'.points
      ensures TakerOk(s', q)
    {
      assert TakerOk(s, q);
    }
  }

  lemma SwapGuard(s: State, p: PointId, r: RequestId, end: Option<PointId>, g: GuardId, s': State, h: GuardId)
    requires Swap(s, p, r, end, g, s') && h in s.guards && GuardOk(s, h, 0)
    ensures GuardOk(s', h, 0)
  {
    SwapGuardSets(s, p, r, end, g, s', h);
  }

  lemma SwapGuardSets(s: State, p: PointId, r: RequestId, end: Option<PointId>, g: GuardId, s': State, h: GuardId)
    requires Swap(s, p, r, end, g, s')
    ensures GuardRequests(s', h) == if h == g then GuardRequests(s, h) - {r} else GuardRequests(s, h)
    ensures GuardTakers(s', h) == if h == g then GuardTakers(s, h) + {p} else GuardTakers(s, h)
    ensures h == g ==> r in GuardRequests(s, h) && p !in GuardTakers(s, h)
  {
    forall q
      ensures q in GuardTakers(s', h) <==> q in GuardTakers(s, h) || (h == g && q == p)
    {
    }
  }

  lemma SwapChain(s: State, p: PointId, r: RequestId, end: Option<PointId>, g: GuardId, s': State, h: GuardId)
    requires Swap(s, p, r, end, g, s') && h in s.guards && ChainOk(s, h) && s.guards[g].live
    ensures ChainOk(s', h)
  {
    var was := s.guards[h].holders;
    var now := s'.guards[h].holders;
    assert Extends(s, s');
    forall i | 0 < i < |now|
      ensures HandedOver(s', h, now[i - 1], now[i])
    {
      if i < |was| {
        assert HandedOver(s, h, was[i - 1], was[i]);
        HandedOverStays(s, s', h, was[i - 1], was[i]);
      }
    }
  }

  lemma SwapChains(s: State, p: PointId, r: RequestId, end: Option<PointId>, g: GuardId, s': State)
    requires Swap(s, p, r, end, g, s') && Locks(s) && GuardCounts(s, None) && Chains(s)
    ensures GuardCounts(s', None) && Chains(s')
  {
    assert RequestOk(s, r);
    forall h | h in s'.guards
      ensures GuardOk(s', h, 0) && ChainOk(s', h)
    {
      assert GuardOk(s, h, Debt(None, h)) && ChainOk(s, h);
      SwapGuard(s, p, r, end, g, s', h);
      SwapChain(s, p, r, end, g, s', h);
    }
    ByGuard(s');
  }

  lemma BoundUnoccurred(s: State, p: PointId)
    requires Shape(s) && Ordered(s) && p in s.points && !HasOccurred(s.points[p].life) && s.points[p].bound.Some?
    ensures var end := s.points[p].bound.value; end in s.points && end != p && !HasOccurred(s.points[end].life)
  {
    assert BoundOk(s, p);
    assert s.edges[BoundOf(p)].src == p;
  }

  lemma SwapLockKeeps(s: State, p: PointId, r: RequestId, end: Option<PointId>, g: GuardId, s': State)
    requires Invariant(s) && Swap(s, p, r, end, g, s')
    ensures Invariant(s')
  {
    if end.Some? {
      BoundUnoccurred(s, p);
    }
    SwapShape(s, p, r, end, g, s');
    SwapOrder(s, p, r, end, g, s');
    SwapTotals(s, p, r, end, g, s');
    SwapTasks(s, p, r, end, g, s');
    SwapTables(s, p, r, end, g, s');
    SwapChains(s, p, r, end, g, s');
  }
}
