/** Guards: creating, retaining and releasing them, and asking for them. */
module SchedulerGuards {
  import opened SchedulerState
  import opened SchedulerSteps
  import opened SchedulerInvariant
  import opened SchedulerFrames
  import opened SchedulerSafety
  import opened SchedulerRelease

  /** Points and edges are as they were, and so is every last_lock. */
  ghost predicate OnlyGuards(s: State, s': State) {
    s'.points == s.points && s'.edges == s.edges && s'.inflight == s.inflight && s'.releasing == s.releasing &&
    s'.clock == s.clock && s.guards.Keys <= s'.guards.Keys &&
    (forall g :: g in s'.guards ==> s'.guards[g].last == if g in s.guards then s.guards[g].last else None)
  }

  lemma OnlyGuardsCounts(s: State, s': State, q: PointId)
    requires OnlyGuards(s, s')
    ensures WaitEdges(s', q) == WaitEdges(s, q) && RefEdges(s', q) == RefEdges(s, q)
    ensures RefGuards(s', q) == RefGuards(s, q) && RefTakers(s', q) == RefTakers(s, q)
  {
    assert forall e :: ConnectedIn(s', e) == ConnectedIn(s, e);
  }

  lemma OnlyGuardsKeeps(s: State, s': State, debtor: Option<PointId>)
    requires OnlyGuards(s, s')
    requires Shape(s) && Flights(s) && Ordered(s) && Tasks(s) && WaitCounts(s, None) && RefCounts(s, debtor)
    ensures Shape(s') && Flights(s') && Ordered(s') && Tasks(s') && WaitCounts(s', None) && RefCounts(s', debtor)
  {
    OnlyGuardsTotals(s, s', debtor);
    ShapeStays(s, s');
    forall p | p in s'.points
      ensures TaskOk(s', p)
    {
      assert TaskOk(s, p);
    }
  }

  lemma OnlyGuardsTotals(s: State, s': State, debtor: Option<PointId>)
    requires OnlyGuards(s, s') && WaitCounts(s, None) && RefCounts(s, debtor)
    ensures WaitCounts(s', None) && RefCounts(s', debtor)
  {
    forall q | q in s'.points
      ensures WaitsOk(s', q, 0) && RefsOk(s', q, Debt(debtor, q))
    {
      OnlyGuardsCounts(s, s', q);
      assert WaitsOk(s, q, Debt(None, q)) && RefsOk(s, q, Debt(debtor, q));
    }
  }

  /** The requests still stand, or are new and in order. */
  ghost predicate RequestsStand(s: State, s': State) {
    s'.points == s.points && s.guards.Keys <= s'.guards.Keys &&
    (forall g :: g in s'.guards && s'.guards[g].last.Some? ==> g in s.guards && s'.guards[g].last == s.guards[g].last) &&
    (forall r :: r in s'.requests ==>
       RequestOk(s', r) ||
       (r in s.requests && s'.requests[r] == s.requests[r] &&
        (s.requests[r].guard in s.guards && s.guards[s.requests[r].guard].live ==> s'.guards[s.requests[r].guard].live)))
  }

  lemma TablesStay(s: State, s': State)
    requires Locks(s) && RequestsStand(s, s')
    ensures Locks(s')
  {
    forall r {:trigger RequestOk(s', r)} | r in s'.requests
      ensures RequestOk(s', r)
    {
      if !RequestOk(s', r) {
        assert RequestOk(s, r);
      }
    }
    forall p {:trigger TakerOk(s', p)} | p in s'.points
      ensures TakerOk(s', p)
    {
      assert TakerOk(s, p);
    }
  }

  /** One guard's record changes; it keeps its history, and dies only when nobody asks
      for it any more. */
  ghost predicate NewGuardRecord(s: State, g: GuardId, gd: Guard, s': State) {
    g in s.guards && s' == s.(guards := s.guards[g := gd]) && gd.last == s.guards[g].last &&
    gd.holders == s.guards[g].holders && (gd.live ==> s.guards[g].live) &&
    (!gd.live ==> GuardRequests(s, g) == {})
  }

  lemma NewGuardRecordKeepsLocks(s: State, g: GuardId, gd: Guard, s': State, before: Option<GuardId>)
    requires Locks(s) && GuardCounts(s, before) && Chains(s) && NewGuardRecord(s, g, gd, s')
    requires GuardOk(s', g, 0)
    requires before == None || before == Some(g)
    ensures Locks(s') && GuardCounts(s', None) && Chains(s')
  {
    forall h | h in s'.guards
      ensures GuardOk(s', h, 0) && ChainOk(s', h)
    {
      assert GuardRequests(s', h) == GuardRequests(s, h);
      assert GuardTakers(s', h) == GuardTakers(s, h);
      assert GuardOk(s, h, Debt(before, h)) && ChainOk(s, h);
      ChainStays(s, s', h);
    }
    assert forall r :: r in s.requests && s.requests[r].guard == g ==> r in GuardRequests(s, g);
    TablesStay(s, s');
    ByGuard(s');
  }

  lemma NewGuardRecordKeeps(s: State, g: GuardId, gd: Guard, s': State)
    requires Invariant(s) && NewGuardRecord(s, g, gd, s') && GuardOk(s', g, 0)
    ensures Invariant(s')
  {
    OnlyGuardsKeeps(s, s', None);
    NewGuardRecordKeepsLocks(s, g, gd, s', None);
  }

  lemma GuardCountsByRecord(s: State, g: GuardId, gd: Guard, s': State)
    requires NewGuardRecord(s, g, gd, s') && GuardOk(s, g, 0)
    requires gd.live && gd.rc == s.guards[g].rc + gd.user - s.guards[g].user && gd.rc >= 1
    ensures GuardOk(s', g, 0)
  {
    assert GuardRequests(s', g) == GuardRequests(s, g);
    assert GuardTakers(s', g) == GuardTakers(s, g);
  }

  lemma RetainGuardRecord(s: State, g: GuardId, gd: Guard, s': State)
    requires g in s.guards && s.guards[g].live && GuardOk(s, g, 0)
    requires gd == s.guards[g].(rc := s.guards[g].rc + 1, user := s.guards[g].user + 1)
    requires s' == s.(guards := s.guards[g := gd])
    ensures NewGuardRecord(s, g, gd, s') && GuardOk(s', g, 0)
  {
    GuardCountsByRecord(s, g, gd, s');
  }

  lemma RetainGuardKeeps(s: State, g: GuardId, gd: Guard, s': State)
    requires Invariant(s) && g in s.guards && s.guards[g].live
    requires gd == s.guards[g].(rc := s.guards[g].rc + 1, user := s.guards[g].user + 1)
    requires s' == s.(guards := s.guards[g := gd])
    ensures Invariant(s')
  {
    assert GuardOk(s, g, Debt(None, g));
    RetainGuardRecord(s, g, gd, s');
    NewGuardRecordKeeps(s, g, gd, s');
  }

  /** guard_release() for a reference that user or pending list gave up. */
  lemma DropGuardRecord(s: State, g: GuardId, gd: Guard, s': State)
    requires g in s.guards && GuardOk(s, g, 1) && s' == DropGuard(s, g) && gd == s'.guards[g]
    ensures NewGuardRecord(s, g, gd, s') && GuardOk(s', g, 0)
  {
    assert GuardRequests(s', g) == GuardRequests(s, g);
    assert GuardTakers(s', g) == GuardTakers(s, g);
  }

  lemma DropGuardKeeps(s: State, g: GuardId)
    requires Shape(s) && Flights(s) && Ordered(s) && Tasks(s) && WaitCounts(s, None) && RefCounts(s, None)
    requires Locks(s) && GuardCounts(s, Some(g)) && Chains(s) && g in s.guards
    ensures Invariant(DropGuard(s, g))
  {
    var s' := DropGuard(s, g);
    assert GuardOk(s, g, Debt(Some(g), g));
    DropGuardRecord(s, g, s'.guards[g], s');
    OnlyGuardsKeeps(s, s', None);
    NewGuardRecordKeepsLocks(s, g, s'.guards[g], s', Some(g));
  }

  lemma ByGuardUpTo(s: State, debtor: GuardId)
    requires forall g :: g in s.guards ==> GuardOk(s, g, Debt(Some(debtor), g)) && ChainOk(s, g)
    ensures GuardCounts(s, Some(debtor)) && Chains(s)
  {
  }

  lemma GiveUpGuardKeepsLocks(s: State, g: GuardId, s': State)
    requires Locks(s) && GuardCounts(s, None) && Chains(s) && g in s.guards && s.guards[g].user > 0
    requires s' == s.(guards := s.guards[g := s.guards[g].(user := s.guards[g].user - 1)])
    ensures Locks(s') && GuardCounts(s', Some(g)) && Chains(s')
  {
    forall h | h in s'.guards
      ensures GuardOk(s', h, Debt(Some(g), h)) && ChainOk(s', h)
    {
      assert GuardRequests(s', h) == GuardRequests(s, h);
      assert GuardTakers(s', h) == GuardTakers(s, h);
      assert GuardOk(s, h, Debt(None, h)) && ChainOk(s, h);
      ChainStays(s, s', h);
    }
    TablesStay(s, s');
    ByGuardUpTo(s', g);
  }

  lemma UserReleaseGuardKeeps(s: State, g: GuardId, s1: State)
    requires Invariant(s) && g in s.guards && s.guards[g].user > 0
    requires s1 == s.(guards := s.guards[g := s.guards[g].(user := s.guards[g].user - 1)])
    ensures Invariant(DropGuard(s1, g))
  {
    OnlyGuardsKeeps(s, s1, None);
    GiveUpGuardKeepsLocks(s, g, s1);
    DropGuardKeeps(s1, g);
  }

  lemma UnknownGuard(s: State, g: GuardId)
    requires Locks(s) && g !in s.guards
    ensures GuardRequests(s, g) == {} && GuardTakers(s, g) == {}
  {
    forall r | r in s.requests
      ensures s.requests[r].guard != g
    {
      assert RequestOk(s, r);
    }
    forall p | p in s.points
      ensures !HoldsGuard(s.points[p].life, g)
    {
      assert TakerOk(s, p);
    }
  }

  lemma CreateGuardKeepsLocks(s: State, g: GuardId, s': State)
    requires Locks(s) && GuardCounts(s, None) && Chains(s) && g !in s.guards
    requires s' == s.(guards := s.guards[g := Guard(1, None, 1, true, [])])
    ensures Locks(s') && GuardCounts(s', None) && Chains(s')
  {
    UnknownGuard(s, g);
    assert GuardRequests(s', g) == GuardRequests(s, g);
    assert GuardTakers(s', g) == GuardTakers(s, g);
    forall h | h in s'.guards
      ensures GuardOk(s', h, 0) && ChainOk(s', h)
    {
      if h != g {
        assert GuardRequests(s', h) == GuardRequests(s, h);
        assert GuardTakers(s', h) == GuardTakers(s, h);
        assert GuardOk(s, h, Debt(None, h)) && ChainOk(s, h);
        ChainStays(s, s', h);
      }
    }
    TablesStay(s, s');
    ByGuard(s');
  }

  lemma CreateGuardKeeps(s: State, g: GuardId, s': State)
    requires Invariant(s) && g !in s.guards && s' == s.(guards := s.guards[g := Guard(1, None, 1, true, [])])
    ensures Invariant(s')
  {
    OnlyGuardsKeeps(s, s', None);
    CreateGuardKeepsLocks(s, g, s');
  }

  /** p, which has not occurred, asks for g. */
  ghost predicate Asked(s: State, p: PointId, g: GuardId, r: RequestId, s': State) {
    g in s.guards && s.guards[g].live && r !in s.requests &&
    p in s.points && !HasOccurred(s.points[p].life) &&
    s' == s.(requests := s.requests[r := Request(p, g)],
             guards := s.guards[g := s.guards[g].(rc := s.guards[g].rc + 1)])
  }

  lemma AskedCounts(s: State, p: PointId, g: GuardId, r: RequestId, s': State, h: GuardId)
    requires Asked(s, p, g, r, s') && h in s.guards && GuardOk(s, h, 0)
    ensures GuardOk(s', h, 0)
  {
    assert GuardRequests(s', h) == if h == g then GuardRequests(s, h) + {r} else GuardRequests(s, h);
    assert GuardTakers(s', h) == GuardTakers(s, h);
  }

  lemma AddLockKeepsLocks(s: State, p: PointId, g: GuardId, r: RequestId, s': State)
    requires Locks(s) && GuardCounts(s, None) && Chains(s) && Asked(s, p, g, r, s')
    ensures Locks(s') && GuardCounts(s', None) && Chains(s')
  {
    forall h | h in s'.guards
      ensures GuardOk(s', h, 0) && ChainOk(s', h)
    {
      assert GuardOk(s, h, Debt(None, h)) && ChainOk(s, h);
      AskedCounts(s, p, g, r, s', h);
      ChainStays(s, s', h);
    }
    assert RequestOk(s', r);
    TablesStay(s, s');
    ByGuard(s');
  }

  lemma AskedKeeps(s: State, p: PointId, g: GuardId, r: RequestId, s': State)
    requires Invariant(s) && Asked(s, p, g, r, s')
    ensures Invariant(s')
  {
    OnlyGuardsKeeps(s, s', None);
    AddLockKeepsLocks(s, p, g, r, s');
  }

  lemma AddLockMeans(s: State, t: PointId, p: PointId, g: GuardId, r: RequestId, s': State)
    requires Shape(s) && Ordered(s) && Tasks(s) && Step(s, AddLock(t, p, g, r), s')
    ensures Asked(s, p, g, r, s')
  {
    AllowedTargetIsPinned(s, t, p);
  }

  lemma AddLockKeeps(s: State, t: PointId, p: PointId, g: GuardId, r: RequestId, s': State)
    requires Invariant(s) && Step(s, AddLock(t, p, g, r), s')
    ensures Invariant(s')
  {
    AddLockMeans(s, t, p, g, r, s');
    AskedKeeps(s, p, g, r, s');
  }

  /** A dead guard lets go of its last_lock. */
  lemma LetGoCounts(s: State, g: GuardId, s': State, q: PointId)
    requires g in s.guards && s.guards[g].last.Some? && s' == s.(guards := s.guards[g := s.guards[g].(last := None)])
    ensures WaitEdges(s', q) == WaitEdges(s, q) && RefEdges(s', q) == RefEdges(s, q) && RefTakers(s', q) == RefTakers(s, q)
    ensures |RefGuards(s, q)| == |RefGuards(s', q)| + Bit(s.guards[g].last == Some(q))
  {
    assert forall e :: ConnectedIn(s', e) == ConnectedIn(s, e);
    assert RefGuards(s', q) == RefGuards(s, q) - {g};
  }

  lemma LetGoKeepsTotals(s: State, g: GuardId, s': State)
    requires WaitCounts(s, None) && RefCounts(s, None)
    requires g in s.guards && s.guards[g].last.Some? && s' == s.(guards := s.guards[g := s.guards[g].(last := None)])
    ensures WaitCounts(s', None) && RefCounts(s', s.guards[g].last)
  {
    var debtor := s.guards[g].last;
    forall q | q in s'.points
      ensures WaitsOk(s', q, 0) && RefsOk(s', q, Debt(debtor, q))
    {
      LetGoCounts(s, g, s', q);
      assert WaitsOk(s, q, Debt(None, q)) && RefsOk(s, q, Debt(None, q));
    }
  }

  lemma LetGoKeepsLocks(s: State, g: GuardId, s': State)
    requires Locks(s) && GuardCounts(s, None) && Chains(s)
    requires g in s.guards && !s.guards[g].live && s' == s.(guards := s.guards[g := s.guards[g].(last := None)])
    ensures Locks(s') && GuardCounts(s', None) && Chains(s')
  {
    forall h | h in s'.guards
      ensures GuardOk(s', h, 0) && ChainOk(s', h)
    {
      assert GuardRequests(s', h) == GuardRequests(s, h);
      assert GuardTakers(s', h) == GuardTakers(s, h);
      assert GuardOk(s, h, Debt(None, h)) && ChainOk(s, h);
      ChainStays(s, s', h);
    }
    TablesStay(s, s');
    ByGuard(s');
  }

  lemma LetGoKeepsRest(s: State, g: GuardId, s': State)
    requires Shape(s) && Flights(s) && Ordered(s) && Tasks(s) && g in s.guards
    requires s'.points == s.points && s'.edges == s.edges && s'.inflight == s.inflight && s'.releasing == s.releasing && s'.clock == s.clock
    ensures Shape(s') && Flights(s') && Ordered(s') && Tasks(s')
  {
    ShapeStays(s, s');
    forall p | p in s'.points
      ensures TaskOk(s', p)
    {
      assert TaskOk(s, p);
    }
  }

  lemma ReleaseGuardLastKeeps(s: State, g: GuardId, s1: State, p: PointId)
    requires Invariant(s) && p in s.points && PointInRange(s.points[p])
    requires g in s.guards && !s.guards[g].live && s.guards[g].last == Some(p)
    requires s1 == s.(guards := s.guards[g := s.guards[g].(last := None)])
    ensures Invariant(Release(s1, p))
  {
    LetGoKeepsTotals(s, g, s1);
    LetGoKeepsLocks(s, g, s1);
    LetGoKeepsRest(s, g, s1);
    ReleaseKeeps(s1, p);
  }
}
