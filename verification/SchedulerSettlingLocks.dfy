/** The steps of lock_pending_guards() and guard_release() as a thread takes them. */
module SchedulerSettlingLocks {
  import opened FiniteSets
  import opened SchedulerState
  import opened SchedulerSteps
  import opened SchedulerInvariant
  import opened SchedulerRelease
  import opened SchedulerGuards
  import opened SchedulerWorkers
  import opened SchedulerTaking
  import opened SchedulerRuntime
  import opened SchedulerSettling

  /** A chain of transitions in which p takes guards; other points may only be freed. */
  ghost predicate TakesGuards(s: State, s': State, p: PointId) {
    Sound(s') && Leads(s, s') && s'.inflight == s.inflight && s'.releasing == s.releasing && Onward(s, s') &&
    p in s'.points && s'.points[p].life.Acquiring? &&
    (forall q :: q in s.points && q != p ==> q in s'.points && MayBeFreed(s.points[q].life, s'.points[q].life))
  }

  lemma TakesGuardsOn(s: State, s1: State, s2: State, p: PointId)
    requires TakesGuards(s, s1, p) && TakesGuards(s1, s2, p)
    ensures TakesGuards(s, s2, p)
  {
    LeadsOn(s, s1, s2);
    OnwardOn(s, s1, s2);
  }

  lemma TakesGuardsStart(s: State, p: PointId)
    requires Sound(s) && p in s.points && s.points[p].life.Acquiring?
    ensures TakesGuards(s, s, p)
  {
    LeadsToItself(s);
  }

  lemma SameUnoccurred(s: State, s': State, p: PointId)
    requires TakesGuards(s, s', p) && p in s.points && !HasOccurred(s.points[p].life)
    ensures Unoccurred(s') == Unoccurred(s)
  {
  }

  // ----- The exchange and the new edge -------------------------------------------------------

  lemma SwapComes(s: State, p: PointId, r: RequestId)
    requires Sound(s) && p in s.points && s.points[p].life == Acquiring(Popping) && r in s.requests && s.requests[r].point == p
    ensures Enabled(s, SwapLock(p, r)) && s.points[p].bound != Some(p) && s.requests[r].guard in s.guards
  {
    SoundMeans(s);
    assert RequestOk(s, r) && TakerOk(s, p) && BoundOk(s, p);
  }

  lemma SwapIs(s: State, p: PointId, r: RequestId, s': State)
    requires Step(s, SwapLock(p, r), s') && s.points[p].bound != Some(p)
    ensures Swap(s, p, r, s.points[p].bound, s.requests[r].guard, s')
  {
  }

  lemma SwapOnward(s: State, p: PointId, r: RequestId, end: Option<PointId>, g: GuardId, s': State)
    requires Swap(s, p, r, end, g, s')
    ensures Onward(s, s') && |s'.edges| + |s'.requests| + 1 == |s.edges| + |s.requests|
  {
    assert s.requests.Keys == s'.requests.Keys + {r};
  }

  lemma SwapRoom(s: State, p: PointId, r: RequestId, s': State)
    requires Step(s, SwapLock(p, r), s') && s.points[p].bound != Some(p)
    ensures Roomy(s) ==> Roomy(s')
    ensures Onward(s, s') && |s'.edges| + |s'.requests| + 1 == |s.edges| + |s.requests|
    ensures s'.inflight == s.inflight && s'.releasing == s.releasing
    ensures forall q :: q in s.points && q != p ==> s'.points[q].life == s.points[q].life
    ensures p in s'.points && s'.points[p].life.Acquiring? && (s'.points[p].life.taking.Swapped? || s'.points[p].life.taking.Letting?)
  {
    SwapIs(s, p, r, s');
    SwapOnward(s, p, r, s.points[p].bound, s.requests[r].guard, s');
    OnwardRoom(s, s');
  }

  lemma SwapDone(s: State, p: PointId, r: RequestId, s': State)
    requires Sound(s) && Step(s, SwapLock(p, r), s') && s.points[p].bound != Some(p)
    ensures TakesGuards(s, s', p)
  {
    RoomyNow(s);
    SwapRoom(s, p, r, s');
    SoundInRange(s);
    StepKeepsSound(s, SwapLock(p, r), s');
    LeadsToItself(s');
    LeadsByStep(s, SwapLock(p, r), s', s');
  }

  lemma LinkComes(s: State, p: PointId, e: EdgeId)
    requires Sound(s) && p in s.points && s.points[p].life.Acquiring? && s.points[p].life.taking.Swapped?
    requires e.Out? && e !in s.edges
    ensures Enabled(s, LinkLock(p, e)) && s.points[p].life.taking.former in s.points
  {
    SoundMeans(s);
    assert TakerOk(s, p);
  }

  lemma LinkIs(s: State, p: PointId, e: EdgeId, s': State)
    requires Step(s, LinkLock(p, e), s')
    ensures s'.edges.Keys == s.edges.Keys + {e} && |s'.edges| == |s.edges| + 1
    ensures forall d :: d in s.edges ==> d in s'.edges && s'.edges[d] == s.edges[d]
    ensures s'.requests == s.requests && s'.guards == s.guards && s'.inflight == s.inflight && s'.releasing == s.releasing
    ensures p in s'.points && s'.points == s.points[p := s'.points[p]]
    ensures s'.points[p].life.Acquiring? && s'.points[p].life.taking.Linked?
    ensures s'.points[p] == s.points[p].(wc := s'.points[p].wc, rc := s'.points[p].rc, life := s'.points[p].life)
  {
    assert s'.edges.Keys == s.edges.Keys + {e};
    assert |s'.edges.Keys| == |s.edges.Keys| + 1;
    LinkPoint(s, p, e, s');
  }

  lemma LinkPoint(s: State, p: PointId, e: EdgeId, s': State)
    requires Step(s, LinkLock(p, e), s')
    ensures p in s'.points && s'.points == s.points[p := s'.points[p]]
    ensures s'.points[p].life.Acquiring? && s'.points[p].life.taking.Linked?
    ensures s'.points[p] == s.points[p].(wc := s'.points[p].wc, rc := s'.points[p].rc, life := s'.points[p].life)
  {
    var taking := s.points[p].life.taking;
    AddEdgePoint(WithLife(s, p, Acquiring(Linked(taking.guard, taking.former))), taking.former, p, e);
  }

  lemma AddEdgePoint(s: State, before: PointId, after: PointId, e: EdgeId)
    requires before in s.points && after in s.points
    ensures var s' := AddEdge(s, before, after, true, e);
      s'.points == s.points[after := s.points[after].(wc := s'.points[after].wc, rc := s'.points[after].rc)]
  {
  }

  lemma LinkRoom(s0: State, s: State, p: PointId, e: EdgeId, s': State)
    requires Onward(s0, s) && |s.edges| + |s.requests| + 1 == |s0.edges| + |s0.requests|
    requires Step(s, LinkLock(p, e), s')
    ensures Onward(s0, s') && s'.inflight == s.inflight && s'.releasing == s.releasing
    ensures forall q :: q in s.points && q != p ==> s'.points[q].life == s.points[q].life
    ensures p in s'.points && s'.points[p].life.Acquiring? && s'.points[p].life.taking.Linked?
  {
    LinkIs(s, p, e, s');
  }

  /** The exchange took the room that the edge needs. */
  lemma LinkDone(s0: State, s: State, p: PointId, e: EdgeId, s': State)
    requires Sound(s0) && TakesGuards(s0, s, p) && |s.edges| + |s.requests| + 1 == |s0.edges| + |s0.requests|
    requires Step(s, LinkLock(p, e), s')
    ensures TakesGuards(s0, s', p) && s'.points[p].life.taking.Linked?
  {
    LinkRoom(s0, s, p, e, s');
    RoomyNow(s0);
    OnwardRoom(s0, s');
    SoundInRange(s);
    StepKeepsSound(s, LinkLock(p, e), s');
    LeadsToItself(s');
    LeadsByStep(s, LinkLock(p, e), s', s');
    LeadsOn(s0, s, s');
  }

  // ----- Giving up the former holder -----------------------------------------------------------

  function AfterFormer(s: State, p: PointId): State
    requires p in s.points && s.points[p].life.Acquiring? && !s.points[p].life.taking.Popping?
  {
    WithLife(s, p, Acquiring(Letting(s.points[p].life.taking.guard)))
  }

  lemma FormerStepIs(s: State, p: PointId, f: PointId)
    requires p in s.points && s.points[p].life.Acquiring? && s.points[p].life.taking.Linked?
    requires f == s.points[p].life.taking.former && f in s.points
    ensures f in AfterFormer(s, p).points && Step(s, ReleaseFormer(p), Release(AfterFormer(s, p), f))
  {
  }

  lemma FormerDebt(s: State, p: PointId, f: PointId, s1: State)
    requires Locks(s) && WaitCounts(s, None) && RefCounts(s, None) && CountsInRange(s)
    requires p in s.points && s.points[p].life.Acquiring? && s.points[p].life.taking.Linked?
    requires f == s.points[p].life.taking.former && s1 == AfterFormer(s, p)
    ensures f in s.points && f in s1.points && RefsOk(s1, f, 1) && PointInRange(s1.points[f])
  {
    assert Stepped(s, p, s1.points[p], s1);
    FormerLeft(s, p, s1.points[p], s1, f);
    SteppedTotals(s, p, s1.points[p], s1, Some(f));
    assert RefsOk(s1, f, Debt(Some(f), f));
  }

  lemma ReleaseOnly(s: State, f: PointId)
    requires f in s.points && RefsOk(s, f, 1) && PointInRange(s.points[f])
    ensures OnlyReleases(s, Release(s, f)) && !s.points[f].life.Freed?
  {
    LastReference(s, f);
  }

  lemma FormerIs(s: State, p: PointId)
    requires Sound(s) && p in s.points && s.points[p].life.Acquiring? && s.points[p].life.taking.Linked?
    ensures var f := s.points[p].life.taking.former;
            f in s.points && f in AfterFormer(s, p).points && Step(s, ReleaseFormer(p), Release(AfterFormer(s, p), f)) &&
            OnlyReleases(AfterFormer(s, p), Release(AfterFormer(s, p), f)) && !AfterFormer(s, p).points[f].life.Freed?
  {
    SoundMeans(s);
    RoomInRange(s);
    var f := s.points[p].life.taking.former;
    FormerDebt(s, p, f, AfterFormer(s, p));
    FormerStepIs(s, p, f);
    ReleaseOnly(AfterFormer(s, p), f);
  }

  lemma FormerRoom(s: State, p: PointId, f: PointId)
    requires Roomy(s) && p in s.points && s.points[p].life.Acquiring? && !s.points[p].life.taking.Popping?
    requires f in AfterFormer(s, p).points
    ensures Roomy(AfterFormer(s, p)) && Roomy(Release(AfterFormer(s, p), f))
  {
    RoomStays(s, AfterFormer(s, p));
    ReleaseRoom(AfterFormer(s, p), f);
  }

  lemma FormerSources(s: State, p: PointId, f: PointId)
    requires Sound(s) && p in s.points && s.points[p].life.Acquiring? && !s.points[p].life.taking.Popping? && f in s.points
    requires !AfterFormer(s, p).points[f].life.Freed?
    ensures forall e :: e in s.releasing && e in s.edges ==> s.edges[e].src != f
  {
    SoundSources(s, f);
  }

  lemma FormerComes(s: State, p: PointId)
    requires Sound(s) && p in s.points && s.points[p].life.Acquiring? && s.points[p].life.taking.Linked?
    ensures CanRelease(AfterFormer(s, p), s.points[p].life.taking.former)
  {
    var f := s.points[p].life.taking.former;
    FormerIs(s, p);
    RoomyNow(s);
    FormerRoom(s, p, f);
    StepKeepsSound(s, ReleaseFormer(p), Release(AfterFormer(s, p), f));
    FormerSources(s, p, f);
  }

  lemma FormerDone(s: State, p: PointId, s': State)
    requires Sound(s) && p in s.points && s.points[p].life.Acquiring? && s.points[p].life.taking.Linked?
    requires s.points[p].life.taking.former in AfterFormer(s, p).points
    requires Releasing(Release(AfterFormer(s, p), s.points[p].life.taking.former), s') && s'.releasing == s.releasing
    ensures TakesGuards(s, s', p) && s'.points[p].life == Acquiring(Letting(s.points[p].life.taking.guard))
  {
    var f := s.points[p].life.taking.former;
    var s2 := Release(AfterFormer(s, p), f);
    FormerIs(s, p);
    SoundInRange(s);
    OnlyReleasesOn(AfterFormer(s, p), s2, s');
    LeadsByStep(s, ReleaseFormer(p), s2, s');
    FormerFrame(s, p, AfterFormer(s, p), s');
  }

  lemma FormerFrame(s: State, p: PointId, s1: State, s': State)
    requires p in s.points && s.points[p].life.Acquiring? && !s.points[p].life.taking.Popping?
    requires s1 == AfterFormer(s, p) && OnlyReleases(s1, s')
    ensures Onward(s, s') && s'.inflight == s.inflight && p in s'.points
    ensures s'.points[p].life == Acquiring(Letting(s.points[p].life.taking.guard))
    ensures forall q :: q in s.points && q != p ==> q in s'.points && MayBeFreed(s.points[q].life, s'.points[q].life)
  {
  }

  // ----- guard_release() ---------------------------------------------------------------------------

  /** g is about to lose a reference whose owner has given it up. */
  ghost predicate CanReleaseGuard(s: State, g: GuardId) {
    g in s.guards && Sound(DropGuard(s, g))
  }

  function WithoutLast(s: State, g: GuardId): State
    requires g in s.guards
  {
    s.(guards := s.guards[g := s.guards[g].(last := None)])
  }

  lemma GuardLastStepIs(s: State, g: GuardId, q: PointId)
    requires g in s.guards && !s.guards[g].live && s.guards[g].last == Some(q) && q in s.points
    ensures Step(s, ReleaseGuardLast(g), Release(WithoutLast(s, g), q))
  {
  }

  lemma GuardLastDebt(s: State, g: GuardId, q: PointId)
    requires Locks(s) && WaitCounts(s, None) && RefCounts(s, None) && CountsInRange(s)
    requires g in s.guards && !s.guards[g].live && s.guards[g].last == Some(q)
    ensures q in s.points && RefsOk(WithoutLast(s, g), q, 1) && PointInRange(s.points[q])
  {
    LetGoKeepsTotals(s, g, WithoutLast(s, g));
    assert RefsOk(WithoutLast(s, g), q, Debt(Some(q), q));
  }

  lemma GuardLastOnly(s: State, g: GuardId, q: PointId)
    requires g in s.guards && q in s.points && OnlyReleases(WithoutLast(s, g), Release(WithoutLast(s, g), q))
    ensures OnlyReleases(s, Release(WithoutLast(s, g), q))
  {
  }

  lemma GuardLastIs(s: State, g: GuardId)
    requires Sound(s) && g in s.guards && !s.guards[g].live && s.guards[g].last.Some?
    ensures var q := s.guards[g].last.value;
            q in s.points && Step(s, ReleaseGuardLast(g), Release(WithoutLast(s, g), q)) &&
            OnlyReleases(s, Release(WithoutLast(s, g), q)) && !s.points[q].life.Freed?
  {
    SoundMeans(s);
    RoomInRange(s);
    var q := s.guards[g].last.value;
    GuardLastDebt(s, g, q);
    GuardLastStepIs(s, g, q);
    ReleaseOnly(WithoutLast(s, g), q);
    GuardLastOnly(s, g, q);
  }

  lemma GuardLastRoom(s: State, g: GuardId, q: PointId)
    requires Roomy(s) && g in s.guards && q in s.points
    ensures Roomy(WithoutLast(s, g)) && Roomy(Release(WithoutLast(s, g), q))
  {
    assert WithoutLast(s, g).guards.Keys == s.guards.Keys;
    assert |WithoutLast(s, g).guards| == |s.guards|;
    RoomStays(WithoutLast(s, g), Release(WithoutLast(s, g), q));
  }

  lemma GuardLastComes(s: State, g: GuardId)
    requires Sound(s) && g in s.guards && !s.guards[g].live && s.guards[g].last.Some?
    ensures CanRelease(WithoutLast(s, g), s.guards[g].last.value)
  {
    var q := s.guards[g].last.value;
    GuardLastIs(s, g);
    RoomyNow(s);
    GuardLastRoom(s, g, q);
    StepKeepsSound(s, ReleaseGuardLast(g), Release(WithoutLast(s, g), q));
    SoundSources(s, q);
  }

  /** A chain of transitions that released references and perhaps a guard's last_lock. */
  ghost predicate Dropping(s: State, s': State) {
    Sound(s') && Leads(s, s') && OnlyReleases(s, s') && s'.releasing == s.releasing
  }

  lemma GuardLastDone(s: State, g: GuardId, s': State)
    requires Sound(s) && g in s.guards && !s.guards[g].live && s.guards[g].last.Some? && s.guards[g].last.value in s.points
    requires Releasing(Release(WithoutLast(s, g), s.guards[g].last.value), s') && s'.releasing == s.releasing
    ensures Dropping(s, s')
  {
    var q := s.guards[g].last.value;
    GuardLastIs(s, g);
    SoundInRange(s);
    OnlyReleasesOn(s, Release(WithoutLast(s, g), q), s');
    LeadsByStep(s, ReleaseGuardLast(g), Release(WithoutLast(s, g), q), s');
  }

  // ----- Giving up the guard -------------------------------------------------------------------------

  function AfterTaken(s: State, p: PointId): State
    requires p in s.points
  {
    WithLife(s, p, Acquiring(Popping))
  }

  lemma TakenIs(s: State, p: PointId, g: GuardId)
    requires Sound(s) && p in s.points && s.points[p].life == Acquiring(Letting(g))
    ensures g in s.guards && Step(s, ReleaseTaken(p), DropGuard(AfterTaken(s, p), g))
  {
    SoundMeans(s);
    assert TakerOk(s, p);
  }

  lemma TakenRoom(s: State, p: PointId, g: GuardId)
    requires p in s.points && g in s.guards && !HasOccurred(s.points[p].life)
    ensures Onward(s, DropGuard(AfterTaken(s, p), g)) && (Roomy(s) ==> Roomy(DropGuard(AfterTaken(s, p), g)))
  {
    OnwardRoom(s, DropGuard(AfterTaken(s, p), g));
  }

  lemma TakenComes(s: State, p: PointId, g: GuardId)
    requires Sound(s) && p in s.points && s.points[p].life == Acquiring(Letting(g))
    ensures CanReleaseGuard(AfterTaken(s, p), g)
  {
    TakenIs(s, p, g);
    RoomyNow(s);
    TakenRoom(s, p, g);
    StepKeepsSound(s, ReleaseTaken(p), DropGuard(AfterTaken(s, p), g));
  }

  lemma TakenDone(s: State, p: PointId, g: GuardId, s': State)
    requires Sound(s) && p in s.points && s.points[p].life == Acquiring(Letting(g)) && g in s.guards
    requires Dropping(DropGuard(AfterTaken(s, p), g), s')
    ensures TakesGuards(s, s', p) && s'.points[p].life == Acquiring(Popping)
  {
    var s1 := DropGuard(AfterTaken(s, p), g);
    TakenIs(s, p, g);
    TakenRoom(s, p, g);
    SoundInRange(s);
    ReleasesAreOnward(s1, s');
    OnwardOn(s, s1, s');
    LeadsByStep(s, ReleaseTaken(p), s1, s');
  }

  // ----- All guards are taken ---------------------------------------------------------------------------

  lemma LocksTakenWaits(s: State, p: PointId)
    requires Flights(s) && WaitCounts(s, None) && p in s.points && s.points[p].life == Acquiring(Popping)
    ensures WaitsOk(WithLife(s, p, Waiting), p, 1) && Flights(WithLife(s, p, Waiting))
  {
    var s1 := WithLife(s, p, Waiting);
    assert WaitsOk(s, p, Debt(None, p));
    MovedOnCounts(s, p, s1.points[p], s1, p);
  }

  lemma LocksTakenComes(s: State, p: PointId)
    requires Sound(s) && p in s.points && s.points[p].life == Acquiring(Popping) && !HasRequest(s, p)
    ensures CanArrive(WithLife(s, p, Waiting), p, 0)
    ensures Step(s, LocksTaken(p), Arrive(WithLife(s, p, Waiting), p, 0))
  {
    SoundMeans(s);
    LocksTakenWaits(s, p);
    RoomStays(s, WithLife(s, p, Waiting));
    ArrivalComes(s, LocksTaken(p), WithLife(s, p, Waiting), p, 0);
  }

  /** The arrival after the guards are taken. */
  lemma LocksTakenDone(s0: State, s: State, p: PointId, s': State)
    requires Sound(s) && TakesGuards(s0, s, p) && s.points[p].life == Acquiring(Popping) && !HasRequest(s, p)
    requires p in s0.points && s0.points[p].life.Acquiring?
    requires Arriving(WithLife(s, p, Waiting), Arrive(WithLife(s, p, Waiting), p, 0), s')
    ensures Sound(s') && Leads(s0, s') && s'.inflight == s0.inflight && s'.releasing == s0.releasing
    ensures Onward(s0, s') && LivesSettleBut(s0, s', p)
    ensures p in s'.points && (s'.points[p].life.Waiting? || IsDispatched(s'.points[p].life))
  {
    LocksTakenComes(s, p);
    SoundInRange(s);
    LeadsByStep(s, LocksTaken(p), Arrive(WithLife(s, p, Waiting), p, 0), s');
    LeadsOn(s0, s, s');
    LocksTakenOnward(s0, s, p, s');
  }

  lemma LocksTakenOnward(s0: State, s: State, p: PointId, s': State)
    requires Onward(s0, s) && p in s.points && s.points[p].life.Acquiring? && Onward(WithLife(s, p, Waiting), s')
    requires LivesSettle(WithLife(s, p, Waiting), s')
    requires forall q :: q in s0.points && q != p ==> q in s.points && MayBeFreed(s0.points[q].life, s.points[q].life)
    ensures Onward(s0, s') && LivesSettleBut(s0, s', p)
    ensures p in s'.points && (s'.points[p].life.Waiting? || IsDispatched(s'.points[p].life))
  {
    assert Onward(s, WithLife(s, p, Waiting));
    OnwardOn(s, WithLife(s, p, Waiting), s');
    OnwardOn(s0, s, s');
  }

  /** Taking guards meets a request, so the arrival afterwards is simpler. */
  lemma FewerRequests(s: State, s': State, p: PointId)
    requires TakesGuards(s, s', p) && HasRequest(s, p) && !HasRequest(s', p)
    requires forall r :: r in s'.requests ==> r in s.requests && s'.requests[r] == s.requests[r]
    ensures |s'.requests| < |s.requests|
  {
    assert s'.requests.Keys < s.requests.Keys;
    var r :| r in s.requests && s.requests[r].point == p;
    assert r !in s'.requests.Keys;
    SmallerSet(s'.requests.Keys + {r}, s.requests.Keys);
  }
}
