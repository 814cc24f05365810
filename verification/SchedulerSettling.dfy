/** How the state may differ when a method of a thread returns: which points it may have
    made occur or freed, and what it left alone. */
module SchedulerSettling {
  import opened FiniteSets
  import opened SchedulerState
  import opened SchedulerSteps
  import opened SchedulerInvariant
  import opened SchedulerFrames
  import opened SchedulerRelease
  import opened SchedulerWorkers
  import opened SchedulerRuns
  import opened SchedulerRuntime

  /** Apart from counts and lives: edges may be added, one for each request met. */
  ghost predicate Onward(s: State, s': State) {
    s'.points.Keys == s.points.Keys && s'.guards.Keys == s.guards.Keys && s'.requests.Keys <= s.requests.Keys &&
    |s'.edges| + |s'.requests| <= |s.edges| + |s.requests| &&
    (forall e :: e in s.edges ==> e in s'.edges && s'.edges[e] == s.edges[e]) &&
    (forall p :: p in s.points ==>
       s'.points[p] == s.points[p].(wc := s'.points[p].wc, rc := s'.points[p].rc, life := s'.points[p].life))
  }

  lemma OnwardOn(s: State, s1: State, s2: State)
    requires Onward(s, s1) && Onward(s1, s2)
    ensures Onward(s, s2)
  {
  }

  lemma OnwardRoom(s: State, s': State)
    requires Onward(s, s')
    ensures Roomy(s) ==> Roomy(s')
    ensures |s'.requests| <= |s.requests|
  {
    assert |s'.points.Keys| == |s.points.Keys| && |s'.guards.Keys| == |s.guards.Keys|;
    SmallerSet(s'.requests.Keys, s.requests.Keys);
  }

  lemma ReleasesAreOnward(s: State, s': State)
    requires OnlyReleases(s, s')
    ensures Onward(s, s')
  {
  }

  predicate IsDispatched(life: Life) {
    life.Freed? || (life.Occurred? && (life.stage == Queued || life.stage == Done))
  }

  /** A point that was waiting may have occurred, and then its dispatch is over; a point
      whose dispatch was over may have been freed; others are as they were. */
  predicate LifeSettles(life: Life, life': Life) {
    life' == life || (life.Waiting? && IsDispatched(life')) || MayBeFreed(life, life')
  }

  ghost predicate LivesSettle(s: State, s': State) {
    forall p :: p in s.points ==> p in s'.points && LifeSettles(s.points[p].life, s'.points[p].life)
  }

  ghost predicate LivesSettleBut(s: State, s': State, q: PointId) {
    forall p :: p in s.points && p != q ==> p in s'.points && LifeSettles(s.points[p].life, s'.points[p].life)
  }

  lemma FewerUnoccurred(s: State, s': State)
    requires Onward(s, s') && LivesSettle(s, s')
    ensures |Unoccurred(s')| <= |Unoccurred(s)|
  {
    SmallerSet(Unoccurred(s'), Unoccurred(s));
  }

  /** A chain of transitions that leaves nothing half done but what was so before. */
  ghost predicate Settled(s: State, s': State) {
    Sound(s') && Leads(s, s') && s'.releasing == s.releasing && Onward(s, s') && LivesSettle(s, s')
  }

  lemma SettledStart(s: State)
    requires Sound(s)
    ensures Settled(s, s)
  {
    LeadsToItself(s);
  }

  lemma SettledOn(s: State, s1: State, s2: State)
    requires Settled(s, s1) && Settled(s1, s2)
    ensures Settled(s, s2)
  {
    LeadsOn(s, s1, s2);
    OnwardOn(s, s1, s2);
  }

  // ----- Arrivals ------------------------------------------------------------------------------

  /** q is about to be arrived at by an owner that has given up its unit of the count. */
  ghost predicate CanArrive(s: State, q: PointId, addRefs: nat) {
    q in s.points && !HasOccurred(s.points[q].life) && (s.points[q].wc == 1 ==> s.points[q].life.Waiting?) &&
    (forall e :: e in s.inflight && e in s.edges ==> s.edges[e].src != q) && s.points[q].wc >= 1 &&
    Roomy(s) && Sound(Arrive(s, q, addRefs))
  }

  lemma NothingFrom(s: State, q: PointId)
    requires Flights(s) && q in s.points && !HasOccurred(s.points[q].life)
    ensures forall e :: e in s.inflight && e in s.edges ==> s.edges[e].src != q
  {
  }

  /** How a step that ends in an arrival is taken: s1 is s without the owner's token. */
  lemma ArrivalComes(s: State, a: Action, s1: State, q: PointId, addRefs: nat)
    requires Sound(s) && q in s1.points && Step(s, a, Arrive(s1, q, addRefs))
    requires Flights(s1) && Roomy(s1) && !HasOccurred(s1.points[q].life) && WaitsOk(s1, q, 1)
    ensures CanArrive(s1, q, addRefs)
  {
    SoundMeans(s);
    RoomInRange(s);
    StepKeepsInvariant(s, a, Arrive(s1, q, addRefs));
    RoomAfterArrive(s1, q, addRefs);
    SoundMeans(Arrive(s1, q, addRefs));
    NothingFrom(s1, q);
  }

  lemma RoomAfterArrive(s: State, q: PointId, addRefs: nat)
    requires q in s.points && Roomy(s)
    ensures Roomy(Arrive(s, q, addRefs))
  {
    RoomStays(s, Arrive(s, q, addRefs));
  }

  /** From an arrival at q in state s: everything that it sets off is over. */
  ghost predicate Arriving(s: State, first: State, s': State) {
    Sound(s') && Leads(first, s') && s'.inflight == s.inflight && s'.releasing == s.releasing &&
    Onward(s, s') && LivesSettle(s, s')
  }

  /** The counts of q were adjusted before the rest of the arrival. */
  lemma ArrivingFrom(s: State, s1: State, q: PointId, first: State, s': State)
    requires q in s.points && q in s1.points
    requires s1 == WithPoint(s, q, s.points[q].(rc := s1.points[q].rc, wc := s1.points[q].wc))
    requires Arriving(s1, first, s')
    ensures Arriving(s, first, s')
  {
  }

  lemma NotifiedAreEdges(s: State)
    requires Sound(s)
    ensures forall e :: e in s.inflight ==> e in s.edges
  {
    SoundMeans(s);
  }

  /** The state without the notification e. */
  function Without(s: State, e: EdgeId): State {
    s.(inflight := s.inflight - {e})
  }

  function Refs(s: State, e: EdgeId): nat
    requires ConnectedIn(s, e)
  {
    Bit(!IsDead(s.points[s.edges[e].src].life))
  }

  lemma NotificationWaits(s: State, e: EdgeId)
    requires Flights(s) && Ordered(s) && WaitCounts(s, None) && RefCounts(s, None) && e in s.inflight && ConnectedIn(s, e)
    ensures WaitsOk(Without(s, e), s.edges[e].dst, 1) && !HasOccurred(s.points[s.edges[e].dst].life)
    ensures Flights(Without(s, e))
  {
    var q := s.edges[e].dst;
    var pt := s.points[q].(rc := s.points[q].rc + Refs(s, e));
    var s1 := WithPoint(s, q, pt).(inflight := s.inflight - {e});
    ArrivedTotals(s, e, q, pt, s1);
    assert WaitsOk(s1, q, Debt(Some(q), q));
    NewCountsKeepTotals(Without(s, e), q, pt, s1, q);
  }

  lemma SoundInRange(s: State)
    requires Sound(s)
    ensures CountsInRange(s)
  {
    SoundMeans(s);
    RoomInRange(s);
  }

  lemma DeliverIs(s: State, e: EdgeId)
    requires e in s.inflight && ConnectedIn(s, e)
    ensures Step(s, Deliver(e), Arrive(Without(s, e), s.edges[e].dst, Refs(s, e)))
  {
  }

  lemma DeliverComes(s: State, e: EdgeId)
    requires Sound(s) && e in s.inflight
    ensures ConnectedIn(s, e) && CanArrive(Without(s, e), s.edges[e].dst, Refs(s, e))
  {
    SoundMeans(s);
    assert ConnectedIn(s, e);
    NotificationWaits(s, e);
    RoomStays(s, Without(s, e));
    DeliverIs(s, e);
    ArrivalComes(s, Deliver(e), Without(s, e), s.edges[e].dst, Refs(s, e));
  }

  lemma Delivered(s: State, e: EdgeId, s': State)
    requires Sound(s) && e in s.inflight && ConnectedIn(s, e)
    requires Arriving(Without(s, e), Arrive(Without(s, e), s.edges[e].dst, Refs(s, e)), s')
    ensures Settled(s, s') && s'.inflight == s.inflight - {e}
  {
    SoundInRange(s);
    DeliverIs(s, e);
    LeadsByStep(s, Deliver(e), Arrive(Without(s, e), s.edges[e].dst, Refs(s, e)), s');
  }

  // ----- Occurring -----------------------------------------------------------------------------

  /** q is at a wait count of zero and has no guards to take. */
  ghost predicate CanOccur(s: State, q: PointId, refCount: nat) {
    q in s.points && s.points[q].life.Waiting? && Sound(Occur(s, q, refCount)) &&
    (forall e :: e in s.inflight && e in s.edges ==> s.edges[e].src != q)
  }

  /** q itself is being dispatched. */
  ghost predicate SettledBut(s: State, q: PointId, s': State) {
    Sound(s') && Leads(s, s') && s'.releasing == s.releasing && Onward(s, s') && LivesSettleBut(s, s', q) &&
    q in s'.points && IsDispatched(s'.points[q].life)
  }

  lemma OccurDone(s: State, q: PointId, refCount: nat, s1: State, s': State)
    requires CanOccur(s, q, refCount) && Settled(Occur(s, q, refCount), s1) && SettledBut(s1, q, s')
    requires s'.inflight == s.inflight
    ensures Arriving(s, Occur(s, q, refCount), s')
  {
    LeadsOn(Occur(s, q, refCount), s1, s');
    OccurIsOnward(s, q, refCount);
    OnwardOn(s, Occur(s, q, refCount), s1);
    OnwardOn(s, s1, s');
    LivesSettleAround(s, Occur(s, q, refCount), s1, s', q);
  }

  lemma OccurIsOnward(s: State, q: PointId, refCount: nat)
    requires q in s.points
    ensures var s0 := Occur(s, q, refCount);
      Onward(s, s0) && s0.releasing == s.releasing && (forall p :: p in s.points && p != q ==> s0.points[p].life == s.points[p].life)
  {
  }

  lemma LivesSettleAround(s: State, s0: State, s1: State, s': State, q: PointId)
    requires q in s.points && s.points[q].life.Waiting? && s0.points.Keys == s.points.Keys
    requires forall p :: p in s.points && p != q ==> s0.points[p].life == s.points[p].life
    requires LivesSettle(s0, s1) && LivesSettleBut(s1, s', q) && q in s'.points && IsDispatched(s'.points[q].life)
    ensures LivesSettle(s, s')
  {
  }

  lemma NewlyOccurredShrinks(s: State, q: PointId, refCount: nat)
    requires q in s.points && !HasOccurred(s.points[q].life)
    ensures |Unoccurred(Occur(s, q, refCount))| < |Unoccurred(s)|
  {
    assert Unoccurred(s) == Unoccurred(Occur(s, q, refCount)) + {q};
  }

  lemma StaysNotifying(s: State, s': State, q: PointId)
    requires LivesSettle(s, s') && q in s.points && s.points[q].life.Occurred? && s.points[q].life.stage == Notifying
    ensures q in s'.points && s'.points[q].life == s.points[q].life
  {
  }

  /** The three ways an arrival goes on, once the counts of q are adjusted. */
  ghost predicate Adjusted(s: State, q: PointId, addRefs: nat, s1: State) {
    q in s.points && s1 == WithPoint(s, q, s.points[q].(rc := s.points[q].rc + addRefs, wc := AtomicSub(s.points[q].wc)))
  }

  lemma ArrivalToOccur(s: State, q: PointId, addRefs: nat, s1: State)
    requires CanArrive(s, q, addRefs) && Adjusted(s, q, addRefs, s1) && s1.points[q].wc == 0 && !HasRequest(s, q)
    ensures CanOccur(s1, q, s1.points[q].rc) && Arrive(s, q, addRefs) == Occur(s1, q, s1.points[q].rc)
    ensures Unoccurred(s1) == Unoccurred(s)
  {
  }

  lemma ArrivalToLocks(s: State, q: PointId, addRefs: nat, s1: State, s2: State)
    requires CanArrive(s, q, addRefs) && Adjusted(s, q, addRefs, s1) && s1.points[q].wc == 0 && HasRequest(s, q)
    requires s2 == WithPoint(s1, q, s1.points[q].(wc := 1, life := Acquiring(Popping)))
    ensures s2 == Arrive(s, q, addRefs) && Unoccurred(s2) == Unoccurred(s) && HasRequest(s2, q)
  {
  }

  lemma ArrivalEnds(s: State, q: PointId, addRefs: nat, s1: State)
    requires CanArrive(s, q, addRefs) && Adjusted(s, q, addRefs, s1) && s1.points[q].wc != 0
    ensures s1 == Arrive(s, q, addRefs) && Arriving(s, s1, s1)
  {
    LeadsToItself(s1);
  }

  lemma ArrivedAfterLocks(s: State, q: PointId, s2: State, s': State)
    requires q in s.points && s.points[q].life.Waiting? && q in s2.points && s2.points[q].life == Acquiring(Popping)
    requires s2 == WithPoint(s, q, s.points[q].(rc := s2.points[q].rc, wc := s2.points[q].wc, life := Acquiring(Popping)))
    requires Sound(s') && Leads(s2, s') && s'.inflight == s2.inflight && s'.releasing == s2.releasing
    requires Onward(s2, s') && LivesSettleBut(s2, s', q)
    requires q in s'.points && (s'.points[q].life.Waiting? || IsDispatched(s'.points[q].life))
    ensures Arriving(s, s2, s')
  {
    assert Onward(s, s2);
    OnwardOn(s, s2, s');
  }

  lemma OccurIs(s: State, q: PointId, refCount: nat, s1: State)
    requires CanOccur(s, q, refCount) && s1 == Occur(s, q, refCount)
    ensures Sound(s1) && s1.inflight - OutEdges(s, q) == s.inflight && OutEdges(s1, q) == OutEdges(s, q)
    ensures q in s1.points && s1.points[q].life.Occurred? && s1.points[q].life.stage == Notifying
  {
    forall e | e in s.inflight
      ensures e !in OutEdges(s, q)
    {
    }
  }

  // ----- Dispatch ------------------------------------------------------------------------------

  function AfterDispatch(s: State, q: PointId): State
    requires q in s.points && s.points[q].life.Occurred?
  {
    WithLife(s, q, s.points[q].life.(stage := if s.points[q].task == Block then Queued else Done))
  }

  ghost predicate CanDispatch(s: State, q: PointId) {
    Sound(s) && q in s.points && s.points[q].life.Occurred? && s.points[q].life.stage == Notifying &&
    (forall e :: e in s.inflight && e in s.edges ==> s.edges[e].src != q)
  }

  lemma DispatchIs(s: State, q: PointId)
    requires CanDispatch(s, q)
    ensures Step(s, Dispatch(q), if s.points[q].task == Block then AfterDispatch(s, q) else Release(AfterDispatch(s, q), q))
    ensures Dispatched(s, q, AfterDispatch(s, q).points[q], AfterDispatch(s, q))
  {
    assert s.inflight !! OutEdges(s, q);
  }

  lemma DispatchGoesOn(s: State, q: PointId)
    requires CanDispatch(s, q) && s.points[q].task != Block
    ensures CanRelease(AfterDispatch(s, q), q)
  {
    var s1 := AfterDispatch(s, q);
    DispatchIs(s, q);
    SoundInRange(s);
    DispatchKeepsSound(s, q, Release(s1, q));
    SoundSources(s, q);
    RoomyNow(s);
    RoomStays(s, s1);
  }

  lemma RoomyNow(s: State)
    requires Sound(s)
    ensures Roomy(s)
  {
    SoundMeans(s);
  }

  lemma SoundSources(s: State, q: PointId)
    requires Sound(s) && q in s.points && !s.points[q].life.Freed?
    ensures forall e :: e in s.releasing && e in s.edges ==> s.edges[e].src != q
  {
    SoundMeans(s);
    FreedSources(s, q);
  }

  lemma StepKeepsSound(s: State, a: Action, s': State)
    requires Sound(s) && Step(s, a, s') && Roomy(s')
    ensures Sound(s')
  {
    SoundMeans(s);
    RoomInRange(s);
    StepKeepsInvariant(s, a, s');
    SoundMeans(s');
  }

  lemma RoomAfterDispatch(s: State, q: PointId)
    requires Roomy(s) && q in s.points && s.points[q].life.Occurred?
    ensures Roomy(AfterDispatch(s, q)) && Roomy(Release(AfterDispatch(s, q), q))
  {
    RoomStays(s, AfterDispatch(s, q));
    ReleaseRoom(AfterDispatch(s, q), q);
  }

  lemma DispatchKeepsSound(s: State, q: PointId, s': State)
    requires Sound(s) && Step(s, Dispatch(q), s')
    requires CanDispatch(s, q) && (s' == AfterDispatch(s, q) || s' == Release(AfterDispatch(s, q), q))
    ensures Sound(s')
  {
    RoomyNow(s);
    RoomAfterDispatch(s, q);
    StepKeepsSound(s, Dispatch(q), s');
  }

  lemma DispatchReleases(s: State, q: PointId, s1: State)
    requires Sound(s) && q in s1.points && Dispatched(s, q, s1.points[q], s1) && s.points[q].task != Block
    ensures OnlyReleases(s1, Release(s1, q))
  {
    SoundMeans(s);
    RoomInRange(s);
    DispatchedTotals(s, q, s1.points[q], s1);
    assert RefsOk(s1, q, Debt(Some(q), q));
    LastReference(s1, q);
  }

  lemma BlockDispatchDone(s: State, q: PointId, s': State)
    requires CanDispatch(s, q) && s.points[q].task == Block && s' == AfterDispatch(s, q)
    ensures SettledBut(s, q, s') && s'.inflight == s.inflight
  {
    SoundInRange(s);
    DispatchIs(s, q);
    DispatchKeepsSound(s, q, s');
    LeadsToItself(s');
    LeadsByStep(s, Dispatch(q), s', s');
  }

  lemma DispatchDone(s: State, q: PointId, s': State)
    requires CanDispatch(s, q) && s.points[q].task != Block && Releasing(Release(AfterDispatch(s, q), q), s')
    requires s'.releasing == s.releasing
    ensures SettledBut(s, q, s') && s'.inflight == s.inflight
  {
    var s1 := AfterDispatch(s, q);
    SoundInRange(s);
    DispatchIs(s, q);
    DispatchReleases(s, q, s1);
    OnlyReleasesOn(s1, Release(s1, q), s');
    LeadsByStep(s, Dispatch(q), Release(s1, q), s');
  }

  // ----- The end of a task -----------------------------------------------------------------------

  /** A chain of transitions of the task that ends at t: nothing is left half done, and
      apart from lives and counts only the unscheduled list and the run of t change. */
  ghost predicate TaskMoves(s: State, s': State, t: PointId) {
    Sound(s') && Leads(s, s') && s'.inflight == s.inflight && s'.releasing == s.releasing &&
    s'.points.Keys == s.points.Keys && LivesSettle(s, s') &&
    (forall p :: p in s.points ==>
       (p != t ==> s'.points[p].run == s.points[p].run) && s'.points[p].start == s.points[p].start &&
       (s'.points[p].owner == s.points[p].owner || (s.points[p].owner == Some(t) && s'.points[p].owner == None)))
  }

  lemma TaskMovesOn(s: State, s1: State, s2: State, t: PointId)
    requires TaskMoves(s, s1, t) && TaskMoves(s1, s2, t)
    ensures TaskMoves(s, s2, t)
  {
    LeadsOn(s, s1, s2);
  }

  lemma TaskMovesStart(s: State, t: PointId)
    requires Sound(s)
    ensures TaskMoves(s, s, t)
  {
    LeadsToItself(s);
  }

  function Scheduled(s: State, p: PointId): State
    requires p in s.points
  {
    WithPoint(s, p, s.points[p].(owner := None))
  }

  function TaskClosed(s: State, t: PointId): State
    requires t in s.points
  {
    WithPoint(s, t, s.points[t].(run := Closed))
  }

  lemma TokenWaits(s: State, p: PointId, s1: State)
    requires Ordered(s) && Flights(s) && WaitCounts(s, None) && p in s.points
    requires (s.points[p].owner.Some? && s1 == Scheduled(s, p)) || (s.points[p].run.Flushing? && s1 == TaskClosed(s, p))
    ensures WaitsOk(s1, p, 1) && Flights(s1) && !HasOccurred(s1.points[p].life)
  {
    assert WaitsOk(s, p, Debt(None, p));
    MovedOnCounts(s, p, s1.points[p], s1, p);
  }

  lemma ScheduleComes(s: State, t: PointId, p: PointId)
    requires Sound(s) && t in s.points && (InBody(s, t) || s.points[t].run.Flushing?) && p in s.points && s.points[p].owner == Some(t)
    ensures CanArrive(Scheduled(s, p), p, 0) && Step(s, Schedule(t, p), Arrive(Scheduled(s, p), p, 0))
  {
    SoundMeans(s);
    TokenWaits(s, p, Scheduled(s, p));
    RoomStays(s, Scheduled(s, p));
    ArrivalComes(s, Schedule(t, p), Scheduled(s, p), p, 0);
  }

  lemma ScheduleDone(s: State, t: PointId, p: PointId, s': State)
    requires Sound(s) && p in s.points && s.points[p].owner == Some(t) && Step(s, Schedule(t, p), Arrive(Scheduled(s, p), p, 0))
    requires Arriving(Scheduled(s, p), Arrive(Scheduled(s, p), p, 0), s')
    ensures TaskMoves(s, s', t) && t in s'.points && s'.points[t].run == s.points[t].run && s'.points[p].owner == None
  {
    SoundInRange(s);
    LeadsByStep(s, Schedule(t, p), Arrive(Scheduled(s, p), p, 0), s');
  }

  lemma EndTaskComes(s: State, t: PointId)
    requires Sound(s) && t in s.points && s.points[t].run.Flushing?
    requires forall p :: p in s.points ==> s.points[p].owner != Some(t)
    ensures CanArrive(TaskClosed(s, t), t, 0) && Step(s, EndTask(t), Arrive(TaskClosed(s, t), t, 0))
  {
    SoundMeans(s);
    TokenWaits(s, t, TaskClosed(s, t));
    RoomStays(s, TaskClosed(s, t));
    ArrivalComes(s, EndTask(t), TaskClosed(s, t), t, 0);
  }

  lemma EndTaskDone(s: State, t: PointId, s': State)
    requires Sound(s) && t in s.points && Step(s, EndTask(t), Arrive(TaskClosed(s, t), t, 0))
    requires Arriving(TaskClosed(s, t), Arrive(TaskClosed(s, t), t, 0), s')
    ensures TaskMoves(s, s', t) && s'.points[t].run == Closed
  {
    SoundInRange(s);
    LeadsByStep(s, EndTask(t), Arrive(TaskClosed(s, t), t, 0), s');
  }

  /** Its guards are being taken, or its successors notified. */
  predicate HalfDone(life: Life) {
    life.Acquiring? || (life.Occurred? && life.stage == Notifying)
  }

  /** No cascade is under way. */
  ghost predicate NothingHalfDone(s: State) {
    s.inflight == {} && s.releasing == {} && (forall p :: p in s.points ==> !HalfDone(s.points[p].life))
  }

  lemma SoundWaits(s: State, p: PointId)
    requires Sound(s) && p in s.points && !HasOccurred(s.points[p].life)
    ensures s.points[p].wc >= 1
  {
    SoundMeans(s);
    assert WaitsOk(s, p, Debt(None, p));
  }

  /** What a thread sets off it also finishes, whatever other cascades are under way as
      its method is called: when it returns, no notification, release or taking of guards
      is under way that was not so before, and no point is left at a wait count of zero. */
  lemma CascadeIsComplete(s: State, s': State, t: PointId)
    requires TaskMoves(s, s', t)
    ensures s'.inflight == s.inflight && s'.releasing == s.releasing
    ensures forall p :: p in s'.points && HalfDone(s'.points[p].life) ==> p in s.points && s.points[p].life == s'.points[p].life
    ensures forall p :: p in s'.points && !HasOccurred(s'.points[p].life) ==> s'.points[p].wc >= 1
    ensures NothingHalfDone(s) ==> NothingHalfDone(s')
  {
    forall p | p in s'.points && !HasOccurred(s'.points[p].life)
      ensures s'.points[p].wc >= 1
    {
      SoundWaits(s', p);
    }
  }

  /** The unscheduled list of the task that ends at t. */
  ghost function Owned(s: State, t: PointId): set<PointId> {
    set p | p in s.points && s.points[p].owner == Some(t)
  }

  lemma OwnedShrinks(s: State, s': State, t: PointId, p: PointId)
    requires TaskMoves(s, s', t) && p in s.points && s.points[p].owner == Some(t) && s'.points[p].owner == None
    ensures |Owned(s', t)| < |Owned(s, t)|
  {
    assert p in Owned(s, t) && p !in Owned(s', t);
    SmallerSet(Owned(s', t) + {p}, Owned(s, t));
  }
}
