/** The threads' own actions come to an end: once the client stops, every run reaches a
    state in which no thread can move. */
module SchedulerTermination {
  import opened FiniteSets
  import opened SchedulerState
  import opened SchedulerSteps
  import opened SchedulerInvariant
  import opened SchedulerRelease
  import opened SchedulerWorkers
  import opened SchedulerRuns
  import opened SchedulerHistory
  import opened SchedulerTaking
  import opened SchedulerTurns
  import opened SchedulerLiveness

  // ----- What is left to do ------------------------------------------------------------------

  /** How much is still to happen to a point. */
  function LifeRank(life: Life): nat {
    match life
    case Freed(_, _) => 0
    case Occurred(_, _, stage) =>
      (match stage case Done => 1 case Running => 2 case Queued => 3 case Notifying => 4)
    case Waiting => 5
    case Acquiring(taking) =>
      (match taking case Popping => 6 case Letting(_) => 7 case Linked(_, _) => 8 case Swapped(_, _) => 9)
  }

  function RunRankLeft(run: Run): nat {
    match run
    case Closed => 0
    case Flushing => 1
    case Body(_, sub) => if sub.None? then 2 else 3
    case NotRun => 4
  }

  /** Points that have yet to add the edge from the former holder of a guard. */
  function Linkers(s: State): set<PointId> {
    set p | p in s.points && s.points[p].life.Acquiring? && s.points[p].life.taking.Swapped?
  }

  /** Edges that have yet to arrive. */
  function Awaited(s: State): set<EdgeId> {
    set e | e in s.edges && ConnectedIn(s, e) && Waits(s, e)
  }

  function Listed(s: State): set<PointId> {
    set p | p in s.points && s.points[p].owner.Some?
  }

  function RunsLeft(s: State): set<(PointId, nat)> {
    set p, k: nat | p in s.points && 0 <= k < RunRankLeft(s.points[p].run) :: (p, k)
  }

  function LivesLeft(s: State): set<(PointId, nat)> {
    set p, k: nat | p in s.points && 0 <= k < LifeRank(s.points[p].life) :: (p, k)
  }

  function LastLocks(s: State): set<GuardId> {
    set g | g in s.guards && s.guards[g].last.Some?
  }

  /** Of two sets one is smaller, or they are equal and what follows gets smaller. */
  predicate Less<T(==)>(a: set<T>, b: set<T>, rest: bool) {
    a < b || (a == b && rest)
  }

  /** Something less is left to do in s' than in s, compared in this order: requests, edges
      from former holders, edges to arrive, starts to schedule, blocks, lives, references
      to release, last locks. */
  ghost predicate Nearer(s': State, s: State) {
    Less(s'.requests.Keys, s.requests.Keys,
      Less(Linkers(s'), Linkers(s),
        Less(Awaited(s'), Awaited(s),
          Less(Listed(s'), Listed(s),
            Less(RunsLeft(s'), RunsLeft(s),
              Less(LivesLeft(s'), LivesLeft(s),
                Less(s'.releasing, s.releasing, LastLocks(s') < LastLocks(s))))))))
  }

  // ----- Parts of a step ------------------------------------------------------------------------

  /** Points keep or lower their rank. */
  ghost predicate LivesGoOn(s: State, s': State) {
    s'.points.Keys == s.points.Keys && forall p :: p in s.points ==> LifeRank(s'.points[p].life) <= LifeRank(s.points[p].life)
  }

  lemma LivesLeftShrink(s: State, s': State)
    requires LivesGoOn(s, s')
    ensures LivesLeft(s') <= LivesLeft(s)
    ensures (exists p :: p in s.points && LifeRank(s'.points[p].life) < LifeRank(s.points[p].life)) ==> LivesLeft(s') < LivesLeft(s)
  {
    if p :| p in s.points && LifeRank(s'.points[p].life) < LifeRank(s.points[p].life) {
      assert (p, LifeRank(s'.points[p].life)) in LivesLeft(s) - LivesLeft(s');
    }
  }

  lemma RunsLeftShrink(s: State, s': State, p: PointId)
    requires s'.points.Keys == s.points.Keys && p in s.points
    requires forall q :: q in s.points && q != p ==> s'.points[q].run == s.points[q].run
    requires RunRankLeft(s'.points[p].run) < RunRankLeft(s.points[p].run)
    ensures RunsLeft(s') < RunsLeft(s)
  {
    assert (p, RunRankLeft(s'.points[p].run)) in RunsLeft(s) - RunsLeft(s');
  }

  /** Nothing has occurred or is on its way that was not before, and nobody swaps. */
  ghost predicate Calm(s: State, s': State) {
    && s'.edges == s.edges && s'.requests == s.requests && s'.inflight == s.inflight && s'.points.Keys == s.points.Keys
    && (forall p :: p in s.points ==>
          HasOccurred(s'.points[p].life) == HasOccurred(s.points[p].life) &&
          (s'.points[p].life.Acquiring? && s'.points[p].life.taking.Swapped? <==>
           s.points[p].life.Acquiring? && s.points[p].life.taking.Swapped?) &&
          s'.points[p].owner == s.points[p].owner)
  }

  lemma CalmKeeps(s: State, s': State)
    requires Calm(s, s')
    ensures s'.requests.Keys == s.requests.Keys && Linkers(s') == Linkers(s) && Awaited(s') == Awaited(s) && Listed(s') == Listed(s)
  {
    assert forall e :: e in s.edges ==> ConnectedIn(s', e) == ConnectedIn(s, e);
  }

  lemma SameRuns(s: State, s': State)
    requires s'.points.Keys == s.points.Keys && forall p :: p in s.points ==> s'.points[p].run == s.points[p].run
    ensures RunsLeft(s') == RunsLeft(s)
  {
  }

  /** A calm step in which the block of p goes on. */
  lemma BlockGoesOn(s: State, s': State, p: PointId)
    requires Calm(s, s') && p in s.points
    requires forall q :: q in s.points && q != p ==> s'.points[q].run == s.points[q].run
    requires RunRankLeft(s'.points[p].run) < RunRankLeft(s.points[p].run)
    ensures Nearer(s', s)
  {
    CalmKeeps(s, s');
    RunsLeftShrink(s, s', p);
  }

  /** A calm step in which the life of p goes on. */
  lemma LifeGoesOn(s: State, s': State, p: PointId)
    requires Calm(s, s') && LivesGoOn(s, s') && p in s.points
    requires forall q :: q in s.points ==> s'.points[q].run == s.points[q].run
    requires LifeRank(s'.points[p].life) < LifeRank(s.points[p].life)
    ensures Nearer(s', s)
  {
    CalmKeeps(s, s');
    SameRuns(s, s');
    LivesLeftShrink(s, s');
  }

  lemma ReleaseTouches(s: State, p: PointId)
    requires p in s.points
    ensures var s' := Release(s, p);
      && s'.edges == s.edges && s'.requests == s.requests && s'.inflight == s.inflight && s'.guards == s.guards
      && s'.points.Keys == s.points.Keys && (forall q :: q in s.points && q != p ==> s'.points[q] == s.points[q])
      && s'.points[p].owner == s.points[p].owner && s'.points[p].run == s.points[p].run
      && (s'.points[p].life == s.points[p].life ||
          (s'.points[p].life.Freed? && AtomicSub(s.points[p].rc) in {0, RC_DEAD_POST}))
  {
  }

  /** What a release comes to, whatever the counts. */
  lemma ReleaseIsCalm(s: State, p: PointId)
    requires p in s.points && (s.points[p].life.Freed? || s.points[p].life.Occurred? || AtomicSub(s.points[p].rc) !in {0, RC_DEAD_POST})
    ensures var s' := Release(s, p);
      Calm(s, s') && LivesGoOn(s, s') && s'.guards == s.guards &&
      (forall q :: q in s.points ==> s'.points[q].run == s.points[q].run) &&
      (forall q :: q in s.points && q != p ==> s'.points[q] == s.points[q])
  {
    ReleaseTouches(s, p);
  }

  /** A small change that owes p a release, and the release. */
  lemma ReleasedCalm(s: State, s1: State, p: PointId)
    requires Calm(s, s1) && LivesGoOn(s, s1) && p in s1.points
    requires s1.points[p].life.Freed? || s1.points[p].life.Occurred? || AtomicSub(s1.points[p].rc) !in {0, RC_DEAD_POST}
    ensures var s' := Release(s1, p);
      Calm(s, s') && LivesGoOn(s, s') && (forall q :: q in s.points ==> s'.points[q].run == s1.points[q].run) &&
      (forall q :: q in s.points && q != p ==> s'.points[q] == s1.points[q]) &&
      LifeRank(s'.points[p].life) <= LifeRank(s1.points[p].life)
  {
    ReleaseIsCalm(s1, p);
  }

  lemma Owed(s: State, p: PointId)
    requires p in s.points && RefsOk(s, p, 1) && PointInRange(s.points[p])
    ensures !s.points[p].life.Freed?
    ensures s.points[p].life.Occurred? || AtomicSub(s.points[p].rc) !in {0, RC_DEAD_POST}
  {
    LastReference(s, p);
  }

  // ----- Action by action -------------------------------------------------------------------------

  lemma SwapLockNearer(s: State, p: PointId, r: RequestId, s': State)
    requires Step(s, SwapLock(p, r), s')
    ensures Nearer(s', s)
  {
    assert r in s.requests.Keys - s'.requests.Keys;
  }

  lemma LinkLockNearer(s: State, p: PointId, e: EdgeId, s': State)
    requires Step(s, LinkLock(p, e), s')
    ensures Nearer(s', s)
  {
    assert s'.requests.Keys == s.requests.Keys;
    assert p in Linkers(s) - Linkers(s');
  }

  /** s' comes from s by an arrival at q, with what q waited for given up in s1. */
  ghost predicate ArrivedVia(s: State, s1: State, q: PointId, s': State) {
    && s'.edges == s1.edges && s'.guards == s1.guards && s'.points.Keys == s1.points.Keys
    && s1.requests == s.requests && s'.requests == s1.requests
    && (forall p :: p in s1.points && p != q ==> s'.points[p] == s1.points[p])
    && q in s1.points && s'.points[q].owner == s1.points[q].owner && s'.points[q].run == s1.points[q].run
    && s'.inflight <= s1.inflight + OutEdges(s1, q)
    && (s'.points[q].life == s1.points[q].life || s'.points[q].life.Occurred? || s'.points[q].life == Acquiring(Popping))
  }

  lemma ArriveIsVia(s: State, s1: State, q: PointId, add: nat)
    requires q in s1.points && s1.requests == s.requests
    ensures ArrivedVia(s, s1, q, Arrive(s1, q, add))
  {
  }

  lemma ArrivalAwaits(s: State, s1: State, q: PointId, s': State)
    requires ArrivedAt(s, s1, q) && ArrivedVia(s, s1, q, s')
    ensures s'.requests.Keys == s.requests.Keys && Linkers(s') <= Linkers(s) && Awaited(s') <= Awaited(s)
    ensures forall e :: e in Awaited(s') ==> e in s1.inflight || !HasOccurred(s.points[s.edges[e].src].life)
  {
    assert forall e :: e in s.edges ==> ConnectedIn(s', e) == ConnectedIn(s, e);
  }

  lemma DeliverNearer(s: State, e: EdgeId, s': State)
    requires Ordered(s) && Flights(s) && Step(s, Deliver(e), s')
    ensures Nearer(s', s)
  {
    var s1, q := s.(inflight := s.inflight - {e}), s.edges[e].dst;
    ArriveIsVia(s, s1, q, Bit(!IsDead(s.points[s.edges[e].src].life)));
    ArrivalAwaits(s, s1, q, s');
    assert e in Awaited(s) && e !in Awaited(s');
  }

  lemma ScheduleNearer(s: State, t: PointId, p: PointId, s': State)
    requires Ordered(s) && Step(s, Schedule(t, p), s')
    ensures Nearer(s', s)
  {
    var s1 := WithPoint(s, p, s.points[p].(owner := None));
    ArriveIsVia(s, s1, p, 0);
    ArrivalAwaits(s, s1, p, s');
    assert p in Listed(s) && p !in Listed(s');
    assert Listed(s') <= Listed(s);
  }

  lemma EndTaskNearer(s: State, t: PointId, s': State)
    requires Ordered(s) && Step(s, EndTask(t), s')
    ensures Nearer(s', s)
  {
    var s1 := WithPoint(s, t, s.points[t].(run := Closed));
    ArriveIsVia(s, s1, t, 0);
    ArrivalAwaits(s, s1, t, s');
    BlockClosed(s, s1, t, s');
  }

  lemma BlockClosed(s: State, s1: State, t: PointId, s': State)
    requires t in s.points && s.points[t].run.Flushing? && s1 == WithPoint(s, t, s.points[t].(run := Closed))
    requires ArrivedVia(s, s1, t, s')
    requires s'.requests.Keys == s.requests.Keys && Linkers(s') <= Linkers(s) && Awaited(s') <= Awaited(s)
    ensures Nearer(s', s)
  {
    assert Listed(s') == Listed(s);
    RunsLeftShrink(s, s', t);
  }

  /** Having taken all guards p goes on, or finds that more are pending and nothing to wait
      for: then nothing has changed. */
  lemma LocksTakenNearer(s: State, p: PointId, s': State)
    requires Ordered(s) && Step(s, LocksTaken(p), s')
    ensures Nearer(s', s) || s' == s
  {
    var s1 := WithLife(s, p, Waiting);
    ArriveIsVia(s, s1, p, 0);
    if s'.points[p].life == Acquiring(Popping) {
      LocksTakenAgain(s, p, s');
    } else {
      ArrivalAwaits(s, s1, p, s');
      LocksAllTaken(s, s1, p, s');
    }
  }

  lemma LocksTakenAgain(s: State, p: PointId, s': State)
    requires Step(s, LocksTaken(p), s') && p in s'.points && s'.points[p].life == Acquiring(Popping)
    ensures s' == s
  {
    assert s'.points[p] == s.points[p];
    assert s'.points == s.points;
  }

  lemma LocksAllTaken(s: State, s1: State, p: PointId, s': State)
    requires p in s.points && s.points[p].life == Acquiring(Popping) && s1 == WithLife(s, p, Waiting)
    requires ArrivedVia(s, s1, p, s') && s'.points[p].life != Acquiring(Popping)
    requires s'.requests.Keys == s.requests.Keys && Linkers(s') <= Linkers(s) && Awaited(s') <= Awaited(s)
    ensures Nearer(s', s)
  {
    assert Listed(s') == Listed(s);
    SameRuns(s, s');
    LivesLeftShrink(s, s');
  }

  lemma SubintervalReturnNearer(s: State, t: PointId, s': State)
    requires Step(s, SubintervalReturn(t), s')
    ensures Nearer(s', s)
  {
    BlockGoesOn(s, s', t);
  }

  lemma StartTaskNearer(s: State, p: PointId, s': State)
    requires Invariant(s) && Step(s, StartTask(p), s')
    ensures Nearer(s', s)
  {
    QueuedIsBlock(s, p);
    assert TaskOk(s, p);
    BlockGoesOn(s, s', s.points[p].bound.value);
  }

  lemma FinishBodyNearer(s: State, t: PointId, s': State)
    requires Invariant(s) && Step(s, FinishBody(t), s')
    ensures Nearer(s', s)
  {
    if s.points[t].start.Some? {
      RunningStart(s, t);
      StartReturned(s, t, s.points[t].start.value);
      ReleasedCalm(s, WithReturned(s, t, s.points[t].start.value), s.points[t].start.value);
    }
    BlockGoesOn(s, s', t);
  }

  function WithReturned(s: State, t: PointId, p: PointId): State
    requires t in s.points && p in s.points && s.points[p].life.Occurred?
  {
    WithLife(WithPoint(s, t, s.points[t].(run := Flushing)), p, s.points[p].life.(stage := Done))
  }

  lemma StartReturned(s: State, t: PointId, p: PointId)
    requires t in s.points && p in s.points && p != t && s.points[p].life.Occurred?
    ensures Calm(s, WithReturned(s, t, p)) && LivesGoOn(s, WithReturned(s, t, p))
    ensures forall q :: q in s.points && q != t ==> WithReturned(s, t, p).points[q].run == s.points[q].run
    ensures WithReturned(s, t, p).points[t].run == Flushing
  {
  }

  lemma DispatchNearer(s: State, p: PointId, s': State)
    requires Step(s, Dispatch(p), s')
    ensures Nearer(s', s)
  {
    if s.points[p].task != Block {
      DispatchReleased(s, p, WithLife(s, p, s.points[p].life.(stage := Done)));
    } else {
      LifeGoesOn(s, s', p);
    }
  }

  lemma DispatchReleased(s: State, p: PointId, s1: State)
    requires p in s.points && s.points[p].life.Occurred? && s.points[p].life.stage == Notifying
    requires s1 == WithLife(s, p, s.points[p].life.(stage := Done))
    ensures Nearer(Release(s1, p), s)
  {
    assert Calm(s, s1) && LivesGoOn(s, s1);
    ReleasedCalm(s, s1, p);
    LifeGoesOn(s, Release(s1, p), p);
  }

  lemma ReleaseFormerNearer(s: State, p: PointId, s': State)
    requires Invariant(s) && CountsInRange(s) && Step(s, ReleaseFormer(p), s')
    ensures Nearer(s', s)
  {
    var f := s.points[p].life.taking.former;
    var pt := s.points[p].(life := Acquiring(Letting(s.points[p].life.taking.guard)));
    var s1 := WithPoint(s, p, pt);
    FormerOwed(s, p, f, pt, s1);
    FormerReleased(s, p, f, pt, s1);
  }

  lemma FormerReleased(s: State, p: PointId, f: PointId, pt: Point, s1: State)
    requires Stepped(s, p, pt, s1) && s.points[p].life.taking.Linked? && pt.life.taking.Letting? && f in s1.points
    requires s1.points[f].life.Occurred? || AtomicSub(s1.points[f].rc) !in {0, RC_DEAD_POST}
    ensures Nearer(Release(s1, f), s)
  {
    assert Calm(s, s1) && LivesGoOn(s, s1);
    ReleasedCalm(s, s1, f);
    LifeGoesOn(s, Release(s1, f), p);
  }

  lemma FormerOwed(s: State, p: PointId, f: PointId, pt: Point, s1: State)
    requires Invariant(s) && CountsInRange(s) && Stepped(s, p, pt, s1)
    requires s.points[p].life.taking.Linked? && f == s.points[p].life.taking.former
    requires pt.life == Acquiring(Letting(s.points[p].life.taking.guard))
    ensures f in s1.points && !s1.points[f].life.Freed?
    ensures s1.points[f].life.Occurred? || AtomicSub(s1.points[f].rc) !in {0, RC_DEAD_POST}
  {
    FormerLeft(s, p, pt, s1, f);
    SteppedTotals(s, p, pt, s1, Some(f));
    assert RefsOk(s1, f, Debt(Some(f), f));
    Owed(s1, f);
  }

  lemma ReleaseTakenNearer(s: State, p: PointId, s': State)
    requires Step(s, ReleaseTaken(p), s')
    ensures Nearer(s', s)
  {
    LifeGoesOn(s, s', p);
  }

  /** A release that frees q has brought q's life to its end. */
  lemma FreedIsNearer(s: State, s': State, q: PointId)
    requires Calm(s, s') && LivesGoOn(s, s') && q in s.points && !s.points[q].life.Freed? && s'.points[q].life.Freed?
    requires forall p :: p in s.points ==> s'.points[p].run == s.points[p].run
    ensures Nearer(s', s)
  {
    LifeGoesOn(s, s', q);
  }

  lemma ReleaseEdgeNearer(s: State, e: EdgeId, s': State)
    requires Invariant(s) && CountsInRange(s) && Step(s, ReleaseEdge(e), s')
    ensures Nearer(s', s)
  {
    var s1, q := s.(releasing := s.releasing - {e}), s.edges[e].dst;
    LetGoTotals(s, e, q, s1);
    assert RefsOk(s1, q, Debt(Some(q), q));
    Owed(s1, q);
    EdgeReleased(s, e, q, s1);
  }

  lemma EdgeReleased(s: State, e: EdgeId, q: PointId, s1: State)
    requires e in s.releasing && s1 == s.(releasing := s.releasing - {e}) && q in s.points && !s.points[q].life.Freed?
    requires s1.points[q].life.Occurred? || AtomicSub(s1.points[q].rc) !in {0, RC_DEAD_POST}
    ensures Nearer(Release(s1, q), s)
  {
    var s' := Release(s1, q);
    assert Calm(s, s1) && LivesGoOn(s, s1);
    ReleasedCalm(s, s1, q);
    if s'.points[q].life.Freed? {
      FreedIsNearer(s, s', q);
    } else {
      CalmKeeps(s, s');
      SameRuns(s, s');
      LivesLeftShrink(s, s');
      assert e in s.releasing - s'.releasing;
    }
  }

  lemma ReleaseGuardLastNearer(s: State, g: GuardId, s': State)
    requires Invariant(s) && CountsInRange(s) && Step(s, ReleaseGuardLast(g), s')
    ensures Nearer(s', s)
  {
    var q := s.guards[g].last.value;
    var s1 := s.(guards := s.guards[g := s.guards[g].(last := None)]);
    GuardDebt(s, g, s1, q);
    Owed(s1, q);
    ReleaseIsCalm(s1, q);
    if s'.points[q].life.Freed? {
      FreedIsNearer(s, s', q);
    } else {
      CalmKeeps(s, s');
      SameRuns(s, s');
      LivesLeftShrink(s, s');
      assert g in LastLocks(s) - LastLocks(s');
    }
  }

  /** Every action of a thread leaves less to do, or changes nothing. */
  lemma ThreadsGetNearer(s: State, a: Action, s': State)
    requires Invariant(s) && CountsInRange(s) && Step(s, a, s') && !IsClientChoice(a)
    ensures Nearer(s', s) || (a.LocksTaken? && s' == s)
  {
    match a
    case SwapLock(p, r) => SwapLockNearer(s, p, r, s');
    case LinkLock(p, e) => LinkLockNearer(s, p, e, s');
    case Deliver(e) => DeliverNearer(s, e, s');
    case Schedule(t, p) => ScheduleNearer(s, t, p, s');
    case EndTask(t) => EndTaskNearer(s, t, s');
    case LocksTaken(p) => LocksTakenNearer(s, p, s');
    case SubintervalReturn(t) => SubintervalReturnNearer(s, t, s');
    case StartTask(p) => StartTaskNearer(s, p, s');
    case FinishBody(t) => FinishBodyNearer(s, t, s');
    case Dispatch(p) => DispatchNearer(s, p, s');
    case ReleaseFormer(p) => ReleaseFormerNearer(s, p, s');
    case ReleaseTaken(p) => ReleaseTakenNearer(s, p, s');
    case ReleaseEdge(e) => ReleaseEdgeNearer(s, e, s');
    case ReleaseGuardLast(g) => ReleaseGuardLastNearer(s, g, s');
  }

  // ----- No endless run ------------------------------------------------------------------------------

  /** An endless run of actions of the threads, each of which changes something. */
  ghost predicate Endless(states: nat -> State, actions: nat -> Action) {
    forall i: nat :: Step(states(i), actions(i), states(i + 1)) && !IsClientChoice(actions(i)) && states(i + 1) != states(i) &&
      CountsInRange(states(i))
  }

  lemma {:induction false} EndlessKeepsInvariant(states: nat -> State, actions: nat -> Action, i: nat)
    requires Endless(states, actions) && Invariant(states(0))
    ensures Invariant(states(i))
  {
    if i > 0 {
      EndlessKeepsInvariant(states, actions, i - 1);
      EndlessStep(states, actions, i - 1);
      StepKeepsInvariant(states(i - 1), actions(i - 1), states(i));
    }
  }

  lemma EndlessStep(states: nat -> State, actions: nat -> Action, i: nat)
    requires Endless(states, actions)
    ensures Step(states(i), actions(i), states(i + 1)) && !IsClientChoice(actions(i)) && states(i + 1) != states(i)
    ensures CountsInRange(states(i))
  {
    assert Step(states(i), actions(i), states(i + 1));
  }

  /** One number is smaller, or they are equal and what follows gets smaller. */
  predicate LessNumber(m: nat, n: nat, rest: bool) {
    m < n || (m == n && rest)
  }

  /** The same comparison in numbers. */
  lemma NearerIsLess(s: State, s': State)
    requires Nearer(s', s)
    ensures
      LessNumber(|s'.requests.Keys|, |s.requests.Keys|,
        LessNumber(|Linkers(s')|, |Linkers(s)|,
          LessNumber(|Awaited(s')|, |Awaited(s)|,
            LessNumber(|Listed(s')|, |Listed(s)|,
              LessNumber(|RunsLeft(s')|, |RunsLeft(s)|,
                LessNumber(|LivesLeft(s')|, |LivesLeft(s)|,
                  LessNumber(|s'.releasing|, |s.releasing|, |LastLocks(s')| < |LastLocks(s)|)))))))
  {
    if s'.requests.Keys < s.requests.Keys {
      FewerMembers(s'.requests.Keys, s.requests.Keys);
    } else if Linkers(s') < Linkers(s) {
      FewerMembers(Linkers(s'), Linkers(s));
    } else if Awaited(s') < Awaited(s) {
      FewerMembers(Awaited(s'), Awaited(s));
    } else if Listed(s') < Listed(s) {
      FewerMembers(Listed(s'), Listed(s));
    } else if RunsLeft(s') < RunsLeft(s) {
      FewerMembers(RunsLeft(s'), RunsLeft(s));
    } else if LivesLeft(s') < LivesLeft(s) {
      FewerMembers(LivesLeft(s'), LivesLeft(s));
    } else if s'.releasing < s.releasing {
      FewerMembers(s'.releasing, s.releasing);
    } else {
      FewerMembers(LastLocks(s'), LastLocks(s));
    }
  }

  lemma {:induction false} NoEndlessRunFrom(states: nat -> State, actions: nat -> Action, i: nat)
    requires Endless(states, actions) && Invariant(states(0))
    ensures false
    decreases |states(i).requests.Keys|, |Linkers(states(i))|, |Awaited(states(i))|, |Listed(states(i))|,
              |RunsLeft(states(i))|, |LivesLeft(states(i))|, |states(i).releasing|, |LastLocks(states(i))|
  {
    EndlessKeepsInvariant(states, actions, i);
    EndlessStep(states, actions, i);
    ThreadsGetNearer(states(i), actions(i), states(i + 1));
    NearerIsLess(states(i), states(i + 1));
    NoEndlessRunFrom(states, actions, i + 1);
  }

  /** From a reachable state on, the threads cannot go on for ever without the client. */
  lemma NoEndlessRun(states: nat -> State, actions: nat -> Action)
    requires Reachable(states(0))
    ensures !Endless(states, actions)
  {
    ReachableInvariant(states(0));
    if Endless(states, actions) {
      NoEndlessRunFrom(states, actions, 0);
    }
  }

  // ----- A run to the end -------------------------------------------------------------------------------

  /** No thread can change anything. */
  ghost predicate AtRest(s: State) {
    forall a: Action :: Enabled(s, a) && !IsClientChoice(a) ==> Do(s, a) == s
  }

  lemma NotNearerThanItself(s: State)
    ensures !Nearer(s, s)
  {
  }

  lemma TakerCanMove(s: State, p: PointId)
    requires Invariant(s) && Enabled(s, LocksTaken(p)) && Do(s, LocksTaken(p)) == s
    ensures exists r :: Enabled(s, SwapLock(p, r))
  {
    assert HasRequest(WithLife(s, p, Waiting), p);
    var r :| r in s.requests && s.requests[r].point == p;
    assert RequestOk(s, r) && BoundOk(s, p);
    assert Enabled(s, SwapLock(p, r));
  }

  lemma NothingMovesAtRest(s: State, a: Action)
    requires Invariant(s) && CountsInRange(s) && AtRest(s) && Enabled(s, a) && !IsClientChoice(a)
    ensures a.LocksTaken?
  {
    ThreadsGetNearer(s, a, Do(s, a));
    NotNearerThanItself(s);
  }

  /** A state in which no thread can change anything is stuck: a thread that only looks
      again for guards to take has one to take. */
  lemma AtRestIsStuck(s: State)
    requires Invariant(s) && CountsInRange(s) && AtRest(s)
    ensures Stuck(s)
  {
    forall a: Action | Enabled(s, a)
      ensures IsClientChoice(a)
    {
      if !IsClientChoice(a) {
        NothingMovesAtRest(s, a);
        TakerCanMove(s, a.p);
        var r :| Enabled(s, SwapLock(a.p, r));
        NothingMovesAtRest(s, SwapLock(a.p, r));
      }
    }
  }
}
