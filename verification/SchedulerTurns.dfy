/** Turning to guards: when a point begins to take its pending guards, and what may still
    be added to it then. */
module SchedulerTurns {
  import opened SchedulerState
  import opened SchedulerSteps
  import opened SchedulerInvariant
  import opened SchedulerSafety
  import opened SchedulerIntervals
  import opened SchedulerRuns
  import opened SchedulerHistory

  /** q is taking its pending guards, or has taken one. */
  ghost predicate Turned(s: State, q: PointId) {
    q in s.points && (s.points[q].life.Acquiring? || exists g :: g in s.guards && q in s.guards[g].holders)
  }

  /** A lock was handed over to q. */
  ghost predicate HasSynthetic(s: State, q: PointId) {
    exists e :: e in s.edges && s.edges[e].dst == q && s.edges[e].synthetic
  }

  // ----- What one step can change ------------------------------------------------------------

  ghost predicate OwnersFade(s: State, s': State) {
    forall p :: p in s.points && p in s'.points && s'.points[p].owner.Some? ==> s.points[p].owner.Some?
  }

  /** Notifications come only from points that occur in the step. */
  ghost predicate FlightsStart(s: State, s': State) {
    forall e :: e in s'.inflight && e !in s.inflight ==> e in s.edges && !Occ(s, s.edges[e].src)
  }

  /** A point turns to its guards with nothing left to wait for. */
  ghost predicate TurnsAtZero(s: State, s': State) {
    forall p :: p in s'.points && s'.points[p].life.Acquiring? ==>
      (p in s.points && s.points[p].life.Acquiring?) || (s'.points[p].life == Acquiring(Popping) && s'.points[p].wc == 1)
  }

  /** Who enters the history of a guard was taking guards. */
  ghost predicate HoldersWereTaking(s: State, s': State) {
    forall g, j :: g in s'.guards && 0 <= j < |s'.guards[g].holders| ==>
      var x := s'.guards[g].holders[j];
      (g in s.guards && j < |s.guards[g].holders| && s.guards[g].holders[j] == x) ||
      (x in s.points && s.points[x].life.Acquiring?)
  }

  ghost predicate TakesOnlyHeld(s: State, s': State) {
    forall p :: p in s'.points && s'.points[p].life.Acquiring? && !s'.points[p].life.taking.Popping? ==>
      var g := s'.points[p].life.taking.guard;
      (p in s.points && HoldsGuard(s.points[p].life, g)) || (g in s'.guards && p in s'.guards[g].holders)
  }

  ghost predicate EdgesAllowed(s: State, s': State) {
    forall e :: e in s'.edges && e !in s.edges ==>
      var edge := s'.edges[e];
      if edge.synthetic then
        edge.dst in s.points && s.points[edge.dst].life.Acquiring? && !s.points[edge.dst].life.taking.Popping?
      else edge.dst !in s.points || Pinned(s, edge.dst)
  }

  /** New points are bounded. */
  ghost predicate BornBounded(s: State, s': State) {
    forall p :: p in s'.points && p !in s.points ==> s'.points[p].bound.Some?
  }

  /** Only a running block creates points. */
  ghost predicate BornInBody(s: State, s': State) {
    s'.points.Keys != s.points.Keys ==> exists t :: InBody(s, t)
  }

  ghost predicate Effect(s: State, s': State) {
    BornBounded(s, s') && BornInBody(s, s') && OwnersFade(s, s') && FlightsStart(s, s') && TurnsAtZero(s, s') && HoldersWereTaking(s, s') &&
    TakesOnlyHeld(s, s') && EdgesAllowed(s, s')
  }

  /** A step that changes no lives but those of points that stop waiting or taking. */
  lemma QuietEffect(s: State, s': State)
    requires s'.edges == s.edges && s'.inflight <= s.inflight
    requires forall g :: g in s'.guards ==>
      ((g in s.guards && s'.guards[g].holders == s.guards[g].holders) || s'.guards[g].holders == [])
    requires s'.points.Keys == s.points.Keys && forall p :: p in s.points ==> s'.points[p].owner == s.points[p].owner
    requires forall p :: p in s'.points && s'.points[p].life.Acquiring? ==>
      (s.points[p].life.Acquiring? &&
       (s'.points[p].life.taking.Popping? || HoldsGuard(s.points[p].life, s'.points[p].life.taking.guard)))
    ensures Effect(s, s')
  {
  }

  lemma ReleaseIsQuiet(s: State, p: PointId)
    requires p in s.points
    ensures var s' := Release(s, p);
      && s'.edges == s.edges && s'.inflight == s.inflight && s'.guards == s.guards && s'.points.Keys == s.points.Keys
      && (forall q :: q in s.points ==> s'.points[q].owner == s.points[q].owner)
      && (forall q :: q in s.points ==> s'.points[q].life == s.points[q].life || s'.points[q].life.Freed?)
  {
  }

  /** What an arrival at q comes to. */
  lemma ArriveMeans(s: State, q: PointId, add: nat)
    requires q in s.points
    ensures var s' := Arrive(s, q, add);
      && s'.edges == s.edges && s'.guards == s.guards && s'.points.Keys == s.points.Keys
      && (forall p :: p in s.points && p != q ==> s'.points[p] == s.points[p])
      && s'.points[q].owner == s.points[q].owner
      && s.inflight <= s'.inflight <= s.inflight + OutEdges(s, q)
      && (s'.points[q].life == s.points[q].life || s'.points[q].life.Occurred? ||
          (s'.points[q].life == Acquiring(Popping) && s'.points[q].wc == 1))
  {
  }

  /** s' comes from s1 by an arrival at q, and s1 from s by giving up what q waited for. */
  ghost predicate ArrivedAt(s: State, s1: State, q: PointId) {
    && s1.edges == s.edges && s1.guards == s.guards && s1.inflight <= s.inflight && s1.points.Keys == s.points.Keys
    && q in s.points && !HasOccurred(s.points[q].life)
    && (forall p :: p in s.points && p != q ==>
          s1.points[p].owner == s.points[p].owner && s1.points[p].life == s.points[p].life)
    && (s1.points[q].owner.Some? ==> s.points[q].owner.Some?)
    && (s1.points[q].life == s.points[q].life || s1.points[q].life == Waiting)
  }

  lemma ArriveEffect(s: State, s1: State, q: PointId, add: nat)
    requires ArrivedAt(s, s1, q)
    ensures Effect(s, Arrive(s1, q, add))
  {
    ArriveMeans(s1, q, add);
    ArriveEffectMeans(s, s1, q, Arrive(s1, q, add));
  }

  lemma ArriveEffectMeans(s: State, s1: State, q: PointId, s': State)
    requires ArrivedAt(s, s1, q)
    requires s'.edges == s1.edges && s'.guards == s1.guards && s'.points.Keys == s1.points.Keys
    requires forall p :: p in s1.points && p != q ==> s'.points[p] == s1.points[p]
    requires s'.points[q].owner == s1.points[q].owner && s'.inflight <= s1.inflight + OutEdges(s1, q)
    requires s'.points[q].life == s1.points[q].life || s'.points[q].life.Occurred? ||
             (s'.points[q].life == Acquiring(Popping) && s'.points[q].wc == 1)
    ensures Effect(s, s')
  {
  }

  lemma ArrivingEffect(s: State, a: Action, s': State)
    requires Ordered(s) && Step(s, a, s') && (a.Schedule? || a.EndTask? || a.Deliver? || a.LocksTaken?)
    ensures Effect(s, s')
  {
    match a
    case Schedule(t, p) => ArriveEffect(s, WithPoint(s, p, s.points[p].(owner := None)), p, 0);
    case EndTask(t) => ArriveEffect(s, WithPoint(s, t, s.points[t].(run := Closed)), t, 0);
    case Deliver(e) =>
      ArriveEffect(s, s.(inflight := s.inflight - {e}), s.edges[e].dst, Bit(!IsDead(s.points[s.edges[e].src].life)));
    case LocksTaken(p) => ArriveEffect(s, WithLife(s, p, Waiting), p, 0);
  }

  /** A release after a small change: of owners and guards nothing is new. */
  lemma ReleasingEffect(s: State, s1: State, p: PointId)
    requires s1.edges == s.edges && s1.inflight == s.inflight && s1.points.Keys == s.points.Keys && p in s.points
    requires forall g :: g in s1.guards ==> g in s.guards && s1.guards[g].holders == s.guards[g].holders
    requires forall q :: q in s.points ==> s1.points[q].owner == s.points[q].owner
    requires forall q :: q in s.points && s1.points[q].life.Acquiring? ==>
      (s.points[q].life.Acquiring? &&
       (s1.points[q].life.taking.Popping? || HoldsGuard(s.points[q].life, s1.points[q].life.taking.guard)))
    ensures Effect(s, Release(s1, p))
  {
    ReleaseIsQuiet(s1, p);
    QuietEffect(s, Release(s1, p));
  }

  lemma FinishBodyEffect(s: State, t: PointId, s': State)
    requires Step(s, FinishBody(t), s')
    ensures Effect(s, s')
  {
    var s1 := WithPoint(s, t, s.points[t].(run := Flushing));
    if s.points[t].start.None? {
      QuietEffect(s, s1);
    } else {
      var start := s.points[t].start.value;
      ReleasingEffect(s, WithLife(s1, start, s.points[start].life.(stage := Done)), start);
    }
  }

  lemma DispatchEffect(s: State, p: PointId, s': State)
    requires Step(s, Dispatch(p), s')
    ensures Effect(s, s')
  {
    if s.points[p].task == Block {
      QuietEffect(s, s');
    } else {
      ReleasingEffect(s, WithLife(s, p, s.points[p].life.(stage := Done)), p);
    }
  }

  lemma UserReleaseEffect(s: State, p: PointId, s': State)
    requires Step(s, UserRelease(p), s')
    ensures Effect(s, s')
  {
    ReleasingEffect(s, WithPoint(s, p, s.points[p].(user := s.points[p].user - 1)), p);
  }

  lemma ReleaseFormerEffect(s: State, p: PointId, s': State)
    requires Step(s, ReleaseFormer(p), s')
    ensures Effect(s, s')
  {
    var taking := s.points[p].life.taking;
    ReleasingEffect(s, WithLife(s, p, Acquiring(Letting(taking.guard))), taking.former);
  }

  lemma ReleaseEdgeEffect(s: State, e: EdgeId, s': State)
    requires Step(s, ReleaseEdge(e), s')
    ensures Effect(s, s')
  {
    ReleasingEffect(s, s.(releasing := s.releasing - {e}), s.edges[e].dst);
  }

  lemma ReleaseGuardLastEffect(s: State, g: GuardId, s': State)
    requires Step(s, ReleaseGuardLast(g), s')
    ensures Effect(s, s')
  {
    ReleasingEffect(s, s.(guards := s.guards[g := s.guards[g].(last := None)]), s.guards[g].last.value);
  }

  lemma TableEffect(s: State, a: Action, s': State)
    requires Step(s, a, s')
    requires a.Retain? || a.CreateGuard? || a.RetainGuard? || a.UserReleaseGuard? || a.SubintervalReturn? ||
             a.AddLock? || a.StartTask? || a.ReleaseTaken?
    ensures Effect(s, s')
  {
    QuietEffect(s, s');
  }

  lemma SwapLockEffect(s: State, p: PointId, r: RequestId, s': State)
    requires Shape(s) && Step(s, SwapLock(p, r), s')
    ensures Effect(s, s')
  {
    SwapLockMeans(s, p, r, s');
  }

  lemma LinkLockEffect(s: State, p: PointId, e: EdgeId, s': State)
    requires Step(s, LinkLock(p, e), s')
    ensures Effect(s, s')
  {
  }

  lemma AddHbEffect(s: State, a: Action, s': State)
    requires Shape(s) && Ordered(s) && Tasks(s) && Step(s, a, s') && a.AddHb?
    ensures Effect(s, s')
  {
    AllowedTargetIsPinned(s, a.t, a.after);
  }

  lemma CreationEffect(s: State, s': State, b: Birth)
    requires Shape(s) && IntervalAdded(s, s', b) && Pinned(s, b.bound)
    requires s'.points[b.bound].owner == s.points[b.bound].owner && exists t :: InBody(s, t)
    ensures Effect(s, s')
  {
    AddedOld(s, s', b);
  }

  lemma NewIntervalEffect(s: State, a: Action, s': State)
    requires Invariant(s) && Step(s, a, s') && a.NewInterval?
    ensures Effect(s, s')
  {
    NewIntervalMeans(s, a.t, a.bound, a.start, a.end, a.e, s');
    CreatedAdds(s, a.t, a.bound, a.start, a.end, a.e, s');
    AllowedTargetIsPinned(s, a.t, a.bound);
    assert InBody(s, a.t);
    CreationEffect(s, s', Birth(a.bound, a.end, a.start, s.points[a.t].run.cur, a.e));
  }

  lemma SubintervalEffect(s: State, a: Action, s': State)
    requires Invariant(s) && Step(s, a, s') && a.Subinterval?
    ensures Effect(s, s')
  {
    SubintervalMeans(s, a.t, a.start, a.end, a.e, s');
    NestedAdds(s, a.t, a.start, a.end, a.e, s');
    assert InBody(s, a.t) && !HasOccurred(s.points[a.t].life);
    CreationEffect(s, s', Birth(a.t, a.end, a.start, s.points[a.t].run.cur, a.e));
  }

  lemma StepEffect(s: State, a: Action, s': State)
    requires Invariant(s) && Step(s, a, s')
    ensures Effect(s, s')
  {
    match a
    case SwapLock(p, r) => SwapLockEffect(s, p, r, s');
    case LinkLock(p, e) => LinkLockEffect(s, p, e, s');
    case AddHb(_, _, _, _) => AddHbEffect(s, a, s');
    case NewInterval(_, _, _, _, _) => NewIntervalEffect(s, a, s');
    case Subinterval(_, _, _, _) => SubintervalEffect(s, a, s');
    case Schedule(_, _) => ArrivingEffect(s, a, s');
    case EndTask(_) => ArrivingEffect(s, a, s');
    case Deliver(_) => ArrivingEffect(s, a, s');
    case LocksTaken(_) => ArrivingEffect(s, a, s');
    case UserRelease(p) => UserReleaseEffect(s, p, s');
    case FinishBody(t) => FinishBodyEffect(s, t, s');
    case Dispatch(p) => DispatchEffect(s, p, s');
    case ReleaseFormer(p) => ReleaseFormerEffect(s, p, s');
    case ReleaseEdge(e) => ReleaseEdgeEffect(s, e, s');
    case ReleaseGuardLast(g) => ReleaseGuardLastEffect(s, g, s');
    case _ => TableEffect(s, a, s');
  }

  // ----- Points that have turned ---------------------------------------------------------------

  /** Where a thread is in taking a guard, the guard's history already shows. */
  ghost predicate TakersHold(s: State) {
    forall p :: p in s.points && s.points[p].life.Acquiring? && !s.points[p].life.taking.Popping? ==>
      var g := s.points[p].life.taking.guard; g in s.guards && p in s.guards[g].holders
  }

  /** A synthetic edge leads only to a point that has taken a guard. */
  ghost predicate SyntheticTurned(s: State) {
    forall e :: e in s.edges && s.edges[e].synthetic ==> exists g :: g in s.guards && s.edges[e].dst in s.guards[g].holders
  }

  /** A point that has turned and was handed no lock has nothing else to wait for. */
  ghost predicate TurnedFree(s: State, q: PointId) {
    Turned(s, q) && !HasSynthetic(s, q) ==> !Pinned(s, q)
  }

  /** A point turns to its guards when its block, if it waits for one, is over. */
  ghost predicate TurnedClosed(s: State) {
    forall q :: Turned(s, q) ==> s.points[q].owner == None && s.points[q].run == Closed
  }

  ghost predicate Turns(s: State) {
    TakersHold(s) && SyntheticTurned(s) && TurnedClosed(s) && forall q {:trigger TurnedFree(s, q)} :: TurnedFree(s, q)
  }

  lemma TakersStillHold(s: State, s': State)
    requires TakersHold(s) && TakesOnlyHeld(s, s') && RemembersLocks(s, s')
    ensures TakersHold(s')
  {
  }

  lemma SyntheticStillTurned(s: State, s': State)
    requires SyntheticTurned(s) && TakersHold(s) && EdgesAllowed(s, s') && EdgesStay(s, s') && RemembersLocks(s, s')
    ensures SyntheticTurned(s')
  {
    forall e | e in s'.edges && s'.edges[e].synthetic
      ensures exists g :: g in s'.guards && s'.edges[e].dst in s'.guards[g].holders
    {
      var q := s'.edges[e].dst;
      var g :| g in s.guards && q in s.guards[g].holders;
      assert s.guards[g].holders <= s'.guards[g].holders;
    }
  }

  /** Only a new edge can give a point something more to wait for. */
  lemma StillPinned(s: State, s': State, q: PointId)
    requires Shape(s) && Effect(s, s') && PointsAdvance(s, s') && EdgesStay(s, s')
    requires q in s.points && Pinned(s', q) && !HasSynthetic(s', q)
    ensures Pinned(s, q)
  {
    if d :| d in WaitEdges(s', q) {
      if d in s.edges {
        assert d in WaitEdges(s, q);
      } else {
        assert !s'.edges[d].synthetic;
      }
    }
  }

  lemma TurnedFreeNext(s: State, s': State, q: PointId)
    requires Shape(s) && Chains(s) && WaitCounts(s', None) && Effect(s, s') && PointsAdvance(s, s') && EdgesStay(s, s')
    requires TurnedFree(s, q)
    ensures TurnedFree(s', q)
  {
    if Turned(s', q) && !HasSynthetic(s', q) {
      if Turned(s, q) {
        if HasSynthetic(s, q) {
          SyntheticStays(s, s', q);
        } else if Pinned(s', q) {
          StillPinned(s, s', q);
        }
      } else {
        JustTurned(s, s', q);
      }
    }
  }

  lemma SyntheticStays(s: State, s': State, q: PointId)
    requires EdgesStay(s, s') && HasSynthetic(s, q)
    ensures HasSynthetic(s', q)
  {
    var e :| e in s.edges && s.edges[e].dst == q && s.edges[e].synthetic;
    assert s'.edges[e] == s.edges[e];
  }

  lemma HolderHadTurned(s: State, s': State, q: PointId)
    requires Chains(s) && HoldersWereTaking(s, s')
    ensures (exists g :: g in s'.guards && q in s'.guards[g].holders) ==> Turned(s, q)
  {
    if g :| g in s'.guards && q in s'.guards[g].holders {
      var j :| 0 <= j < |s'.guards[g].holders| && s'.guards[g].holders[j] == q;
      assert g in s.guards ==> ChainOk(s, g);
    }
  }

  /** A point that turns to its guards in this step has nothing to wait for. */
  lemma JustTurned(s: State, s': State, q: PointId)
    requires Chains(s) && WaitCounts(s', None) && TurnsAtZero(s, s') && HoldersWereTaking(s, s') && Turned(s', q) && !Turned(s, q)
    ensures !Pinned(s', q)
  {
    HolderHadTurned(s, s', q);
    assert s'.points[q].life.Acquiring?;
    assert WaitsOk(s', q, Debt(None, q));
  }

  lemma TurnedStayClosed(s: State, s': State)
    requires TurnedClosed(s) && Chains(s) && Ordered(s') && WaitCounts(s', None) && Effect(s, s') && PointsAdvance(s, s')
    ensures TurnedClosed(s')
  {
    forall q | Turned(s', q)
      ensures s'.points[q].owner == None && s'.points[q].run == Closed
    {
      if !Turned(s, q) {
        JustTurned(s, s', q);
      }
    }
  }

  lemma StepKeepsTurns(s: State, a: Action, s': State)
    requires Invariant(s) && CountsInRange(s) && Step(s, a, s') && Turns(s)
    ensures Turns(s')
  {
    StepKeepsInvariant(s, a, s');
    StepEffect(s, a, s');
    StepAdvances(s, a, s');
    TakersStillHold(s, s');
    SyntheticStillTurned(s, s');
    TurnedStayClosed(s, s');
    forall q {:trigger TurnedFree(s', q)}
      ensures TurnedFree(s', q)
    {
      TurnedFreeNext(s, s', q);
    }
  }

  lemma {:induction false} RunKeepsTurns(states: seq<State>, actions: seq<Action>, i: nat)
    requires IsRun(states, actions) && i < |states|
    ensures Turns(states[i])
  {
    if i > 0 {
      RunKeepsTurns(states, actions, i - 1);
      RunKeepsInvariant(states, actions, i - 1);
      StepKeepsTurns(states[i - 1], actions[i - 1], states[i]);
    }
  }

  // ----- What the safety check is worth ------------------------------------------------------------

  /** A point that the safety check lets through has not occurred. It has begun to take
      its guards just if a lock was handed over to it. */
  lemma AllowedTarget(s: State, t: PointId, q: PointId)
    requires Reachable(s) && InBody(s, t) && CanAddDep(s, t, q)
    ensures Pinned(s, q) && !Occ(s, q)
    ensures Turned(s, q) <==> HasSynthetic(s, q)
  {
    ReachableInvariant(s);
    AllowedTargetIsPinned(s, t, q);
    var states: seq<State>, actions: seq<Action> :| IsRun(states, actions) && states[|states| - 1] == s;
    RunKeepsTurns(states, actions, |states| - 1);
    assert TurnedFree(s, q);
    if HasSynthetic(s, q) {
      assert q in s.points;
    }
  }

  lemma {:induction false} PathStays(s: State, s': State, es: seq<EdgeId>, a: PointId, b: PointId)
    requires EdgesStay(s, s') && IsPath(s, es, a, b)
    ensures IsPath(s', es, a, b)
  {
    if es != [] {
      PathStays(s, s', es[1..], s.edges[es[0]].dst, b);
    }
  }

  /** What a task may keep adding to until it is over: its own end, and what that end
      happens before; */
  ghost predicate Ahead(s: State, t: PointId, q: PointId) {
    q == t || HappensBefore(s, t, q)
  }

  lemma AheadIsPinned(s: State, t: PointId, q: PointId)
    requires Shape(s) && Ordered(s) && t in s.points && s.points[t].run != Closed && Ahead(s, t, q)
    ensures Pinned(s, q)
  {
    assert !HasOccurred(s.points[t].life);
    if q != t {
      var es: seq<EdgeId> :| es != [] && IsPath(s, es, t, q);
      AfterUnoccurred(s, es, t, q);
    }
  }

  lemma StaysAhead(states: seq<State>, actions: seq<Action>, i: nat, k: nat, t: PointId, q: PointId)
    requires IsRun(states, actions) && i <= k < |states| && Ahead(states[i], t, q)
    ensures Ahead(states[k], t, q)
  {
    RunsMoveForward(states, actions, i, k);
    if q != t {
      var es: seq<EdgeId> :| es != [] && IsPath(states[i], es, t, q);
      PathStays(states[i], states[k], es, t, q);
    }
  }

  lemma AheadStaysPinned(states: seq<State>, actions: seq<Action>, i: nat, k: nat, t: PointId, q: PointId)
    requires IsRun(states, actions) && i <= k < |states| && Ahead(states[i], t, q)
    requires t in states[k].points && states[k].points[t].run != Closed
    ensures Pinned(states[k], q)
  {
    RunKeepsInvariant(states, actions, k);
    StaysAhead(states, actions, i, k, t, q);
    AheadIsPinned(states[k], t, q);
  }

  lemma PinnedDoesNotTurn(s: State, a: Action, s': State, q: PointId)
    requires Invariant(s) && CountsInRange(s) && Step(s, a, s') && Pinned(s', q)
    ensures Turned(s', q) ==> Turned(s, q)
  {
    StepKeepsInvariant(s, a, s');
    StepEffect(s, a, s');
    if Turned(s', q) && !Turned(s, q) {
      JustTurned(s, s', q);
    }
  }

  lemma RunStepDoesNotTurn(states: seq<State>, actions: seq<Action>, k: nat, q: PointId)
    requires IsRun(states, actions) && k < |actions| && Pinned(states[k + 1], q)
    ensures Turned(states[k + 1], q) ==> Turned(states[k], q)
  {
    RunKeepsInvariant(states, actions, k);
    PinnedDoesNotTurn(states[k], actions[k], states[k + 1], q);
  }

  lemma OpenBefore(states: seq<State>, actions: seq<Action>, i: nat, k: nat, t: PointId)
    requires IsRun(states, actions) && i <= k < |states|
    requires t in states[i].points && t in states[k].points && states[k].points[t].run != Closed
    ensures states[i].points[t].run != Closed
  {
    RunsMoveForward(states, actions, i, k);
  }

  lemma StaysKnown(states: seq<State>, actions: seq<Action>, i: nat, k: nat, t: PointId)
    requires IsRun(states, actions) && i <= k < |states| && t in states[i].points
    ensures t in states[k].points
  {
    RunsMoveForward(states, actions, i, k);
  }

  /** these stay unoccurred as long as the task is not over, and if one of them has not
      turned to its guards, then it does not until then. */
  lemma {:induction false} AllowedTargetStays(states: seq<State>, actions: seq<Action>, i: nat, k: nat, t: PointId, q: PointId)
    requires IsRun(states, actions) && i <= k < |states|
    requires t in states[i].points && Ahead(states[i], t, q)
    requires t in states[k].points && states[k].points[t].run != Closed
    ensures Pinned(states[k], q) && !Occ(states[k], q)
    ensures Turned(states[k], q) ==> Turned(states[i], q)
  {
    AheadStaysPinned(states, actions, i, k, t, q);
    if i < k {
      StaysKnown(states, actions, i, k - 1, t);
      OpenBefore(states, actions, k - 1, k, t);
      AllowedTargetStays(states, actions, i, k - 1, t, q);
      RunStepDoesNotTurn(states, actions, k - 1, q);
    }
  }

  /** A start on the unscheduled list of a task, and its bound, do not occur while it is
      there. */
  lemma UnscheduledTargetStays(s: State, t: PointId, q: PointId)
    requires Reachable(s) && IsUnscheduled(s, t, q)
    ensures q in s.points && Pinned(s, q) && !Occ(s, q)
  {
    ReachableInvariant(s);
    var u :| u in s.points && s.points[u].owner == Some(t) && (u == q || s.points[u].bound == Some(q));
    assert BoundOk(s, u);
    if u != q {
      assert BoundOf(u) in WaitEdges(s, q);
    }
  }

  // ----- Depths --------------------------------------------------------------------------------------

  /** Every point but the end of the root has a bound, one level above it. */
  ghost predicate BoundsCount(s: State) {
    ROOT in s.points && s.points[ROOT].depth == 0 &&
    forall p {:trigger BoundOk(s, p)} :: p in s.points ==> BoundOk(s, p) && (s.points[p].bound.None? ==> p == ROOT)
  }

  lemma BoundsStillCount(s: State, a: Action, s': State)
    requires Invariant(s) && CountsInRange(s) && Step(s, a, s') && BoundsCount(s)
    ensures BoundsCount(s')
  {
    StepKeepsInvariant(s, a, s');
    StepEffect(s, a, s');
    StepMovesForward(s, a, s');
    BoundsStay(s, s');
  }

  lemma BoundsStay(s: State, s': State)
    requires BoundsCount(s) && Shape(s') && BornBounded(s, s') && PointsAdvance(s, s')
    ensures BoundsCount(s')
  {
    forall p {:trigger BoundOk(s', p)} | p in s'.points
      ensures BoundOk(s', p) && (s'.points[p].bound.None? ==> p == ROOT)
    {
      if p in s.points {
        assert BoundOk(s, p);
      }
    }
  }

  lemma {:induction false} RunBoundsCount(states: seq<State>, actions: seq<Action>, i: nat)
    requires IsRun(states, actions) && i < |states|
    ensures BoundsCount(states[i])
  {
    if i > 0 {
      RunBoundsCount(states, actions, i - 1);
      RunKeepsInvariant(states, actions, i - 1);
      BoundsStillCount(states[i - 1], actions[i - 1], states[i]);
    }
  }

  lemma ReachableBoundsCount(s: State)
    requires Reachable(s)
    ensures BoundsCount(s)
  {
    var states: seq<State>, actions: seq<Action> :| IsRun(states, actions) && states[|states| - 1] == s;
    RunBoundsCount(states, actions, |states| - 1);
  }
}
