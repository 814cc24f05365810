/** What a running block knows of its own start, and so where the intervals it creates come
    in the order of things. */
module SchedulerKeptStart {
  import opened SchedulerState
  import opened SchedulerSteps
  import opened SchedulerInvariant
  import opened SchedulerPaths
  import opened SchedulerRuns
  import opened SchedulerHistory
  import opened SchedulerFreeing

  // ----- The kept start ------------------------------------------------------------------------

  /** A block keeps its start if and only if that is not dead; the block of the root has
      none to keep. */
  ghost predicate KeptOk(s: State, t: PointId)
    requires t in s.points && s.points[t].run.Body?
  {
    match s.points[t].start
    case None => s.points[t].run.cur == None
    case Some(p) => p in s.points && (s.points[t].run.cur == if IsDead(s.points[p].life) then None else Some(p))
  }

  ghost predicate KeptStarts(s: State) {
    forall t {:trigger KeptOk(s, t)} :: t in s.points && s.points[t].run.Body? ==> KeptOk(s, t)
  }

  /** Whatever block runs afterwards ran before, and kept the same. */
  ghost predicate KeepsBodies(s: State, s': State) {
    forall t :: t in s'.points && s'.points[t].run.Body? ==>
      t in s.points && s.points[t].run.Body? && s'.points[t].run.cur == s.points[t].run.cur
  }

  ghost predicate NoneOccurs(s: State, s': State) {
    forall q :: q in s.points && q in s'.points && s'.points[q].life.Occurred? ==> s.points[q].life.Occurred?
  }

  /** A point that occurs, and is not declared dead, has more than one reference on it. */
  ghost predicate DeadIfAlone(s: State, s': State) {
    forall q :: q in s.points && q in s'.points && !s.points[q].life.Occurred? && s'.points[q].life.Occurred? ==>
      s'.points[q].life.dead || s'.points[q].rc != 1
  }

  lemma ArriveKeepsBodies(s: State, s1: State, q: PointId, addRefs: nat)
    requires KeepsBodies(s, s1) && NoneOccurs(s, s1) && q in s1.points
    ensures KeepsBodies(s, Arrive(s1, q, addRefs)) && DeadIfAlone(s, Arrive(s1, q, addRefs))
  {
  }

  lemma ReleaseKeepsBodies(s: State, s1: State, q: PointId)
    requires KeepsBodies(s, s1) && NoneOccurs(s, s1) && q in s1.points
    ensures KeepsBodies(s, Release(s1, q)) && NoneOccurs(s, Release(s1, q))
  {
  }

  lemma ArrivalKeepsBodies(s: State, a: Action)
    requires Enabled(s, a) && ArrivesAt(s, a).Some?
    ensures KeepsBodies(s, Do(s, a)) && DeadIfAlone(s, Do(s, a))
  {
    match a
    case Schedule(_, p) => ArriveKeepsBodies(s, WithPoint(s, p, s.points[p].(owner := None)), p, 0);
    case EndTask(t) => ArriveKeepsBodies(s, WithPoint(s, t, s.points[t].(run := Closed)), t, 0);
    case Deliver(e) =>
      ArriveKeepsBodies(s, s.(inflight := s.inflight - {e}), s.edges[e].dst, Bit(!IsDead(s.points[s.edges[e].src].life)));
    case LocksTaken(p) => ArriveKeepsBodies(s, WithLife(s, p, Waiting), p, 0);
  }

  lemma LifeKeepsBodies(s: State, p: PointId, life: Life)
    requires p in s.points && (life.Occurred? ==> s.points[p].life.Occurred?)
    ensures KeepsBodies(s, WithLife(s, p, life)) && NoneOccurs(s, WithLife(s, p, life))
  {
  }

  lemma FinishKeepsBodies(s: State, t: PointId)
    requires Enabled(s, FinishBody(t))
    ensures KeepsBodies(s, Do(s, FinishBody(t))) && NoneOccurs(s, Do(s, FinishBody(t)))
  {
    var s1 := WithPoint(s, t, s.points[t].(run := Flushing));
    if s.points[t].start.Some? {
      var start := s.points[t].start.value;
      ReleaseKeepsBodies(s, WithLife(s1, start, s1.points[start].life.(stage := Done)), start);
    }
  }

  lemma DispatchKeepsBodies(s: State, p: PointId)
    requires Enabled(s, Dispatch(p))
    ensures KeepsBodies(s, Do(s, Dispatch(p))) && NoneOccurs(s, Do(s, Dispatch(p)))
  {
    if s.points[p].task == Block {
      LifeKeepsBodies(s, p, s.points[p].life.(stage := Queued));
    } else {
      LifeKeepsBodies(s, p, s.points[p].life.(stage := Done));
      ReleaseKeepsBodies(s, WithLife(s, p, s.points[p].life.(stage := Done)), p);
    }
  }

  lemma ReleaseFormerKeepsBodies(s: State, p: PointId)
    requires Enabled(s, ReleaseFormer(p))
    ensures KeepsBodies(s, Do(s, ReleaseFormer(p))) && NoneOccurs(s, Do(s, ReleaseFormer(p)))
  {
    var taking := s.points[p].life.taking;
    ReleaseKeepsBodies(s, WithLife(s, p, Acquiring(Letting(taking.guard))), taking.former);
  }

  lemma ReleasingKeepsBodies(s: State, a: Action)
    requires IsReleasing(a) && Enabled(s, a)
    ensures KeepsBodies(s, Do(s, a)) && NoneOccurs(s, Do(s, a))
  {
    match a
    case UserRelease(p) => ReleaseKeepsBodies(s, WithPoint(s, p, s.points[p].(user := s.points[p].user - 1)), p);
    case FinishBody(t) => FinishKeepsBodies(s, t);
    case Dispatch(p) => DispatchKeepsBodies(s, p);
    case ReleaseFormer(p) => ReleaseFormerKeepsBodies(s, p);
    case ReleaseEdge(e) => ReleaseKeepsBodies(s, s.(releasing := s.releasing - {e}), s.edges[e].dst);
    case ReleaseGuardLast(g) =>
      ReleaseKeepsBodies(s, s.(guards := s.guards[g := s.guards[g].(last := None)]), s.guards[g].last.value);
  }

  lemma ClientKeepsBodies(s: State, a: Action)
    requires a.Retain? || a.CreateGuard? || a.RetainGuard? || a.UserReleaseGuard? || a.AddLock?
    requires Enabled(s, a)
    ensures KeepsBodies(s, Do(s, a)) && NoneOccurs(s, Do(s, a))
  {
  }

  lemma EdgeKeepsBodies(s: State, s1: State, before: PointId, after: PointId, synthetic: bool, e: EdgeId)
    requires KeepsBodies(s, s1) && NoneOccurs(s, s1) && before in s1.points && after in s1.points
    ensures KeepsBodies(s, AddEdge(s1, before, after, synthetic, e)) && NoneOccurs(s, AddEdge(s1, before, after, synthetic, e))
  {
  }

  lemma CreationKeepsBodies(s: State, t: PointId, bound: PointId, start: PointId, end: PointId, e: EdgeId)
    requires Enabled(s, NewInterval(t, bound, start, end, e))
    ensures KeepsBodies(s, DoNewInterval(s, t, bound, start, end, e))
  {
  }

  lemma NoneOccursByCreation(s: State, t: PointId, bound: PointId, start: PointId, end: PointId, e: EdgeId)
    requires Enabled(s, NewInterval(t, bound, start, end, e))
    ensures NoneOccurs(s, DoNewInterval(s, t, bound, start, end, e))
  {
  }

  lemma LinkKeepsBodies(s: State, p: PointId, e: EdgeId)
    requires Enabled(s, LinkLock(p, e))
    ensures KeepsBodies(s, Do(s, LinkLock(p, e))) && NoneOccurs(s, Do(s, LinkLock(p, e)))
  {
    var taking := s.points[p].life.taking;
    EdgeKeepsBodies(s, WithLife(s, p, Acquiring(Linked(taking.guard, taking.former))), taking.former, p, true, e);
  }

  lemma ThreadKeepsBodies(s: State, a: Action)
    requires a.SubintervalReturn? || a.SwapLock? || a.ReleaseTaken?
    requires Enabled(s, a)
    ensures KeepsBodies(s, Do(s, a)) && NoneOccurs(s, Do(s, a))
  {
  }

  lemma OtherKeepsBodies(s: State, a: Action)
    requires Enabled(s, a) && !a.StartTask? && !a.Subinterval?
    ensures KeepsBodies(s, Do(s, a)) && DeadIfAlone(s, Do(s, a))
  {
    if ArrivesAt(s, a).Some? {
      ArrivalKeepsBodies(s, a);
    } else if IsReleasing(a) {
      ReleasingKeepsBodies(s, a);
    } else if a.SubintervalReturn? || a.SwapLock? || a.ReleaseTaken? {
      ThreadKeepsBodies(s, a);
    } else if a.LinkLock? {
      LinkKeepsBodies(s, a.p, a.e);
    } else if a.AddHb? {
      EdgeKeepsBodies(s, s, a.before, a.after, false, a.e);
    } else if a.NewInterval? {
      CreationKeepsBodies(s, a.t, a.bound, a.start, a.end, a.e);
      NoneOccursByCreation(s, a.t, a.bound, a.start, a.end, a.e);
    } else {
      ClientKeepsBodies(s, a);
    }
  }

  /** The start of a running block has occurred. */
  lemma StartHasOccurred(s: State, t: PointId)
    requires Tasks(s) && t in s.points && s.points[t].run.Body? && s.points[t].start.Some?
    ensures s.points[t].start.value in s.points && s.points[s.points[t].start.value].life.Occurred?
  {
    assert TaskOk(s, t);
    assert TaskOk(s, s.points[t].start.value);
  }

  lemma KeptOn(s: State, s': State)
    requires Tasks(s) && KeptStarts(s) && KeepsBodies(s, s') && PointsAdvance(s, s')
    ensures KeptStarts(s')
  {
    forall t {:trigger KeptOk(s', t)} | t in s'.points && s'.points[t].run.Body?
      ensures KeptOk(s', t)
    {
      assert KeptOk(s, t);
      if s.points[t].start.Some? {
        StartHasOccurred(s, t);
      }
    }
  }

  lemma StartTaskKept(s: State, p: PointId, s': State)
    requires Tasks(s) && RefCounts(s, None) && KeptStarts(s) && Step(s, StartTask(p), s')
    ensures KeptStarts(s')
  {
    var end := s.points[p].bound.value;
    assert RefsOk(s, p, Debt(None, p)) && TaskOk(s, p);
    forall t {:trigger KeptOk(s', t)} | t in s'.points && s'.points[t].run.Body?
      ensures KeptOk(s', t)
    {
      if t != end {
        assert KeptOk(s, t);
      }
    }
  }

  lemma SubintervalKept(s: State, t: PointId, start: PointId, end: PointId, e: EdgeId, s': State)
    requires Tasks(s) && KeptStarts(s) && Step(s, Subinterval(t, start, end, e), s')
    ensures KeptStarts(s')
  {
    forall u {:trigger KeptOk(s', u)} | u in s'.points && s'.points[u].run.Body?
      ensures KeptOk(s', u)
    {
      if u != end {
        assert KeptOk(s, u);
      }
    }
  }

  lemma StepKeepsStarts(s: State, a: Action, s': State)
    requires Invariant(s) && CountsInRange(s) && KeptStarts(s) && Step(s, a, s')
    ensures KeptStarts(s')
  {
    if a.StartTask? {
      StartTaskKept(s, a.p, s');
    } else if a.Subinterval? {
      SubintervalKept(s, a.t, a.start, a.end, a.e, s');
    } else {
      OtherKeepsBodies(s, a);
      StepAdvances(s, a, s');
      KeptOn(s, s');
    }
  }

  lemma {:induction false} RunKeepsStarts(states: seq<State>, actions: seq<Action>, i: nat)
    requires IsRun(states, actions) && i < |states|
    ensures KeptStarts(states[i])
    decreases i
  {
    if i > 0 {
      RunKeepsStarts(states, actions, i - 1);
      RunKeepsInvariant(states, actions, i - 1);
      StepKeepsStarts(states[i - 1], actions[i - 1], states[i]);
    }
  }

  lemma StepDeadIfAlone(s: State, a: Action, s': State)
    requires Step(s, a, s')
    ensures DeadIfAlone(s, s')
  {
    if !a.StartTask? && !a.Subinterval? {
      OtherKeepsBodies(s, a);
    }
  }

  /** A point goes dead if and only if, as it occurs, the scheduler's is the only reference on it. */
  lemma GoesDeadIfAlone(s: State, a: Action, s': State, q: PointId)
    requires Reachable(s) && CountsInRange(s) && Step(s, a, s')
    requires q in s.points && !Occ(s, q) && Occ(s', q)
    ensures IsDead(s'.points[q].life) <==> RefTotal(s', q) == 1
  {
    ReachableInvariant(s);
    StepKeepsInvariant(s, a, s');
    StepDeadIfAlone(s, a, s');
    StepFreesWell(s, a, s');
    assert RefsOk(s', q, Debt(None, q));
  }

  /** While a block runs, its start is kept if and only if it is not dead. */
  lemma KeptIfNotDead(s: State, t: PointId)
    requires Reachable(s) && t in s.points && s.points[t].run.Body?
    ensures KeptOk(s, t)
  {
    var states: seq<State>, actions: seq<Action> :| IsRun(states, actions) && states[|states| - 1] == s;
    RunKeepsStarts(states, actions, |states| - 1);
  }

  // ----- Where new intervals come ------------------------------------------------------------------

  /** Nothing is to happen before p. */
  ghost predicate NothingBefore(s: State, p: PointId) {
    forall d :: d in s.edges ==> s.edges[d].dst != p
  }

  /** The start comes before the end and after the current start, if the block keeps one. */
  ghost predicate Placed(s: State, cur: Option<PointId>, start: PointId, end: PointId) {
    HappensBefore(s, start, end) && (if cur.Some? then HappensBefore(s, cur.value, start) else NothingBefore(s, start))
  }

  /** The points of s are those of s' too, and only the bound of the new end waits for more. */
  ghost predicate OneWaitMore(s: State, s': State, bound: PointId) {
    forall p :: p in s.points ==> p in s'.points && s'.points[p].wc == s.points[p].wc + (if p == bound then 1 else 0)
  }

  /** The end that was created, and what it makes of its bound: one wait more. */
  ghost predicate EndOn(s: State, s': State, bound: PointId, end: PointId) {
    && bound in s.points && end !in s.points && bound in s'.points && end in s'.points
    && s'.points[end].bound == Some(bound) && s'.points[end].depth == s.points[bound].depth + 1
    && HappensBefore(s', end, bound)
    && OneWaitMore(s, s', bound)
  }

  /** The edges that come with a new start and end. */
  ghost predicate EdgesMade(s': State, cur: Option<PointId>, start: PointId, end: PointId, bound: PointId, e: EdgeId) {
    && BoundOf(start) in s'.edges && s'.edges[BoundOf(start)] == Edge(start, end, false)
    && BoundOf(end) in s'.edges && s'.edges[BoundOf(end)] == Edge(end, bound, false)
    && (cur.Some? ==> e in s'.edges && s'.edges[e] == Edge(cur.value, start, false))
  }

  lemma EdgesPlace(s': State, cur: Option<PointId>, start: PointId, end: PointId, bound: PointId, e: EdgeId)
    requires EdgesMade(s', cur, start, end, bound, e) && (cur.None? ==> NothingBefore(s', start))
    ensures HappensBefore(s', end, bound) && Placed(s', cur, start, end)
  {
    EdgePath(s', BoundOf(start));
    EdgePath(s', BoundOf(end));
    if cur.Some? {
      EdgePath(s', e);
    }
  }

  lemma IntervalEdges(s: State, t: PointId, bound: PointId, start: PointId, end: PointId, e: EdgeId, s': State)
    requires Shape(s) && Step(s, NewInterval(t, bound, start, end, e), s')
    ensures EdgesMade(s', s.points[t].run.cur, start, end, bound, e)
    ensures s.points[t].run.cur.None? ==> NothingBefore(s', start)
  {
  }

  lemma SubintervalEdges(s: State, t: PointId, start: PointId, end: PointId, e: EdgeId, s': State)
    requires Shape(s) && Step(s, Subinterval(t, start, end, e), s')
    ensures EdgesMade(s', s.points[t].run.cur, start, end, t, e)
    ensures s.points[t].run.cur.None? ==> NothingBefore(s', start)
  {
  }

  lemma IntervalIsMade(s: State, t: PointId, bound: PointId, start: PointId, end: PointId, e: EdgeId, s': State)
    requires Shape(s) && Step(s, NewInterval(t, bound, start, end, e), s')
    ensures EndOn(s, s', bound, end) && Placed(s', s.points[t].run.cur, start, end)
    ensures start !in s.points && start in s'.points && s'.points[start].bound == Some(end) && s'.points[start].owner == Some(t)
    ensures s'.points[start].task == Block && s'.points[end].task == Empty
  {
    IntervalEdges(s, t, bound, start, end, e, s');
    EdgesPlace(s', s.points[t].run.cur, start, end, bound, e);
  }

  lemma SubintervalIsMade(s: State, t: PointId, start: PointId, end: PointId, e: EdgeId, s': State)
    requires Shape(s) && Step(s, Subinterval(t, start, end, e), s')
    ensures EndOn(s, s', t, end) && Placed(s', s.points[t].run.cur, start, end)
    ensures start !in s.points && start in s'.points && s'.points[start].bound == Some(end)
    ensures s'.points[start].task == Block && s'.points[end].task == Latch
    ensures s'.points[start].life.Occurred? && s'.points[end].run == Body(Some(start), None)
    ensures s'.points[t].run == Body(s.points[t].run.cur, Some(end))
  {
    SubintervalEdges(s, t, start, end, e, s');
    EdgesPlace(s', s.points[t].run.cur, start, end, t, e);
  }

  /** An interval created by the block that started at p comes after p, unless p is dead: it
      then waits for nothing. */
  lemma NewStartFollows(s: State, t: PointId, bound: PointId, start: PointId, end: PointId, e: EdgeId, s': State)
    requires Reachable(s) && Step(s, NewInterval(t, bound, start, end, e), s')
    ensures match s.points[t].start
      case None => NothingBefore(s', start)
      case Some(p) => p in s.points && if IsDead(s.points[p].life) then NothingBefore(s', start) else HappensBefore(s', p, start)
  {
    ReachableInvariant(s);
    KeptIfNotDead(s, t);
    IntervalIsMade(s, t, bound, start, end, e, s');
  }

  /** The same of a subinterval. */
  lemma NewSubstartFollows(s: State, t: PointId, start: PointId, end: PointId, e: EdgeId, s': State)
    requires Reachable(s) && Step(s, Subinterval(t, start, end, e), s')
    ensures match s.points[t].start
      case None => NothingBefore(s', start)
      case Some(p) => p in s.points && if IsDead(s.points[p].life) then NothingBefore(s', start) else HappensBefore(s', p, start)
  {
    ReachableInvariant(s);
    KeptIfNotDead(s, t);
    SubintervalIsMade(s, t, start, end, e, s');
  }

  /** An edge that is added makes its source happen before its target. */
  lemma EdgeIsMade(s: State, t: PointId, before: PointId, after: PointId, e: EdgeId, s': State)
    requires Step(s, AddHb(t, before, after, e), s')
    ensures HappensBefore(s', before, after) && e !in s.edges && s'.edges == s.edges[e := Edge(before, after, false)]
  {
    EdgePath(s', e);
  }
}
