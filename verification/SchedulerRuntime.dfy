/** The sequential code of one thread: the mutual recursion of arrive(), occur() and
    arrive_edge(), the taking of guards and the release of points, working on the
    shared state in place. Every method is a chain of transitions of the scheduler. */
module SchedulerRuntime {
  import opened FiniteSets
  import opened SchedulerState
  import opened SchedulerSteps
  import opened SchedulerInvariant
  import opened SchedulerRelease
  import opened SchedulerWorkers
  import opened SchedulerRuns

  // ----- Chains of transitions -------------------------------------------------------------

  ghost predicate RunsTo(s: State, actions: seq<Action>, s': State)
    decreases |actions|
  {
    if actions == [] then s == s'
    else CountsInRange(s) && Enabled(s, actions[0]) && RunsTo(Do(s, actions[0]), actions[1..], s')
  }

  /** Some transitions lead from s to s'. */
  ghost predicate Leads(s: State, s': State) {
    exists actions: seq<Action> :: RunsTo(s, actions, s')
  }

  lemma RunsFirst(s: State, a: Action, rest: seq<Action>, s': State)
    requires CountsInRange(s) && Enabled(s, a) && RunsTo(Do(s, a), rest, s')
    ensures RunsTo(s, [a] + rest, s')
  {
    assert ([a] + rest)[1..] == rest;
  }

  lemma {:induction false} RunsJoin(s: State, first: seq<Action>, s1: State, bs: seq<Action>, s2: State)
    requires RunsTo(s, first, s1) && RunsTo(s1, bs, s2)
    ensures RunsTo(s, first + bs, s2)
    decreases |first|
  {
    if first == [] {
      assert first + bs == bs;
    } else {
      assert (first + bs)[0] == first[0] && (first + bs)[1..] == first[1..] + bs;
      RunsJoin(Do(s, first[0]), first[1..], s1, bs, s2);
    }
  }

  lemma LeadsToItself(s: State)
    ensures Leads(s, s)
  {
    assert RunsTo(s, [], s);
  }

  lemma LeadsOn(s: State, s1: State, s2: State)
    requires Leads(s, s1) && Leads(s1, s2)
    ensures Leads(s, s2)
  {
    var first: seq<Action> :| RunsTo(s, first, s1);
    var bs: seq<Action> :| RunsTo(s1, bs, s2);
    RunsJoin(s, first, s1, bs, s2);
  }

  lemma LeadsByStep(s: State, a: Action, s1: State, s2: State)
    requires CountsInRange(s) && Step(s, a, s1) && Leads(s1, s2)
    ensures Leads(s, s2)
  {
    assert RunsTo(Do(s, a), [a][1..], s1);
    assert RunsTo(s, [a], s1);
    LeadsOn(s, s1, s2);
  }

  /** What the methods below reach is reachable. */
  lemma {:induction false} LeadsToReachable(s: State, actions: seq<Action>, s': State)
    requires Reachable(s) && RunsTo(s, actions, s') && CountsInRange(s')
    ensures Reachable(s')
    decreases |actions|
  {
    if actions != [] {
      var states: seq<State>, before: seq<Action> :| IsRun(states, before) && states[|states| - 1] == s;
      var s1 := Do(s, actions[0]);
      assert CountsInRange(s1);
      assert IsRun(states + [s1], before + [actions[0]]);
      assert (states + [s1])[|states + [s1]| - 1] == s1;
      LeadsToReachable(s1, actions[1..], s');
    }
  }

  // ----- Room for the counters ---------------------------------------------------------------

  /** There are too few objects and client references to exhaust a 64-bit counter. */
  ghost predicate Roomy(s: State) {
    forall p :: p in s.points ==>
      |s.edges| + |s.requests| + |s.guards| + |s.points| + s.points[p].user + 4 < U64_MAX
  }

  lemma RoomForPoint(s: State, p: PointId)
    requires Roomy(s) && p in s.points && WaitsOk(s, p, 0) && RefsOk(s, p, 0)
    ensures PointInRange(s.points[p])
  {
    SmallerSet(WaitEdges(s, p), s.edges.Keys);
    SmallerSet(RefEdges(s, p), s.edges.Keys);
    SmallerSet(RefGuards(s, p), s.guards.Keys);
    SmallerSet(RefTakers(s, p), s.points.Keys);
  }

  lemma RoomInRange(s: State)
    requires WaitCounts(s, None) && RefCounts(s, None) && Roomy(s)
    ensures CountsInRange(s)
  {
    forall p | p in s.points
      ensures PointInRange(s.points[p])
    {
      assert WaitsOk(s, p, Debt(None, p)) && RefsOk(s, p, Debt(None, p));
      RoomForPoint(s, p);
    }
  }

  /** No more objects and references than before. */
  ghost predicate NoMoreRoom(s: State, s': State) {
    s'.points.Keys == s.points.Keys && |s'.edges| + |s'.requests| <= |s.edges| + |s.requests| &&
    |s'.guards| == |s.guards| && |s'.points| == |s.points| &&
    (forall p :: p in s.points ==> s'.points[p].user == s.points[p].user)
  }

  ghost predicate Seal(n: nat) {
    true
  }

  /** The invariant holds and there is room. The definition is sealed, so that proofs
      about long methods do not unfold it: SoundMeans opens it. */
  ghost predicate Sound(s: State) {
    forall n: nat {:trigger Seal(n)} :: Seal(n) ==> Invariant(s) && Roomy(s)
  }

  lemma SoundMeans(s: State)
    ensures Sound(s) <==> Invariant(s) && Roomy(s)
  {
    assert Seal(0);
  }

  // ----- What the methods leave alone ----------------------------------------------------------

  function Unfreed(s: State): set<PointId> {
    set p | p in s.points && !s.points[p].life.Freed?
  }

  function Unoccurred(s: State): set<PointId> {
    set p | p in s.points && !HasOccurred(s.points[p].life)
  }

  /** Points whose dispatch was over may have been freed. */
  predicate MayBeFreed(life: Life, life': Life) {
    life' == life || (life.Occurred? && life.stage == Done && life'.Freed?)
  }

  /** Nothing but reference counts and freed points has changed. */
  ghost predicate OnlyReleases(s: State, s': State) {
    s'.edges == s.edges && s'.requests == s.requests && s'.inflight == s.inflight && s'.guards.Keys == s.guards.Keys &&
    s'.points.Keys == s.points.Keys &&
    (forall p :: p in s.points ==>
       MayBeFreed(s.points[p].life, s'.points[p].life) &&
       s'.points[p] == s.points[p].(rc := s'.points[p].rc, life := s'.points[p].life))
  }

  lemma OnlyReleasesOn(s: State, s1: State, s2: State)
    requires OnlyReleases(s, s1) && OnlyReleases(s1, s2)
    ensures OnlyReleases(s, s2)
  {
  }

  lemma OnlyReleasesRoom(s: State, s': State)
    requires OnlyReleases(s, s')
    ensures NoMoreRoom(s, s') && Unfreed(s') <= Unfreed(s) && |Unfreed(s')| <= |Unfreed(s)|
  {
    assert |s'.guards.Keys| == |s.guards.Keys| && |s'.points.Keys| == |s.points.Keys|;
    SmallerSet(Unfreed(s'), Unfreed(s));
  }

  // ----- Steps as the methods take them -----------------------------------------------------------

  /** The state in which an edge's reference is given up and its target released. */
  function AfterEdge(s: State, e: EdgeId): State
    requires ConnectedIn(s, e)
  {
    Release(s.(releasing := s.releasing - {e}), s.edges[e].dst)
  }

  lemma ReleaseEdgeIs(s: State, e: EdgeId)
    requires Shape(s) && Flights(s) && e in s.releasing
    ensures ConnectedIn(s, e) && Step(s, ReleaseEdge(e), AfterEdge(s, e))
  {
  }

  lemma ReleaseOnlyReleases(s: State, e: EdgeId)
    requires Flights(s) && WaitCounts(s, None) && RefCounts(s, None) && e in s.releasing && ConnectedIn(s, e) && CountsInRange(s)
    ensures OnlyReleases(s, AfterEdge(s, e)) && !s.points[s.edges[e].dst].life.Freed?
  {
    var s1 := s.(releasing := s.releasing - {e});
    var q := s.edges[e].dst;
    LetGoTotals(s, e, q, s1);
    assert RefsOk(s1, q, Debt(Some(q), q));
    LastReference(s1, q);
  }

  /** p is about to lose a reference whose owner has given it up. */
  ghost predicate CanRelease(s: State, p: PointId) {
    p in s.points && !s.points[p].life.Freed? && (forall e :: e in s.releasing && e in s.edges ==> s.edges[e].src != p) &&
    Roomy(s) && Sound(Release(s, p))
  }

  /** The one edge of a freed point that is released next. */
  lemma ReleaseEdgeGoesOn(s: State, e: EdgeId)
    requires Sound(s) && e in s.releasing
    ensures ConnectedIn(s, e) && CanRelease(s.(releasing := s.releasing - {e}), s.edges[e].dst)
  {
    SoundMeans(s);
    RoomInRange(s);
    ReleaseEdgeIs(s, e);
    ReleaseEdgeStep(s, e, AfterEdge(s, e));
    ReleaseOnlyReleases(s, e);
    OnlyReleasesRoom(s, AfterEdge(s, e));
    SoundMeans(AfterEdge(s, e));
    FreedSources(s, s.edges[e].dst);
  }

  lemma FreedSources(s: State, p: PointId)
    requires Flights(s) && p in s.points && !s.points[p].life.Freed?
    ensures forall e :: e in s.releasing && e in s.edges ==> s.edges[e].src != p
  {
  }

  /** A chain of transitions from s0 to s that only released references. */
  ghost predicate Releasing(s0: State, s: State) {
    Sound(s) && Leads(s0, s) && OnlyReleases(s0, s) && s.guards == s0.guards && s.clock == s0.clock
  }

  lemma ReleasingStarts(s: State)
    requires Sound(s)
    ensures Releasing(s, s)
  {
    LeadsToItself(s);
  }

  lemma ReleasingOn(s0: State, s1: State, s2: State)
    requires Releasing(s0, s1) && Releasing(s1, s2)
    ensures Releasing(s0, s2)
  {
    LeadsOn(s0, s1, s2);
    OnlyReleasesOn(s0, s1, s2);
  }

  lemma ReleasedEdge(s: State, e: EdgeId, s': State)
    requires Sound(s) && e in s.releasing && ConnectedIn(s, e) && Releasing(AfterEdge(s, e), s')
    ensures Releasing(s, s')
  {
    SoundReleasesEdge(s, e);
    LeadsByStep(s, ReleaseEdge(e), AfterEdge(s, e), s');
    OnlyReleasesOn(s, AfterEdge(s, e), s');
  }

  lemma SoundReleasesEdge(s: State, e: EdgeId)
    requires Sound(s) && e in s.releasing && ConnectedIn(s, e)
    ensures CountsInRange(s) && Step(s, ReleaseEdge(e), AfterEdge(s, e)) && OnlyReleases(s, AfterEdge(s, e))
    ensures AfterEdge(s, e).guards == s.guards && AfterEdge(s, e).clock == s.clock
  {
    SoundMeans(s);
    RoomInRange(s);
    EdgeReleaseIs(s, e);
  }

  lemma EdgeReleaseIs(s: State, e: EdgeId)
    requires Shape(s) && Flights(s) && WaitCounts(s, None) && RefCounts(s, None) && CountsInRange(s)
    requires e in s.releasing && ConnectedIn(s, e)
    ensures Step(s, ReleaseEdge(e), AfterEdge(s, e)) && OnlyReleases(s, AfterEdge(s, e))
    ensures AfterEdge(s, e).guards == s.guards && AfterEdge(s, e).clock == s.clock
  {
    ReleaseEdgeIs(s, e);
    ReleaseOnlyReleases(s, e);
  }

  lemma BoundEdgeSource(s: State)
    requires Sound(s)
    ensures forall p :: BoundOf(p) in s.edges ==> s.edges[BoundOf(p)].src == p
  {
    SoundMeans(s);
    forall p | BoundOf(p) in s.edges
      ensures s.edges[BoundOf(p)].src == p
    {
      assert BoundOk(s, p);
    }
  }

  lemma FewerUnfreed(s0: State, s: State)
    requires OnlyReleases(s0, s)
    ensures |Unfreed(s)| <= |Unfreed(s0)|
  {
    OnlyReleasesRoom(s0, s);
  }

  lemma SameUnfreed(s: State, s': State)
    requires s'.points.Keys == s.points.Keys
    requires forall p :: p in s.points ==> s'.points[p].life == s.points[p].life
    ensures Unfreed(s') == Unfreed(s)
  {
  }

  lemma FreedShrinks(s: State, p: PointId, decSucc: bool)
    requires p in s.points && !s.points[p].life.Freed?
    ensures |Unfreed(Free(s, p, decSucc))| < |Unfreed(s)|
  {
    assert Unfreed(s) == Unfreed(Free(s, p, decSucc)) + {p};
  }

  /** Room does not depend on counts and lives. */
  lemma RoomStays(s: State, s': State)
    requires Roomy(s) && s'.edges == s.edges && s'.requests == s.requests && s'.guards == s.guards
    requires s'.points.Keys == s.points.Keys
    requires forall p :: p in s.points ==> s'.points[p].user == s.points[p].user
    ensures Roomy(s')
  {
    assert |s'.points.Keys| == |s.points.Keys|;
  }

  lemma ReleaseRoom(s: State, p: PointId)
    requires Roomy(s) && p in s.points
    ensures Roomy(Release(s, p))
  {
    RoomStays(s, Release(s, p));
  }
}
