/** What a task may call: the functions of the library that create intervals and add
    edges and locks, with their safety checks, each proved to be one transition. */
module SchedulerApi {
  import opened SchedulerState
  import opened SchedulerSteps
  import opened SchedulerInvariant
  import opened SchedulerWorkers
  import opened SchedulerRuntime
  import opened SchedulerSettling
  import opened SchedulerThread
  import W = PointWalk
  import A = PointWalkAnswers
  import T = SchedulerSafetyTheorems
  import opened SchedulerKeptStart

  /** The bound a new interval gets if the client names none: the bound of the current
      one, or its end if that is the end of the root. */
  function BoundFor(s: State, t: PointId, bound: Option<PointId>): PointId
    requires t in s.points
  {
    match bound
    case Some(b) => b
    case None => if s.points[t].bound.Some? then s.points[t].bound.value else t
  }

  /** is_unscheduled(). */
  method IsOnUnscheduledList(th: Thread, t: PointId, p: PointId) returns (found: bool)
    ensures found <==> IsUnscheduled(th.S(), t, p)
  {
    found := exists u :: u in th.points && th.points[u].owner == Some(t) && (u == p || th.points[u].bound == Some(p));
  }

  /** The checks are made in the state s, whose links are l, by the task that ends at t. */
  ghost predicate Checkable(s: State, l: W.Links, t: PointId) {
    Sound(s) && W.LinksOf(s, l) && t in s.points
  }

  lemma CheckAllows(s: State, l: W.Links, t: PointId, p: PointId)
    requires Checkable(s, l, t) && W.CheckCanAddDep(s, l, t, p) == W.Ok
    ensures CanAddDep(s, t, p)
  {
    SoundMeans(s);
    if W.Answer(l, t, p) {
      W.AnswerIsSound(s, l, t, p);
      W.HappensBeforeKnown(s, t, p);
    } else if p != t {
      var u :| u in s.points && s.points[u].owner == Some(t) && (u == p || s.points[u].bound == Some(p));
      assert BoundOk(s, u);
    }
  }

  /** check_can_add_dep(): a point may be added to if it is the current end, if it is on the
      unscheduled list or the bound of such a start, or if point_hb() says that it comes
      after the current end. */
  method CheckCanAddDep(th: Thread, l: W.Links, t: PointId, p: PointId) returns (err: W.Error)
    ensures err == W.CheckCanAddDep(th.S(), l, t, p) && (err == W.Ok || err == W.EdgeRequired)
    ensures err == W.Ok <==> p == t || IsUnscheduled(th.S(), t, p) || W.Answer(l, t, p)
    ensures A.LosesNothingNew(l.successors, t) ==> (err == W.Ok <==> p == t || IsUnscheduled(th.S(), t, p) || A.LeadsTo(l, t, p))
    ensures Checkable(th.S(), l, t) && err == W.Ok ==> CanAddDep(th.S(), t, p)
  {
    ghost var s := th.S();
    if Checkable(s, l, t) && W.CheckCanAddDep(s, l, t, p) == W.Ok {
      CheckAllows(s, l, t, p);
    }
    if A.LosesNothingNew(l.successors, t) {
      A.WhenTheAnswerIsExact(l, t, p);
    }
    if t != p {
      var unscheduled := IsOnUnscheduledList(th, t, p);
      if !unscheduled {
        var after := W.PointHb(l, t, p);
        if !after {
          return W.EdgeRequired;
        }
      }
    }
    return W.Ok;
  }

  /** check_can_add_hb(): a target that may be added to is refused if point_hb() says that it
      comes before the source. */
  method CheckCanAddHb(th: Thread, l: W.Links, t: PointId, before: PointId, after: PointId) returns (err: W.Error)
    ensures err == W.CheckCanAddHb(th.S(), l, t, before, after) && err != W.NoRoot
    ensures err == W.EdgeRequired <==> after != t && !IsUnscheduled(th.S(), t, after) && !W.Answer(l, t, after)
    ensures err != W.EdgeRequired ==> (err == W.Cycle <==> W.Answer(l, after, before))
    ensures A.LosesNothingNew(l.successors, t) ==>
      (err == W.EdgeRequired <==> after != t && !IsUnscheduled(th.S(), t, after) && !A.LeadsTo(l, t, after))
    ensures A.LosesNothingNew(l.successors, after) && err != W.EdgeRequired ==> (err == W.Cycle <==> A.LeadsTo(l, after, before))
    ensures Checkable(th.S(), l, t) && (err == W.Ok || err == W.Cycle) ==> CanAddDep(th.S(), t, after)
    ensures Checkable(th.S(), l, t) && err == W.Cycle ==> HappensBefore(th.S(), after, before)
  {
    ghost var s := th.S();
    if A.LosesNothingNew(l.successors, after) {
      A.WhenTheAnswerIsExact(l, after, before);
    }
    if Checkable(s, l, t) && W.CheckCanAddHb(s, l, t, before, after) == W.Cycle {
      SoundMeans(s);
      W.CycleIsReal(s, l, t, before, after);
    }
    err := CheckCanAddDep(th, l, t, after);
    if err != W.Ok {
      return;
    }
    var cycle := W.PointHb(l, after, before);
    if cycle {
      return W.Cycle;
    }
  }

  /** Memory for a new point. */
  method FreshPoint(points: map<PointId, Point>, other: PointId) returns (p: PointId)
    ensures p !in points && p != other
  {
    p := 0;
    ghost var rest := points.Keys + {other};
    while p in points || p == other
      invariant forall q :: q >= p && (q in points || q == other) ==> q in rest
      decreases |rest|
    {
      assert p in rest;
      rest := rest - {p};
      p := p + 1;
    }
  }

  /** The check interval() makes: the edge from the current start, if there is one, must
      not come after the bound. */
  ghost function CheckInterval(s: State, l: W.Links, t: PointId, bound: Option<PointId>): W.Error
    requires t in s.points && s.points[t].run.Body?
  {
    if s.points[t].run.cur.None? then W.CheckCanAddDep(s, l, t, BoundFor(s, t, bound))
    else W.CheckCanAddHb(s, l, t, s.points[t].run.cur.value, BoundFor(s, t, bound))
  }

  /** What comes after the end of a running block has not occurred, so that it does not come
      before the current start. */
  lemma NothingClosesACycle(s: State, l: W.Links, t: PointId, b: PointId)
    requires Checkable(s, l, t) && s.points[t].run.Body? && s.points[t].run.cur.Some?
    requires b == t || s.points[t].bound == Some(b)
    ensures !W.Answer(l, b, s.points[t].run.cur.value)
  {
    SoundMeans(s);
    var cur := s.points[t].run.cur.value;
    assert TaskOk(s, t) && TaskOk(s, cur) && BoundOk(s, t);
    assert b == t || BoundOf(t) in s.edges;
    if W.Answer(l, b, cur) {
      W.AnswerIsSound(s, l, b, cur);
      var es: seq<EdgeId> :| es != [] && IsPath(s, es, b, cur);
      T.PathOrder(s, es, b, cur);
      assert false;
    }
  }

  /** The default bound is never refused. */
  lemma DefaultIsAllowed(s: State, l: W.Links, t: PointId)
    requires Checkable(s, l, t) && s.points[t].run.Body?
    ensures CheckInterval(s, l, t, None) == W.Ok
  {
    var b := BoundFor(s, t, None);
    if s.points[t].run.cur.Some? {
      NothingClosesACycle(s, l, t, b);
    }
  }

  /** interval(). */
  method Interval(th: Thread, current: Option<PointId>, bound: Option<PointId>, l: W.Links)
    returns (r: Option<(PointId, PointId)>)
    requires current.Some? ==> Sound(th.S()) && InBody(th.S(), current.value) && W.LinksOf(th.S(), l)
    modifies th
    ensures r.None? ==> th.S() == old(th.S())
    ensures r.None? <==> current.None? || CheckInterval(old(th.S()), l, current.value, bound) != W.Ok
    ensures current.Some? && bound.None? ==> r.Some?
    ensures current.Some? && bound.Some? ==>
      var t, b, cur := current.value, bound.value, old(th.points)[current.value].run.cur;
      (r.None? <==> (b != t && !IsUnscheduled(old(th.S()), t, b) && !W.Answer(l, t, b)) ||
                    (cur.Some? && W.Answer(l, b, cur.value))) &&
      (A.LosesNothingNew(l.successors, t) && A.LosesNothingNew(l.successors, b) ==>
         (r.None? <==> (b != t && !IsUnscheduled(old(th.S()), t, b) && !A.LeadsTo(l, t, b)) ||
                       (cur.Some? && A.LeadsTo(l, b, cur.value))))
    ensures r.Some? ==> exists e: EdgeId ::
      Step(old(th.S()),
           NewInterval(current.value, BoundFor(old(th.S()), current.value, bound), r.value.0, r.value.1, e),
           th.S())
    ensures r.Some? ==>
      && Fresh(old(th.S()), th.S(), r.value.0, r.value.1) && th.points[r.value.0].owner == current
      && Joins(old(th.S()), th.S(), current.value, {r.value.0, r.value.1})
      && th.points[r.value.1].task == Empty
      && Placed(th.S(), old(th.points)[current.value].run.cur, r.value.0, r.value.1)
    ensures r.Some? && bound.Some? ==> EndOn(old(th.S()), th.S(), bound.value, r.value.1)
    ensures r.Some? && bound.None? && old(th.points)[current.value].bound.None? ==>
      EndOn(old(th.S()), th.S(), current.value, r.value.1)
    ensures r.Some? && bound.None? && old(th.points)[current.value].bound.Some? ==>
      && EndOn(old(th.S()), th.S(), old(th.points)[current.value].bound.value, r.value.1)
      && th.points[r.value.1].depth == old(th.points)[current.value].depth
      && current.value in th.points && th.points[current.value].wc == old(th.points)[current.value].wc
  {
    if current.None? {
      return None;
    }
    var t := current.value;
    ghost var s := th.S();
    var b := if bound.Some? then bound.value else if th.points[t].bound.Some? then th.points[t].bound.value else t;
    var currentStart := th.points[t].run.cur;
    DefaultIsAllowed(s, l, t);
    var err;
    if currentStart.None? {
      err := CheckCanAddDep(th, l, t, b);
    } else {
      err := CheckCanAddHb(th, l, t, currentStart.value, b);
    }
    if err != W.Ok {
      return None;
    }
    CheckAllows(s, l, t, b);
    var start, end := PermittedInterval(th, t, b);
    return Some((start, end));
  }

  /** The rest of interval(), once the bound was found to be permitted. */
  method PermittedInterval(th: Thread, t: PointId, b: PointId) returns (start: PointId, end: PointId)
    requires Sound(th.S()) && InBody(th.S(), t) && CanAddDep(th.S(), t, b)
    modifies th
    ensures exists e: EdgeId :: Step(old(th.S()), NewInterval(t, b, start, end, e), th.S())
    ensures Fresh(old(th.S()), th.S(), start, end) && th.points[start].owner == Some(t) && th.points[end].task == Empty
    ensures Joins(old(th.S()), th.S(), t, {start, end})
    ensures EndOn(old(th.S()), th.S(), b, end) && Placed(th.S(), old(th.points)[t].run.cur, start, end)
    ensures old(th.points)[t].bound == Some(b) ==>
      th.points[end].depth == old(th.points)[t].depth && t in th.points && th.points[t].wc == old(th.points)[t].wc
  {
    ghost var s := th.S();
    end := FreshPoint(th.points, 0);
    start := FreshPoint(th.points, end);
    var e := th.FreshEdge();
    assert Enabled(s, NewInterval(t, b, start, end, e));
    CreateInterval(th, t, b, start, end, e);
    IntervalComes(s, t, b, start, end, e, th.S());
    IntervalJoins(s, t, b, start, end, e, th.S());
  }

  /** The points of ps are those that have become unscheduled for t. */
  ghost predicate Joins(s: State, s': State, t: PointId, ps: set<PointId>) {
    forall q :: IsUnscheduled(s', t, q) <==> IsUnscheduled(s, t, q) || q in ps
  }

  lemma IntervalJoins(s: State, t: PointId, b: PointId, start: PointId, end: PointId, e: EdgeId, s': State)
    requires Step(s, NewInterval(t, b, start, end, e), s')
    ensures Joins(s, s', t, {start, end})
  {
    forall q
      ensures IsUnscheduled(s', t, q) <==> IsUnscheduled(s, t, q) || q == start || q == end
    {
      JoinsOne(s, t, b, start, end, e, s', q);
    }
  }

  lemma JoinsOne(s: State, t: PointId, b: PointId, start: PointId, end: PointId, e: EdgeId, s': State, q: PointId)
    requires Step(s, NewInterval(t, b, start, end, e), s')
    ensures IsUnscheduled(s', t, q) <==> IsUnscheduled(s, t, q) || q == start || q == end
  {
    assert s'.points[start].owner == Some(t) && s'.points[start].bound == Some(end) && s'.points[end].owner == None;
    if u :| u in s.points && s.points[u].owner == Some(t) && (u == q || s.points[u].bound == Some(q)) {
      assert u in s'.points && s'.points[u].owner == Some(t) && s'.points[u].bound == s.points[u].bound;
    }
    if u :| u in s'.points && s'.points[u].owner == Some(t) && (u == q || s'.points[u].bound == Some(q)) {
      assert u == start || (u in s.points && s.points[u].owner == Some(t) && s.points[u].bound == s'.points[u].bound);
    }
  }

  /** The start and the end were created; the start has a block and is bounded by the end. */
  ghost predicate Fresh(s: State, s': State, start: PointId, end: PointId) {
    && start !in s.points && end !in s.points && start in s'.points && end in s'.points
    && s'.points[start].bound == Some(end) && s'.points[start].task == Block
  }

  lemma IntervalComes(s: State, t: PointId, b: PointId, start: PointId, end: PointId, e: EdgeId, s': State)
    requires Sound(s) && Step(s, NewInterval(t, b, start, end, e), s')
    ensures EndOn(s, s', b, end) && Placed(s', s.points[t].run.cur, start, end)
    ensures Fresh(s, s', start, end) && s'.points[start].owner == Some(t) && s'.points[end].task == Empty
    ensures s.points[t].bound == Some(b) ==>
      s'.points[end].depth == s.points[t].depth && t in s'.points && s'.points[t].wc == s.points[t].wc
  {
    SoundMeans(s);
    assert BoundOk(s, t);
    IntervalIsMade(s, t, b, start, end, e, s');
  }

  /** The points of the new interval: a wait on the bound, the end waiting for its start
      and its task, the start on the unscheduled list. */
  method CreateInterval(th: Thread, t: PointId, bound: PointId, start: PointId, end: PointId, e: EdgeId)
    requires t in th.points && th.points[t].run.Body? && bound in th.points
    requires start !in th.points && end !in th.points && start != end
    modifies th
    ensures th.S() == DoNewInterval(old(th.S()), t, bound, start, end, e)
  {
    ghost var s := th.S();
    var currentStart := th.points[t].run.cur;
    var startRefs := 1;
    if currentStart.Some? {
      startRefs := startRefs + 1;
    }
    th.points := th.points[bound := th.points[bound].(wc := th.points[bound].wc + 1)];
    th.points := th.points[end :=
      Point(Some(bound), th.points[bound].depth + 1, Empty, 2, 1, Waiting, 0, None, NotRun, Some(start))];
    th.edges := th.edges[BoundOf(end) := Edge(end, bound, false)];
    th.points := th.points[start :=
      Point(Some(end), th.points[end].depth + 1, Block, 1, startRefs, Waiting, 0, Some(t), Closed, None)];
    th.edges := th.edges[BoundOf(start) := Edge(start, end, false)];
    if currentStart.Some? {
      th.edges := th.edges[e := Edge(currentStart.value, start, false)];
    }
  }

  /** subinterval(), up to the point where its block runs: the caller is blocked from then
      on, and the block runs on the same thread with a start that has already occurred. */
  method Subinterval(th: Thread, current: Option<PointId>) returns (err: W.Error, start: PointId, end: PointId)
    requires current.Some? ==> InBody(th.S(), current.value)
    modifies th
    ensures err == if current.None? then W.NoRoot else W.Ok
    ensures current.None? ==> th.S() == old(th.S())
    ensures current.Some? ==> exists e: EdgeId :: Step(old(th.S()), SchedulerSteps.Subinterval(current.value, start, end, e), th.S())
    ensures current.Some? && Sound(old(th.S())) ==>
      && Fresh(old(th.S()), th.S(), start, end) && EndOn(old(th.S()), th.S(), current.value, end)
      && Placed(th.S(), old(th.points)[current.value].run.cur, start, end)
      && th.points[start].life.Occurred? && th.points[end].task == Latch && th.points[end].run == Body(Some(start), None)
      && th.points[current.value].run == Body(old(th.points)[current.value].run.cur, Some(end))
  {
    if current.None? {
      return W.NoRoot, 0, 0;
    }
    var t := current.value;
    ghost var s := th.S();
    end := FreshPoint(th.points, 0);
    start := FreshPoint(th.points, end);
    var e := th.FreshEdge();
    assert Enabled(s, SchedulerSteps.Subinterval(t, start, end, e));
    CreateSubinterval(th, t, start, end, e);
    if Sound(s) {
      SoundMeans(s);
      SubintervalIsMade(s, t, start, end, e, th.S());
    }
    err := W.Ok;
  }

  method CreateSubinterval(th: Thread, t: PointId, start: PointId, end: PointId, e: EdgeId)
    requires InBody(th.S(), t)
    requires start !in th.points && end !in th.points && start != end
    modifies th
    ensures th.S() == DoSubinterval(old(th.S()), t, start, end, e)
  {
    var infoStart := th.points[t].run.cur;
    th.points := th.points[t := th.points[t].(wc := th.points[t].wc + 1, run := Body(infoStart, Some(end)))];
    th.points := th.points[end :=
      Point(Some(t), th.points[t].depth + 1, Latch, 1, 2, Waiting, 0, None, Body(Some(start), None), Some(start))];
    th.edges := th.edges[BoundOf(end) := Edge(end, t, false)];
    // Only the task holds the start; the edge from the current start, which has occurred, retains it.
    var startRefs := if infoStart.Some? then 2 else 1;
    th.points := th.points[start :=
      Point(Some(end), th.points[end].depth + 1, Block, WC_STARTED, startRefs, Occurred(th.clock, false, Running), 0, None, Closed, None)];
    th.edges := th.edges[BoundOf(start) := Edge(start, end, false)];
    th.clock := th.clock + 1;
    if infoStart.Some? {
      th.edges := th.edges[e := Edge(infoStart.value, start, false)];
    }
  }

  /** interval_add_hb(). */
  method IntervalAddHb(th: Thread, current: Option<PointId>, before: Option<PointId>, after: Option<PointId>, l: W.Links)
    returns (err: W.Error)
    requires before.Some? ==> Usable(th.S(), before.value)
    requires current.Some? ==> Sound(th.S()) && InBody(th.S(), current.value) && W.LinksOf(th.S(), l)
    modifies th
    ensures err ==
      if before.None? || after.None? then W.Ok
      else if current.None? then W.NoRoot
      else if after != current && !IsUnscheduled(old(th.S()), current.value, after.value) &&
              !W.Answer(l, current.value, after.value) then W.EdgeRequired
      else if W.Answer(l, after.value, before.value) then W.Cycle
      else W.Ok
    ensures before.Some? && after.Some? && current.Some? &&
            A.LosesNothingNew(l.successors, current.value) && A.LosesNothingNew(l.successors, after.value) ==>
      err ==
        if after != current && !IsUnscheduled(old(th.S()), current.value, after.value) &&
           !A.LeadsTo(l, current.value, after.value) then W.EdgeRequired
        else if A.LeadsTo(l, after.value, before.value) then W.Cycle
        else W.Ok
    ensures
      if err == W.Ok && before.Some? && after.Some? then
        HappensBefore(th.S(), before.value, after.value) &&
        exists e: EdgeId ::
          Step(old(th.S()), AddHb(current.value, before.value, after.value, e), th.S()) &&
          e !in old(th.edges) && th.edges == old(th.edges)[e := Edge(before.value, after.value, false)]
      else th.S() == old(th.S())
  {
    if before.None? || after.None? {
      return W.Ok;
    }
    if current.None? {
      return W.NoRoot;
    }
    err := CheckCanAddHb(th, l, current.value, before.value, after.value);
    if err == W.Ok {
      ghost var s := th.S();
      CheckAllows(s, l, current.value, after.value);
      var e := th.FreshEdge();
      assert Enabled(s, AddHb(current.value, before.value, after.value, e));
      th.AddHbUnchecked(before.value, after.value, false, e);
      EdgeIsMade(s, current.value, before.value, after.value, e, th.S());
    }
  }

  /** interval_add_lock(). */
  method IntervalAddLock(th: Thread, current: Option<PointId>, start: PointId, g: GuardId, l: W.Links) returns (err: W.Error)
    requires start in th.points && g in th.guards && th.guards[g].live
    requires current.Some? ==> Sound(th.S()) && InBody(th.S(), current.value) && W.LinksOf(th.S(), l)
    modifies th
    ensures err ==
      if current.None? then W.NoRoot
      else if start == current.value || IsUnscheduled(old(th.S()), current.value, start) || W.Answer(l, current.value, start) then W.Ok
      else W.EdgeRequired
    ensures current.Some? && A.LosesNothingNew(l.successors, current.value) ==>
      (err == W.Ok <==> start == current.value || IsUnscheduled(old(th.S()), current.value, start) || A.LeadsTo(l, current.value, start))
    ensures
      if err == W.Ok then
        exists r: RequestId ::
          Step(old(th.S()), AddLock(current.value, start, g, r), th.S()) &&
          r !in old(th.requests) && th.requests == old(th.requests)[r := Request(start, g)]
      else th.S() == old(th.S())
    ensures g in th.guards && th.guards[g].rc == old(th.guards)[g].rc + (if err == W.Ok then 1 else 0)
  {
    if current.None? {
      return W.NoRoot;
    }
    err := CheckCanAddDep(th, l, current.value, start);
    if err == W.Ok {
      CheckAllows(th.S(), l, current.value, start);
      PushGuard(th, current.value, start, g);
    }
  }

  /** The guard is retained and put on the pending list of the point. */
  method PushGuard(th: Thread, ghost t: PointId, start: PointId, g: GuardId)
    requires InBody(th.S(), t) && CanAddDep(th.S(), t, start) && g in th.guards && th.guards[g].live
    modifies th
    ensures g in th.guards && th.guards[g].rc == old(th.guards)[g].rc + 1
    ensures exists r: RequestId ::
      Step(old(th.S()), AddLock(t, start, g, r), th.S()) &&
      r !in old(th.requests) && th.requests == old(th.requests)[r := Request(start, g)]
  {
    ghost var s := th.S();
    var r := FreshRequest(th.requests);
    assert Enabled(s, AddLock(t, start, g, r));
    th.guards := th.guards[g := th.guards[g].(rc := th.guards[g].rc + 1)];
    th.requests := th.requests[r := Request(start, g)];
    assert Step(s, AddLock(t, start, g, r), th.S());
  }

  /** Memory for an entry of a pending list. */
  method FreshRequest(requests: map<RequestId, Request>) returns (r: RequestId)
    ensures r !in requests
  {
    r := 0;
    ghost var rest := requests.Keys;
    while r in requests
      invariant forall q :: q >= r && q in requests ==> q in rest
      decreases |rest|
    {
      assert r in rest;
      rest := rest - {r};
      r := r + 1;
    }
  }

  // ----- Running a block ------------------------------------------------------------------------

  /** A block is begun with nothing on the unscheduled list. */
  ghost predicate Begun(s: State, end: PointId, cur: Option<PointId>) {
    end in s.points && s.points[end].run == Body(cur, None) && forall q :: !IsUnscheduled(s, end, q)
  }

  /** Whether the start is dead can be told by its reference count. */
  lemma BeforeBlock(s: State, start: PointId)
    requires Sound(s) && Enabled(s, StartTask(start))
    ensures s.points[start].rc == RC_DEAD_PRE <==> IsDead(s.points[start].life)
    ensures s.points[start].bound != Some(start)
    ensures forall u :: u in s.points ==> s.points[u].owner != s.points[start].bound
  {
    SoundMeans(s);
    assert BoundOk(s, start) && RefsOk(s, start, Debt(None, start)) && TaskOk(s, start);
    forall u | u in s.points
      ensures s.points[u].owner != s.points[start].bound
    {
      assert TaskOk(s, u);
    }
  }

  lemma BlockBegins(s: State, start: PointId, s': State)
    requires Sound(s) && Step(s, StartTask(start), s')
    ensures Begun(s', s.points[start].bound.value, if IsDead(s.points[start].life) then None else Some(start))
  {
    BeforeBlock(s, start);
    var end := s.points[start].bound.value;
    forall u | u in s'.points
      ensures s'.points[u].owner != Some(end)
    {
      assert s'.points[u].owner == s.points[u].owner;
    }
  }

  /** interval_execute(), up to the call of the block: a start that only the task holds is
      not kept as the current start. */
  method BeginTask(th: Thread, start: PointId)
    requires Sound(th.S()) && Enabled(th.S(), StartTask(start))
    modifies th
    ensures Step(old(th.S()), StartTask(start), th.S())
    ensures Begun(th.S(), old(th.points)[start].bound.value, if IsDead(old(th.points)[start].life) then None else Some(start))
  {
    ghost var s := th.S();
    BeforeBlock(s, start);
    var end := th.points[start].bound.value;
    var cur := if th.points[start].rc == RC_DEAD_PRE then None else Some(start);
    th.points := th.points[end := th.points[end].(run := Body(cur, None))];
    th.points := th.points[start := th.points[start].(life := th.points[start].life.(stage := Running))];
    BlockBegins(s, start, th.S());
  }

  /** The block has returned, and the start is about to be released. */
  function BlockReturned(s: State, t: PointId, start: PointId): State
    requires t in s.points && start in s.points && s.points[start].life.Occurred?
  {
    WithLife(WithPoint(s, t, s.points[t].(run := Flushing)), start, s.points[start].life.(stage := Done))
  }

  lemma ReturnIs(s: State, t: PointId, start: PointId)
    requires Sound(s) && InBody(s, t) && s.points[t].start == Some(start)
    requires start in s.points && s.points[start].life.Occurred?
    ensures start != t && Step(s, FinishBody(t), Release(BlockReturned(s, t, start), start))
  {
    SoundMeans(s);
    RunningStart(s, t);
  }

  lemma ReturnComes(s: State, t: PointId, start: PointId)
    requires Sound(s) && InBody(s, t) && s.points[t].start == Some(start)
    requires start in s.points && s.points[start].life.Occurred?
    ensures CanRelease(BlockReturned(s, t, start), start)
  {
    var s1 := BlockReturned(s, t, start);
    ReturnIs(s, t, start);
    RoomyNow(s);
    RoomStays(s, s1);
    ReleaseRoom(s1, start);
    StepKeepsSound(s, FinishBody(t), Release(s1, start));
    SoundSources(s, start);
  }

  lemma ReturnDone(s: State, t: PointId, start: PointId, s': State)
    requires Sound(s) && InBody(s, t) && s.points[t].start == Some(start)
    requires start in s.points && s.points[start].life.Occurred?
    requires Releasing(Release(BlockReturned(s, t, start), start), s')
    ensures Sound(s') && Leads(s, s') && t in s'.points && s'.points[t].run.Flushing?
  {
    var s1 := BlockReturned(s, t, start);
    ReturnIs(s, t, start);
    SoundInRange(s);
    LeadsByStep(s, FinishBody(t), Release(s1, start), s');
    assert Release(s1, start).points[t].run == s1.points[t].run;
  }

  /** task_execute(), once the block has returned: the task's reference on its start is
      released. What interval_execute() does then is IntervalEnd. */
  method TaskReturns(th: Thread, t: PointId, start: PointId)
    requires Sound(th.S()) && InBody(th.S(), t) && th.points[t].start == Some(start)
    requires start in th.points && th.points[start].life.Occurred?
    modifies th
    ensures Sound(th.S()) && Leads(old(th.S()), th.S())
    ensures t in th.points && th.points[t].run.Flushing? && th.releasing == old(th.releasing)
  {
    ghost var s := th.S();
    ReturnIs(s, t, start);
    ReturnComes(s, t, start);
    th.points := th.points[t := th.points[t].(run := Flushing)];
    th.points := th.points[start := th.points[start].(life := th.points[start].life.(stage := Done))];
    th.PointRelease(start);
    ReturnDone(s, t, start, th.S());
  }
}
