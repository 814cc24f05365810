/** The transitions of the scheduler. Each is one atomic action of a thread: one
    atomic operation on a shared counter, or one critical section of a point's lock. */
module SchedulerSteps {
  import opened SchedulerState

  // ----- Building blocks -------------------------------------------------------------

  function WithPoint(s: State, p: PointId, pt: Point): State {
    s.(points := s.points[p := pt])
  }

  function WithLife(s: State, p: PointId, life: Life): State
    requires p in s.points
  {
    WithPoint(s, p, s.points[p].(life := life))
  }

  /** occur(): the point is marked started, a snapshot of its edges and its bound is to
      be notified, and if the scheduler has the only reference the point goes dead. */
  function Occur(s: State, q: PointId, refCount: nat): State
    requires q in s.points
  {
    var dead := refCount == 1;
    var pt := s.points[q].(
      wc := WC_STARTED,
      rc := if dead then RC_DEAD_PRE else s.points[q].rc,
      life := Occurred(s.clock, dead, Notifying));
    WithPoint(s, q, pt).(inflight := s.inflight + OutEdges(s, q), clock := s.clock + 1)
  }

  /** arrive(): adjusts the reference count, then the wait count; at zero the point
      either starts to take its pending guards or occurs. */
  function Arrive(s: State, q: PointId, addRefs: nat): State
    requires q in s.points
  {
    var refCount := s.points[q].rc + addRefs;
    var waitCount := AtomicSub(s.points[q].wc);
    var s1 := WithPoint(s, q, s.points[q].(rc := refCount, wc := waitCount));
    if waitCount != 0 then s1
    else if HasRequest(s, q) then
      WithPoint(s, q, s.points[q].(rc := refCount, wc := 1, life := Acquiring(Popping)))
    else Occur(s1, q, refCount)
  }

  /** point_free(): the references on the successors are still to be released if the
      point ever took them. */
  function Free(s: State, p: PointId, decSucc: bool): State
    requires p in s.points
  {
    WithLife(s, p, Freed(TimeOf(s.points[p].life), !decSucc)).(
      releasing := if decSucc then s.releasing + OutEdges(s, p) else s.releasing)
  }

  /** point_release(). */
  function Release(s: State, p: PointId): State
    requires p in s.points
  {
    var rc := AtomicSub(s.points[p].rc);
    var s1 := WithPoint(s, p, s.points[p].(rc := rc));
    if rc == RC_DEAD_POST then Free(s1, p, false)
    else if rc == 0 then Free(s1, p, true)
    else s1
  }

  /** interval_add_hb_unchecked(): the new edge owns a wait on its target, or, if the
      source has occurred already, a reference. */
  function AddEdge(s: State, before: PointId, after: PointId, synthetic: bool, e: EdgeId): State
    requires before in s.points && after in s.points
  {
    var pt := s.points[after];
    var pt' := if s.points[before].wc != WC_STARTED then pt.(wc := pt.wc + 1) else pt.(rc := pt.rc + 1);
    WithPoint(s, after, pt').(edges := s.edges[e := Edge(before, after, synthetic)])
  }

  function NewPoint(s: State, bound: Option<PointId>, task: Task, wc: nat, rc: nat): Point {
    var depth := if bound.Some? && bound.value in s.points then s.points[bound.value].depth + 1 else 0;
    Point(bound, depth, task, wc, rc, Waiting, 0, None, Closed, None)
  }

  // ----- What the client may ask for ---------------------------------------------------

  /** The task that ends at t is executing its block and is not blocked. */
  predicate InBody(s: State, t: PointId) {
    t in s.points && s.points[t].run.Body? && s.points[t].run.sub.None?
  }

  /** q is on the unscheduled list of t, or is the end of such an interval. */
  predicate IsUnscheduled(s: State, t: PointId, q: PointId) {
    exists u :: u in s.points && s.points[u].owner == Some(t) && (u == q || s.points[u].bound == Some(q))
  }

  /** What check_can_add_dep() is there to establish for the task that ends at t. */
  ghost predicate CanAddDep(s: State, t: PointId, q: PointId) {
    q in s.points && (q == t || IsUnscheduled(s, t, q) || HappensBefore(s, t, q))
  }

  /** task_dispatch() has signalled the latch of p. The thread that does so has notified
      all successors, but it has yet to release its reference on p. */
  predicate LatchSignalled(s: State, p: PointId) {
    p in s.points &&
    (s.points[p].life.Freed? ||
     (s.points[p].life.Occurred? &&
      (s.points[p].life.stage == Done || (s.points[p].life.stage == Notifying && s.inflight !! OutEdges(s, p)))))
  }

  // ----- Actions -----------------------------------------------------------------------

  datatype Action =
    | Retain(p: PointId)
    | UserRelease(p: PointId)
    | CreateGuard(g: GuardId)
    | RetainGuard(g: GuardId)
    | UserReleaseGuard(g: GuardId)
    | NewInterval(t: PointId, bound: PointId, start: PointId, end: PointId, e: EdgeId)
    | Subinterval(t: PointId, start: PointId, end: PointId, e: EdgeId)
    | SubintervalReturn(t: PointId)
    | AddHb(t: PointId, before: PointId, after: PointId, e: EdgeId)
    | AddLock(t: PointId, p: PointId, g: GuardId, r: RequestId)
    | Schedule(t: PointId, p: PointId)
    | StartTask(p: PointId)
    | FinishBody(t: PointId)
    | EndTask(t: PointId)
    | Deliver(e: EdgeId)
    | Dispatch(p: PointId)
    | SwapLock(p: PointId, r: RequestId)
    | LinkLock(p: PointId, e: EdgeId)
    | ReleaseFormer(p: PointId)
    | ReleaseTaken(p: PointId)
    | LocksTaken(p: PointId)
    | ReleaseEdge(e: EdgeId)
    | ReleaseGuardLast(g: GuardId)

  /** guard_release(), up to the release of last_lock. */
  function DropGuard(s: State, g: GuardId): State
    requires g in s.guards
  {
    var gd := s.guards[g];
    var rc := AtomicSub(gd.rc);
    s.(guards := s.guards[g := gd.(rc := rc, live := rc != 0)])
  }

  ghost predicate Enabled(s: State, a: Action) {
    match a
    case Retain(p) => Usable(s, p)
    case UserRelease(p) => p in s.points && s.points[p].user > 0
    case CreateGuard(g) => g !in s.guards
    case RetainGuard(g) => g in s.guards && s.guards[g].live
    case UserReleaseGuard(g) => g in s.guards && s.guards[g].user > 0
    case NewInterval(t, bound, start, end, e) =>
      InBody(s, t) && CanAddDep(s, t, bound) && start !in s.points && end !in s.points && start != end &&
      e.Out? && e !in s.edges
    case Subinterval(t, start, end, e) =>
      InBody(s, t) && start !in s.points && end !in s.points && start != end && e.Out? && e !in s.edges
    case SubintervalReturn(t) =>
      t in s.points && s.points[t].run.Body? && s.points[t].run.sub.Some? &&
      LatchSignalled(s, s.points[t].run.sub.value)
    case AddHb(t, before, after, e) =>
      InBody(s, t) && Usable(s, before) && CanAddDep(s, t, after) && e.Out? && e !in s.edges
    case AddLock(t, p, g, r) =>
      InBody(s, t) && CanAddDep(s, t, p) && g in s.guards && s.guards[g].live && r !in s.requests
    case Schedule(t, p) =>
      p in s.points && s.points[p].owner == Some(t) && t in s.points &&
      (InBody(s, t) || s.points[t].run.Flushing?)
    case StartTask(p) =>
      p in s.points && s.points[p].life.Occurred? && s.points[p].life.stage == Queued &&
      s.points[p].bound.Some? && s.points[p].bound.value in s.points
    case FinishBody(t) =>
      InBody(s, t) && (s.points[t].start.Some? ==>
        s.points[t].start.value in s.points && s.points[s.points[t].start.value].life.Occurred?)
    case EndTask(t) =>
      t in s.points && s.points[t].run.Flushing? && (forall p :: p in s.points ==> s.points[p].owner != Some(t))
    case Deliver(e) => e in s.inflight && ConnectedIn(s, e)
    case Dispatch(p) =>
      p in s.points && s.points[p].life.Occurred? && s.points[p].life.stage == Notifying &&
      s.inflight !! OutEdges(s, p)
    case SwapLock(p, r) =>
      p in s.points && s.points[p].life == Acquiring(Popping) && r in s.requests && s.requests[r].point == p &&
      s.requests[r].guard in s.guards &&
      (s.points[p].bound.Some? ==> s.points[p].bound.value in s.points)
    case LinkLock(p, e) =>
      p in s.points && s.points[p].life.Acquiring? && s.points[p].life.taking.Swapped? &&
      s.points[p].life.taking.former in s.points && e.Out? && e !in s.edges
    case ReleaseFormer(p) =>
      p in s.points && s.points[p].life.Acquiring? && s.points[p].life.taking.Linked? &&
      s.points[p].life.taking.former in s.points
    case ReleaseTaken(p) =>
      p in s.points && s.points[p].life.Acquiring? && s.points[p].life.taking.Letting? &&
      s.points[p].life.taking.guard in s.guards
    case LocksTaken(p) =>
      p in s.points && s.points[p].life == Acquiring(Popping)
    case ReleaseEdge(e) => e in s.releasing && ConnectedIn(s, e)
    case ReleaseGuardLast(g) =>
      g in s.guards && !s.guards[g].live && s.guards[g].last.Some? && s.guards[g].last.value in s.points
  }

  /** interval(): a wait on the bound, a new end waiting for its start and its task, and
      a new start on the unscheduled list, with an edge from the current start if the
      task has one. */
  function DoNewInterval(s: State, t: PointId, bound: PointId, start: PointId, end: PointId, e: EdgeId): State
    requires t in s.points && s.points[t].run.Body? && bound in s.points
    requires start !in s.points && end !in s.points && start != end
  {
    var cur := s.points[t].run.cur;
    var s1 := WithPoint(s, bound, s.points[bound].(wc := s.points[bound].wc + 1));
    var endPt := NewPoint(s, Some(bound), Empty, 2, 1).(run := NotRun, start := Some(start));
    var s2 := WithPoint(s1, end, endPt).(edges := s1.edges[BoundOf(end) := Edge(end, bound, false)]);
    var startPt := NewPoint(s2, Some(end), Block, 1, if cur.Some? then 2 else 1).(owner := Some(t));
    var s3 := WithPoint(s2, start, startPt).(edges := s2.edges[BoundOf(start) := Edge(start, end, false)]);
    if cur.Some? then s3.(edges := s3.edges[e := Edge(cur.value, start, false)]) else s3
  }

  /** subinterval(): the end is bounded by the current end, the start has occurred from
      the outset and its block runs at once on the same thread. */
  function DoSubinterval(s: State, t: PointId, start: PointId, end: PointId, e: EdgeId): State
    requires t in s.points && s.points[t].run.Body?
    requires start !in s.points && end !in s.points && start != end
  {
    var cur := s.points[t].run.cur;
    var parent := s.points[t].(wc := s.points[t].wc + 1, run := Body(cur, Some(end)));
    var s1 := WithPoint(s, t, parent);
    var endPt := NewPoint(s, Some(t), Latch, 1, 2).(run := Body(Some(start), None), start := Some(start));
    var s2 := WithPoint(s1, end, endPt).(edges := s1.edges[BoundOf(end) := Edge(end, t, false)]);
    var startPt := NewPoint(s2, Some(end), Block, WC_STARTED, if cur.Some? then 2 else 1)
                   .(life := Occurred(s.clock, false, Running));
    var s3 := WithPoint(s2, start, startPt)
              .(edges := s2.edges[BoundOf(start) := Edge(start, end, false)], clock := s.clock + 1);
    if cur.Some? then s3.(edges := s3.edges[e := Edge(cur.value, start, false)]) else s3
  }

  /** point_retain(), which ignores a null pointer. */
  function Retained(s: State, end: Option<PointId>): State
    requires end.Some? ==> end.value in s.points
  {
    if end.None? then s else WithPoint(s, end.value, s.points[end.value].(rc := s.points[end.value].rc + 1))
  }

  /** lock_pending_guards(), the exchange: the guard's last_lock becomes the end of the
      interval, which is retained. The end of the root has no bound, and then last_lock
      becomes a null pointer. */
  function DoSwapLock(s: State, p: PointId, r: RequestId): State
    requires Enabled(s, SwapLock(p, r))
  {
    var end := s.points[p].bound;
    var g := s.requests[r].guard;
    var gd := s.guards[g];
    var taking := if gd.last.Some? then Swapped(g, gd.last.value) else Letting(g);
    WithLife(Retained(s, end), p, Acquiring(taking)).(
      requests := s.requests - {r},
      guards := s.guards[g := gd.(last := end, holders := gd.holders + [p])])
  }

  ghost function Do(s: State, a: Action): State
    requires Enabled(s, a)
  {
    match a
    case Retain(p) => WithPoint(s, p, s.points[p].(rc := s.points[p].rc + 1, user := s.points[p].user + 1))
    case UserRelease(p) => Release(WithPoint(s, p, s.points[p].(user := s.points[p].user - 1)), p)
    case CreateGuard(g) => s.(guards := s.guards[g := Guard(1, None, 1, true, [])])
    case RetainGuard(g) =>
      s.(guards := s.guards[g := s.guards[g].(rc := s.guards[g].rc + 1, user := s.guards[g].user + 1)])
    case UserReleaseGuard(g) =>
      DropGuard(s.(guards := s.guards[g := s.guards[g].(user := s.guards[g].user - 1)]), g)
    case NewInterval(t, bound, start, end, e) => DoNewInterval(s, t, bound, start, end, e)
    case Subinterval(t, start, end, e) => DoSubinterval(s, t, start, end, e)
    case SubintervalReturn(t) =>
      WithPoint(s, t, s.points[t].(run := Body(s.points[t].run.cur, None)))
    case AddHb(t, before, after, e) => AddEdge(s, before, after, false, e)
    case AddLock(t, p, g, r) =>
      s.(requests := s.requests[r := Request(p, g)],
         guards := s.guards[g := s.guards[g].(rc := s.guards[g].rc + 1)])
    case Schedule(t, p) => Arrive(WithPoint(s, p, s.points[p].(owner := None)), p, 0)
    case StartTask(p) =>
      var end := s.points[p].bound.value;
      var cur := if s.points[p].rc == RC_DEAD_PRE then None else Some(p);
      var s1 := WithPoint(s, end, s.points[end].(run := Body(cur, None)));
      WithLife(s1, p, s.points[p].life.(stage := Running))
    case FinishBody(t) =>
      var s1 := WithPoint(s, t, s.points[t].(run := Flushing));
      if s.points[t].start.None? then s1
      else
        var start := s.points[t].start.value;
        Release(WithLife(s1, start, s.points[start].life.(stage := Done)), start)
    case EndTask(t) => Arrive(WithPoint(s, t, s.points[t].(run := Closed)), t, 0)
    case Deliver(e) =>
      Arrive(s.(inflight := s.inflight - {e}), s.edges[e].dst, Bit(!IsDead(s.points[s.edges[e].src].life)))
    case Dispatch(p) =>
      if s.points[p].task == Block then WithLife(s, p, s.points[p].life.(stage := Queued))
      else Release(WithLife(s, p, s.points[p].life.(stage := Done)), p)
    case SwapLock(p, r) => DoSwapLock(s, p, r)
    case LinkLock(p, e) =>
      var taking := s.points[p].life.taking;
      AddEdge(WithLife(s, p, Acquiring(Linked(taking.guard, taking.former))), taking.former, p, true, e)
    case ReleaseFormer(p) =>
      var taking := s.points[p].life.taking;
      Release(WithLife(s, p, Acquiring(Letting(taking.guard))), taking.former)
    case ReleaseTaken(p) =>
      DropGuard(WithLife(s, p, Acquiring(Popping)), s.points[p].life.taking.guard)
    case LocksTaken(p) => Arrive(WithLife(s, p, Waiting), p, 0)
    case ReleaseEdge(e) => Release(s.(releasing := s.releasing - {e}), s.edges[e].dst)
    case ReleaseGuardLast(g) =>
      Release(s.(guards := s.guards[g := s.guards[g].(last := None)]), s.guards[g].last.value)
  }

  /** Whom the action arrives at. */
  function ArrivesAt(s: State, a: Action): Option<PointId> {
    match a
    case Schedule(_, p) => Some(p)
    case EndTask(t) => Some(t)
    case Deliver(e) => if e in s.edges then Some(s.edges[e].dst) else None
    case LocksTaken(p) => Some(p)
    case _ => None
  }

  /** The actions that end by releasing a point. */
  predicate IsReleasing(a: Action) {
    a.UserRelease? || a.FinishBody? || a.Dispatch? || a.ReleaseFormer? || a.ReleaseEdge? || a.ReleaseGuardLast?
  }

  // ----- Runs --------------------------------------------------------------------------

  /** The counters of a live point have not reached the sentinel values. (The reference
      count of a point that was freed dead stands at RC_DEAD_POST.) */
  predicate PointInRange(pt: Point) {
    (!pt.life.Freed? ==> pt.rc < U64_MAX) && (!HasOccurred(pt.life) ==> pt.wc < U64_MAX)
  }

  predicate CountsInRange(s: State) {
    forall p :: p in s.points ==> PointInRange(s.points[p])
  }

  const ROOT: PointId := 0

  /** root_interval(): the end of the root waits for its block, which has no start. */
  function Initial(): State {
    State(map[ROOT := Point(None, 0, Latch, 1, 1, Waiting, 0, None, Body(None, None), None)],
          map[], map[], map[], {}, {}, 0)
  }

  ghost predicate Step(s: State, a: Action, s': State) {
    Enabled(s, a) && s' == Do(s, a)
  }
}
