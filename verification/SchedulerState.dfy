/** The state of the interval scheduler: points, edges, guards, and the work the
    worker threads have begun but not finished.

    The counters wait_count and ref_count of a point are the plain numbers the
    program keeps. What they stand for is not stored anywhere: it is computed
    here, as sets of edges, guards and threads that own one unit of a count. */
module SchedulerState {

  datatype Option<+T> = None | Some(value: T)

  type PointId = nat
  type GuardId = nat
  type RequestId = nat

  const U64_MAX: nat := 0xFFFF_FFFF_FFFF_FFFF
  const WC_STARTED: nat := U64_MAX
  const RC_DEAD_PRE: nat := 0
  const RC_DEAD_POST: nat := U64_MAX

  /** Subtraction of one on an unsigned 64-bit counter, as atomic_sub does it. */
  function AtomicSub(count: nat): nat {
    if count == 0 then U64_MAX else count - 1
  }

  function Bit(b: bool): nat {
    if b then 1 else 0
  }

  /** What a point does once it has occurred. */
  datatype Task = Empty | Latch | Block

  /** How far the dispatch of an occurred point has come. The scheduler's reference
      is given up on entering Done. */
  datatype Stage = Notifying | Queued | Running | Done

  /** How far a thread has come in taking one pending guard of a point: it is about
      to pop one, it has exchanged last_lock, it has added the edge from the former
      holder, it has only the guard left to release. */
  datatype Taking =
    | Popping
    | Swapped(guard: GuardId, former: PointId)
    | Linked(guard: GuardId, former: PointId)
    | Letting(guard: GuardId)

  /** UNSCHEDULED and SCHEDULED points are both Waiting; Acquiring is the window in
      which pending guards are taken. The times of occurrence are bookkeeping of the
      model, and so is whether the point skipped retaining its successors. */
  datatype Life =
    | Waiting
    | Acquiring(taking: Taking)
    | Occurred(at: nat, dead: bool, stage: Stage)
    | Freed(at: nat, dead: bool)

  /** The task an end point waits for: the block between its start and itself. The
      fields of Body are the current_interval_info of the running thread, and the
      end of the subinterval it is blocked on. */
  datatype Run =
    | NotRun
    | Body(cur: Option<PointId>, sub: Option<PointId>)
    | Flushing
    | Closed

  datatype Point = Point(
    bound: Option<PointId>,
    depth: nat,
    task: Task,
    wc: nat,
    rc: nat,
    life: Life,
    user: nat,                // references the client holds, autoreleased ones included
    owner: Option<PointId>,   // end of the task on whose unscheduled list this start is
    run: Run,
    start: Option<PointId>)   // for the end of an interval, its start

  /** BoundOf(p) is the link from p to its bound; the others are entries of out_edges. */
  datatype EdgeId = BoundOf(point: PointId) | Out(n: nat)

  datatype Edge = Edge(src: PointId, dst: PointId, synthetic: bool)

  /** holders is bookkeeping: the points that took the guard, in order. */
  datatype Guard = Guard(rc: nat, last: Option<PointId>, user: nat, live: bool, holders: seq<PointId>)

  /** An entry of the pending_guards list of a point. */
  datatype Request = Request(point: PointId, guard: GuardId)

  /** inflight: edges whose source has occurred but which have not yet arrived.
      releasing: edges of freed points whose reference is still to be released. */
  datatype State = State(
    points: map<PointId, Point>,
    edges: map<EdgeId, Edge>,
    guards: map<GuardId, Guard>,
    requests: map<RequestId, Request>,
    inflight: set<EdgeId>,
    releasing: set<EdgeId>,
    clock: nat)

  // ----- Reading the state ---------------------------------------------------------

  predicate HasOccurred(life: Life) {
    life.Occurred? || life.Freed?
  }

  predicate IsDead(life: Life) {
    HasOccurred(life) && life.dead
  }

  /** When the point occurred; 0 for one that has not. */
  function TimeOf(life: Life): nat {
    if life.Occurred? || life.Freed? then life.at else 0
  }

  predicate Occ(s: State, p: PointId) {
    p in s.points && HasOccurred(s.points[p].life)
  }

  /** The scheduler, or the thread running the task, still owns its reference. */
  predicate SchedulerHolds(life: Life) {
    life.Waiting? || life.Acquiring? || (life.Occurred? && life.stage != Done)
  }

  predicate ConnectedIn(s: State, e: EdgeId) {
    e in s.edges && s.edges[e].src in s.points && s.edges[e].dst in s.points
  }

  /** The edge e still owns one unit of its target's wait count. */
  predicate Waits(s: State, e: EdgeId)
    requires ConnectedIn(s, e)
  {
    !HasOccurred(s.points[s.edges[e].src].life) || e in s.inflight
  }

  /** The edge e owns one unit of its target's reference count. */
  predicate HoldsRef(s: State, e: EdgeId)
    requires ConnectedIn(s, e)
  {
    var life := s.points[s.edges[e].src].life;
    HasOccurred(life) && !life.dead && e !in s.inflight && (life.Freed? ==> e in s.releasing)
  }

  function WaitEdges(s: State, q: PointId): set<EdgeId> {
    set e | e in s.edges && s.edges[e].dst == q && ConnectedIn(s, e) && Waits(s, e)
  }

  function RefEdges(s: State, q: PointId): set<EdgeId> {
    set e | e in s.edges && s.edges[e].dst == q && ConnectedIn(s, e) && HoldsRef(s, e)
  }

  /** Guards whose last_lock field retains q. */
  function RefGuards(s: State, q: PointId): set<GuardId> {
    set g | g in s.guards && s.guards[g].last == Some(q)
  }

  /** A thread taking a guard holds the former holder f until the edge is in place. */
  predicate HoldsFormer(life: Life, f: PointId) {
    life.Acquiring? && (life.taking.Swapped? || life.taking.Linked?) && life.taking.former == f
  }

  predicate HoldsGuard(life: Life, g: GuardId) {
    life.Acquiring? && !life.taking.Popping? && life.taking.guard == g
  }

  function RefTakers(s: State, q: PointId): set<PointId> {
    set p | p in s.points && HoldsFormer(s.points[p].life, q)
  }

  function GuardRequests(s: State, g: GuardId): set<RequestId> {
    set r | r in s.requests && s.requests[r].guard == g
  }

  function GuardTakers(s: State, g: GuardId): set<PointId> {
    set p | p in s.points && HoldsGuard(s.points[p].life, g)
  }

  function OutEdges(s: State, p: PointId): set<EdgeId> {
    set e | e in s.edges && s.edges[e].src == p
  }

  predicate HasRequest(s: State, p: PointId) {
    exists r :: r in s.requests && s.requests[r].point == p
  }

  /** All that holds up q: edges, the unscheduled list, its task, the taking of guards. */
  function WaitTotal(s: State, q: PointId): nat
    requires q in s.points
  {
    var pt := s.points[q];
    |WaitEdges(s, q)| + Bit(pt.owner.Some?) + Bit(pt.run != Closed) + Bit(pt.life.Acquiring?)
  }

  /** All that keeps q alive: edges of occurred predecessors, guards, threads taking
      guards, the scheduler, and the client. */
  function RefTotal(s: State, q: PointId): nat
    requires q in s.points
  {
    var pt := s.points[q];
    |RefEdges(s, q)| + |RefGuards(s, q)| + |RefTakers(s, q)| + Bit(SchedulerHolds(pt.life)) + pt.user
  }

  /** A client may still use a pointer to p. */
  predicate Usable(s: State, p: PointId) {
    p in s.points && !s.points[p].life.Freed? && !IsDead(s.points[p].life)
  }

  // ----- Paths ---------------------------------------------------------------------

  /** es is a chain of edges from a to b. */
  predicate IsPath(s: State, es: seq<EdgeId>, a: PointId, b: PointId) {
    if es == [] then a == b
    else es[0] in s.edges && s.edges[es[0]].src == a && IsPath(s, es[1..], s.edges[es[0]].dst, b)
  }

  /** a happens before b: a non-empty chain of edges leads from a to b. */
  ghost predicate HappensBefore(s: State, a: PointId, b: PointId) {
    exists es: seq<EdgeId> :: es != [] && IsPath(s, es, a, b)
  }
}
