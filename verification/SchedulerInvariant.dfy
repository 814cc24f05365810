/** What every transition of the scheduler keeps. */
module SchedulerInvariant {
  import opened SchedulerState
  import opened SchedulerSteps

  /** A bound has its link, and depth counts bounds. */
  ghost predicate BoundOk(s: State, p: PointId)
    requires p in s.points
  {
    s.points[p].bound.Some? ==>
      var b := s.points[p].bound.value;
      BoundOf(p) in s.edges && s.edges[BoundOf(p)] == Edge(p, b, false) &&
      b in s.points && s.points[p].depth == s.points[b].depth + 1
  }

  /** Edges join known points; bounds and their links go together. */
  ghost predicate Shape(s: State) {
    && (forall e :: e in s.edges ==> s.edges[e].src in s.points && s.edges[e].dst in s.points)
    && (forall p {:trigger BoundOk(s, p)} :: p in s.points ==> BoundOk(s, p))
    && (forall p :: BoundOf(p) in s.edges ==> p in s.points && s.points[p].bound.Some?)
  }

  /** Notifications are sent by points that have just occurred, references released by
      points that were freed holding them. */
  ghost predicate Flights(s: State) {
    && (forall e :: e in s.inflight ==>
          e in s.edges && s.edges[e].src in s.points &&
          var life := s.points[s.edges[e].src].life; life.Occurred? && life.stage == Notifying)
    && (forall e :: e in s.releasing ==>
          e in s.edges && s.edges[e].src in s.points &&
          var life := s.points[s.edges[e].src].life; life.Freed? && !life.dead)
  }

  /** Happens-before safety: an edge's source occurred, strictly earlier, whenever its
      target has, and has arrived there. */
  ghost predicate Ordered(s: State) {
    && (forall p :: p in s.points && HasOccurred(s.points[p].life) ==>
          s.points[p].wc == WC_STARTED && s.points[p].owner == None && s.points[p].run == Closed &&
          s.points[p].life.at < s.clock)
    && (forall e :: e in s.edges && s.edges[e].dst in s.points && HasOccurred(s.points[s.edges[e].dst].life) ==>
          s.edges[e].src in s.points && HasOccurred(s.points[s.edges[e].src].life) && e !in s.inflight &&
          s.points[s.edges[e].src].life.at < s.points[s.edges[e].dst].life.at)
  }

  /** The wait-count equation. debt is a unit of q's wait count that has no owner left,
      in the middle of a transition. */
  ghost predicate WaitsOk(s: State, q: PointId, debt: nat)
    requires q in s.points
  {
    !HasOccurred(s.points[q].life) ==>
      s.points[q].wc == WaitTotal(s, q) + debt && s.points[q].wc >= 1
  }

  /** The reference-count equation: a dead point's count stands one too low. */
  ghost predicate RefsOk(s: State, q: PointId, debt: nat)
    requires q in s.points
  {
    var pt := s.points[q];
    var total := RefTotal(s, q) + debt;
    if pt.life.Freed? then total == 0
    else if IsDead(pt.life) then pt.rc == RC_DEAD_PRE && total == 1 && (pt.life.stage == Done ==> debt == 1)
    else pt.rc == total && total >= 1
  }

  function Debt(of: Option<PointId>, q: PointId): nat {
    Bit(of == Some(q))
  }

  ghost predicate WaitCounts(s: State, debtor: Option<PointId>) {
    forall q {:trigger WaitsOk(s, q, Debt(debtor, q))} :: q in s.points ==> WaitsOk(s, q, Debt(debtor, q))
  }

  ghost predicate RefCounts(s: State, debtor: Option<PointId>) {
    forall q {:trigger RefsOk(s, q, Debt(debtor, q))} :: q in s.points ==> RefsOk(s, q, Debt(debtor, q))
  }

  predicate StageMatches(life: Life, run: Run) {
    && (life.Waiting? || life.Acquiring? ==> run == NotRun)
    && (life.Occurred? && (life.stage == Notifying || life.stage == Queued) ==> run == NotRun)
    && (life.Occurred? && life.stage == Running ==> run.Body?)
    && (life.Freed? || (life.Occurred? && life.stage == Done) ==> run == Flushing || run == Closed)
  }

  /** One point's part of Tasks. */
  ghost predicate TaskOk(s: State, p: PointId)
    requires p in s.points
  {
    var pt := s.points[p];
    && (pt.task == Block ==>
          pt.run == Closed && pt.start == None && pt.bound.Some? && pt.bound.value in s.points &&
          s.points[pt.bound.value].start == Some(p) && StageMatches(pt.life, s.points[pt.bound.value].run))
    && (pt.task != Block && pt.life.Occurred? ==> pt.life.stage == Notifying || pt.life.stage == Done)
    && (pt.start.Some? ==>
          pt.start.value in s.points && s.points[pt.start.value].task == Block &&
          s.points[pt.start.value].bound == Some(p))
    && (pt.run == NotRun ==> pt.start.Some?)
    && (pt.run.Body? && pt.run.cur.Some? ==>
          pt.run.cur == pt.start && pt.start.value in s.points && !IsDead(s.points[pt.start.value].life))
    && (pt.run.Body? && pt.run.sub.Some? ==>
          pt.run.sub.value in s.points && s.points[pt.run.sub.value].task == Latch &&
          s.points[pt.run.sub.value].bound == Some(p))
    && (pt.owner.Some? ==>
          pt.task == Block && pt.owner.value in s.points &&
          (s.points[pt.owner.value].run.Body? || s.points[pt.owner.value].run.Flushing?))
  }

  /** Blocks, their intervals' ends and the unscheduled lists agree on how far each
      task has come. */
  ghost predicate Tasks(s: State) {
    forall p {:trigger TaskOk(s, p)} :: p in s.points ==> TaskOk(s, p)
  }

  /** The reference count of a guard: the client, pending lists, and threads taking it. */
  ghost predicate GuardOk(s: State, g: GuardId, debt: nat)
    requires g in s.guards
  {
    var gd := s.guards[g];
    var total := gd.user + |GuardRequests(s, g)| + |GuardTakers(s, g)| + debt;
    if gd.live then gd.rc == total && total >= 1 else total == 0
  }

  ghost predicate GuardCounts(s: State, debtor: Option<GuardId>) {
    forall g {:trigger GuardOk(s, g, Debt(debtor, g))} :: g in s.guards ==> GuardOk(s, g, Debt(debtor, g))
  }

  /** A thread taking guards for p knows the guard and its former holder. */
  ghost predicate TakerOk(s: State, p: PointId)
    requires p in s.points
  {
    s.points[p].life.Acquiring? ==>
      var taking := s.points[p].life.taking;
      (!taking.Popping? ==> taking.guard in s.guards) &&
      (taking.Swapped? || taking.Linked? ==> taking.former in s.points)
  }

  ghost predicate RequestOk(s: State, r: RequestId)
    requires r in s.requests
  {
    var q := s.requests[r];
    q.point in s.points && !HasOccurred(s.points[q.point].life) &&
    q.guard in s.guards && s.guards[q.guard].live
  }

  ghost predicate Locks(s: State) {
    && (forall r {:trigger RequestOk(s, r)} :: r in s.requests ==> RequestOk(s, r))
    && (forall p {:trigger TakerOk(s, p)} :: p in s.points ==> TakerOk(s, p))
    && (forall g :: g in s.guards && s.guards[g].last.Some? ==> s.guards[g].last.value in s.points)
  }

  /** There is an edge from the bound of the first holder to the second, or the second
      is just about to add it. (The end of the root has no bound; it is nobody's first.) */
  ghost predicate HandedOver(s: State, g: GuardId, first: PointId, second: PointId) {
    first in s.points && second in s.points &&
    (s.points[first].bound.None? ||
     (exists e :: e in s.edges && s.edges[e].src == s.points[first].bound.value && s.edges[e].dst == second) ||
     s.points[second].life == Acquiring(Swapped(g, s.points[first].bound.value)))
  }

  /** The history of each guard is a chain of hand-overs that ends in last_lock. */
  ghost predicate ChainOk(s: State, g: GuardId)
    requires g in s.guards
  {
    var gd := s.guards[g];
    && (forall i :: 0 <= i < |gd.holders| ==> gd.holders[i] in s.points)
    && (forall i :: 0 < i < |gd.holders| ==> HandedOver(s, g, gd.holders[i - 1], gd.holders[i]))
    && (gd.live ==> gd.last == if gd.holders == [] then None else s.points[gd.holders[|gd.holders| - 1]].bound)
  }

  ghost predicate Chains(s: State) {
    forall g {:trigger ChainOk(s, g)} :: g in s.guards ==> ChainOk(s, g)
  }

  /** The invariant with one unit of q's wait count and one unit of r's reference count
      unaccounted for, as happens between the two halves of a transition. */
  ghost predicate InvariantUpTo(s: State, q: Option<PointId>, r: Option<PointId>) {
    Shape(s) && Flights(s) && Ordered(s) && WaitCounts(s, q) && RefCounts(s, r) && Tasks(s) &&
    Locks(s) && GuardCounts(s, None) && Chains(s)
  }

  ghost predicate Invariant(s: State) {
    InvariantUpTo(s, None, None)
  }

  lemma InitialInvariant()
    ensures Invariant(Initial()) && CountsInRange(Initial())
  {
    var s := Initial();
    assert WaitEdges(s, ROOT) == {} && RefEdges(s, ROOT) == {} && RefGuards(s, ROOT) == {} && RefTakers(s, ROOT) == {};
  }
}
