/** The pending guards of a point are kept in one word of memory. guard_list_push() and
    guard_list_pop() read it and write it back later; the lock of the point keeps pushes
    apart, but the thread that pops does not take it. Here the two halves are actions of
    their own, among those of all other threads. */
module SchedulerSplitLists {
  import opened SchedulerState
  import opened SchedulerSteps

  // ----- The lists as words ----------------------------------------------------------------------

  /** What one word leads to: the entries of one list. */
  type Word = map<RequestId, Request>

  function ListOf(s: State, p: PointId): Word {
    map r | r in s.requests && s.requests[r].point == p :: s.requests[r]
  }

  /** The list of p is overwritten. */
  function WriteList(s: State, p: PointId, word: Word): State {
    s.(requests := (map r | r in s.requests && s.requests[r].point != p :: s.requests[r]) + word)
  }

  /** A push that has read the list of the point, but has not written to it. */
  datatype Push = Push(task: PointId, point: PointId, guard: GuardId, word: Word)

  /** pops: the words read by pops that have not written yet, one for each point whose
      guards are being taken. */
  datatype Split = Split(s: State, pops: map<PointId, Word>, pushes: map<RequestId, Push>)

  datatype SplitAction =
    | Whole(a: Action)
    | PopRead(p: PointId)
    | PopWrite(p: PointId, r: RequestId)
    | PushRead(t: PointId, p: PointId, g: GuardId, r: RequestId)
    | PushWrite(r: RequestId)

  /** The task whose block takes the action. */
  function TaskOf(a: Action): Option<PointId> {
    match a
    case NewInterval(t, _, _, _, _) => Some(t)
    case Subinterval(t, _, _, _) => Some(t)
    case SubintervalReturn(t) => Some(t)
    case AddHb(t, _, _, _) => Some(t)
    case AddLock(t, _, _, _) => Some(t)
    case Schedule(t, _) => Some(t)
    case FinishBody(t) => Some(t)
    case EndTask(t) => Some(t)
    case _ => None
  }

  /** The block of t is not in the middle of interval_add_lock(). */
  predicate IsFree(x: Split, t: PointId) {
    forall r :: r in x.pushes ==> x.pushes[r].task != t
  }

  /** The lock of p is free. */
  predicate Unlocked(x: Split, p: PointId) {
    forall r :: r in x.pushes ==> x.pushes[r].point != p
  }

  /** r is new memory: it is in no list, and in no word that was read. */
  predicate Unused(x: Split, r: RequestId) {
    r !in x.s.requests && r !in x.pushes &&
    (forall p :: p in x.pops ==> r !in x.pops[p]) && (forall q :: q in x.pushes ==> r !in x.pushes[q].word)
  }

  ghost predicate SplitEnabled(x: Split, b: SplitAction) {
    match b
    case Whole(a) =>
      !a.AddLock? && !a.SwapLock? && Enabled(x.s, a) && (TaskOf(a).Some? ==> IsFree(x, TaskOf(a).value)) &&
      (a.LocksTaken? ==> a.p !in x.pops)
    case PopRead(p) => p in x.s.points && x.s.points[p].life == Acquiring(Popping) && p !in x.pops && HasRequest(x.s, p)
    case PopWrite(p, r) => p in x.pops && r in x.pops[p] && Enabled(WriteList(x.s, p, x.pops[p]), SwapLock(p, r))
    case PushRead(t, p, g, r) => Enabled(x.s, AddLock(t, p, g, r)) && IsFree(x, t) && Unlocked(x, p) && Unused(x, r)
    case PushWrite(r) => r in x.pushes
  }

  /** PopWrite writes back the word that was read, without the entry it takes, and goes on
      to the exchange of last_lock. PushRead has retained the guard. */
  ghost function SplitDo(x: Split, b: SplitAction): Split
    requires SplitEnabled(x, b)
  {
    match b
    case Whole(a) => x.(s := Do(x.s, a))
    case PopRead(p) => x.(pops := x.pops[p := ListOf(x.s, p)])
    case PopWrite(p, r) => x.(s := Do(WriteList(x.s, p, x.pops[p]), SwapLock(p, r)), pops := x.pops - {p})
    case PushRead(t, p, g, r) =>
      x.(s := x.s.(guards := x.s.guards[g := x.s.guards[g].(rc := x.s.guards[g].rc + 1)]),
         pushes := x.pushes[r := Push(t, p, g, ListOf(x.s, p))])
    case PushWrite(r) =>
      var push := x.pushes[r];
      x.(s := WriteList(x.s, push.point, push.word[r := Request(push.point, push.guard)]), pushes := x.pushes - {r})
  }

  ghost predicate SplitStep(x: Split, b: SplitAction, x': Split) {
    SplitEnabled(x, b) && x' == SplitDo(x, b)
  }

  function Start(): Split {
    Split(Initial(), map[], map[])
  }

  ghost predicate SplitRun(xs: seq<Split>, bs: seq<SplitAction>) {
    |xs| == |bs| + 1 && xs[0] == Start() &&
    (forall i :: 0 <= i < |xs| ==> CountsInRange(xs[i].s)) &&
    (forall i {:trigger bs[i]} :: 0 <= i < |bs| ==> SplitStep(xs[i], bs[i], xs[i + 1]))
  }

  ghost predicate SplitReachable(x: Split) {
    exists xs: seq<Split>, bs: seq<SplitAction> :: SplitRun(xs, bs) && xs[|xs| - 1] == x
  }

  // ----- What requests do not matter for ----------------------------------------------------------

  /** The requests that are on their way to a list. */
  function Pending(x: Split): Word {
    map r | r in x.pushes :: Request(x.pushes[r].point, x.pushes[r].guard)
  }

  function Due(x: Split): Word {
    x.s.requests + Pending(x)
  }

  /** The state as if every push had written as soon as it had read. */
  function Atomic(x: Split): State {
    x.s.(requests := Due(x))
  }

  function WithRequests(s: State, requests: Word): State {
    s.(requests := requests)
  }

  lemma {:induction false} SamePath(s: State, s': State, es: seq<EdgeId>, a: PointId, b: PointId)
    requires s'.edges == s.edges
    ensures IsPath(s', es, a, b) == IsPath(s, es, a, b)
  {
    if es != [] && es[0] in s.edges {
      SamePath(s, s', es[1..], s.edges[es[0]].dst, b);
    }
  }

  lemma SameHappensBefore(s: State, requests: Word, a: PointId, b: PointId)
    ensures HappensBefore(WithRequests(s, requests), a, b) <==> HappensBefore(s, a, b)
  {
    var s' := WithRequests(s, requests);
    forall es: seq<EdgeId>
      ensures IsPath(s', es, a, b) == IsPath(s, es, a, b)
    {
      SamePath(s, s', es, a, b);
    }
  }

  lemma SameCanAddDep(s: State, requests: Word, t: PointId, q: PointId)
    ensures CanAddDep(WithRequests(s, requests), t, q) <==> CanAddDep(s, t, q)
  {
    SameHappensBefore(s, requests, t, q);
  }

  lemma SameAllowed(s: State, requests: Word, a: Action)
    requires a.NewInterval? || a.AddHb?
    ensures Enabled(WithRequests(s, requests), a) <==> Enabled(s, a)
  {
    match a
    case NewInterval(t, bound, _, _, _) => SameCanAddDep(s, requests, t, bound);
    case AddHb(t, _, after, _) => SameCanAddDep(s, requests, t, after);
  }

  lemma SameEnabled(s: State, requests: Word, a: Action)
    requires !a.AddLock? && !a.SwapLock?
    ensures Enabled(WithRequests(s, requests), a) <==> Enabled(s, a)
  {
    if a.NewInterval? || a.AddHb? {
      SameAllowed(s, requests, a);
    }
  }

  lemma SameArrive(s: State, requests: Word, q: PointId, addRefs: nat)
    requires q in s.points
    requires s.points[q].wc != 1 || (HasRequest(WithRequests(s, requests), q) <==> HasRequest(s, q))
    ensures Arrive(WithRequests(s, requests), q, addRefs) == WithRequests(Arrive(s, q, addRefs), requests)
    ensures Arrive(s, q, addRefs).requests == s.requests
  {
    assert OutEdges(WithRequests(s, requests), q) == OutEdges(s, q);
  }

  /** The last arrival at q finds the same list, or is not the last. */
  ghost predicate FindsSame(s: State, requests: Word, a: Action) {
    var q := ArrivesAt(s, a);
    q.Some? && q.value in s.points ==>
      s.points[q.value].wc != 1 || (HasRequest(WithRequests(s, requests), q.value) <==> HasRequest(s, q.value))
  }

  lemma SameArrival(s: State, requests: Word, a: Action)
    requires Enabled(s, a) && Enabled(WithRequests(s, requests), a) && ArrivesAt(s, a).Some? && FindsSame(s, requests, a)
    ensures Do(WithRequests(s, requests), a) == WithRequests(Do(s, a), requests) && Do(s, a).requests == s.requests
  {
    match a
    case Schedule(_, p) => SameArrive(WithPoint(s, p, s.points[p].(owner := None)), requests, p, 0);
    case EndTask(t) => SameArrive(WithPoint(s, t, s.points[t].(run := Closed)), requests, t, 0);
    case Deliver(e) =>
      SameArrive(s.(inflight := s.inflight - {e}), requests, s.edges[e].dst, Bit(!IsDead(s.points[s.edges[e].src].life)));
    case LocksTaken(p) => SameArrive(WithLife(s, p, Waiting), requests, p, 0);
  }

  lemma SameRelease(s: State, requests: Word, p: PointId)
    requires p in s.points
    ensures Release(WithRequests(s, requests), p) == WithRequests(Release(s, p), requests)
    ensures Release(s, p).requests == s.requests
  {
    assert OutEdges(WithRequests(s, requests), p) == OutEdges(s, p);
  }

  lemma SameDo(s: State, requests: Word, a: Action)
    requires !a.AddLock? && !a.SwapLock? && Enabled(s, a) && Enabled(WithRequests(s, requests), a) && FindsSame(s, requests, a)
    ensures Do(WithRequests(s, requests), a) == WithRequests(Do(s, a), requests) && Do(s, a).requests == s.requests
  {
    if ArrivesAt(s, a).Some? {
      SameArrival(s, requests, a);
    } else {
      SameOther(s, requests, a);
    }
  }

  lemma SameOther(s: State, requests: Word, a: Action)
    requires !a.AddLock? && !a.SwapLock? && Enabled(s, a) && Enabled(WithRequests(s, requests), a) && ArrivesAt(s, a).None?
    ensures Do(WithRequests(s, requests), a) == WithRequests(Do(s, a), requests) && Do(s, a).requests == s.requests
  {
    if IsReleasing(a) {
      SameReleasing(s, requests, a);
    } else if a.NewInterval? {
      SameNewInterval(s, requests, a.t, a.bound, a.start, a.end, a.e);
    } else if a.Subinterval? {
      SameSubinterval(s, requests, a.t, a.start, a.end, a.e);
    } else {
      SameSmall(s, requests, a);
    }
  }

  lemma SameReleasing(s: State, requests: Word, a: Action)
    requires IsReleasing(a) && Enabled(s, a) && Enabled(WithRequests(s, requests), a)
    ensures Do(WithRequests(s, requests), a) == WithRequests(Do(s, a), requests) && Do(s, a).requests == s.requests
  {
    match a
    case UserRelease(p) => SameRelease(WithPoint(s, p, s.points[p].(user := s.points[p].user - 1)), requests, p);
    case FinishBody(t) =>
      if s.points[t].start.Some? {
        var start := s.points[t].start.value;
        var s1 := WithPoint(s, t, s.points[t].(run := Flushing));
        SameRelease(WithLife(s1, start, s.points[start].life.(stage := Done)), requests, start);
      }
    case Dispatch(p) => SameRelease(WithLife(s, p, s.points[p].life.(stage := Done)), requests, p);
    case ReleaseFormer(p) =>
      SameRelease(WithLife(s, p, Acquiring(Letting(s.points[p].life.taking.guard))), requests, s.points[p].life.taking.former);
    case ReleaseEdge(e) => SameRelease(s.(releasing := s.releasing - {e}), requests, s.edges[e].dst);
    case ReleaseGuardLast(g) =>
      SameRelease(s.(guards := s.guards[g := s.guards[g].(last := None)]), requests, s.guards[g].last.value);
  }

  lemma SameNewInterval(s: State, requests: Word, t: PointId, bound: PointId, start: PointId, end: PointId, e: EdgeId)
    requires t in s.points && s.points[t].run.Body? && bound in s.points
    requires start !in s.points && end !in s.points && start != end
    ensures var s' := DoNewInterval(s, t, bound, start, end, e);
      DoNewInterval(WithRequests(s, requests), t, bound, start, end, e) == WithRequests(s', requests) && s'.requests == s.requests
  {
  }

  lemma SameSubinterval(s: State, requests: Word, t: PointId, start: PointId, end: PointId, e: EdgeId)
    requires t in s.points && s.points[t].run.Body?
    requires start !in s.points && end !in s.points && start != end
    ensures var s' := DoSubinterval(s, t, start, end, e);
      DoSubinterval(WithRequests(s, requests), t, start, end, e) == WithRequests(s', requests) && s'.requests == s.requests
  {
  }

  /** The actions that neither arrive, nor release a point, nor create an interval. */
  predicate IsSmall(a: Action) {
    a.Retain? || a.CreateGuard? || a.RetainGuard? || a.UserReleaseGuard? || a.SubintervalReturn? || a.AddHb? ||
    a.StartTask? || a.LinkLock? || a.ReleaseTaken?
  }

  lemma SameSmall(s: State, requests: Word, a: Action)
    requires IsSmall(a) && Enabled(s, a) && Enabled(WithRequests(s, requests), a)
    ensures Do(WithRequests(s, requests), a) == WithRequests(Do(s, a), requests) && Do(s, a).requests == s.requests
  {
  }
}
