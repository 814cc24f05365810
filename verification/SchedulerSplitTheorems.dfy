/** What is proved of locks, when pushes and pops of pending guards may come apart: it holds
    if nobody asks for a lock of a point that is taking its guards. */
module SchedulerSplitTheorems {
  import opened SchedulerState
  import opened SchedulerSteps
  import opened SchedulerInvariant
  import opened SchedulerRuns
  import opened SchedulerHistory
  import opened SchedulerGuardTheorems
  import opened SchedulerSplitLists
  import opened SchedulerSplitRuns
  import opened SchedulerSplitExact

  // ----- Locks in undisturbed runs -------------------------------------------------------------------

  /** Each action is one of the atomic machine, or none. */
  lemma AtomicallyStep(x: Split, b: SplitAction, x': Split)
    requires AsAtomic(x) && SplitStep(x, b, x') && FoundAsRead(x, b)
    ensures Atomic(x') == Atomic(x) || exists a :: Step(Atomic(x), a, Atomic(x'))
  {
    match b
    case Whole(a) => WholeIsStep(x, a, x');
    case PopRead(p) => ReadKeeps(x, p, x');
    case PopWrite(p, r) => PopIsStep(x, p, r, x');
    case PushRead(t, p, g, r) => PushIsStep(x, t, p, g, r, x');
    case PushWrite(r) => WriteKeeps(x, r, x');
  }

  lemma StepStillAsks(x: Split, b: SplitAction, x': Split, p: PointId, g: GuardId)
    requires AsAtomic(x) && SplitStep(x, b, x') && FoundAsRead(x, b) && AskedOrTaken(Atomic(x), p, g)
    ensures AskedOrTaken(Atomic(x'), p, g)
  {
    AtomicallyStep(x, b, x');
    if Atomic(x') != Atomic(x) {
      var a :| Step(Atomic(x), a, Atomic(x'));
      ReachableInvariant(Atomic(x));
      StepAdvances(Atomic(x), a, Atomic(x'));
      StillAskedOrTaken(Atomic(x), Atomic(x'), p, g);
    }
  }

  lemma RunStepStillAsks(xs: seq<Split>, bs: seq<SplitAction>, k: nat, p: PointId, g: GuardId)
    requires SplitRun(xs, bs) && Undisturbed(xs, bs) && k < |bs| && AskedOrTaken(Atomic(xs[k]), p, g)
    ensures AskedOrTaken(Atomic(xs[k + 1]), p, g)
  {
    UndisturbedIsAtomic(xs, bs, k);
    assert FoundAsRead(xs[k], bs[k]);
    StepStillAsks(xs[k], bs[k], xs[k + 1], p, g);
  }

  lemma {:induction false} RunStillAsks(xs: seq<Split>, bs: seq<SplitAction>, i: nat, k: nat, p: PointId, g: GuardId)
    requires SplitRun(xs, bs) && Undisturbed(xs, bs) && i <= k < |xs| && AskedOrTaken(Atomic(xs[i]), p, g)
    ensures AskedOrTaken(Atomic(xs[k]), p, g)
    decreases k
  {
    if i < k {
      RunStillAsks(xs, bs, i, k - 1, p, g);
      RunStepStillAsks(xs, bs, k - 1, p, g);
    }
  }

  lemma PushAsks(x: Split, t: PointId, p: PointId, g: GuardId, r: RequestId, x': Split)
    requires SplitStep(x, PushRead(t, p, g, r), x')
    ensures AskedOrTaken(Atomic(x'), p, g)
  {
    assert r in Due(x') && Due(x')[r] == Request(p, g);
  }

  lemma OccurredHasTaken(s: State, p: PointId, g: GuardId)
    requires Invariant(s) && Occ(s, p) && AskedOrTaken(s, p, g)
    ensures g in s.guards && p in s.guards[g].holders
  {
    forall r | r in s.requests
      ensures s.requests[r] != Request(p, g)
    {
      assert RequestOk(s, r);
    }
  }

  /** A point that occurs has taken every guard it was ever told to lock. */
  lemma OccursWithItsLocks(xs: seq<Split>, bs: seq<SplitAction>, i: nat, k: nat, t: PointId, p: PointId, g: GuardId, r: RequestId)
    requires SplitRun(xs, bs) && Undisturbed(xs, bs) && i < |bs| && bs[i] == PushRead(t, p, g, r)
    requires i < k < |xs| && Occ(xs[k].s, p)
    ensures g in xs[k].s.guards && p in xs[k].s.guards[g].holders
  {
    PushAsks(xs[i], t, p, g, r, xs[i + 1]);
    RunStillAsks(xs, bs, i + 1, k, p, g);
    UndisturbedKeepsInvariant(xs, bs, k);
    OccurredHasTaken(Atomic(xs[k]), p, g);
  }

  /** Two intervals told to lock the same guard do not overlap. */
  lemma LockedDoNotOverlap(xs: seq<Split>, bs: seq<SplitAction>, k: nat, g: GuardId,
                           i: nat, t: PointId, p: PointId, r: RequestId,
                           j: nat, u: PointId, q: PointId, y: RequestId)
    requires SplitRun(xs, bs) && Undisturbed(xs, bs) && i < |bs| && bs[i] == PushRead(t, p, g, r)
    requires j < |bs| && bs[j] == PushRead(u, q, g, y) && p != q
    requires i < k < |xs| && j < k && Occ(xs[k].s, p) && Occ(xs[k].s, q)
    ensures ReleasedBefore(xs[k].s, p, q) || ReleasedBefore(xs[k].s, q, p)
  {
    OccursWithItsLocks(xs, bs, i, k, t, p, g, r);
    OccursWithItsLocks(xs, bs, j, k, u, q, g, y);
    UndisturbedKeepsInvariant(xs, bs, k);
    MutualExclusion(Atomic(xs[k]), g, p, q);
  }

  // ----- Pushes and pops in one go -----------------------------------------------------------------

  /** The atomic machine's state, with no push and no pop under way. */
  function AtRest(s: State): Split {
    Split(s, map[], map[])
  }

  lemma LongerRun(xs: seq<Split>, bs: seq<SplitAction>, b: SplitAction, x': Split)
    requires SplitRun(xs, bs) && SplitStep(xs[|bs|], b, x') && CountsInRange(x'.s)
    ensures SplitRun(xs + [x'], bs + [b]) && (xs + [x'])[|xs|] == x'
  {
  }

  lemma SplitReachNext(x: Split, b: SplitAction, x': Split)
    requires SplitReachable(x) && SplitStep(x, b, x') && CountsInRange(x'.s)
    ensures SplitReachable(x')
  {
    var xs: seq<Split>, bs: seq<SplitAction> :| SplitRun(xs, bs) && xs[|xs| - 1] == x;
    LongerRun(xs, bs, b, x');
    assert (xs + [x'])[|xs + [x']| - 1] == x';
  }

  lemma SwapInOneGo(s: State, p: PointId, r: RequestId, s': State)
    requires SplitReachable(AtRest(s)) && Step(s, SwapLock(p, r), s') && CountsInRange(s) && CountsInRange(s')
    ensures SplitReachable(AtRest(s'))
  {
    var x := AtRest(s).(pops := map[p := ListOf(s, p)]);
    assert SplitStep(AtRest(s), PopRead(p), x);
    SplitReachNext(AtRest(s), PopRead(p), x);
    WriteAsRead(s, p);
    assert x.pops - {p} == map[];
    assert SplitStep(x, PopWrite(p, r), AtRest(s'));
    SplitReachNext(x, PopWrite(p, r), AtRest(s'));
  }

  /** A push to p that has read the list. */
  function Asking(s: State, t: PointId, p: PointId, g: GuardId, r: RequestId): Split
    requires g in s.guards
  {
    Split(s.(guards := s.guards[g := s.guards[g].(rc := s.guards[g].rc + 1)]), map[], map[r := Push(t, p, g, ListOf(s, p))])
  }

  lemma AskReads(s: State, t: PointId, p: PointId, g: GuardId, r: RequestId)
    requires Enabled(s, AddLock(t, p, g, r))
    ensures SplitStep(AtRest(s), PushRead(t, p, g, r), Asking(s, t, p, g, r))
  {
  }

  lemma AskWrites(s: State, t: PointId, p: PointId, g: GuardId, r: RequestId, s': State)
    requires Step(s, AddLock(t, p, g, r), s')
    ensures SplitStep(Asking(s, t, p, g, r), PushWrite(r), AtRest(s'))
  {
    var x := Asking(s, t, p, g, r);
    SameLists(s, x.s, p);
    WriteOneMore(x.s, r, Request(p, g));
    assert x.pushes - {r} == map[];
  }

  lemma AskInOneGo(s: State, t: PointId, p: PointId, g: GuardId, r: RequestId, s': State)
    requires SplitReachable(AtRest(s)) && Step(s, AddLock(t, p, g, r), s') && CountsInRange(s')
    ensures SplitReachable(AtRest(s'))
  {
    AskReads(s, t, p, g, r);
    AskWrites(s, t, p, g, r, s');
    SplitReachNext(AtRest(s), PushRead(t, p, g, r), Asking(s, t, p, g, r));
    SplitReachNext(Asking(s, t, p, g, r), PushWrite(r), AtRest(s'));
  }

  lemma OtherStep(s: State, a: Action, s': State)
    requires Step(s, a, s') && !a.AddLock? && !a.SwapLock?
    ensures SplitStep(AtRest(s), Whole(a), AtRest(s'))
  {
  }

  lemma OtherInOneGo(s: State, a: Action, s': State)
    requires SplitReachable(AtRest(s)) && Step(s, a, s') && !a.AddLock? && !a.SwapLock? && CountsInRange(s')
    ensures SplitReachable(AtRest(s'))
  {
    OtherStep(s, a, s');
    SplitReachNext(AtRest(s), Whole(a), AtRest(s'));
  }

  lemma StepInOneGo(s: State, a: Action, s': State)
    requires SplitReachable(AtRest(s)) && Step(s, a, s') && CountsInRange(s) && CountsInRange(s')
    ensures SplitReachable(AtRest(s'))
  {
    if a.SwapLock? {
      SwapInOneGo(s, a.p, a.r, s');
    } else if a.AddLock? {
      AskInOneGo(s, a.t, a.p, a.g, a.r, s');
    } else {
      OtherInOneGo(s, a, s');
    }
  }

  lemma {:induction false} RunInOneGo(states: seq<State>, actions: seq<Action>, i: nat)
    requires IsRun(states, actions) && i < |states|
    ensures SplitReachable(AtRest(states[i]))
    decreases i
  {
    if i == 0 {
      assert SplitRun([Start()], []);
    } else {
      RunInOneGo(states, actions, i - 1);
      StepInOneGo(states[i - 1], actions[i - 1], states[i]);
    }
  }

  /** Whatever the atomic machine reaches is reached also if the halves may come apart. */
  lemma AtomicIsSplit(s: State)
    requires Reachable(s)
    ensures SplitReachable(AtRest(s))
  {
    var states: seq<State>, actions: seq<Action> :| IsRun(states, actions) && states[|states| - 1] == s;
    RunInOneGo(states, actions, |states| - 1);
  }
}
