/** Why guards are taken late: a point that takes one finds everything that had to happen
    before it over, so the order of locking follows happens-before. Only edges that come
    after it has begun to take guards can upset this. */
module SchedulerGuardOrder {
  import opened SchedulerPaths
  import opened SchedulerState
  import opened SchedulerSteps
  import opened SchedulerInvariant
  import opened SchedulerSafety
  import opened SchedulerRuns
  import opened SchedulerHistory
  import opened SchedulerTurns
  import opened SchedulerGuardTheorems

  // ----- The moment of taking ------------------------------------------------------------------

  lemma {:induction false} OccurredAlong(s: State, es: seq<EdgeId>, a: PointId, b: PointId)
    requires Shape(s) && Ordered(s) && es != [] && IsPath(s, es, a, b) && b in s.points && !HasOccurred(s.points[b].life)
    requires WaitEdges(s, b) == {}
    ensures Occ(s, a)
  {
    assert s.edges[es[0]].src in s.points;
    if !Occ(s, a) {
      AfterUnoccurred(s, es, a, b);
    }
  }

  /** Nothing holds b up, so all that happens before it has occurred. */
  lemma AllBeforeOccurred(s: State, b: PointId, x: PointId)
    requires Shape(s) && Ordered(s) && b in s.points && !HasOccurred(s.points[b].life) && WaitEdges(s, b) == {}
    requires HappensBefore(s, x, b)
    ensures Occ(s, x)
  {
    var es: seq<EdgeId> :| es != [] && IsPath(s, es, x, b);
    OccurredAlong(s, es, x, b);
  }

  ghost predicate AllBeforeOver(s: State, b: PointId) {
    (forall x :: HappensBefore(s, x, b) ==> Occ(s, x)) && (forall e :: e in s.inflight && e in s.edges ==> s.edges[e].dst != b)
  }

  lemma NothingWaitedFor(s: State, b: PointId)
    requires Shape(s) && b in s.points && AllBeforeOver(s, b)
    ensures WaitEdges(s, b) == {}
  {
    forall e | e in s.edges && s.edges[e].dst == b
      ensures e !in WaitEdges(s, b)
    {
      EdgePath(s, e);
    }
  }

  /** While b takes guards, its wait count is 1 if and only if everything that happens
      before it has occurred and told it so; and it is 1 unless a lock was handed over
      to it. */
  lemma TakingFindsAllOver(s: State, b: PointId)
    requires Reachable(s) && b in s.points && s.points[b].life.Acquiring?
    ensures s.points[b].wc == 1 <==> AllBeforeOver(s, b)
    ensures !HasSynthetic(s, b) ==> s.points[b].wc == 1
  {
    ReachableInvariant(s);
    ReachableTurns(s);
    assert Turned(s, b) && TurnedFree(s, b) && WaitsOk(s, b, Debt(None, b));
    if WaitEdges(s, b) == {} {
      forall x | HappensBefore(s, x, b)
        ensures Occ(s, x)
      {
        AllBeforeOccurred(s, b, x);
      }
      forall e | e in s.inflight && e in s.edges
        ensures s.edges[e].dst != b
      {
        assert e !in WaitEdges(s, b);
      }
    }
    if AllBeforeOver(s, b) {
      NothingWaitedFor(s, b);
    }
  }

  lemma ReachableTurns(s: State)
    requires Reachable(s)
    ensures Turns(s)
  {
    var states: seq<State>, actions: seq<Action> :| IsRun(states, actions) && states[|states| - 1] == s;
    RunKeepsTurns(states, actions, |states| - 1);
  }

  /** A point that has occurred has taken every guard it asked for. */
  lemma OccurredAsksNothing(s: State, a: PointId, g: GuardId)
    requires Locks(s) && Occ(s, a)
    ensures !AskedFor(s, a, g)
  {
    forall r | r in s.requests
      ensures s.requests[r] != Request(a, g)
    {
      assert RequestOk(s, r);
    }
  }

  /** At the moment b is about to take g: whoever was told to lock g and must end before
      b has taken it already; unless b waits again, for an edge that came when it was
      taking guards, and the other has not even occurred. */
  lemma GuardTakenInOrder(s: State, b: PointId, r: RequestId, a: PointId, g: GuardId)
    requires Reachable(s) && Enabled(s, SwapLock(b, r)) && s.requests[r].guard == g
    requires a in s.points && s.points[a].bound.Some? && HappensBefore(s, EndOf(s, a), b) && AskedOrTaken(s, a, g)
    ensures s.points[b].wc == 1 ==> Occ(s, EndOf(s, a)) && !AskedFor(s, a, g) && a in s.guards[g].holders
    ensures AskedFor(s, a, g) ==> !Occ(s, a) && s.points[b].wc > 1 && HasSynthetic(s, b)
  {
    ReachableInvariant(s);
    TakingFindsAllOver(s, b);
    assert WaitsOk(s, b, Debt(None, b));
    if s.points[b].wc == 1 {
      assert Occ(s, EndOf(s, a));
      EndFollows(s, a);
    }
    if Occ(s, a) {
      OccurredAsksNothing(s, a, g);
    }
  }

  // ----- Over a whole run -----------------------------------------------------------------------

  /** The step in which b turns to its guards. */
  lemma {:induction false} TurningPoint(states: seq<State>, actions: seq<Action>, i: nat, k: nat, b: PointId) returns (m: nat)
    requires IsRun(states, actions) && i <= k < |states| && !Turned(states[i], b) && Turned(states[k], b)
    ensures i < m <= k && !Turned(states[m - 1], b) && Turned(states[m], b)
  {
    if Turned(states[k - 1], b) {
      m := TurningPoint(states, actions, i, k - 1, b);
    } else {
      m := k;
    }
  }

  /** At that step nothing holds b up, and no guard has it in its history. */
  lemma TurningStep(s: State, s': State, b: PointId)
    requires Chains(s) && WaitCounts(s', None) && Effect(s, s') && !Turned(s, b) && Turned(s', b)
    ensures s'.points[b].life.Acquiring? && !Pinned(s', b)
    ensures forall g :: g in s'.guards ==> b !in s'.guards[g].holders
  {
    JustTurned(s, s', b);
    HolderHadTurned(s, s', b);
  }

  lemma RunStep(states: seq<State>, actions: seq<Action>, k: nat)
    requires IsRun(states, actions) && k < |actions|
    ensures Chains(states[k]) && WaitCounts(states[k + 1], None) && Effect(states[k], states[k + 1])
  {
    RunKeepsInvariant(states, actions, k);
    RunKeepsInvariant(states, actions, k + 1);
    StepEffect(states[k], actions[k], states[k + 1]);
  }

  lemma TurnsUnpinned(states: seq<State>, actions: seq<Action>, m: nat, b: PointId)
    requires IsRun(states, actions) && 0 < m < |states| && !Turned(states[m - 1], b) && Turned(states[m], b)
    ensures states[m].points[b].life.Acquiring? && !Pinned(states[m], b)
    ensures forall g :: g in states[m].guards ==> b !in states[m].guards[g].holders
  {
    RunStep(states, actions, m - 1);
    TurningStep(states[m - 1], states[m], b);
  }

  lemma UnpinnedFindsAllOver(s: State, b: PointId, x: PointId)
    requires Invariant(s) && b in s.points && s.points[b].life.Acquiring? && !Pinned(s, b) && HappensBefore(s, x, b)
    ensures Occ(s, x)
  {
    AllBeforeOccurred(s, b, x);
  }

  lemma TurnsWithAllOver(states: seq<State>, actions: seq<Action>, m: nat, b: PointId, x: PointId)
    requires IsRun(states, actions) && 0 < m < |states| && !Turned(states[m - 1], b) && Turned(states[m], b)
    requires HappensBefore(states[m], x, b)
    ensures Occ(states[m], x)
  {
    TurnsUnpinned(states, actions, m, b);
    RunKeepsInvariant(states, actions, m);
    UnpinnedFindsAllOver(states[m], b, x);
  }

  lemma StepAddsNoOccurredHolder(states: seq<State>, actions: seq<Action>, k: nat, a: PointId, g: GuardId)
    requires IsRun(states, actions) && k < |actions| && Occ(states[k], a)
    requires g in states[k + 1].guards && a in states[k + 1].guards[g].holders
    ensures g in states[k].guards && a in states[k].guards[g].holders
  {
    RunStep(states, actions, k);
    var j :| 0 <= j < |states[k + 1].guards[g].holders| && states[k + 1].guards[g].holders[j] == a;
  }

  lemma {:induction false} HeldWhenOccurred(states: seq<State>, actions: seq<Action>, m: nat, k: nat, a: PointId, g: GuardId)
    requires IsRun(states, actions) && m <= k < |states| && Occ(states[m], a)
    requires g in states[k].guards && a in states[k].guards[g].holders
    ensures g in states[m].guards && a in states[m].guards[g].holders
  {
    if m < k {
      RunsMoveForward(states, actions, m, k - 1);
      StepAddsNoOccurredHolder(states, actions, k - 1, a, g);
      HeldWhenOccurred(states, actions, m, k - 1, a, g);
    }
  }

  lemma {:induction false} HistoryGrows(states: seq<State>, actions: seq<Action>, m: nat, k: nat, g: GuardId)
    requires IsRun(states, actions) && m <= k < |states| && g in states[m].guards
    ensures g in states[k].guards && states[m].guards[g].holders <= states[k].guards[g].holders
  {
    if m < k {
      HistoryGrows(states, actions, m, k - 1, g);
      RunStepRemembers(states, actions, k - 1);
    }
  }

  /** a is in the history of g before every b. */
  ghost predicate TakesFirst(s: State, g: GuardId, a: PointId, b: PointId)
    requires g in s.guards
  {
    forall n :: 0 <= n < |s.guards[g].holders| && s.guards[g].holders[n] == b ==> a in s.guards[g].holders[..n]
  }

  lemma PrefixTakesFirst(s: State, s': State, g: GuardId, a: PointId, b: PointId)
    requires g in s.guards && g in s'.guards && s.guards[g].holders <= s'.guards[g].holders
    requires a in s.guards[g].holders && b !in s.guards[g].holders
    ensures TakesFirst(s', g, a, b)
  {
    var h, h' := s.guards[g].holders, s'.guards[g].holders;
    var i :| 0 <= i < |h| && h[i] == a;
    forall n | 0 <= n < |h|
      ensures h'[n] != b
    {
      assert h'[n] == h[n];
    }
    forall n | 0 <= n < |h'| && h'[n] == b
      ensures a in h'[..n]
    {
      assert h'[..n][i] == h[i];
    }
  }

  lemma StillBefore(states: seq<State>, actions: seq<Action>, i: nat, k: nat, x: PointId, b: PointId)
    requires IsRun(states, actions) && i <= k < |states| && HappensBefore(states[i], x, b)
    ensures HappensBefore(states[k], x, b)
  {
    RunsMoveForward(states, actions, i, k);
    var es: seq<EdgeId> :| es != [] && IsPath(states[i], es, x, b);
    PathStays(states[i], states[k], es, x, b);
  }

  /** The order of locking follows happens-before. Let the end of a happen before b at some
      moment when b has not yet begun to take guards. Then once b has begun, the end of a
      has occurred, a has taken every guard g it was told to lock, and b comes after a in
      the history of g; in whatever order they asked, and whether or not b ever occurs. */
  lemma GuardOrderFollowsHappensBefore(states: seq<State>, actions: seq<Action>, i: nat, k: nat, a: PointId, b: PointId, g: GuardId)
    requires IsRun(states, actions) && i <= k < |states|
    requires a in states[i].points && states[i].points[a].bound.Some?
    requires HappensBefore(states[i], EndOf(states[i], a), b) && !Turned(states[i], b)
    requires Turned(states[k], b) && AskedOrTaken(states[k], a, g)
    ensures Occ(states[k], EndOf(states[i], a)) && !AskedFor(states[k], a, g)
    ensures g in states[k].guards && a in states[k].guards[g].holders && TakesFirst(states[k], g, a, b)
  {
    var end := EndOf(states[i], a);
    var m := TurningPoint(states, actions, i, k, b);
    StillBefore(states, actions, i, m, end, b);
    TurnsWithAllOver(states, actions, m, b, end);
    TurnsUnpinned(states, actions, m, b);
    EndedByThen(states, actions, i, m, k, a, g);
    HeldWhenOccurred(states, actions, m, k, a, g);
    HistoryGrows(states, actions, m, k, g);
    PrefixTakesFirst(states[m], states[k], g, a, b);
  }

  lemma EndedByThen(states: seq<State>, actions: seq<Action>, i: nat, m: nat, k: nat, a: PointId, g: GuardId)
    requires IsRun(states, actions) && i <= m <= k < |states| && a in states[i].points && states[i].points[a].bound.Some?
    requires Occ(states[m], EndOf(states[i], a)) && AskedOrTaken(states[k], a, g)
    ensures Occ(states[m], a) && Occ(states[k], EndOf(states[i], a)) && !AskedFor(states[k], a, g)
    ensures g in states[k].guards && a in states[k].guards[g].holders
  {
    RunsMoveForward(states, actions, i, m);
    RunsMoveForward(states, actions, m, k);
    RunKeepsInvariant(states, actions, m);
    RunKeepsInvariant(states, actions, k);
    EndFollows(states[m], a);
    OccurredAsksNothing(states[k], a, g);
  }

  /** And the other way round: if b took g before a although the end of a happens before b,
      then b never occurs. */
  lemma WrongOrderNeverOccurs(states: seq<State>, actions: seq<Action>, i: nat, k: nat, g: GuardId, a: PointId, b: PointId, m: nat, n: nat)
    requires IsRun(states, actions) && i <= k < |states| && g in states[i].guards && n < m < |states[i].guards[g].holders|
    requires states[i].guards[g].holders[m] == a && states[i].guards[g].holders[n] == b
    requires a in states[i].points && states[i].points[a].bound.Some? && HappensBefore(states[i], EndOf(states[i], a), b)
    ensures !Occ(states[k], b)
  {
    RunsMoveForward(states, actions, i, k);
    HistoryGrows(states, actions, i, k, g);
    StillBefore(states, actions, i, k, EndOf(states[i], a), b);
    PrefixReachable(states, actions, k);
    if Occ(states[k], b) {
      GuardOrderExtendsHappensBefore(states[k], g, a, b, m, n);
    }
  }
}
