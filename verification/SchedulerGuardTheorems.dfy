/** What guards are for: mutual exclusion, and an order of locking that follows the
    happens-before relation. */
module SchedulerGuardTheorems {
  import opened SchedulerState
  import opened SchedulerSteps
  import opened SchedulerInvariant
  import opened SchedulerRuns
  import opened SchedulerHistory
  import opened SchedulerSafetyTheorems
  import opened SchedulerTurns
  import opened SchedulerRootLock

  function EndOf(s: State, p: PointId): PointId
    requires p in s.points && s.points[p].bound.Some?
  {
    s.points[p].bound.value
  }

  lemma EndFollows(s: State, p: PointId)
    requires Shape(s) && Ordered(s) && p in s.points && s.points[p].bound.Some? && Occ(s, EndOf(s, p))
    ensures OccurredBefore(s, p, EndOf(s, p))
  {
    assert BoundOk(s, p);
    assert s.edges[BoundOf(p)].dst == EndOf(s, p);
  }

  lemma HandOverOrder(s: State, g: GuardId, first: PointId, second: PointId)
    requires Ordered(s) && HandedOver(s, g, first, second) && Occ(s, second) && s.points[first].bound.Some?
    ensures OccurredBefore(s, EndOf(s, first), second)
  {
    var e :| e in s.edges && s.edges[e].src == s.points[first].bound.value && s.edges[e].dst == second;
  }

  /** Along the chain of hand-overs, whoever has started found all earlier holders ended.
      Only the end of the root, which has no bound, can hold a guard for ever. */
  lemma {:induction false} ChainOrder(s: State, g: GuardId, i: nat, j: nat)
    requires Shape(s) && Ordered(s) && Chains(s) && BoundsCount(s) && RootHoldsLast(s)
    requires g in s.guards && i < j < |s.guards[g].holders| && Occ(s, s.guards[g].holders[j])
    ensures var h := s.guards[g].holders;
            h[i] in s.points &&
            (if s.points[h[i]].bound.Some? then OccurredBefore(s, EndOf(s, h[i]), h[j]) else h[j] == h[i])
  {
    var h := s.guards[g].holders;
    assert ChainOk(s, g);
    assert HandedOver(s, g, h[j - 1], h[j]) && BoundOk(s, h[j - 1]);
    if s.points[h[j - 1]].bound.Some? {
      HandOverOrder(s, g, h[j - 1], h[j]);
      if i < j - 1 {
        EndFollows(s, h[j - 1]);
        ChainOrder(s, g, i, j - 1);
      }
    } else if i < j - 1 {
      ChainOrder(s, g, i, j - 1);
    }
  }

  /** p held a lock that q found released: its end occurred before q. */
  ghost predicate ReleasedBefore(s: State, p: PointId, q: PointId) {
    p in s.points && s.points[p].bound.Some? && OccurredBefore(s, EndOf(s, p), q)
  }

  /** Mutual exclusion: of two points that took the same guard and have both occurred,
      one came strictly after the end of the other. */
  lemma MutualExclusion(s: State, g: GuardId, p: PointId, q: PointId)
    requires Reachable(s) && g in s.guards && p in s.guards[g].holders && q in s.guards[g].holders && p != q
    requires Occ(s, p) && Occ(s, q)
    ensures ReleasedBefore(s, p, q) || ReleasedBefore(s, q, p)
  {
    ReachableInvariant(s);
    ReachableBoundsCount(s);
    ReachableRootLast(s);
    var h := s.guards[g].holders;
    var i :| 0 <= i < |h| && h[i] == p;
    var j :| 0 <= j < |h| && h[j] == q;
    if i < j {
      ChainOrder(s, g, i, j);
    } else {
      ChainOrder(s, g, j, i);
    }
  }

  /** If a's end happens before b, and b has occurred, then a took the guard before b did,
      in whatever order the locks were asked for. */
  lemma GuardOrderExtendsHappensBefore(s: State, g: GuardId, a: PointId, b: PointId, i: nat, j: nat)
    requires Reachable(s) && g in s.guards && i < |s.guards[g].holders| && j < |s.guards[g].holders|
    requires s.guards[g].holders[i] == a && s.guards[g].holders[j] == b && Occ(s, b)
    requires a in s.points && s.points[a].bound.Some? && HappensBefore(s, EndOf(s, a), b)
    ensures i < j
  {
    ReachableInvariant(s);
    ReachableBoundsCount(s);
    ReachableRootLast(s);
    HappensBeforeIsRespected(s, EndOf(s, a), b);
    EndFollows(s, a);
    if j < i {
      ChainOrder(s, g, j, i);
      if s.points[b].bound.Some? {
        EndFollows(s, b);
      }
    }
  }

  // ----- Every lock that is asked for is taken ------------------------------------------------

  ghost predicate AskedFor(s: State, p: PointId, g: GuardId) {
    exists r :: r in s.requests && s.requests[r] == Request(p, g)
  }

  /** p asked for g, and has not been forgotten. */
  ghost predicate AskedOrTaken(s: State, p: PointId, g: GuardId) {
    AskedFor(s, p, g) || (g in s.guards && p in s.guards[g].holders)
  }

  lemma StillAskedOrTaken(s: State, s': State, p: PointId, g: GuardId)
    requires RemembersLocks(s, s') && AskedOrTaken(s, p, g)
    ensures AskedOrTaken(s', p, g)
  {
    if AskedFor(s, p, g) {
      var r :| r in s.requests && s.requests[r] == Request(p, g);
      assert r in s'.requests && s'.requests[r] == s.requests[r] ==> AskedFor(s', p, g);
    }
  }

  lemma RunStepRemembers(states: seq<State>, actions: seq<Action>, k: nat)
    requires IsRun(states, actions) && k < |actions|
    ensures RemembersLocks(states[k], states[k + 1])
  {
    RunKeepsInvariant(states, actions, k);
    StepAdvances(states[k], actions[k], states[k + 1]);
  }

  lemma {:induction false} RunRemembersLocks(states: seq<State>, actions: seq<Action>, i: nat, k: nat, p: PointId, g: GuardId)
    requires IsRun(states, actions) && i <= k < |states| && AskedOrTaken(states[i], p, g)
    ensures AskedOrTaken(states[k], p, g)
    decreases k
  {
    if i < k {
      RunRemembersLocks(states, actions, i, k - 1, p, g);
      RunStepRemembers(states, actions, k - 1);
      StillAskedOrTaken(states[k - 1], states[k], p, g);
    }
  }

  /** A point that occurs has taken every guard it was ever told to lock. */
  lemma OccursOnlyWithItsLocks(states: seq<State>, actions: seq<Action>, i: nat, k: nat, t: PointId, p: PointId, g: GuardId, r: RequestId)
    requires IsRun(states, actions) && i < |actions| && actions[i] == AddLock(t, p, g, r)
    requires i < k < |states| && Occ(states[k], p)
    ensures g in states[k].guards && p in states[k].guards[g].holders
  {
    assert states[i + 1].requests[r] == Request(p, g);
    RunRemembersLocks(states, actions, i + 1, k, p, g);
    RunKeepsInvariant(states, actions, k);
    forall q | q in states[k].requests
      ensures states[k].requests[q] != Request(p, g)
    {
      assert RequestOk(states[k], q);
    }
  }

  /** Mutual exclusion as the client sees it: after both intervals were told to lock g,
      no moment finds both started and neither ended. */
  lemma LockedIntervalsDoNotOverlap(states: seq<State>, actions: seq<Action>, k: nat, g: GuardId,
                                    i: nat, t: PointId, p: PointId, r: RequestId,
                                    j: nat, u: PointId, q: PointId, x: RequestId)
    requires IsRun(states, actions) && i < |actions| && actions[i] == AddLock(t, p, g, r)
    requires j < |actions| && actions[j] == AddLock(u, q, g, x) && p != q
    requires i < k < |states| && j < k && Occ(states[k], p) && Occ(states[k], q)
    ensures var s := states[k];
            ReleasedBefore(s, p, q) || ReleasedBefore(s, q, p)
  {
    OccursOnlyWithItsLocks(states, actions, i, k, t, p, g, r);
    OccursOnlyWithItsLocks(states, actions, j, k, u, q, g, x);
    PrefixReachable(states, actions, k);
    MutualExclusion(states[k], g, p, q);
  }

  lemma PrefixReachable(states: seq<State>, actions: seq<Action>, k: nat)
    requires IsRun(states, actions) && k < |states|
    ensures Reachable(states[k])
  {
    assert IsRun(states[..k + 1], actions[..k]);
    assert states[..k + 1][k] == states[k];
  }
}
