/** The end of the root may be locked too. It has no bound, so a guard it takes is handed
    over to nobody; but by then nobody is left who could ask for it. */
module SchedulerRootLock {
  import opened SchedulerState
  import opened SchedulerSteps
  import opened SchedulerInvariant
  import opened SchedulerSafety
  import opened SchedulerRuns
  import opened SchedulerHistory
  import opened SchedulerTurns

  /** Once the end of the root has turned to its guards, all other points have occurred,
      and its own block is over. */
  ghost predicate RootTurnsLast(s: State) {
    Turned(s, ROOT) ==>
      s.points[ROOT].run == Closed && forall p :: p in s.points && p != ROOT ==> HasOccurred(s.points[p].life)
  }

  /** In the history of a guard nobody follows the end of the root. */
  ghost predicate RootHoldsLast(s: State) {
    forall g, i, j :: g in s.guards && 0 <= i < j < |s.guards[g].holders| && s.guards[g].holders[i] == ROOT ==>
      s.guards[g].holders[j] == ROOT
  }

  /** If nothing holds up the end of the root, the bounds of all others have occurred. */
  lemma {:induction false} BoundedHasOccurred(s: State, p: PointId)
    requires Ordered(s) && BoundsCount(s) && p in s.points && p != ROOT && WaitEdges(s, ROOT) == {}
    ensures HasOccurred(s.points[p].life)
    decreases s.points[p].depth
  {
    assert BoundOk(s, p);
    var b := s.points[p].bound.value;
    if b == ROOT {
      assert BoundOf(p) !in WaitEdges(s, ROOT);
    } else {
      BoundedHasOccurred(s, b);
    }
  }

  lemma RootStillTurnsLast(s: State, a: Action, s': State)
    requires Invariant(s) && CountsInRange(s) && Step(s, a, s') && RootTurnsLast(s) && BoundsCount(s')
    ensures RootTurnsLast(s')
  {
    StepKeepsInvariant(s, a, s');
    StepEffect(s, a, s');
    StepMovesForward(s, a, s');
    if Turned(s, ROOT) {
      NobodyIsBorn(s, s');
      OthersStayOccurred(s, s');
    } else if Turned(s', ROOT) {
      JustTurned(s, s', ROOT);
      NothingLeftButRoot(s');
    }
  }

  lemma OthersStayOccurred(s: State, s': State)
    requires Turned(s, ROOT) && RootTurnsLast(s) && PointsAdvance(s, s') && s'.points.Keys == s.points.Keys
    ensures RootTurnsLast(s')
  {
  }

  lemma NothingLeftButRoot(s: State)
    requires Ordered(s) && BoundsCount(s) && !Pinned(s, ROOT)
    ensures RootTurnsLast(s)
  {
    if !HasOccurred(s.points[ROOT].life) {
      forall p | p in s.points && p != ROOT
        ensures HasOccurred(s.points[p].life)
      {
        BoundedHasOccurred(s, p);
      }
    } else {
      forall p | p in s.points && p != ROOT
        ensures HasOccurred(s.points[p].life)
      {
        BoundOfOccurred(s, p);
      }
    }
  }

  lemma {:induction false} BoundOfOccurred(s: State, p: PointId)
    requires Ordered(s) && BoundsCount(s) && p in s.points && HasOccurred(s.points[ROOT].life)
    ensures HasOccurred(s.points[p].life)
    decreases s.points[p].depth
  {
    if p != ROOT {
      assert BoundOk(s, p);
      BoundOfOccurred(s, s.points[p].bound.value);
      assert s.edges[BoundOf(p)].dst == s.points[p].bound.value;
    }
  }

  lemma BodyUnoccurred(s: State, t: PointId)
    requires Ordered(s) && InBody(s, t)
    ensures !HasOccurred(s.points[t].life) && s.points[t].run != Closed
  {
  }

  lemma NobodyIsBorn(s: State, s': State)
    requires Ordered(s) && Turned(s, ROOT) && RootTurnsLast(s) && BornInBody(s, s')
    ensures s'.points.Keys == s.points.Keys
  {
    forall t
      ensures !InBody(s, t)
    {
      if InBody(s, t) {
        BodyUnoccurred(s, t);
      }
    }
  }

  lemma RootStillHoldsLast(s: State, s': State)
    requires RootTurnsLast(s) && RootHoldsLast(s) && Chains(s) && HoldersWereTaking(s, s') && RemembersLocks(s, s')
    ensures RootHoldsLast(s')
  {
    forall g, i, j | g in s'.guards && 0 <= i < j < |s'.guards[g].holders| && s'.guards[g].holders[i] == ROOT
      ensures s'.guards[g].holders[j] == ROOT
    {
      HolderStays(s, s', g, i, j);
    }
  }

  lemma HolderStays(s: State, s': State, g: GuardId, i: nat, j: nat)
    requires RootTurnsLast(s) && RootHoldsLast(s) && Chains(s) && HoldersWereTaking(s, s') && RemembersLocks(s, s')
    requires g in s'.guards && i < j < |s'.guards[g].holders| && s'.guards[g].holders[i] == ROOT
    ensures s'.guards[g].holders[j] == ROOT
  {
    HolderHadTurned(s, s', ROOT);
    assert Turned(s, ROOT);
    if g in s.guards && j < |s.guards[g].holders| {
      assert s.guards[g].holders <= s'.guards[g].holders;
    }
  }

  lemma {:induction false} RunKeepsRootLast(states: seq<State>, actions: seq<Action>, i: nat)
    requires IsRun(states, actions) && i < |states|
    ensures RootTurnsLast(states[i]) && RootHoldsLast(states[i])
  {
    if i > 0 {
      var s, s' := states[i - 1], states[i];
      RunKeepsRootLast(states, actions, i - 1);
      RunKeepsInvariant(states, actions, i - 1);
      RunBoundsCount(states, actions, i);
      RootStillTurnsLast(s, actions[i - 1], s');
      StepEffect(s, actions[i - 1], s');
      StepAdvances(s, actions[i - 1], s');
      RootStillHoldsLast(s, s');
    }
  }

  lemma ReachableRootLast(s: State)
    requires Reachable(s)
    ensures RootTurnsLast(s) && RootHoldsLast(s)
  {
    var states: seq<State>, actions: seq<Action> :| IsRun(states, actions) && states[|states| - 1] == s;
    RunKeepsRootLast(states, actions, |states| - 1);
  }
}
