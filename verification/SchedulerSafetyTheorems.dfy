/** What holds in every reachable state: the counting equations, happens-before safety,
    the absence of dangling pointers, and the structured join. */
module SchedulerSafetyTheorems {
  import opened SchedulerState
  import opened SchedulerSteps
  import opened SchedulerInvariant
  import opened SchedulerRuns

  // ----- Happens before ------------------------------------------------------------------

  ghost predicate OccurredBefore(s: State, a: PointId, b: PointId) {
    Occ(s, a) && Occ(s, b) && s.points[a].life.at < s.points[b].life.at
  }

  lemma {:induction false} PathOrder(s: State, es: seq<EdgeId>, a: PointId, b: PointId)
    requires Shape(s) && Ordered(s) && es != [] && IsPath(s, es, a, b) && Occ(s, b)
    ensures OccurredBefore(s, a, b)
  {
    var c := s.edges[es[0]].dst;
    if es[1..] != [] {
      PathOrder(s, es[1..], c, b);
    }
  }

  /** Whatever edges were added, by whom and when: if b has occurred, then everything
      that happens before b had occurred, strictly earlier. */
  lemma HappensBeforeIsRespected(s: State, a: PointId, b: PointId)
    requires Reachable(s) && HappensBefore(s, a, b) && Occ(s, b)
    ensures OccurredBefore(s, a, b)
  {
    ReachableInvariant(s);
    var es: seq<EdgeId> :| es != [] && IsPath(s, es, a, b);
    PathOrder(s, es, a, b);
  }

  // ----- Counts ----------------------------------------------------------------------------

  /** The wait count of a point that has not occurred is exactly the number of edges and
      tokens that hold it up, and is never zero; a point that has occurred is held up by
      nothing. */
  lemma WaitCountEquation(s: State, q: PointId)
    requires Reachable(s) && q in s.points
    ensures if Occ(s, q) then s.points[q].wc == WC_STARTED && WaitTotal(s, q) == 0
            else s.points[q].wc == WaitTotal(s, q) >= 1
  {
    ReachableInvariant(s);
    assert WaitsOk(s, q, Debt(None, q));
    if Occ(s, q) {
      forall e
        ensures e !in WaitEdges(s, q)
      {
      }
      assert WaitEdges(s, q) == {};
    }
  }

  /** The reference count of a live point is exactly the number of its owners, except
      that a dead point, whose one owner is the scheduler or the thread running its
      task, stands at zero; and nothing at all refers to a freed point. */
  lemma RefCountEquation(s: State, q: PointId)
    requires Reachable(s) && q in s.points
    ensures var life := s.points[q].life;
            if life.Freed? then RefTotal(s, q) == 0
            else if IsDead(life) then s.points[q].rc == RC_DEAD_PRE && RefTotal(s, q) == 1 && SchedulerHolds(life)
            else s.points[q].rc == RefTotal(s, q) >= 1
  {
    ReachableInvariant(s);
    assert RefsOk(s, q, Debt(None, q));
  }

  /** Every arrival finds a point that is still waiting for it: no count underflows, and
      no point that was marked started is arrived at. */
  lemma ArrivalsAreAwaited(s: State, a: Action, q: PointId)
    requires Reachable(s) && Enabled(s, a)
    requires (a.Deliver? && q == s.edges[a.e].dst) || (a.Schedule? && q == a.p) ||
             (a.EndTask? && q == a.t) || (a.LocksTaken? && q == a.p)
    ensures q in s.points && !Occ(s, q) && 1 <= s.points[q].wc < WC_STARTED
  {
    ReachableInvariant(s);
    assert WaitsOk(s, q, Debt(None, q));
  }

  // ----- Pointers ----------------------------------------------------------------------------

  /** Something that is still looked at: an edge or bound of a point that has not
      occurred or that is alive and retains its successors, a notification on its way, an
      unscheduled start, the end or the current start of a running task, the last_lock
      of a guard, or the former holder of a lock being handed over. */
  ghost predicate LookedAt(s: State, q: PointId) {
    q in s.points &&
    ((exists e :: ConnectedIn(s, e) && s.edges[e].dst == q && (!Occ(s, s.edges[e].src) || Usable(s, s.edges[e].src) || e in s.inflight))
     || s.points[q].owner.Some?
     || s.points[q].run.Body? || s.points[q].run.Flushing?
     || (exists t :: t in s.points && s.points[t].run.Body? && s.points[t].run.cur == Some(q))
     || RefGuards(s, q) != {} || RefTakers(s, q) != {} || s.points[q].user > 0)
  }

  lemma EdgeTargetLives(s: State, e: EdgeId)
    requires Invariant(s) && ConnectedIn(s, e)
    requires !Occ(s, s.edges[e].src) || Usable(s, s.edges[e].src) || e in s.inflight
    ensures !s.points[s.edges[e].dst].life.Freed?
    ensures Usable(s, s.edges[e].src) ==> Usable(s, s.edges[e].dst)
  {
    var p, q := s.edges[e].src, s.edges[e].dst;
    assert RefsOk(s, q, Debt(None, q));
    if Occ(s, q) {
      assert e in RefEdges(s, q);
    }
  }

  lemma HolderLives(s: State, q: PointId)
    requires RefCounts(s, None) && q in s.points && (RefGuards(s, q) != {} || RefTakers(s, q) != {} || s.points[q].user > 0)
    ensures Usable(s, q)
  {
    assert RefsOk(s, q, Debt(None, q));
    if g :| g in RefGuards(s, q) {
      assert |RefGuards(s, q)| >= 1;
    }
    if t :| t in RefTakers(s, q) {
      assert |RefTakers(s, q)| >= 1;
    }
  }

  /** No dangling pointer is ever looked at. */
  lemma NoDanglingPointers(s: State, q: PointId)
    requires Reachable(s) && LookedAt(s, q)
    ensures !s.points[q].life.Freed?
  {
    ReachableInvariant(s);
    if e :| ConnectedIn(s, e) && s.edges[e].dst == q && (!Occ(s, s.edges[e].src) || Usable(s, s.edges[e].src) || e in s.inflight) {
      EdgeTargetLives(s, e);
    } else if t :| t in s.points && s.points[t].run.Body? && s.points[t].run.cur == Some(q) {
      assert TaskOk(s, t) && TaskOk(s, q);
    } else if RefGuards(s, q) != {} || RefTakers(s, q) != {} || s.points[q].user > 0 {
      HolderLives(s, q);
    } else {
    }
  }

  /** From a point that the client may use, every successor and every bound may be used,
      and so on along any chain of edges. */
  lemma {:induction false} UsableAlongPaths(s: State, es: seq<EdgeId>, a: PointId, b: PointId)
    requires Reachable(s) && Usable(s, a) && IsPath(s, es, a, b)
    ensures Usable(s, b)
  {
    if es != [] {
      ReachableInvariant(s);
      EdgeTargetLives(s, es[0]);
      UsableAlongPaths(s, es[1..], s.edges[es[0]].dst, b);
    }
  }

  /** A reference of the client keeps a point usable. */
  lemma RetainedIsUsable(s: State, p: PointId)
    requires Reachable(s) && p in s.points && s.points[p].user > 0
    ensures Usable(s, p)
  {
    ReachableInvariant(s);
    HolderLives(s, p);
  }

  /** The current start kept by a running task has occurred and can take outgoing edges;
      a task whose start is dead keeps none. */
  lemma CurrentStartIsUsable(s: State, t: PointId)
    requires Reachable(s) && t in s.points && s.points[t].run.Body?
    ensures !Occ(s, t)
    ensures s.points[t].run.cur.Some? ==> Usable(s, s.points[t].run.cur.value) && Occ(s, s.points[t].run.cur.value)
  {
    ReachableInvariant(s);
    assert TaskOk(s, t);
    if s.points[t].run.cur.Some? {
      assert TaskOk(s, s.points[t].run.cur.value);
    }
  }

  // ----- Structured join -----------------------------------------------------------------------

  /** b bounds p, directly or through other bounds; every point bounds itself. (In every
      reachable state the bound of a point is known and one level up.) */
  predicate BoundedBy(s: State, p: PointId, b: PointId)
    requires p in s.points
    decreases s.points[p].depth
  {
    p == b ||
    (s.points[p].bound.Some? && s.points[p].bound.value in s.points &&
     s.points[s.points[p].bound.value].depth < s.points[p].depth && BoundedBy(s, s.points[p].bound.value, b))
  }

  /** The block that p starts, or that p is the end of, has run to completion. */
  predicate TaskFinished(s: State, p: PointId)
    requires p in s.points
  {
    (s.points[p].run == Closed) &&
    (s.points[p].task == Block && s.points[p].bound.Some? && s.points[p].bound.value in s.points ==>
       s.points[s.points[p].bound.value].run == Closed)
  }

  lemma {:induction false} BoundChainOccurred(s: State, p: PointId, b: PointId)
    requires Invariant(s) && p in s.points && BoundedBy(s, p, b) && Occ(s, b)
    ensures Occ(s, p) && (p != b ==> OccurredBefore(s, p, b) && TaskFinished(s, p))
    decreases s.points[p].depth
  {
    if p != b {
      assert BoundOk(s, p) && TaskOk(s, p);
      var c := s.points[p].bound.value;
      BoundChainOccurred(s, c, b);
      assert s.edges[BoundOf(p)].dst == c;
    }
  }

  /** When an end has occurred, everything bounded by it has occurred earlier and its
      tasks are finished. */
  lemma StructuredJoin(s: State, p: PointId, b: PointId)
    requires Reachable(s) && p in s.points && p != b && BoundedBy(s, p, b) && Occ(s, b)
    ensures OccurredBefore(s, p, b) && TaskFinished(s, p)
  {
    ReachableInvariant(s);
    BoundChainOccurred(s, p, b);
  }

  /** subinterval() returns only when its end has occurred, hence when everything inside
      it is over, and the task that called it is still running. */
  lemma SubintervalJoins(s: State, t: PointId, p: PointId)
    requires Reachable(s) && Enabled(s, SubintervalReturn(t)) && p in s.points
    requires BoundedBy(s, p, s.points[t].run.sub.value)
    ensures Occ(s, p) && TaskFinished(s, p) && !Occ(s, t)
  {
    ReachableInvariant(s);
    var sub := s.points[t].run.sub.value;
    BoundChainOccurred(s, p, sub);
    assert TaskOk(s, t);
  }

  /** A block runs after its start has occurred and before its end does. */
  lemma BlockRunsBetweenStartAndEnd(s: State, p: PointId)
    requires Reachable(s) && p in s.points && s.points[p].task == Block
    ensures s.points[p].bound.Some? && s.points[p].bound.value in s.points
    ensures var run := s.points[s.points[p].bound.value].run;
            (run != NotRun ==> Occ(s, p)) && (run != Closed ==> !Occ(s, s.points[p].bound.value))
  {
    ReachableInvariant(s);
    assert TaskOk(s, p);
  }
}
