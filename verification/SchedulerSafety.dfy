/** Whom the client may make wait: the safety checks single out points that are still
    held up by something other than the taking of guards. */
module SchedulerSafety {
  import opened SchedulerState
  import opened SchedulerSteps
  import opened SchedulerInvariant

  /** q has not occurred, cannot occur yet, and is not about to turn to its guards. */
  ghost predicate Pinned(s: State, q: PointId) {
    q in s.points && !HasOccurred(s.points[q].life) &&
    (s.points[q].owner.Some? || s.points[q].run != Closed || WaitEdges(s, q) != {})
  }

  /** Everything that an unoccurred point happens before waits on an edge. */
  lemma {:induction false} AfterUnoccurred(s: State, es: seq<EdgeId>, a: PointId, b: PointId)
    requires Shape(s) && Ordered(s) && es != [] && IsPath(s, es, a, b)
    requires a in s.points && !HasOccurred(s.points[a].life)
    ensures b in s.points && !HasOccurred(s.points[b].life) && WaitEdges(s, b) != {}
  {
    var c := s.edges[es[0]].dst;
    assert !HasOccurred(s.points[c].life);
    if es[1..] == [] {
      assert es[0] in WaitEdges(s, b);
    } else {
      AfterUnoccurred(s, es[1..], c, b);
    }
  }

  /** A point with an open task, or on an unscheduled list, or bounding such a point,
      or after the end of a running task, is pinned. */
  lemma AllowedTargetIsPinned(s: State, t: PointId, q: PointId)
    requires Shape(s) && Ordered(s) && Tasks(s) && InBody(s, t) && CanAddDep(s, t, q)
    ensures Pinned(s, q)
  {
    if HappensBefore(s, t, q) {
      var es: seq<EdgeId> :| es != [] && IsPath(s, es, t, q);
      AfterUnoccurred(s, es, t, q);
    } else if q == t {
      assert !HasOccurred(s.points[t].life);
    } else {
      var u :| u in s.points && s.points[u].owner == Some(t) && (u == q || s.points[u].bound == Some(q));
      assert !HasOccurred(s.points[u].life);
      if u != q {
        assert BoundOk(s, u);
        assert BoundOf(u) in s.edges && s.edges[BoundOf(u)].dst == q;
        assert BoundOf(u) in WaitEdges(s, q);
      }
    }
  }
}
