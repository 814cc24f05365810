/** Which points occur in a cascade of notifications does not depend on their order. */
module SchedulerCascade {
  import opened SchedulerState
  import opened SchedulerSteps
  import opened SchedulerInvariant
  import opened SchedulerRuns

  function OccurredPoints(s: State): set<PointId> {
    set p | p in s.points && HasOccurred(s.points[p].life)
  }

  /** Only edges can hold q up: it has been scheduled and has no open task. */
  predicate OnlyEdgesHold(s: State, q: PointId) {
    q in s.points && s.points[q].owner == None && s.points[q].run == Closed
  }

  /** Nobody asks for guards or is taking them. */
  ghost predicate NoGuards(s: State) {
    s.requests == map[] && (forall p :: p in s.points ==> !s.points[p].life.Acquiring?)
  }

  /** A run of deliveries, one after the other. */
  ghost predicate Cascade(states: seq<State>, es: seq<EdgeId>) {
    |states| == |es| + 1 && Invariant(states[0]) && NoGuards(states[0]) &&
    (forall i :: 0 <= i < |es| ==> Step(states[i], Deliver(es[i]), states[i + 1]))
  }

  /** X contains what has occurred and, with all sources of the edges into q, also q. */
  ghost predicate ClosedUnderArrival(s: State, X: set<PointId>) {
    OccurredPoints(s) <= X &&
    (forall q :: OnlyEdgesHold(s, q) && (forall e :: e in s.edges && s.edges[e].dst == q ==> s.edges[e].src in X) ==> q in X)
  }

  /** The states of a cascade differ only in counts, lives and notifications. */
  ghost predicate SameGraph(s: State, s': State) {
    s'.edges == s.edges && s'.points.Keys == s.points.Keys && s'.requests == s.requests &&
    (forall p :: p in s.points ==>
       s'.points[p].owner == s.points[p].owner && s'.points[p].run == s.points[p].run)
  }

  lemma ArriveMeans(s: State, q: PointId, add: nat)
    requires q in s.points && s.requests == map[]
    ensures var s' := Arrive(s, q, add);
            SameGraph(s, s') &&
            (forall p :: p in s.points && p != q ==> s'.points[p] == s.points[p]) &&
            (s'.points[q].life == s.points[q].life || s'.points[q].life.Occurred?)
  {
  }

  lemma DeliveryMeans(s: State, e: EdgeId, s': State)
    requires Step(s, Deliver(e), s') && NoGuards(s)
    ensures SameGraph(s, s') && NoGuards(s') && OccurredPoints(s') <= OccurredPoints(s) + {s.edges[e].dst}
  {
    ArriveMeans(s.(inflight := s.inflight - {e}), s.edges[e].dst, Bit(!IsDead(s.points[s.edges[e].src].life)));
  }

  /** A delivery makes a point occur only if all its predecessors have. */
  lemma DeliveryStaysInside(s: State, e: EdgeId, s': State, X: set<PointId>)
    requires Invariant(s) && NoGuards(s) && Step(s, Deliver(e), s') && ClosedUnderArrival(s, X)
    ensures ClosedUnderArrival(s', X)
  {
    DeliverStep(s, e, s');
    DeliveryMeans(s, e, s');
    var q := s.edges[e].dst;
    if Occ(s', q) {
      forall d | d in s.edges && s.edges[d].dst == q
        ensures s.edges[d].src in X
      {
        assert s'.points[s'.edges[d].src].life.at < s'.points[q].life.at;
        assert s.edges[d].src in OccurredPoints(s');
      }
      assert OnlyEdgesHold(s, q);
    }
  }

  lemma {:induction false} CascadeStaysInside(states: seq<State>, es: seq<EdgeId>, X: set<PointId>, i: nat)
    requires Cascade(states, es) && ClosedUnderArrival(states[0], X) && i < |states|
    ensures Invariant(states[i]) && NoGuards(states[i]) && SameGraph(states[0], states[i])
    ensures ClosedUnderArrival(states[i], X)
  {
    if i > 0 {
      CascadeStaysInside(states, es, X, i - 1);
      DeliveryStaysInside(states[i - 1], es[i - 1], states[i], X);
      DeliveryMeans(states[i - 1], es[i - 1], states[i]);
      DeliverStep(states[i - 1], es[i - 1], states[i]);
    }
  }

  /** When every notification has arrived, the points that occurred form a closed set. */
  lemma FinishedIsClosed(s: State)
    requires Invariant(s) && NoGuards(s) && s.inflight == {}
    ensures ClosedUnderArrival(s, OccurredPoints(s))
  {
    var X := OccurredPoints(s);
    forall q | OnlyEdgesHold(s, q) && (forall e :: e in s.edges && s.edges[e].dst == q ==> s.edges[e].src in X)
      ensures q in X
    {
      assert WaitsOk(s, q, Debt(None, q));
      forall e
        ensures e !in WaitEdges(s, q)
      {
      }
      assert WaitEdges(s, q) == {};
    }
  }

  lemma ClosedInFirst(s: State, s': State, X: set<PointId>)
    requires SameGraph(s, s') && ClosedUnderArrival(s', X) && OccurredPoints(s) <= X
    ensures ClosedUnderArrival(s, X)
  {
    forall q | OnlyEdgesHold(s, q) && (forall e :: e in s.edges && s.edges[e].dst == q ==> s.edges[e].src in X)
      ensures q in X
    {
      assert OnlyEdgesHold(s', q);
      assert s'.edges == s.edges;
    }
  }

  lemma {:induction false} OccurredGrows(states: seq<State>, es: seq<EdgeId>, i: nat)
    requires Cascade(states, es) && i < |states|
    ensures Invariant(states[i]) && NoGuards(states[i]) && SameGraph(states[0], states[i])
    ensures OccurredPoints(states[0]) <= OccurredPoints(states[i])
  {
    if i > 0 {
      OccurredGrows(states, es, i - 1);
      DeliveryMeans(states[i - 1], es[i - 1], states[i]);
      DeliverStep(states[i - 1], es[i - 1], states[i]);
      DeliveryKeepsOccurred(states[i - 1], es[i - 1], states[i]);
    }
  }

  lemma DeliveryKeepsOccurred(s: State, e: EdgeId, s': State)
    requires Step(s, Deliver(e), s') && NoGuards(s)
    ensures OccurredPoints(s) <= OccurredPoints(s')
  {
    ArriveMeans(s.(inflight := s.inflight - {e}), s.edges[e].dst, Bit(!IsDead(s.points[s.edges[e].src].life)));
  }

  /** What has occurred at the end of a finished cascade is the least closed set. */
  lemma FinishedCascadeIsLeast(states: seq<State>, es: seq<EdgeId>, X: set<PointId>)
    requires Cascade(states, es) && states[|es|].inflight == {}
    ensures ClosedUnderArrival(states[0], OccurredPoints(states[|es|]))
    ensures ClosedUnderArrival(states[0], X) ==> OccurredPoints(states[|es|]) <= X
  {
    OccurredGrows(states, es, |es|);
    FinishedIsClosed(states[|es|]);
    ClosedInFirst(states[0], states[|es|], OccurredPoints(states[|es|]));
    if ClosedUnderArrival(states[0], X) {
      CascadeStaysInside(states, es, X, |es|);
    }
  }

  /** Two cascades from the same state, in any two orders, make the same points occur. */
  lemma OrderOfNotificationsDoesNotMatter(states: seq<State>, es: seq<EdgeId>, states': seq<State>, es': seq<EdgeId>)
    requires Cascade(states, es) && Cascade(states', es') && states'[0] == states[0]
    requires states[|es|].inflight == {} && states'[|es'|].inflight == {}
    ensures OccurredPoints(states[|es|]) == OccurredPoints(states'[|es'|])
  {
    FinishedCascadeIsLeast(states, es, OccurredPoints(states'[|es'|]));
    FinishedCascadeIsLeast(states', es', OccurredPoints(states[|es|]));
  }
}
