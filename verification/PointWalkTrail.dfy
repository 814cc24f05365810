/** Where the walk of point_hb() goes, told without its queue: from each point that it comes
    to alone it looks at the first and at the last of the successors that are new, and it
    goes on from the last. */
module PointWalkTrail {
  import opened SchedulerState
  import opened FiniteSets
  import opened PointWalk

  /** The points of ps that are not visited yet, each once, in order. */
  function NewOnes(ps: seq<PointId>, visited: set<PointId>): seq<PointId>
    decreases |ps|
  {
    if ps == [] then []
    else if ps[0] in visited then NewOnes(ps[1..], visited)
    else [ps[0]] + NewOnes(ps[1..], visited + {ps[0]})
  }

  lemma {:induction false} NewOnesAre(ps: seq<PointId>, visited: set<PointId>)
    ensures forall p :: p in NewOnes(ps, visited) <==> p in ps && p !in visited
    decreases |ps|
  {
    if ps != [] {
      assert ps == [ps[0]] + ps[1..];
      if ps[0] in visited {
        NewOnesAre(ps[1..], visited);
      } else {
        NewOnesAre(ps[1..], visited + {ps[0]});
      }
    }
  }

  function SetOf(ps: seq<PointId>): set<PointId> {
    set p | p in ps
  }

  /** What the queue holds for good after new entries were linked: it keeps its first, and
      behind it, unless that stands behind an entry already gone, the last that came. */
  function Linked(q: Queue, ns: seq<PointId>): Queue {
    if ns == [] then q
    else match q
      case Nothing => if |ns| == 1 then One(ns[0]) else Two(ns[0], ns[|ns| - 1])
      case One(a) => Two(a, ns[|ns| - 1])
      case Two(a, _) => Two(a, ns[|ns| - 1])
      case Stale(a) => q
  }

  lemma LinkedOn(q: Queue, p: PointId, ns: seq<PointId>)
    ensures Linked(Push(q, p), ns) == Linked(q, [p] + ns)
  {
  }

  lemma {:induction false} VisitAllLinks(w: Walk, ps: seq<PointId>)
    ensures VisitAll(w, ps) == Walk(w.visited + SetOf(NewOnes(ps, w.visited)), Linked(w.queue, NewOnes(ps, w.visited)))
    decreases |ps|
  {
    if ps == [] {
      assert w.visited + SetOf([]) == w.visited;
    } else {
      var w1 := Visit(w, ps[0]);
      VisitAllLinks(w1, ps[1..]);
      if ps[0] !in w.visited {
        var rest := NewOnes(ps[1..], w1.visited);
        LinkedOn(w.queue, ps[0], rest);
        assert w1.visited + SetOf(rest) == w.visited + SetOf([ps[0]] + rest);
      }
    }
  }

  // ----- The trail ---------------------------------------------------------------------------------

  /** What is known after looking at the successors of p. */
  function Seen(g: Graph, visited: set<PointId>, p: PointId): set<PointId> {
    visited + SetOf(Successors(g, p))
  }

  lemma NewOnesSeen(g: Graph, visited: set<PointId>, p: PointId)
    ensures visited + SetOf(NewOnes(Successors(g, p), visited)) == Seen(g, visited, p)
  {
    NewOnesAre(Successors(g, p), visited);
  }

  /** One stretch of the trail: the points looked at, what has been seen then, and where
      it goes on, if it does. */
  datatype Stretch = Stretch(looked: set<PointId>, seen: set<PointId>, next: Option<PointId>)

  /** From p, when that is all there is to look at. What the first of several new successors
      leads to is seen, but not looked at. */
  function From(g: Graph, visited: set<PointId>, p: PointId): Stretch {
    var ns := NewOnes(Successors(g, p), visited);
    var seen := Seen(g, visited, p);
    if ns == [] then Stretch({p}, seen, None)
    else if |ns| == 1 then Stretch({p}, seen, Some(ns[0]))
    else Stretch({p, ns[0]}, Seen(g, seen, ns[0]), Some(ns[|ns| - 1]))
  }

  ghost function Trail(g: Graph, root: PointId, visited: set<PointId>, p: PointId): set<PointId>
    requires visited <= Known(g, root)
    decreases |Known(g, root) - visited|
  {
    FromIsKnown(g, root, visited, p);
    var stretch := From(g, visited, p);
    stretch.looked + if stretch.next.None? then {} else Trail(g, root, stretch.seen, stretch.next.value)
  }

  lemma FromIsKnown(g: Graph, root: PointId, visited: set<PointId>, p: PointId)
    requires visited <= Known(g, root)
    ensures var stretch := From(g, visited, p);
      stretch.seen <= Known(g, root) && (stretch.next.Some? ==> |Known(g, root) - stretch.seen| < |Known(g, root) - visited|)
  {
    var ns := NewOnes(Successors(g, p), visited);
    SeenIsKnown(g, root, visited, p);
    if |ns| > 1 {
      SeenIsKnown(g, root, Seen(g, visited, p), ns[0]);
    }
  }

  lemma SeenIsKnown(g: Graph, root: PointId, visited: set<PointId>, p: PointId)
    requires visited <= Known(g, root)
    ensures visited <= Seen(g, visited, p) <= Known(g, root)
    ensures |Known(g, root) - Seen(g, visited, p)| <= |Known(g, root) - visited|
    ensures NewOnes(Successors(g, p), visited) != [] ==> |Known(g, root) - Seen(g, visited, p)| < |Known(g, root) - visited|
  {
    SuccessorsKnown(g, root, p);
    SmallerSet(Known(g, root) - Seen(g, visited, p), Known(g, root) - visited);
    var ns := NewOnes(Successors(g, p), visited);
    if ns != [] {
      NewOnesAre(Successors(g, p), visited);
      assert ns[0] in ns;
      FewerLeft(Known(g, root), visited, Seen(g, visited, p), ns[0]);
    }
  }

  /** A queue whose only entry is p. */
  predicate Alone(q: Queue, p: PointId) {
    q == One(p) || q == Stale(p)
  }

  lemma RoundIs(g: Graph, w: Walk)
    requires w.queue != Nothing
    ensures Round(g, w) == Walk(Seen(g, w.visited, w.queue.first), Linked(Pop(w.queue), NewOnes(Successors(g, w.queue.first), w.visited)))
  {
    VisitAllLinks(w.(queue := Pop(w.queue)), Successors(g, w.queue.first));
    NewOnesSeen(g, w.visited, w.queue.first);
  }

  lemma ExploredOn(g: Graph, root: PointId, w: Walk)
    requires Bounded(g, root, w) && w.queue != Nothing
    ensures Bounded(g, root, Round(g, w))
    ensures Explored(g, root, w) == {w.queue.first} + Explored(g, root, Round(g, w))
  {
    RoundProgress(g, root, w);
  }

  /** The queue after a round that began with one entry. */
  lemma RoundAlone(g: Graph, root: PointId, w: Walk, p: PointId)
    requires Bounded(g, root, w) && Alone(w.queue, p)
    ensures var ns, w1 := NewOnes(Successors(g, p), w.visited), Round(g, w);
      && w1.visited == Seen(g, w.visited, p) && Bounded(g, root, w1)
      && Explored(g, root, w) == {p} + Explored(g, root, w1)
      && w1.queue == (if ns == [] then Nothing else if |ns| == 1 then One(ns[0]) else Two(ns[0], ns[|ns| - 1]))
  {
    RoundIs(g, w);
    ExploredOn(g, root, w);
  }

  lemma RoundOfTwo(g: Graph, root: PointId, w: Walk, a: PointId, b: PointId)
    requires Bounded(g, root, w) && w.queue == Two(a, b)
    ensures var w1 := Round(g, w);
      w1 == Walk(Seen(g, w.visited, a), Stale(b)) && Bounded(g, root, w1) && Explored(g, root, w) == {a} + Explored(g, root, w1)
  {
    RoundIs(g, w);
    ExploredOn(g, root, w);
  }

  lemma NothingExplored(g: Graph, root: PointId, w: Walk)
    requires Bounded(g, root, w) && w.queue == Nothing
    ensures Explored(g, root, w) == {}
  {
  }

  lemma StretchWalked(g: Graph, root: PointId, w: Walk, p: PointId) returns (w': Walk)
    requires Bounded(g, root, w) && Alone(w.queue, p)
    ensures var stretch := From(g, w.visited, p);
      && Bounded(g, root, w') && w'.visited == stretch.seen
      && Explored(g, root, w) == stretch.looked + Explored(g, root, w')
      && if stretch.next.Some? then Alone(w'.queue, stretch.next.value) else w'.queue == Nothing
  {
    var ns := NewOnes(Successors(g, p), w.visited);
    RoundAlone(g, root, w, p);
    w' := Round(g, w);
    if |ns| > 1 {
      RoundOfTwo(g, root, w', ns[0], ns[|ns| - 1]);
      w' := Round(g, w');
    }
  }

  /** The walk with its queue looks at exactly the points of the trail. */
  lemma {:induction false} WalkFollowsTrail(g: Graph, root: PointId, w: Walk, p: PointId)
    requires Bounded(g, root, w) && Alone(w.queue, p)
    ensures Explored(g, root, w) == Trail(g, root, w.visited, p)
    decreases |Known(g, root) - w.visited|
  {
    FromIsKnown(g, root, w.visited, p);
    var w' := StretchWalked(g, root, w, p);
    var next := From(g, w.visited, p).next;
    if next.Some? {
      WalkFollowsTrail(g, root, w', next.value);
    } else {
      NothingExplored(g, root, w');
    }
  }

  /** The answer of point_hb(), told by the trail alone. */
  lemma AnswerFollowsTrail(l: Links, before: PointId, after: PointId)
    ensures {before} <= Known(l.successors, before)
    ensures Answer(l, before, after) <==>
      before != after &&
      ((before in l.bounds && l.bounds[before] == after) ||
       exists p :: p in Trail(l.successors, before, {before}, before) && after in Successors(l.successors, p))
  {
    StartFromRoot(l.successors, before);
    assert Start(before).visited == {before};
    WalkFollowsTrail(l.successors, before, Start(before), before);
    SearchFinds(l.successors, before, after, Start(before));
  }

  // ----- What is queued, and what is new -----------------------------------------------------------

  /** Every entry of the queue is dequeued in its turn, whatever is linked before that. */
  lemma {:induction false} QueuedIsExplored(g: Graph, root: PointId, w: Walk)
    requires Bounded(g, root, w)
    ensures InQueue(w.queue) <= Explored(g, root, w)
  {
    if w.queue != Nothing {
      var w1 := Round(g, w);
      RoundIs(g, w);
      ExploredOn(g, root, w);
      if w1.queue != Nothing {
        ExploredOn(g, root, w1);
      }
    }
  }

  /** A point that was seen, and is not in the queue, is never looked at again. */
  lemma {:induction false} SeenIsNotExplored(g: Graph, root: PointId, w: Walk, p: PointId)
    requires Bounded(g, root, w) && p in w.visited && p !in InQueue(w.queue)
    ensures p !in Explored(g, root, w)
    decreases |Known(g, root) - w.visited|, Length(w.queue)
  {
    if w.queue != Nothing {
      RoundProgress(g, root, w);
      RoundIs(g, w);
      NewOnesAre(Successors(g, w.queue.first), w.visited);
      SeenIsNotExplored(g, root, Round(g, w), p);
    }
  }

  /** Of the new successors of a point the first and the last are looked at in their turn
      if nothing else was queued, and otherwise none of them is. */
  lemma WhichAreExplored(g: Graph, root: PointId, w: Walk, k: nat)
    requires Bounded(g, root, w) && w.queue != Nothing
    requires k < |NewOnes(Successors(g, w.queue.first), w.visited)| && InQueue(w.queue) <= w.visited
    ensures var ns := NewOnes(Successors(g, w.queue.first), w.visited);
      ns[k] in Explored(g, root, w) <==> !w.queue.Two? && (ns[k] == ns[0] || ns[k] == ns[|ns| - 1])
  {
    var ns := NewOnes(Successors(g, w.queue.first), w.visited);
    var w1 := Round(g, w);
    NewOnesAre(Successors(g, w.queue.first), w.visited);
    assert ns[k] in ns;
    RoundIs(g, w);
    ExploredOn(g, root, w);
    QueuedIsExplored(g, root, w1);
    if ns[k] !in InQueue(w1.queue) {
      SeenIsNotExplored(g, root, w1, ns[k]);
    }
  }
}
