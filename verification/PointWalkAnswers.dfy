/** What point_hb() misses: when its answer is exact, and a reachable state in which it
    is not. */
module PointWalkAnswers {
  import E = EdgeList
  import opened PointWalk
  import opened SchedulerState
  import opened SchedulerSteps
  import R = SchedulerRuns
  import X = SchedulerExample
  import opened SchedulerPaths

  /** The points that the walk from a looks at the successors of. */
  ghost function LookedAt(g: Graph, a: PointId): set<PointId> {
    Explored(g, a, Start(a))
  }

  ghost predicate Found(g: Graph, a: PointId, b: PointId) {
    exists p :: p in LookedAt(g, a) && b in Successors(g, p)
  }

  /** p was put on the queue, but the entry was cut off it again. */
  ghost predicate Lost(g: Graph, a: PointId, p: PointId) {
    Found(g, a, p) && p !in LookedAt(g, a)
  }

  /** Every lost point leads only to points the walk finds all the same. */
  ghost predicate LosesNothingNew(g: Graph, a: PointId) {
    forall p, q :: Lost(g, a, p) && q in Successors(g, p) ==> Found(g, a, q)
  }

  lemma StartIsLookedAt(g: Graph, a: PointId)
    ensures a in LookedAt(g, a)
  {
    StartFromRoot(g, a);
  }

  lemma {:induction false} ChainIsFound(g: Graph, a: PointId, ps: seq<PointId>)
    requires LosesNothingNew(g, a) && IsChain(g, ps) && ps[0] == a
    ensures ps[|ps| - 1] == a || Found(g, a, ps[|ps| - 1])
  {
    if |ps| > 1 {
      var init := ps[..|ps| - 1];
      ChainIsFound(g, a, init);
      assert ps[|ps| - 2 + 1] in Successors(g, ps[|ps| - 2]);
      FoundOn(g, a, ps[|ps| - 2], ps[|ps| - 1]);
    }
  }

  lemma FoundOn(g: Graph, a: PointId, p: PointId, q: PointId)
    requires LosesNothingNew(g, a) && (p == a || Found(g, a, p)) && q in Successors(g, p)
    ensures Found(g, a, q)
  {
    StartIsLookedAt(g, a);
    if p !in LookedAt(g, a) {
      assert Lost(g, a, p);
    }
  }

  lemma FoundFollows(g: Graph, a: PointId, b: PointId)
    requires Found(g, a, b)
    ensures Follows(g, a, b)
  {
    StartFromRoot(g, a);
    ExploredFromRoot(g, a, Start(a));
  }

  /** The search finds everything the out_edges lead to, if and only if what is behind the
      entries lost from the queue is found on other ways. */
  lemma WhenTheSearchIsComplete(g: Graph, a: PointId)
    ensures (forall b :: Follows(g, a, b) ==> Search(g, a, b, Start(a))) <==> LosesNothingNew(g, a)
  {
    StartFromRoot(g, a);
    forall b
      ensures Search(g, a, b, Start(a)) <==> Found(g, a, b)
    {
      SearchFinds(g, a, b, Start(a));
    }
    if LosesNothingNew(g, a) {
      forall b | Follows(g, a, b)
        ensures Found(g, a, b)
      {
        EverythingIsFound(g, a, b);
      }
    }
    if forall b :: Follows(g, a, b) ==> Search(g, a, b, Start(a)) {
      forall p, q | Lost(g, a, p) && q in Successors(g, p)
        ensures Found(g, a, q)
      {
        FollowsOn(g, a, p, q);
      }
    }
  }

  lemma EverythingIsFound(g: Graph, a: PointId, b: PointId)
    requires LosesNothingNew(g, a) && Follows(g, a, b)
    ensures Found(g, a, b)
  {
    var p :| Connected(g, a, p) && b in Successors(g, p);
    var ps: seq<PointId> :| IsChain(g, ps) && ps[0] == a && ps[|ps| - 1] == p;
    ChainIsFound(g, a, ps);
    FoundOn(g, a, p, b);
  }

  lemma FollowsOn(g: Graph, a: PointId, p: PointId, q: PointId)
    requires Found(g, a, p) && q in Successors(g, p)
    ensures Follows(g, a, q)
  {
    FoundFollows(g, a, p);
    var o :| Connected(g, a, o) && p in Successors(g, o);
    ConnectedOn(g, a, o, p);
  }

  /** What point_hb() is asked: after is the direct bound of before, or a path of out_edges
      leads there. */
  ghost predicate LeadsTo(l: Links, before: PointId, after: PointId) {
    before != after && ((before in l.bounds && l.bounds[before] == after) || Follows(l.successors, before, after))
  }

  /** And then the answer is exact. */
  lemma WhenTheAnswerIsExact(l: Links, before: PointId, after: PointId)
    requires LosesNothingNew(l.successors, before)
    ensures Answer(l, before, after) <==> LeadsTo(l, before, after)
  {
    WhenTheSearchIsComplete(l.successors, before);
    if Search(l.successors, before, after, Start(before)) {
      SearchIsSound(l.successors, before, after);
    }
  }

  // ----- Queues that lose nothing ---------------------------------------------------------------

  /** How many entries can be linked before one is lost. */
  function Room(q: Queue): nat {
    match q
    case Nothing => 2
    case One(_) => 1
    case _ => 0
  }

  function NewAmong(ps: seq<PointId>, visited: set<PointId>): set<PointId> {
    set p | p in ps && p !in visited
  }

  /** In every round the queue has room for the points that are new: for two if it was
      left empty by its only entry, otherwise for none. */
  ghost predicate HasRoom(g: Graph, root: PointId, w: Walk)
    requires Bounded(g, root, w)
    decreases |Known(g, root) - w.visited|, Length(w.queue)
  {
    w.queue == Nothing ||
    (RoundProgress(g, root, w);
     |NewAmong(Successors(g, w.queue.first), w.visited)| <= Room(Pop(w.queue)) && HasRoom(g, root, Round(g, w)))
  }

  lemma NewAmongOn(ps: seq<PointId>, visited: set<PointId>)
    requires ps != []
    ensures var news, more := NewAmong(ps, visited), NewAmong(ps[1..], visited + {ps[0]});
      news == (if ps[0] in visited then {} else {ps[0]}) + more && |news| == |more| + if ps[0] in visited then 0 else 1
  {
    var news, more := NewAmong(ps, visited), NewAmong(ps[1..], visited + {ps[0]});
    assert ps == [ps[0]] + ps[1..];
    assert news == (if ps[0] in visited then {} else {ps[0]}) + more;
  }

  lemma VisitKeeps(w: Walk, p: PointId)
    requires p in w.visited || Room(w.queue) > 0
    ensures var w' := Visit(w, p);
      w'.visited == w.visited + {p} && InQueue(w'.queue) == InQueue(w.queue) + (if p in w.visited then {} else {p}) &&
      Room(w'.queue) == Room(w.queue) - if p in w.visited then 0 else 1
  {
  }

  lemma VisitThenMore(visited: set<PointId>, queued: set<PointId>, p: PointId, more: set<PointId>, news: set<PointId>)
    requires news == (if p in visited then {} else {p}) + more
    ensures visited + {p} + more == visited + news
    ensures queued + (if p in visited then {} else {p}) + more == queued + news
  {
  }

  lemma {:induction false} VisitAllKeeps(w: Walk, ps: seq<PointId>)
    requires |NewAmong(ps, w.visited)| <= Room(w.queue)
    ensures var w' := VisitAll(w, ps);
      w'.visited == w.visited + NewAmong(ps, w.visited) && InQueue(w'.queue) == InQueue(w.queue) + NewAmong(ps, w.visited)
    decreases |ps|
  {
    if ps == [] {
      assert NewAmong(ps, w.visited) == {};
    } else {
      var news, more := NewAmong(ps, w.visited), NewAmong(ps[1..], w.visited + {ps[0]});
      NewAmongOn(ps, w.visited);
      VisitKeeps(w, ps[0]);
      VisitAllKeeps(Visit(w, ps[0]), ps[1..]);
      VisitThenMore(w.visited, InQueue(w.queue), ps[0], more, news);
    }
  }

  lemma RoundKeeps(g: Graph, w: Walk)
    requires w.queue != Nothing
    requires |NewAmong(Successors(g, w.queue.first), w.visited)| <= Room(Pop(w.queue))
    ensures var w' := Round(g, w);
      InQueue(w.queue) <= {w.queue.first} + InQueue(w'.queue) &&
      (forall q :: q in Successors(g, w.queue.first) ==> q in w.visited || q in InQueue(w'.queue)) &&
      (forall q :: q in w'.visited ==> q in w.visited || q in InQueue(w'.queue))
  {
    VisitAllKeeps(w.(queue := Pop(w.queue)), Successors(g, w.queue.first));
  }

  lemma {:induction false} RoomLosesNothing(g: Graph, root: PointId, w: Walk)
    requires Bounded(g, root, w) && HasRoom(g, root, w)
    ensures InQueue(w.queue) <= Explored(g, root, w)
    ensures forall p, q :: p in Explored(g, root, w) && q in Successors(g, p) ==> q in w.visited || q in Explored(g, root, w)
    decreases |Known(g, root) - w.visited|, Length(w.queue)
  {
    if w.queue != Nothing {
      RoundProgress(g, root, w);
      RoundKeeps(g, w);
      RoomLosesNothing(g, root, Round(g, w));
    }
  }

  /** The answer is exact if in every round the queue has room, */
  lemma RoomIsEnough(g: Graph, a: PointId)
    requires Bounded(g, a, Start(a)) && HasRoom(g, a, Start(a))
    ensures LosesNothingNew(g, a)
  {
    StartIsLookedAt(g, a);
    RoomLosesNothing(g, a, Start(a));
  }

  /** so for example if no point has more than one successor. */
  lemma {:induction false} LinesHaveRoom(g: Graph, root: PointId, w: Walk)
    requires Bounded(g, root, w) && Room(w.queue) >= 1 && forall p :: |Successors(g, p)| <= 1
    ensures HasRoom(g, root, w)
    decreases |Known(g, root) - w.visited|, Length(w.queue)
  {
    if w.queue != Nothing {
      var ps := Successors(g, w.queue.first);
      RoundProgress(g, root, w);
      assert NewAmong(ps, w.visited) <= if ps == [] then {} else {ps[0]};
      LineRound(g, w);
      LinesHaveRoom(g, root, Round(g, w));
    }
  }

  lemma LineRound(g: Graph, w: Walk)
    requires w.queue.One? && |Successors(g, w.queue.first)| <= 1
    ensures Room(Round(g, w).queue) >= 1
    ensures |NewAmong(Successors(g, w.queue.first), w.visited)| <= 1
  {
    var ps := Successors(g, w.queue.first);
    if ps != [] {
      assert NewAmong(ps[1..], w.visited + {ps[0]}) == {};
      NewAmongOn(ps, w.visited);
      var w1 := w.(queue := Nothing);
      assert VisitAll(w1, ps) == VisitAll(Visit(w1, ps[0]), ps[1..]);
    } else {
      assert NewAmong(ps, w.visited) == {};
    }
  }

  // ----- A state in which the answer is wrong ----------------------------------------------------

  lemma SearchGoesOn(g: Graph, root: PointId, target: PointId, w: Walk, w': Walk)
    requires Bounded(g, root, w) && !w.queue.Nothing? && target !in Successors(g, w.queue.first)
    requires w' == Round(g, w)
    ensures Bounded(g, root, w') && Search(g, root, target, w) == Search(g, root, target, w')
  {
    RoundProgress(g, root, w);
  }

  lemma SearchGivesUp(g: Graph, root: PointId, target: PointId, w: Walk)
    requires Bounded(g, root, w) && w.queue.Nothing?
    ensures !Search(g, root, target, w)
  {
  }

  lemma ThreeNeighbours(w: Walk, a: PointId, b: PointId, c: PointId)
    requires w.queue.Nothing? && a !in w.visited && b !in w.visited && c !in w.visited
    requires a != b && b != c && c != a
    ensures VisitAll(w, [a, b, c]) == Walk(w.visited + {a, b, c}, Two(a, c))
  {
    var w1 := Visit(w, a);
    var w2 := Visit(w1, b);
    var w3 := Visit(w2, c);
    assert [a, b, c][1..] == [b, c] && [b, c][1..] == [c] && [c][1..] == [];
    assert VisitAll(w3, []) == w3;
    assert VisitAll(w2, [c]) == w3;
    assert VisitAll(w1, [b, c]) == w3;
    assert w3.visited == w.visited + {a, b, c};
  }

  /** Point 1 leads to 2, 3 and 0, and 3 leads to 4: of the three entries only the first
      and the last stay on the queue, so the walk never looks at the successors of 3. */
  lemma SecondOfThreeIsLost(l: Links)
    requires l.successors == map[1 := [2, 3, 0], 3 := [4]] && 1 in l.bounds && l.bounds[1] == 2
    ensures Connected(l.successors, 1, 4) && !Answer(l, 1, 4)
  {
    var g := l.successors;
    assert IsChain(g, [1, 3, 4]);
    ThreeNeighbours(Walk({1}, Nothing), 2, 3, 0);
    var seen := {0, 1, 2, 3};
    assert {1} + {2, 3, 0} == seen;
    SearchGoesOn(g, 1, 4, Start(1), Walk(seen, Two(2, 0)));
    SearchGoesOn(g, 1, 4, Walk(seen, Two(2, 0)), Walk(seen, Stale(0)));
    SearchGoesOn(g, 1, 4, Walk(seen, Stale(0)), Walk(seen, Nothing));
    SearchGivesUp(g, 1, 4, Walk(seen, Nothing));
  }

  /** Two intervals, from 1 to 2 and from 3 to 4, are still unscheduled, and no count has
      come to more than n. */
  ghost predicate Early(s: State, n: nat) {
    && s.points.Keys == {0, 1, 2, 3, 4} && s.points[0].run == Body(None, None)
    && s.points[1].owner == s.points[3].owner == Some(0)
    && s.points[0].bound == None && s.points[1].bound == Some(2) && s.points[2].bound == Some(0)
    && s.points[3].bound == Some(4) && s.points[4].bound == Some(0)
    && forall p :: p in s.points ==> s.points[p].life == Waiting && s.points[p].wc <= n && s.points[p].rc <= n
  }

  lemma EarlyMayAdd(s: State, n: nat, p: PointId)
    requires Early(s, n) && p in s.points
    ensures CanAddDep(s, 0, p)
  {
    assert p != 0 ==> IsUnscheduled(s, 0, p) by {
      assert 1 in s.points && 3 in s.points;
    }
  }

  lemma EarlyAdd(s: State, n: nat, d: Edge, e: EdgeId) returns (s': State)
    requires R.Reachable(s) && Early(s, n) && n < 100
    requires d.src in s.points && d.dst in s.points && !d.synthetic && e.Out? && e !in s.edges
    ensures R.Reachable(s') && Early(s', n + 1) && s'.edges == s.edges[e := d]
  {
    s' := AddEdge(s, d.src, d.dst, false, e);
    EarlyMayAdd(s, n, d.dst);
    X.ReachNext(s, AddHb(0, d.src, d.dst, e), s');
  }

  /** The edges the client adds, in this order. */
  function Added(i: nat): Edge {
    if i < 3 then Edge(1, [2, 3, 0][i], false) else Edge(3, 4, false)
  }

  /** The first n of them are there, and no others but bounds. */
  ghost predicate HasAdded(edges: map<EdgeId, Edge>, n: nat) {
    (forall i: nat :: i < n ==> Out(i) in edges && edges[Out(i)] == Added(i)) &&
    (forall e :: e in edges && e.Out? ==> e.n < n)
  }

  lemma AddedOn(edges: map<EdgeId, Edge>, n: nat)
    requires HasAdded(edges, n)
    ensures HasAdded(edges[Out(n) := Added(n)], n + 1)
  {
  }

  lemma TwoIntervals() returns (s: State)
    ensures R.Reachable(s) && Early(s, 3) && HasAdded(s.edges, 0)
  {
    X.TwoIntervals();
    s := X.Two();
  }

  lemma {:induction false} EdgesAdded(n: nat) returns (s: State)
    requires n <= 4
    ensures R.Reachable(s) && Early(s, 3 + n) && HasAdded(s.edges, n)
  {
    if n == 0 {
      s := TwoIntervals();
    } else {
      s := EdgesAdded(n - 1);
      AddedOn(s.edges, n - 1);
      s := EarlyAdd(s, 2 + n, Added(n - 1), Out(n - 1));
    }
  }

  function PointsOf(entries: seq<E.EPoint>): seq<PointId> {
    seq(|entries|, i requires 0 <= i < |entries| => if entries[i].EPoint? then entries[i].point else 0)
  }

  /** The edges of point 1, inserted in this order, are also listed so. */
  method EdgesOfOne() returns (list: E.EdgeList)
    ensures list.Valid() && PointsOf(list.Edges()) == [2, 3, 0]
  {
    list := new E.EdgeList();
    for i := 0 to 3
      invariant list.Valid() && |list.Edges()| == i && fresh(list) && fresh(list.HeadChunk())
      invariant forall j :: 0 <= j < i ==> list.Edges()[j] == E.EPoint(Added(j).dst, false)
    {
      E.InsertFirst(list, E.EPoint(Added(i).dst, false));
    }
    assert PointsOf(list.Edges()) == [Added(0).dst, Added(1).dst, Added(2).dst];
  }

  /** With edges from 1 to 2, 3 and 0, and from 3 to 4, point 1 happens before 4 but
      point_hb() denies it, and check_can_add_hb() permits an edge that closes a cycle. */
  lemma AnswerIsIncomplete() returns (s: State, l: Links)
    ensures R.Reachable(s) && LinksOf(s, l) && InBody(s, 0)
    ensures HappensBefore(s, 1, 4) && !Answer(l, 1, 4)
    ensures CheckCanAddHb(s, l, 0, 4, 1) == Ok
  {
    s := EdgesAdded(4);
    l := Links(map[1 := [2, 3, 0], 3 := [4]], map[1 := 2, 2 := 0, 3 := 4, 4 := 0]);
    SecondOfThreeIsLost(l);
    EdgesAreLinks(s, l);
    assert Added(1) == Edge(1, 3, false) && Added(3) == Edge(3, 4, false);
    EdgePath(s, Out(1));
    EdgePath(s, Out(3));
    HappensBeforeTransitive(s, 1, 3, 4);
    assert IsUnscheduled(s, 0, 1);
  }

  lemma EdgesAreLinks(s: State, l: Links)
    requires Early(s, 7)
    requires HasAdded(s.edges, 4)
    requires l == Links(map[1 := [2, 3, 0], 3 := [4]], map[1 := 2, 2 := 0, 3 := 4, 4 := 0])
    ensures LinksOf(s, l)
  {
    assert Added(0) == Edge(1, 2, false) && Added(1) == Edge(1, 3, false);
    assert Added(2) == Edge(1, 0, false) && Added(3) == Edge(3, 4, false);
    forall p: PointId, q: PointId
      ensures q in Successors(l.successors, p) <==> HasEdge(s, p, q)
    {
      if HasEdge(s, p, q) {
        var e: EdgeId :| e.Out? && e in s.edges && s.edges[e].src == p && s.edges[e].dst == q;
        assert e == Out(0) || e == Out(1) || e == Out(2) || e == Out(3);
      }
    }
  }
}
