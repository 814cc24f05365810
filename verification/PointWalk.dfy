/** point_hb(): the walk over the point graph behind the safety checks. Its queue keeps
    queue_last on the first entry of a batch, so that it loses entries; what it answers
    is proved sound all the same. */
module PointWalk {
  import opened FiniteSets
  import opened SchedulerPaths
  import opened SchedulerState
  import opened SchedulerSteps
  import opened SchedulerInvariant
  import opened SchedulerRuns
  import opened SchedulerSafetyTheorems
  import opened SchedulerTurns

  // ----- The queue as it behaves ------------------------------------------------------------

  /** What the pointers queue_first and queue_last amount to: no entry; one, which is also
      the last; one and a successor; or one, while queue_last points to an entry that has
      left the queue already. */
  datatype Queue = Nothing | One(first: PointId) | Two(first: PointId, second: PointId) | Stale(first: PointId)

  /** An entry is linked behind queue_last, whatever was linked there before. */
  function Push(q: Queue, p: PointId): Queue {
    match q
    case Nothing => One(p)
    case One(a) => Two(a, p)
    case Two(a, _) => Two(a, p)
    case Stale(a) => Stale(a)
  }

  function Pop(q: Queue): Queue {
    match q
    case Two(_, b) => Stale(b)
    case _ => Nothing
  }

  function Length(q: Queue): nat {
    match q
    case Nothing => 0
    case Two(_, _) => 2
    case _ => 1
  }

  function InQueue(q: Queue): set<PointId> {
    match q
    case Nothing => {}
    case One(a) => {a}
    case Two(a, b) => {a, b}
    case Stale(a) => {a}
  }

  datatype Walk = Walk(visited: set<PointId>, queue: Queue)

  function Visit(w: Walk, p: PointId): Walk {
    if p in w.visited then w else Walk(w.visited + {p}, Push(w.queue, p))
  }

  /** The out_edges of each point, in the order of the list. */
  type Graph = map<PointId, seq<PointId>>

  function Successors(g: Graph, p: PointId): seq<PointId> {
    if p in g then g[p] else []
  }

  function VisitAll(w: Walk, ps: seq<PointId>): Walk
    decreases |ps|
  {
    if ps == [] then w else VisitAll(Visit(w, ps[0]), ps[1..])
  }

  /** The points that enqueue_neighbors() comes to before the target, if that is there. */
  function Before(ps: seq<PointId>, target: PointId): seq<PointId> {
    if ps == [] || ps[0] == target then [] else [ps[0]] + Before(ps[1..], target)
  }

  lemma {:induction false} BeforeAll(ps: seq<PointId>, target: PointId)
    requires target !in ps
    ensures Before(ps, target) == ps
  {
    if ps != [] {
      BeforeAll(ps[1..], target);
    }
  }

  /** The points a walk from root could come to. */
  ghost function Known(g: Graph, root: PointId): set<PointId> {
    {root} + set p, q | p in g && q in g[p] :: q
  }

  ghost predicate Bounded(g: Graph, root: PointId, w: Walk) {
    w.visited <= Known(g, root)
  }

  lemma {:induction false} VisitAllBounded(g: Graph, root: PointId, w: Walk, ps: seq<PointId>)
    requires Bounded(g, root, w) && forall p :: p in ps ==> p in Known(g, root)
    ensures var w' := VisitAll(w, ps);
      Bounded(g, root, w') && w.visited <= w'.visited && (w'.visited == w.visited ==> w' == w)
    decreases |ps|
  {
    if ps != [] {
      VisitAllBounded(g, root, Visit(w, ps[0]), ps[1..]);
    }
  }

  lemma SuccessorsKnown(g: Graph, root: PointId, p: PointId)
    ensures forall q :: q in Successors(g, p) ==> q in Known(g, root)
  {
  }

  /** One round of the search, from a queue that is not empty, that does not come upon the
      target. */
  function Round(g: Graph, w: Walk): Walk
    requires w.queue != Nothing
  {
    VisitAll(w.(queue := Pop(w.queue)), Successors(g, w.queue.first))
  }

  lemma RoundProgress(g: Graph, root: PointId, w: Walk)
    requires Bounded(g, root, w) && w.queue != Nothing
    ensures var w' := Round(g, w);
      Bounded(g, root, w') && w.visited <= w'.visited &&
      (|Known(g, root) - w'.visited| < |Known(g, root) - w.visited| || (w'.visited == w.visited && Length(w'.queue) < Length(w.queue)))
  {
    SuccessorsKnown(g, root, w.queue.first);
    var w1 := w.(queue := Pop(w.queue));
    VisitAllBounded(g, root, w1, Successors(g, w.queue.first));
    var w' := Round(g, w);
    if w'.visited != w.visited {
      var p :| p in w'.visited && p !in w.visited;
      FewerLeft(Known(g, root), w.visited, w'.visited, p);
    }
  }

  lemma FewerLeft(all: set<PointId>, few: set<PointId>, more: set<PointId>, p: PointId)
    requires few <= more <= all && p in more && p !in few
    ensures |all - more| < |all - few|
  {
    assert all - more < all - few by {
      assert p in all - few;
    }
    FewerMembers(all - more, all - few);
  }

  /** The search: dequeue, and look among the successors for the target. */
  ghost function Search(g: Graph, root: PointId, target: PointId, w: Walk): bool
    requires Bounded(g, root, w)
    decreases |Known(g, root) - w.visited|, Length(w.queue)
  {
    if w.queue == Nothing then false
    else if target in Successors(g, w.queue.first) then true
    else
      RoundProgress(g, root, w);
      Search(g, root, target, Round(g, w))
  }

  // ----- The walk in memory -------------------------------------------------------------------

  const HASH_SIZE: nat := 1024

  /** The address of a point, shifted by two and masked. */
  function HashIndex(p: PointId): (r: nat)
    ensures r < HASH_SIZE
  {
    (p / 4) % HASH_SIZE
  }

  /** point_walk_entry_t. */
  class Entry {
    const pnt: PointId
    const nextHash: Entry?
    var nextQueue: Entry?

    constructor (pnt: PointId, nextHash: Entry?)
      ensures this.pnt == pnt && this.nextHash == nextHash && this.nextQueue == null
    {
      this.pnt, this.nextHash, this.nextQueue := pnt, nextHash, null;
    }
  }

  /** The entry after the i-th. */
  ghost function After(es: seq<Entry>, i: nat): Entry? {
    if i + 1 < |es| then es[i + 1] else null
  }

  /** es is the chain through next_hash from head, and all its points hash to b. */
  ghost predicate Chained(head: Entry?, es: seq<Entry>, b: nat) {
    && head == (if es == [] then null else es[0])
    && (forall i {:trigger After(es, i)} :: 0 <= i < |es| ==> es[i].nextHash == After(es, i))
    && (forall i :: 0 <= i < |es| ==> HashIndex(es[i].pnt) == b)
  }

  lemma ChainGoesOn(head: Entry?, es: seq<Entry>, b: nat, i: nat)
    requires Chained(head, es, b) && i < |es|
    ensures es[i].nextHash == After(es, i)
  {
  }

  lemma ChainGrows(head: Entry?, es: seq<Entry>, b: nat, entry: Entry)
    requires Chained(head, es, b) && entry.nextHash == head && HashIndex(entry.pnt) == b
    ensures Chained(entry, [entry] + es, b)
  {
    var longer := [entry] + es;
    forall i | 0 <= i < |longer|
      ensures longer[i].nextHash == After(longer, i)
      ensures HashIndex(longer[i].pnt) == b
    {
      if i > 0 {
        ChainGoesOn(head, es, b, i - 1);
        assert longer[i] == es[i - 1] && After(longer, i) == After(es, i - 1);
      }
    }
    assert Chained(entry, longer, b);
  }

  ghost predicate InBucket(p: PointId, es: seq<Entry>) {
    exists i :: 0 <= i < |es| && es[i].pnt == p
  }

  class PointWalk {
    const hash: array<Entry?>
    var queueFirst: Entry?
    var queueLast: Entry?
    ghost var buckets: seq<seq<Entry>>
    ghost var entries: set<Entry>
    ghost var w: Walk

    /** The buckets hold exactly the visited points, each where it hashes to. */
    ghost predicate Hashed()
      reads this, hash
    {
      && hash.Length == |buckets| == HASH_SIZE
      && (forall b {:trigger buckets[b]} :: 0 <= b < HASH_SIZE ==> Chained(hash[b], buckets[b], b))
      && (forall p {:trigger HashIndex(p)} :: p in w.visited <==> InBucket(p, buckets[HashIndex(p)]))
    }

    ghost predicate Queued()
      reads this, entries
    {
      match w.queue
      case Nothing => queueFirst == null && queueLast == null
      case One(a) =>
        queueFirst != null && queueLast == queueFirst && queueFirst in entries &&
        queueFirst.pnt == a && queueFirst.nextQueue == null
      case Two(a, b) =>
        queueFirst != null && queueLast == queueFirst && queueFirst in entries && queueFirst.pnt == a &&
        queueFirst.nextQueue != null && queueFirst.nextQueue in entries && queueFirst.nextQueue != queueFirst &&
        queueFirst.nextQueue.pnt == b && queueFirst.nextQueue.nextQueue == null
      case Stale(a) =>
        queueFirst != null && queueLast != null && queueLast != queueFirst &&
        queueFirst in entries && queueLast in entries && queueFirst.pnt == a && queueFirst.nextQueue == null
    }

    ghost predicate Valid()
      reads this, hash, entries
    {
      Hashed() && Queued() && (queueLast != null ==> queueLast in entries)
    }

    /** point_walk_init(). */
    constructor ()
      ensures Valid() && w == Walk({}, Nothing) && fresh(hash) && entries == {}
    {
      hash := new Entry?[HASH_SIZE](_ => null);
      queueFirst, queueLast := null, null;
      buckets := seq(HASH_SIZE, _ => []);
      entries := {};
      w := Walk({}, Nothing);
    }

    /** The bucket of pnt is searched along next_hash. */
    method Visited(pnt: PointId) returns (found: bool)
      requires Hashed()
      ensures found <==> pnt in w.visited
    {
      var idx := HashIndex(pnt);
      ghost var bucket := buckets[idx];
      assert Chained(hash[idx], bucket, idx);
      var entry := hash[idx];
      ghost var i := 0;
      while entry != null
        invariant 0 <= i <= |bucket| && entry == if i < |bucket| then bucket[i] else null
        invariant forall j :: 0 <= j < i ==> bucket[j].pnt != pnt
        decreases |bucket| - i
      {
        if entry.pnt == pnt {
          return true;
        }
        ChainGoesOn(bucket[0], bucket, idx, i);
        entry := entry.nextHash;
        i := i + 1;
      }
      return false;
    }

    /** point_walk_enqueue(). */
    method Enqueue(pnt: PointId)
      requires Valid()
      modifies this, hash, entries
      ensures Valid() && w == Visit(old(w), pnt)
      ensures fresh(entries - old(entries))
      ensures pnt in old(w).visited || old(queueLast) != null ==> queueFirst == old(queueFirst) && queueLast == old(queueLast)
      ensures pnt !in old(w).visited && old(queueLast) != null ==>
        queueLast != null && queueLast.nextQueue != null && queueLast.nextQueue.pnt == pnt
      ensures pnt !in old(w).visited && old(queueLast) == null ==>
        queueLast != null && queueFirst == queueLast && queueLast.pnt == pnt
    {
      var found := Visited(pnt);
      if !found {
        var entry := AddToHash(pnt);
        Link(entry);
      }
    }

    /** A new entry is put at the front of its bucket. */
    method AddToHash(pnt: PointId) returns (entry: Entry)
      requires Hashed() && pnt !in w.visited
      modifies this`buckets, this`w, hash
      ensures Hashed() && w == old(w).(visited := old(w).visited + {pnt})
      ensures fresh(entry) && entry.pnt == pnt && entry.nextQueue == null
    {
      var idx := HashIndex(pnt);
      ghost var before, bucket := w.visited, buckets[idx];
      entry := new Entry(pnt, hash[idx]);
      ChainGrows(hash[idx], bucket, idx, entry);
      hash[idx] := entry;
      buckets := buckets[idx := [entry] + bucket];
      w := w.(visited := w.visited + {pnt});
      forall p {:trigger HashIndex(p)}
        ensures p in w.visited <==> InBucket(p, buckets[HashIndex(p)])
      {
        assert p in before <==> InBucket(p, old(buckets)[HashIndex(p)]);
        if HashIndex(p) == idx {
          InLonger(p, entry, bucket);
        }
      }
    }

    /** The entry is appended to the queue as the program does it: queue_last itself moves
        only when the queue was empty. */
    method Link(entry: Entry)
      requires Valid() && entry !in entries && entry.nextQueue == null
      modifies this`queueFirst, this`queueLast, this`w, this`entries, entries
      ensures Valid() && w == old(w).(queue := Push(old(w).queue, entry.pnt)) && entries == old(entries) + {entry}
      ensures
        if old(queueLast) != null then queueFirst == old(queueFirst) && queueLast == old(queueLast) && queueLast.nextQueue == entry
        else queueFirst == queueLast == entry
    {
      if queueLast != null {
        queueLast.nextQueue := entry;
      } else {
        queueFirst, queueLast := entry, entry;
      }
      entries := entries + {entry};
      w := w.(queue := Push(w.queue, entry.pnt));
    }

    /** point_walk_dequeue(). */
    method Dequeue() returns (pnt: Option<PointId>)
      requires Valid()
      modifies this
      ensures Valid() && w == old(w).(queue := Pop(old(w).queue)) && entries == old(entries)
      ensures pnt == if old(w).queue == Nothing then None else Some(old(w).queue.first)
      ensures
        if old(queueFirst) == null then pnt == None && queueFirst == null && queueLast == old(queueLast)
        else pnt == Some(old(queueFirst).pnt) && queueFirst == old(queueFirst.nextQueue) &&
             queueLast == if queueFirst == null then null else old(queueLast)
    {
      var first := queueFirst;
      if first != null {
        var next := first.nextQueue;
        queueFirst := next;
        if next == null {
          queueLast := null;
        }
        w := w.(queue := Pop(w.queue));
        return Some(first.pnt);
      }
      return None;
    }

    /** enqueue_neighbors(). */
    method EnqueueNeighbors(successors: seq<PointId>, target: PointId) returns (found: bool)
      requires Valid()
      modifies this, hash, entries
      ensures Valid() && found == (target in successors) && w == VisitAll(old(w), Before(successors, target))
      ensures fresh(entries - old(entries))
    {
      for i := 0 to |successors|
        invariant Valid() && target !in successors[..i]
        invariant VisitAll(w, Before(successors[i..], target)) == VisitAll(old(w), Before(successors, target))
        invariant fresh(entries - old(entries))
      {
        if successors[i] == target {
          return true;
        }
        assert successors[i..][1..] == successors[i + 1..];
        assert Before(successors[i..], target)[1..] == Before(successors[i + 1..], target);
        Enqueue(successors[i]);
      }
      return false;
    }
  }

  lemma InLonger(p: PointId, entry: Entry, es: seq<Entry>)
    ensures InBucket(p, [entry] + es) <==> entry.pnt == p || InBucket(p, es)
  {
    if i :| 0 <= i < |es| && es[i].pnt == p {
      assert ([entry] + es)[i + 1].pnt == p;
    }
    if entry.pnt == p {
      assert ([entry] + es)[0].pnt == p;
    }
  }

  // ----- point_hb() -----------------------------------------------------------------------------

  /** The out_edges and the bounds of all points. */
  datatype Links = Links(successors: Graph, bounds: map<PointId, PointId>)

  /** The walk with only its first entry. */
  function Start(root: PointId): Walk {
    Visit(Walk({}, Nothing), root)
  }

  ghost predicate Answer(l: Links, before: PointId, after: PointId) {
    before != after &&
    ((before in l.bounds && l.bounds[before] == after) ||
     Search(l.successors, before, after, Start(before)))
  }

  /** point_hb_internal(): the search ends, with the answer the queue lets it find. */
  method PointHb(l: Links, before: PointId, after: PointId) returns (result: bool)
    ensures result == Answer(l, before, after)
  {
    if before == after {
      return false;
    }
    if before in l.bounds && l.bounds[before] == after {
      return true;
    }
    var walk := new PointWalk();
    walk.Enqueue(before);
    result := BreadthFirst(l.successors, before, after, walk);
  }

  /** The loop of the search. */
  method BreadthFirst(g: Graph, before: PointId, after: PointId, walk: PointWalk) returns (result: bool)
    requires walk.Valid() && Bounded(g, before, walk.w)
    modifies walk, walk.hash, walk.entries
    ensures result == old(Search(g, before, after, walk.w))
  {
    while true
      invariant walk.Valid() && Bounded(g, before, walk.w)
      invariant Search(g, before, after, walk.w) == old(Search(g, before, after, walk.w))
      invariant fresh(walk.entries - old(walk.entries))
      decreases |Known(g, before) - walk.w.visited|, Length(walk.w.queue)
    {
      ghost var w := walk.w;
      var p := walk.Dequeue();
      if p.None? {
        return false;
      }
      RoundProgress(g, before, w);
      if after !in Successors(g, p.value) {
        BeforeAll(Successors(g, p.value), after);
      }
      var found := walk.EnqueueNeighbors(if p.value in g then g[p.value] else [], after);
      if found {
        return true;
      }
    }
  }

  // ----- What the answer is worth -------------------------------------------------------------------

  /** ps is a path along out_edges. */
  ghost predicate IsChain(g: Graph, ps: seq<PointId>) {
    ps != [] && forall i :: 0 <= i < |ps| - 1 ==> ps[i + 1] in Successors(g, ps[i])
  }

  ghost predicate Connected(g: Graph, a: PointId, b: PointId) {
    exists ps: seq<PointId> :: IsChain(g, ps) && ps[0] == a && ps[|ps| - 1] == b
  }

  lemma ConnectedOn(g: Graph, a: PointId, b: PointId, c: PointId)
    requires Connected(g, a, b) && c in Successors(g, b)
    ensures Connected(g, a, c)
  {
    var ps: seq<PointId> :| IsChain(g, ps) && ps[0] == a && ps[|ps| - 1] == b;
    assert IsChain(g, ps + [c]);
    assert (ps + [c])[0] == a && (ps + [c])[|ps + [c]| - 1] == c;
  }

  ghost predicate QueueWithin(q: Queue, s: set<PointId>) {
    (q.Nothing? || q.first in s) && (q.Two? ==> q.second in s)
  }

  /** Only points that root leads to are visited and queued. */
  ghost predicate FromRoot(g: Graph, root: PointId, w: Walk) {
    QueueWithin(w.queue, w.visited) && forall p :: p in w.visited ==> Connected(g, root, p)
  }

  lemma {:induction false} VisitAllFromRoot(g: Graph, root: PointId, w: Walk, ps: seq<PointId>)
    requires FromRoot(g, root, w) && forall p :: p in ps ==> Connected(g, root, p)
    ensures FromRoot(g, root, VisitAll(w, ps))
    decreases |ps|
  {
    if ps != [] {
      VisitAllFromRoot(g, root, Visit(w, ps[0]), ps[1..]);
    }
  }

  lemma RoundFromRoot(g: Graph, root: PointId, w: Walk)
    requires FromRoot(g, root, w) && w.queue != Nothing
    ensures FromRoot(g, root, Round(g, w))
  {
    forall q | q in Successors(g, w.queue.first)
      ensures Connected(g, root, q)
    {
      ConnectedOn(g, root, w.queue.first, q);
    }
    VisitAllFromRoot(g, root, w.(queue := Pop(w.queue)), Successors(g, w.queue.first));
  }

  /** The points that are taken from the queue before it is empty. */
  ghost function Explored(g: Graph, root: PointId, w: Walk): set<PointId>
    requires Bounded(g, root, w)
    decreases |Known(g, root) - w.visited|, Length(w.queue)
  {
    if w.queue == Nothing then {}
    else
      RoundProgress(g, root, w);
      {w.queue.first} + Explored(g, root, Round(g, w))
  }

  /** The search finds what is a successor of an explored point. */
  lemma {:induction false} SearchFinds(g: Graph, root: PointId, target: PointId, w: Walk)
    requires Bounded(g, root, w)
    ensures Search(g, root, target, w) <==> exists p :: p in Explored(g, root, w) && target in Successors(g, p)
    decreases |Known(g, root) - w.visited|, Length(w.queue)
  {
    if w.queue != Nothing {
      RoundProgress(g, root, w);
      SearchFinds(g, root, target, Round(g, w));
    }
  }

  lemma {:induction false} ExploredFromRoot(g: Graph, root: PointId, w: Walk)
    requires Bounded(g, root, w) && FromRoot(g, root, w)
    ensures forall p :: p in Explored(g, root, w) ==> Connected(g, root, p)
    decreases |Known(g, root) - w.visited|, Length(w.queue)
  {
    if w.queue != Nothing {
      RoundProgress(g, root, w);
      RoundFromRoot(g, root, w);
      ExploredFromRoot(g, root, Round(g, w));
    }
  }

  lemma StartFromRoot(g: Graph, root: PointId)
    ensures Bounded(g, root, Start(root)) && FromRoot(g, root, Start(root))
  {
    assert IsChain(g, [root]);
    assert [root][0] == root;
  }

  /** A path of at least one of the out_edges. */
  ghost predicate Follows(g: Graph, a: PointId, b: PointId) {
    exists p :: Connected(g, a, p) && b in Successors(g, p)
  }

  lemma SearchIsSound(g: Graph, root: PointId, target: PointId)
    requires Search(g, root, target, Start(root))
    ensures Follows(g, root, target)
  {
    StartFromRoot(g, root);
    SearchFinds(g, root, target, Start(root));
    ExploredFromRoot(g, root, Start(root));
  }

  /** The links are those of the state s. */
  ghost predicate LinksOf(s: State, l: Links) {
    && (forall p: PointId, q: PointId {:trigger HasEdge(s, p, q)} :: q in Successors(l.successors, p) <==> HasEdge(s, p, q))
    && (forall p: PointId :: p in l.bounds <==> p in s.points && s.points[p].bound.Some?)
    && (forall p: PointId :: p in l.bounds ==> s.points[p].bound == Some(l.bounds[p]))
  }

  ghost predicate HasEdge(s: State, p: PointId, q: PointId) {
    exists e: EdgeId :: e.Out? && e in s.edges && s.edges[e].src == p && s.edges[e].dst == q
  }

  lemma {:induction false} ChainIsPath(s: State, l: Links, ps: seq<PointId>) returns (es: seq<EdgeId>)
    requires LinksOf(s, l) && IsChain(l.successors, ps)
    ensures IsPath(s, es, ps[0], ps[|ps| - 1])
  {
    if |ps| == 1 {
      es := [];
    } else {
      var p, q := ps[|ps| - 2], ps[|ps| - 1];
      var init := ps[..|ps| - 1];
      var ds := ChainIsPath(s, l, init);
      assert q in Successors(l.successors, p);
      assert HasEdge(s, p, q);
      var e: EdgeId :| e.Out? && e in s.edges && s.edges[e].src == p && s.edges[e].dst == q;
      EdgePath(s, e);
      PathsJoin(s, ds, [e], ps[0], p, q);
      es := ds + [e];
    }
  }

  /** The answer true means that before does happen before after, by a path of edges or
      as its direct bound. */
  lemma AnswerIsSound(s: State, l: Links, before: PointId, after: PointId)
    requires Shape(s) && LinksOf(s, l) && Answer(l, before, after)
    ensures HappensBefore(s, before, after)
  {
    if before in l.bounds && l.bounds[before] == after {
      assert BoundOk(s, before);
      EdgePath(s, BoundOf(before));
    } else {
      SearchIsSound(l.successors, before, after);
      var p :| Connected(l.successors, before, p) && after in Successors(l.successors, p);
      ReachesByEdges(s, l, before, p, after);
    }
  }

  lemma ReachesByEdges(s: State, l: Links, a: PointId, p: PointId, b: PointId)
    requires LinksOf(s, l) && Connected(l.successors, a, p) && b in Successors(l.successors, p)
    ensures HappensBefore(s, a, b)
  {
    var ps: seq<PointId> :| IsChain(l.successors, ps) && ps[0] == a && ps[|ps| - 1] == p;
    var ds := ChainIsPath(s, l, ps);
    assert HasEdge(s, p, b);
    var e: EdgeId :| e.Out? && e in s.edges && s.edges[e].src == p && s.edges[e].dst == b;
    EdgePath(s, e);
    PathsJoin(s, ds, [e], a, p, b);
    assert ds + [e] != [];
  }

  // ----- The safety checks ------------------------------------------------------------------------

  /** interval_err_t. */
  datatype Error = Ok | EdgeRequired | Cycle | NoRoot

  /** check_can_add_dep(), for the task that ends at t. */
  ghost function CheckCanAddDep(s: State, l: Links, t: PointId, p: PointId): Error {
    if t != p && !IsUnscheduled(s, t, p) && !Answer(l, t, p) then EdgeRequired else Ok
  }

  /** check_can_add_hb(). */
  ghost function CheckCanAddHb(s: State, l: Links, t: PointId, before: PointId, after: PointId): Error {
    var err := CheckCanAddDep(s, l, t, after);
    if err != Ok then err
    else if Answer(l, after, before) then Cycle
    else Ok
  }

  /** If a check says OK, the client may add to the point: it has not occurred, and it
      has turned to its guards only if a lock was handed over to it. */
  lemma CheckIsSound(s: State, l: Links, t: PointId, p: PointId)
    requires Reachable(s) && LinksOf(s, l) && InBody(s, t) && CheckCanAddDep(s, l, t, p) == Ok
    ensures CanAddDep(s, t, p) && !Occ(s, p)
    ensures Turned(s, p) <==> HasSynthetic(s, p)
  {
    ReachableInvariant(s);
    if Answer(l, t, p) {
      AnswerIsSound(s, l, t, p);
      HappensBeforeKnown(s, t, p);
    } else if p != t {
      var u :| u in s.points && s.points[u].owner == Some(t) && (u == p || s.points[u].bound == Some(p));
      assert BoundOk(s, u);
    }
    AllowedTarget(s, t, p);
  }

  lemma HappensBeforeKnown(s: State, a: PointId, b: PointId)
    requires Shape(s) && HappensBefore(s, a, b)
    ensures b in s.points
  {
    var es: seq<EdgeId> :| es != [] && IsPath(s, es, a, b);
    PathKnown(s, es, a, b);
  }

  lemma {:induction false} PathKnown(s: State, es: seq<EdgeId>, a: PointId, b: PointId)
    requires Shape(s) && es != [] && IsPath(s, es, a, b)
    ensures b in s.points
  {
    if es[1..] != [] {
      PathKnown(s, es[1..], s.edges[es[0]].dst, b);
    }
  }

  /** An edge that check_can_add_hb() refuses as a cycle would indeed have closed one. */
  lemma CycleIsReal(s: State, l: Links, t: PointId, before: PointId, after: PointId)
    requires Shape(s) && LinksOf(s, l) && CheckCanAddHb(s, l, t, before, after) == Cycle
    ensures HappensBefore(s, after, before)
  {
    AnswerIsSound(s, l, after, before);
  }

  // ----- point_bounded_by() -----------------------------------------------------------------------

  lemma {:induction false} BoundIsHigher(s: State, p: PointId, b: PointId)
    requires p in s.points && b in s.points && BoundedBy(s, p, b)
    ensures p == b || s.points[b].depth < s.points[p].depth
    decreases s.points[p].depth
  {
    if p != b {
      BoundIsHigher(s, s.points[p].bound.value, b);
    }
  }

  /** point_bounded_by(): going up until the depths agree finds out whether bnd is among
      the bounds of pnt. */
  method PointBoundedBy(s: State, pnt: PointId, bnd: PointId) returns (bounded: bool)
    requires BoundsCount(s) && pnt in s.points && bnd in s.points
    ensures bounded <==> BoundedBy(s, pnt, bnd)
  {
    var p := pnt;
    while s.points[p].depth > s.points[bnd].depth
      invariant p in s.points && (BoundedBy(s, p, bnd) <==> BoundedBy(s, pnt, bnd))
      decreases s.points[p].depth
    {
      assert BoundOk(s, p);
      p := s.points[p].bound.value;
    }
    if BoundedBy(s, p, bnd) {
      BoundIsHigher(s, p, bnd);
    }
    return p == bnd;
  }
}
