/** The chunked list of outgoing edges of a point. It grows at the front, in place, while
    other threads may be walking a snapshot of it. */
module EdgeList {

  const EDGE_CHUNK_SIZE: nat := 3

  /** An entry of a chunk: a null pointer, or a point with the synthetic flag. */
  datatype EPoint = NullEPoint | EPoint(point: nat, synthetic: bool)

  /** The entries before the first null one. */
  function Prefix(s: seq<EPoint>): seq<EPoint> {
    if s == [] || s[0] == NullEPoint then [] else [s[0]] + Prefix(s[1..])
  }

  /** edge_t. */
  class Edge {
    var toPoints: seq<EPoint>
    var next: Edge?

    constructor (toPoints: seq<EPoint>, next: Edge?)
      ensures this.toPoints == toPoints && this.next == next
    {
      this.toPoints, this.next := toPoints, next;
    }
  }

  /** Following next from edge leads through exactly the chunks cs, of the right size. */
  ghost predicate Chain(edge: Edge?, cs: seq<Edge>)
    reads cs
  {
    if cs == [] then edge == null
    else edge == cs[0] && |cs[0].toPoints| == EDGE_CHUNK_SIZE && cs[0] !in cs[1..] && Chain(cs[0].next, cs[1..])
  }

  /** The entries a walk of these chunks finds. */
  ghost function Listing(cs: seq<Edge>): seq<EPoint>
    reads cs
  {
    if cs == [] then [] else Prefix(cs[0].toPoints) + Listing(cs[1..])
  }

  ghost predicate Full(e: Edge)
    reads e
  {
    NullEPoint !in e.toPoints
  }

  class EdgeList {
    var head: Edge?
    ghost var chunks: seq<Edge>

    /** The head holds a non-empty prefix of entries, and all other chunks are full. */
    ghost predicate Valid()
      reads this, chunks
    {
      && Chain(head, chunks)
      && (forall i :: 0 < i < |chunks| ==> Full(chunks[i]))
      && (head != null ==> head.toPoints[0] != NullEPoint && (head.toPoints[1] == NullEPoint ==> head.toPoints[2] == NullEPoint))
    }

    ghost function Edges(): seq<EPoint>
      reads this, chunks
    {
      Listing(chunks)
    }

    /** What an insertion may write to, besides the list itself. */
    function HeadChunk(): set<Edge>
      reads this
    {
      if head == null then {} else {head}
    }

    /** Where the next entry comes in the order of the walk. */
    ghost function Place(): nat
      requires head != null ==> |head.toPoints| == EDGE_CHUNK_SIZE
      reads this, head
    {
      if head == null || Full(head) then 0 else |Prefix(head.toPoints)|
    }

    constructor ()
      ensures Valid() && Edges() == []
    {
      head, chunks := null, [];
    }

    /** insert_edge(): one entry more, in the head chunk or in a new one before it. */
    method InsertEdge(epnt: EPoint)
      requires Valid() && epnt != NullEPoint
      modifies this, HeadChunk()
      ensures Valid()
      ensures old(Place()) <= |old(Edges())|
      ensures Edges() == old(Edges())[..old(Place())] + [epnt] + old(Edges())[old(Place())..]
      ensures head != null && (head == old(head) || fresh(head))
    {
      var curEdge := head;
      if curEdge != null {
        var i := 1;
        while i < EDGE_CHUNK_SIZE
          invariant 1 <= i <= EDGE_CHUNK_SIZE
          invariant forall j :: 0 <= j < i ==> head.toPoints[j] != NullEPoint
        {
          if curEdge.toPoints[i] == NullEPoint {
            FillHead(i, epnt);
            return;
          }
          i := i + 1;
        }
      }
      ghost var before := Edges();
      var newEdge := new Edge([epnt, NullEPoint, NullEPoint], curEdge);
      assert Chain(curEdge, chunks) && Listing(chunks) == before;
      head := newEdge;
      chunks := [newEdge] + chunks;
      assert Prefix(newEdge.toPoints) == [epnt];
    }

    /** The first free entry of the head is filled. */
    method FillHead(i: nat, epnt: EPoint)
      requires Valid() && epnt != NullEPoint
      requires head != null && 1 <= i < EDGE_CHUNK_SIZE && head.toPoints[i] == NullEPoint
      requires forall j :: 0 <= j < i ==> head.toPoints[j] != NullEPoint
      modifies head
      ensures Valid() && old(Place()) == i <= |old(Edges())|
      ensures Edges() == old(Edges())[..i] + [epnt] + old(Edges())[i..]
    {
      ghost var was, rest := head.toPoints, Listing(chunks[1..]);
      head.toPoints := head.toPoints[i := epnt];
      assert Listing(chunks[1..]) == rest && Chain(head.next, chunks[1..]);
      PrefixFill(was, i, epnt);
    }

    /** The copy that occur() makes of the head chunk under the lock. */
    method Snapshot() returns (notify: Edge, ghost cs: seq<Edge>)
      requires Valid()
      ensures fresh(notify) && Chain(notify, cs)
      ensures Listing(cs) == Edges()
      ensures forall c :: c in cs ==> c !in HeadChunk()
      ensures forall c :: c in cs ==> c == notify || c in chunks
    {
      notify := new Edge([NullEPoint, NullEPoint, NullEPoint], null);
      cs := [notify];
      if head != null {
        notify.toPoints, notify.next := head.toPoints, head.next;
        cs := [notify] + chunks[1..];
        assert Chain(notify.next, chunks[1..]);
      }
    }
  }

  lemma PrefixFill(was: seq<EPoint>, i: nat, epnt: EPoint)
    requires |was| == EDGE_CHUNK_SIZE && 1 <= i < EDGE_CHUNK_SIZE && epnt != NullEPoint
    requires was[i] == NullEPoint && (i == 1 ==> was[2] == NullEPoint)
    requires forall j :: 0 <= j < i ==> was[j] != NullEPoint
    ensures Prefix(was) == was[..i] && Prefix(was[i := epnt]) == was[..i] + [epnt]
  {
    PrefixIs(was, i);
    PrefixIs(was[i := epnt], i + 1);
  }

  lemma {:induction false} PrefixIs(s: seq<EPoint>, i: nat)
    requires i <= |s| && (forall j :: 0 <= j < i ==> s[j] != NullEPoint) && (i < |s| ==> s[i] == NullEPoint)
    ensures Prefix(s) == s[..i]
  {
    if i > 0 {
      PrefixIs(s[1..], i - 1);
    }
  }

  lemma PrefixOfFull(e: Edge)
    requires Full(e)
    ensures Prefix(e.toPoints) == e.toPoints
  {
    PrefixIs(e.toPoints, |e.toPoints|);
  }

  lemma FullListing(cs: seq<Edge>)
    requires cs != [] ==> Full(cs[0]) && |cs[0].toPoints| == EDGE_CHUNK_SIZE
    ensures cs != [] ==> |Listing(cs)| >= EDGE_CHUNK_SIZE
  {
    if cs != [] {
      PrefixOfFull(cs[0]);
    }
  }

  /** A list with room in its only chunk grows at its end. */
  lemma ShortGrowsAtEnd(list: EdgeList)
    requires list.Valid() && |list.Edges()| < EDGE_CHUNK_SIZE
    ensures list.Place() == |list.Edges()|
  {
    if list.head != null {
      var rest := list.chunks[1..];
      assert Chain(list.head.next, rest);
      assert rest != [] ==> rest[0] == list.chunks[1];
      FullListing(rest);
      assert list.Edges() == Prefix(list.head.toPoints) + Listing(rest);
      if Full(list.head) {
        PrefixOfFull(list.head);
      }
    }
  }

  /** The first entries of a list stay in the order in which they were inserted. */
  method InsertFirst(list: EdgeList, epnt: EPoint)
    requires list.Valid() && epnt != NullEPoint && |list.Edges()| < EDGE_CHUNK_SIZE
    modifies list, list.HeadChunk()
    ensures list.Valid() && list.Edges() == old(list.Edges()) + [epnt]
    ensures list.head != null && (list.head == old(list.head) || fresh(list.head))
  {
    ShortGrowsAtEnd(list);
    list.InsertEdge(epnt);
  }

  // ----- Walking a snapshot while the list grows ------------------------------------------------

  lemma PlacedIsAdded(before: seq<EPoint>, k: nat, e: EPoint)
    requires k <= |before|
    ensures multiset(before[..k] + [e] + before[k..]) == multiset(before) + multiset{e}
  {
    assert before == before[..k] + before[k..];
  }

  /** Another thread inserts an edge. */
  method InsertOther(list: EdgeList, e: EPoint)
    requires list.Valid() && e != NullEPoint
    modifies list, list.HeadChunk()
    ensures list.Valid()
    ensures multiset(list.Edges()) == multiset(old(list.Edges())) + multiset{e}
    ensures list.head != null && (list.head == old(list.head) || fresh(list.head))
  {
    PlacedIsAdded(list.Edges(), list.Place(), e);
    list.InsertEdge(e);
  }

  /** What other threads insert, one edge after another. */
  method InsertAll(list: EdgeList, es: seq<EPoint>)
    requires list.Valid() && NullEPoint !in es
    modifies list, list.HeadChunk()
    ensures list.Valid()
    ensures multiset(list.Edges()) == multiset(old(list.Edges())) + multiset(es)
    ensures list.head == old(list.head) || (list.head != null && fresh(list.head))
  {
    if es != [] {
      assert es == [es[0]] + es[1..];
      InsertOther(list, es[0]);
      InsertAll(list, es[1..]);
    }
  }

  /** Between two reads of a walk other threads may insert anything. */
  method Meanwhile(list: EdgeList)
    requires list.Valid()
    modifies list, list.HeadChunk()
    ensures list.Valid()
    ensures list.head == old(list.head) || (list.head != null && fresh(list.head))
  {
    var es: seq<EPoint> := *;
    if NullEPoint !in es {
      InsertAll(list, es);
    }
  }

  /** One read of a walk, after whatever other threads have inserted. */
  method ReadEntry(edge: Edge, i: nat, list: EdgeList) returns (epnt: EPoint)
    requires list.Valid() && |edge.toPoints| == EDGE_CHUNK_SIZE && edge !in list.HeadChunk() && i < EDGE_CHUNK_SIZE
    modifies list, list.HeadChunk()
    ensures epnt == edge.toPoints[i] && edge.toPoints == old(edge.toPoints) && edge.next == old(edge.next)
    ensures list.Valid()
    ensures list.head == old(list.head) || (list.head != null && fresh(list.head))
  {
    Meanwhile(list);
    epnt := edge.toPoints[i];
  }

  /** The entries of one chunk of a snapshot, read one at a time. */
  method ArriveChunk(edge: Edge, list: EdgeList) returns (notified: seq<EPoint>)
    requires list.Valid() && |edge.toPoints| == EDGE_CHUNK_SIZE && edge !in list.HeadChunk()
    modifies list, list.HeadChunk()
    ensures notified == Prefix(edge.toPoints) && edge.toPoints == old(edge.toPoints) && edge.next == old(edge.next)
    ensures list.Valid()
    ensures list.head == old(list.head) || (list.head != null && fresh(list.head))
  {
    notified := [];
    var i := 0;
    while i < EDGE_CHUNK_SIZE
      invariant 0 <= i <= EDGE_CHUNK_SIZE && edge.toPoints == old(edge.toPoints) && edge.next == old(edge.next)
      invariant notified == edge.toPoints[..i] && NullEPoint !in notified
      invariant list.Valid()
      invariant list.head == old(list.head) || (list.head != null && fresh(list.head))
    {
      var epnt := ReadEntry(edge, i, list);
      if epnt == NullEPoint {
        PrefixIs(edge.toPoints, i);
        return;
      }
      notified := notified + [epnt];
      i := i + 1;
    }
    PrefixIs(edge.toPoints, i);
  }

  /** arrive_edge() on a snapshot: it notifies exactly the edges of the snapshot, however
      many are inserted before each of its reads. */
  method ArriveEdge(edge: Edge?, list: EdgeList, ghost cs: seq<Edge>) returns (notified: seq<EPoint>)
    requires Chain(edge, cs) && list.Valid()
    requires forall c :: c in cs ==> c !in list.HeadChunk()
    modifies list, list.HeadChunk()
    ensures notified == old(Listing(cs))
    ensures list.Valid()
    decreases |cs|
  {
    notified := [];
    if edge != null {
      ghost var rest := Listing(cs[1..]);
      var first := ArriveChunk(edge, list);
      assert Chain(edge.next, cs[1..]) && Listing(cs[1..]) == rest;
      var others := ArriveEdge(edge.next, list, cs[1..]);
      notified := first + others;
    }
  }

  /** The notifying part of occur(): the edges present when the copy was made are notified,
      each once, and none that came later. */
  method NotifySnapshot(list: EdgeList) returns (notified: seq<EPoint>)
    requires list.Valid()
    modifies list, list.HeadChunk()
    ensures notified == old(list.Edges())
    ensures list.Valid()
  {
    ghost var present := list.Edges();
    var notify, cs := list.Snapshot();
    notified := ArriveEdge(notify, list, cs);
  }
}
