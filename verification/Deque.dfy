/** The work-stealing deque as one thread at a time sees it. The owner works at the tail
    and remembers a head that may be out of date; thieves work at the other end. */
module Deque {
  import opened DequeRing

  ghost predicate PowerOfTwo(n: nat) {
    exists k: nat :: n == Pow2(k)
  }

  /** deque_index(). */
  function DequeIndex(mask: nat, pos: nat): nat {
    BitAnd(pos, mask)
  }

  lemma IndexIs(len: nat, pos: nat)
    requires PowerOfTwo(len)
    ensures len > 0 && DequeIndex(len - 1, pos) == pos % len
  {
    var k: nat :| len == Pow2(k);
    MaskIsMod(pos, k);
  }

  lemma Doubling(len: nat)
    requires PowerOfTwo(len)
    ensures PowerOfTwo(2 * len)
  {
    var k: nat :| len == Pow2(k);
    assert 2 * len == Pow2(k + 1);
  }

  /** The longest ring whose length fits the index type. */
  const MAX_LENGTH: nat := 0x8000_0000

  /** Subtraction of unsigned 32-bit indices. */
  function Minus(a: nat, b: nat): nat
    requires a <= DEQUE_INDEX_MAX && b <= DEQUE_INDEX_MAX
  {
    if b <= a then a - b else a + (DEQUE_INDEX_MAX + 1) - b
  }

  /** The owner's view leaves no room, or the tail index would roll over. */
  predicate MustExpand(len: nat, head: nat, tail: nat)
    requires head <= DEQUE_INDEX_MAX && tail <= DEQUE_INDEX_MAX
  {
    Minus(tail, head) >= len || tail == DEQUE_INDEX_MAX
  }

  /** With the head brought up to date less than a sixteenth of the ring is available. */
  predicate MustDouble(len: nat, head: nat, tail: nat)
    requires len <= DEQUE_INDEX_MAX && head <= DEQUE_INDEX_MAX && tail <= DEQUE_INDEX_MAX
  {
    Minus(len, Minus(tail, head)) <= len / 16
  }

  /** If the ring must be doubled, its new length fits the index type. */
  predicate CanDouble(len: nat, head: nat, tail: nat)
    requires len <= DEQUE_INDEX_MAX && head <= DEQUE_INDEX_MAX && tail <= DEQUE_INDEX_MAX
  {
    MustDouble(len, head, tail) ==> 2 * len <= MAX_LENGTH
  }

  /** Expanding with the head brought up to date either copies nothing, or has nothing to
      copy, or finds the head at a multiple of the new length. */
  predicate SafeToExpand(len: nat, head: nat, tail: nat)
    requires 0 < len <= DEQUE_INDEX_MAX && head <= DEQUE_INDEX_MAX && tail <= DEQUE_INDEX_MAX
  {
    if MustDouble(len, head, tail) then tail == head || head % (2 * len) == 0
    else tail == DEQUE_INDEX_MAX ==> tail == head || head % len == 0
  }

  /** The ring is doubled if at most a sixteenth of it is free. */
  lemma DoublesIfFewAreFree(len: nat, head: nat, tail: nat)
    requires len <= MAX_LENGTH && head <= tail <= DEQUE_INDEX_MAX && tail - head <= len
    ensures MustDouble(len, head, tail) <==> 16 * (len - (tail - head)) <= len
  {
  }

  lemma CopyThenRebase(slots: seq<Slot>, lo: nat, xs: seq<Item>, newLen: nat)
    requires Holds(slots, lo, xs) && |xs| <= newLen && 0 < newLen
    ensures var copy := CopyLoop(slots, lo, |xs|, newLen);
      if xs == [] || lo % newLen == 0 then Holds(copy, 0, xs)
      else Distinct(xs) ==> At(copy, 0, 0) != Work(xs[0])
  {
    CopyHolds(slots, lo, xs, newLen);
    var copy := CopyLoop(slots, lo, |xs|, newLen);
    if xs == [] || lo % newLen == 0 {
      RebaseKeeps(copy, lo, xs);
    } else if Distinct(xs) {
      RebaseLoses(copy, lo, xs);
    }
  }

  class Deque {
    var workItems: array<Slot>
    var ownerHead: nat
    var ownerTail: nat
    var thiefHead: nat

    /** No operation is under way and the deque holds xs, oldest first. */
    ghost predicate Holding(xs: seq<Item>)
      reads this, workItems
    {
      && PowerOfTwo(workItems.Length) && workItems.Length <= MAX_LENGTH
      && Holds(workItems[..], thiefHead, xs)
      && ownerHead <= thiefHead && ownerTail == thiefHead + |xs|
      && ownerTail - ownerHead <= workItems.Length && ownerTail <= DEQUE_INDEX_MAX
    }

    /** After a copy that moved the items off their positions: the oldest is not where
        the next thief will look. */
    ghost predicate Displaced(xs: seq<Item>)
      reads this, workItems
    {
      && xs != [] && 0 < workItems.Length && thiefHead == 0
      && At(workItems[..], 0, 0) != Work(xs[0])
    }

    /** The next put needs no expansion, or a safe one. */
    predicate PutKeeps()
      requires 0 < workItems.Length <= MAX_LENGTH && thiefHead <= DEQUE_INDEX_MAX
      requires ownerHead <= DEQUE_INDEX_MAX && ownerTail <= DEQUE_INDEX_MAX
      reads this
    {
      MustExpand(workItems.Length, ownerHead, ownerTail) ==> SafeToExpand(workItems.Length, thiefHead, ownerTail)
    }

    /** deque_init(). */
    constructor ()
      ensures Holding([]) && fresh(workItems) && workItems.Length == 1024
    {
      workItems := new Slot[INITIAL_LENGTH](_ => Null);
      ownerHead, ownerTail, thiefHead := 0, 0, 0;
      assert INITIAL_LENGTH == Pow2(10);
    }

    /** deque_copy_array(). */
    method CopyArray(newLen: nat, ghost xs: seq<Item>)
      requires Holding(xs) && ownerHead == thiefHead
      requires PowerOfTwo(newLen) && |xs| < newLen <= MAX_LENGTH
      modifies this
      ensures fresh(workItems) && workItems.Length == newLen
      ensures ownerHead == thiefHead == 0 && ownerTail == |xs|
      ensures workItems[..] == CopyLoop(old(workItems[..]), old(ownerHead), |xs|, newLen)
      ensures xs == [] || old(thiefHead) % newLen == 0 ==> Holding(xs)
      ensures Distinct(xs) && xs != [] && old(thiefHead) % newLen != 0 ==> Displaced(xs)
    {
      var oldLen := workItems.Length;
      var lo := ownerHead;
      var newItems := new Slot[newLen](_ => Null);
      var i := lo;
      while i < ownerTail
        invariant lo <= i <= ownerTail
        invariant newItems[..] == CopyLoop(old(workItems[..]), lo, i - lo, newLen)
        modifies newItems
      {
        IndexIs(oldLen, i);
        IndexIs(newLen, i);
        ghost var before := newItems[..];
        var item := workItems[DequeIndex(oldLen - 1, i)];
        newItems[DequeIndex(newLen - 1, i)] := item;
        assert item == At(old(workItems[..]), lo, i - lo);
        assert newItems[..] == Put(before, lo, i - lo, item);
        i := i + 1;
      }
      CopyThenRebase(workItems[..], lo, xs, newLen);
      workItems := newItems;
      ownerTail := ownerTail - ownerHead;
      ownerHead, thiefHead := 0, 0;
    }

    /** deque_expand(). */
    method Expand(ghost xs: seq<Item>)
      requires Holding(xs) && CanDouble(workItems.Length, thiefHead, ownerTail)
      modifies this
      ensures workItems == old(workItems) || fresh(workItems)
      ensures PowerOfTwo(workItems.Length) && workItems.Length <= MAX_LENGTH
      ensures thiefHead <= ownerTail <= DEQUE_INDEX_MAX && ownerTail == thiefHead + |xs|
      ensures ownerHead == thiefHead && !MustExpand(workItems.Length, ownerHead, ownerTail)
      ensures SafeToExpand(old(workItems.Length), old(thiefHead), old(ownerTail)) ==> Holding(xs)
      ensures !SafeToExpand(old(workItems.Length), old(thiefHead), old(ownerTail)) && Distinct(xs) ==> Displaced(xs)
      ensures 16 * (old(workItems.Length) - |xs|) > old(workItems.Length) && old(ownerTail) < DEQUE_INDEX_MAX ==>
        workItems == old(workItems) && workItems[..] == old(workItems[..]) && thiefHead == old(thiefHead) && Holding(xs)
      ensures 16 * (old(workItems.Length) - |xs|) > old(workItems.Length) && old(ownerTail) == DEQUE_INDEX_MAX ==>
        fresh(workItems) && workItems.Length == old(workItems.Length) && thiefHead == 0 &&
        (xs == [] || old(thiefHead) % workItems.Length == 0 ==> Holding(xs))
      ensures 16 * (old(workItems.Length) - |xs|) <= old(workItems.Length) ==>
        fresh(workItems) && workItems.Length == 2 * old(workItems.Length) && thiefHead == 0 &&
        (xs == [] || old(thiefHead) % workItems.Length == 0 ==> Holding(xs))
    {
      DoublesIfFewAreFree(workItems.Length, thiefHead, ownerTail);
      ownerHead := thiefHead;
      var len := workItems.Length;
      var thold := len / 16;
      var size := Minus(ownerTail, ownerHead);
      var avail := Minus(len, size);
      if avail <= thold {
        Doubling(len);
        CopyArray(len * 2, xs);
      } else if ownerTail == DEQUE_INDEX_MAX {
        CopyArray(len, xs);
      }
    }

    /** The rest of deque_owner_put(): the slot at the tail is written, and then the tail moved. */
    method WriteAtTail(x: Item, ghost xs: seq<Item>)
      requires PowerOfTwo(workItems.Length) && workItems.Length <= MAX_LENGTH
      requires ownerHead <= thiefHead && ownerTail == thiefHead + |xs| <= DEQUE_INDEX_MAX
      requires !MustExpand(workItems.Length, ownerHead, ownerTail)
      modifies this`ownerTail, workItems
      ensures ownerTail == old(ownerTail) + 1
      ensures old(Holding(xs)) ==> Holding(xs + [x])
      ensures old(Displaced(xs)) ==> Displaced(xs)
    {
      var len := workItems.Length;
      var tail := ownerTail;
      IndexIs(len, tail);
      ghost var before := workItems[..];
      workItems[DequeIndex(len - 1, tail)] := Work(x);
      assert workItems[..] == Put(before, thiefHead, |xs|, Work(x));
      ownerTail := tail + 1;
      if Holds(before, thiefHead, xs) {
        PushLast(before, thiefHead, xs, x);
      }
      if thiefHead == 0 && xs != [] {
        Within(0, len);
        SlotsDiffer(0, tail, len);
      }
    }

    /** deque_owner_put(). The measure says that at most one expansion is needed. */
    method OwnerPut(x: Item, ghost xs: seq<Item>)
      requires Holding(xs) && (MustExpand(workItems.Length, ownerHead, ownerTail) ==> CanDouble(workItems.Length, thiefHead, ownerTail))
      modifies this, workItems
      ensures workItems == old(workItems) || fresh(workItems)
      ensures old(PutKeeps()) ==> Holding(xs + [x])
      ensures !old(PutKeeps()) && Distinct(xs) ==> Displaced(xs)
      ensures Distinct(xs) ==> (old(PutKeeps()) <==> Holding(xs + [x]))
      ensures old(ownerTail - ownerHead) < old(workItems.Length) && old(ownerTail) < DEQUE_INDEX_MAX ==>
        workItems == old(workItems) && Holding(xs + [x])
      ensures 16 * (old(workItems.Length) - |xs|) > old(workItems.Length) && old(ownerTail) < DEQUE_INDEX_MAX ==>
        workItems == old(workItems) && Holding(xs + [x])
      ensures 16 * (old(workItems.Length) - |xs|) > old(workItems.Length) && old(ownerTail) == DEQUE_INDEX_MAX ==>
        fresh(workItems) && workItems.Length == old(workItems.Length) &&
        (xs == [] || old(thiefHead) % workItems.Length == 0 ==> Holding(xs + [x]))
      ensures 16 * (old(workItems.Length) - |xs|) <= old(workItems.Length) &&
              (old(ownerTail - ownerHead) == old(workItems.Length) || old(ownerTail) == DEQUE_INDEX_MAX) ==>
        fresh(workItems) && workItems.Length == 2 * old(workItems.Length) &&
        (xs == [] || old(thiefHead) % workItems.Length == 0 ==> Holding(xs + [x]))
    {
      ghost var full := MustExpand(workItems.Length, ownerHead, ownerTail);
      ghost var safe := SafeToExpand(workItems.Length, thiefHead, ownerTail);
      ghost var few := 16 * (workItems.Length - |xs|) <= workItems.Length;
      ghost var expanded := false;
      DoublesIfFewAreFree(workItems.Length, thiefHead, ownerTail);
      while true
        invariant workItems == old(workItems) || fresh(workItems)
        invariant PowerOfTwo(workItems.Length) && workItems.Length <= MAX_LENGTH
        invariant ownerTail == thiefHead + |xs| <= DEQUE_INDEX_MAX && ownerHead <= thiefHead
        invariant !expanded ==>
          Holding(xs) && workItems == old(workItems) && ownerTail == old(ownerTail) && ownerHead == old(ownerHead) && thiefHead == old(thiefHead)
        invariant expanded ==> full && !MustExpand(workItems.Length, ownerHead, ownerTail)
        invariant expanded ==> workItems.Length == if few then 2 * old(workItems.Length) else old(workItems.Length)
        invariant expanded ==> (workItems == old(workItems) <==> !few && old(ownerTail) < DEQUE_INDEX_MAX)
        invariant safe ==> Holding(xs)
        invariant expanded && !safe && Distinct(xs) ==> Displaced(xs)
        decreases if MustExpand(workItems.Length, ownerHead, ownerTail) then 1 else 0
      {
        if MustExpand(workItems.Length, ownerHead, ownerTail) {
          Expand(xs);
          expanded := true;
          continue;
        }
        WriteAtTail(x, xs);
        if expanded && !safe && Distinct(xs) {
          DisplacedIsLost(this, xs, xs + [x]);
        }
        return;
      }
    }

    /** deque_owner_take(). A null pointer tells the owner how far the thieves have come. */
    method OwnerTake(ghost xs: seq<Item>) returns (result: Slot)
      requires Holding(xs)
      modifies this, workItems
      ensures workItems == old(workItems)
      ensures xs == [] ==> result == Null && Holding([])
      ensures xs != [] ==> result == Work(xs[|xs| - 1]) && Holding(xs[..|xs| - 1])
      ensures thiefHead == old(thiefHead) && ownerHead == if xs == [] then thiefHead else old(ownerHead)
    {
      var len := workItems.Length;
      if ownerHead == ownerTail {
        return Null;
      }
      var lastTail := ownerTail - 1;
      IndexIs(len, lastTail);
      var lastIndex := DequeIndex(len - 1, lastTail);
      ghost var before := workItems[..];
      if xs != [] {
        PopLast(before, thiefHead, xs);
      } else {
        EmptyEverywhere(before, thiefHead);
      }
      result := workItems[lastIndex];
      workItems[lastIndex] := Null;
      assert xs != [] ==> workItems[..] == Put(before, thiefHead, |xs| - 1, Null);
      if result == Null {
        assert workItems[..] == before;
        ownerHead := ownerTail;
        return Null;
      }
      ownerTail := lastTail;
    }

    /** deque_steal(). */
    method Steal(ghost xs: seq<Item>) returns (result: Slot)
      requires Holding(xs)
      modifies this, workItems
      ensures workItems == old(workItems)
      ensures xs == [] ==> result == Null && Holding([])
      ensures xs != [] ==> result == Work(xs[0]) && Holding(xs[1..])
    {
      var len := workItems.Length;
      var head := thiefHead;
      IndexIs(len, head);
      var index := DequeIndex(len - 1, head);
      ghost var before := workItems[..];
      if xs != [] {
        PopFirst(before, head, xs);
      } else {
        EmptyEverywhere(before, head);
      }
      result := workItems[index];
      workItems[index] := Null;
      assert xs != [] ==> workItems[..] == Put(before, head, 0, Null);
      if result != Null {
        thiefHead := head + 1;
      } else {
        assert workItems[..] == before;
      }
    }
  }

  /** A deque whose items have been displaced does not hold them any more, nor them and
      what was put after them. */
  lemma DisplacedIsLost(d: Deque, xs: seq<Item>, ys: seq<Item>)
    requires d.Displaced(xs) && xs <= ys
    ensures !d.Holding(ys)
  {
    var oldest := At(d.workItems[..], 0, 0);
    assert ys[0] == xs[0];
  }
}
