/** The ring a deque keeps its items in: logical positions, their slots, and what it
    means for the ring to hold a sequence of items. */
module DequeRing {

  type Item = nat

  /** A cell of work_items: a null pointer or an item. */
  datatype Slot = Null | Work(item: Item)

  const DEQUE_INDEX_MAX: nat := 0xFFFF_FFFF
  const INITIAL_LENGTH: nat := 1024

  // ----- Masks -----------------------------------------------------------------------

  /** Bitwise conjunction. */
  function BitAnd(a: nat, b: nat): nat {
    if a == 0 || b == 0 then 0 else 2 * BitAnd(a / 2, b / 2) + (a % 2) * (b % 2)
  }

  function Pow2(k: nat): (r: nat)
    ensures r >= 1
  {
    if k == 0 then 1 else 2 * Pow2(k - 1)
  }

  /** deque_index(): masking with the length less one finds the slot of a position. */
  lemma {:induction false} MaskIsMod(pos: nat, k: nat)
    ensures BitAnd(pos, Pow2(k) - 1) == pos % Pow2(k)
  {
    if k > 0 {
      var n := Pow2(k - 1);
      MaskIsMod(pos / 2, k - 1);
      HalfMod(pos, n);
      assert (2 * n - 1) / 2 == n - 1 && (2 * n - 1) % 2 == 1;
    }
  }

  lemma HalfMod(pos: nat, n: nat)
    requires n >= 1
    ensures pos % (2 * n) == 2 * ((pos / 2) % n) + pos % 2
  {
    var half := pos / 2;
    var q := half / n;
    var r := 2 * (half % n) + pos % 2;
    assert pos == (2 * n) * q + r by {
      assert half == n * q + half % n;
      assert 2 * (n * q) == (2 * n) * q;
    }
    ModIs(pos, 2 * n, q, r);
  }

  lemma Multiples(n: nat, a: int, b: int)
    ensures a <= b ==> n * a <= n * b
  {
  }

  lemma ModIs(a: nat, n: nat, q: nat, r: nat)
    requires a == n * q + r && r < n
    ensures a % n == r
  {
    var q' := a / n;
    assert a == n * q' + a % n;
    Multiples(n, q' + 1, q);
    Multiples(n, q + 1, q');
  }

  /** Positions less than a ring apart have different slots. */
  lemma SlotsDiffer(a: nat, b: nat, n: nat)
    requires n > 0 && a < b < a + n
    ensures a % n != b % n
  {
    var q := b / n - a / n;
    assert b - a == n * q + b % n - a % n by {
      assert a == n * (a / n) + a % n && b == n * (b / n) + b % n;
      assert n * (b / n) - n * (a / n) == n * q;
    }
    Multiples(n, q, 0);
    Multiples(n, 1, q);
  }

  lemma OnceAround(a: nat, n: nat)
    requires n > 0
    ensures (a + n) % n == a % n
  {
    assert a + n == n * (a / n + 1) + a % n;
    ModIs(a + n, n, a / n + 1, a % n);
  }

  lemma Within(a: nat, n: nat)
    requires a < n
    ensures a % n == a
  {
    ModIs(a, n, 0, a);
  }

  // ----- What the ring holds ---------------------------------------------------------

  /** The slot i places after position lo. */
  function At(slots: seq<Slot>, lo: nat, i: nat): Slot
    requires |slots| > 0
  {
    slots[(lo + i) % |slots|]
  }

  function Put(slots: seq<Slot>, lo: nat, i: nat, v: Slot): (r: seq<Slot>)
    requires |slots| > 0
    ensures |r| == |slots|
  {
    slots[(lo + i) % |slots| := v]
  }

  /** From position lo on, one ring long, come the items xs and then null pointers. */
  ghost predicate Holds(slots: seq<Slot>, lo: nat, xs: seq<Item>) {
    && 0 < |slots| && |xs| <= |slots|
    && (forall i: nat {:trigger At(slots, lo, i)} :: i < |slots| ==>
          At(slots, lo, i) == if i < |xs| then Work(xs[i]) else Null)
  }

  lemma PutAt(slots: seq<Slot>, lo: nat, k: nat, v: Slot, i: nat)
    requires k < |slots| && i < |slots|
    ensures At(Put(slots, lo, k, v), lo, i) == if i == k then v else At(slots, lo, i)
  {
    if i < k {
      SlotsDiffer(lo + i, lo + k, |slots|);
    } else if k < i {
      SlotsDiffer(lo + k, lo + i, |slots|);
    }
  }

  /** The next position of a ring that is not full is free, and takes the new last item. */
  lemma PushLast(slots: seq<Slot>, lo: nat, xs: seq<Item>, x: Item)
    requires Holds(slots, lo, xs) && |xs| < |slots|
    ensures At(slots, lo, |xs|) == Null
    ensures Holds(Put(slots, lo, |xs|, Work(x)), lo, xs + [x])
  {
    var slots' := Put(slots, lo, |xs|, Work(x));
    forall i: nat | i < |slots'|
      ensures At(slots', lo, i) == if i < |xs + [x]| then Work((xs + [x])[i]) else Null
    {
      PutAt(slots, lo, |xs|, Work(x), i);
    }
  }

  lemma PopLast(slots: seq<Slot>, lo: nat, xs: seq<Item>)
    requires Holds(slots, lo, xs) && xs != []
    ensures At(slots, lo, |xs| - 1) == Work(xs[|xs| - 1])
    ensures Holds(Put(slots, lo, |xs| - 1, Null), lo, xs[..|xs| - 1])
  {
    var k := |xs| - 1;
    var slots' := Put(slots, lo, k, Null);
    forall i: nat | i < |slots'|
      ensures At(slots', lo, i) == if i < k then Work(xs[..k][i]) else Null
    {
      PutAt(slots, lo, k, Null, i);
    }
  }

  lemma NextAround(slots: seq<Slot>, lo: nat, i: nat)
    requires i < |slots|
    ensures At(slots, lo + 1, i) == if i + 1 < |slots| then At(slots, lo, i + 1) else At(slots, lo, 0)
  {
    if i + 1 == |slots| {
      OnceAround(lo, |slots|);
      assert lo + 1 + i == lo + |slots|;
    } else {
      assert lo + 1 + i == lo + (i + 1);
    }
  }

  lemma PopFirst(slots: seq<Slot>, lo: nat, xs: seq<Item>)
    requires Holds(slots, lo, xs) && xs != []
    ensures At(slots, lo, 0) == Work(xs[0])
    ensures Holds(Put(slots, lo, 0, Null), lo + 1, xs[1..])
  {
    assert At(slots, lo, 0) == Work(xs[0]);
    var slots', next, rest := Put(slots, lo, 0, Null), lo + 1, xs[1..];
    forall i: nat | i < |slots'|
      ensures At(slots', next, i) == if i < |rest| then Work(rest[i]) else Null
    {
      NextAround(slots', lo, i);
      var j := if i + 1 < |slots| then i + 1 else 0;
      PutAt(slots, lo, 0, Null, j);
      assert j != 0 ==> At(slots, lo, j) == if j < |xs| then Work(xs[j]) else Null;
    }
    assert Holds(slots', next, rest);
  }

  /** In an empty ring every slot is null, wherever it is looked at from. */
  lemma EmptyEverywhere(slots: seq<Slot>, lo: nat)
    requires Holds(slots, lo, [])
    ensures forall k :: 0 <= k < |slots| ==> slots[k] == Null
  {
    forall k | 0 <= k < |slots|
      ensures slots[k] == Null
    {
      // the position of slot k among the |slots| that start at lo
      var n := |slots|;
      var r := lo % n;
      assert lo == n * (lo / n) + r;
      if r <= k {
        ModIs(lo + (k - r), n, lo / n, k);
        assert At(slots, lo, k - r) == slots[k];
      } else {
        assert n * (lo / n + 1) == n * (lo / n) + n;
        ModIs(lo + (n + k - r), n, lo / n + 1, k);
        assert At(slots, lo, n + k - r) == slots[k];
      }
    }
  }

  /** A ring holds only one sequence. */
  lemma HoldsOne(slots: seq<Slot>, lo: nat, xs: seq<Item>, ys: seq<Item>)
    requires Holds(slots, lo, xs) && Holds(slots, lo, ys)
    ensures xs == ys
  {
    if |xs| < |slots| {
      var v := At(slots, lo, |xs|);
    }
    if |ys| < |slots| {
      var w := At(slots, lo, |ys|);
    }
    forall i: nat | i < |xs| && i < |ys|
      ensures xs[i] == ys[i]
    {
      var u := At(slots, lo, i);
    }
  }

  // ----- Copying into a new array ----------------------------------------------------

  /** The new array after the copy loop has stored n items, each in the slot that its
      old position has in the new ring. */
  function CopyLoop(slots: seq<Slot>, lo: nat, n: nat, newLen: nat): (r: seq<Slot>)
    requires 0 < |slots| && 0 < newLen
    ensures |r| == newLen
  {
    if n == 0 then seq(newLen, _ => Null)
    else Put(CopyLoop(slots, lo, n - 1, newLen), lo, n - 1, At(slots, lo, n - 1))
  }

  lemma {:induction false} CopyHoldsUpTo(slots: seq<Slot>, lo: nat, xs: seq<Item>, n: nat, newLen: nat)
    requires Holds(slots, lo, xs) && n <= |xs| <= newLen && 0 < newLen
    ensures Holds(CopyLoop(slots, lo, n, newLen), lo, xs[..n])
  {
    if n > 0 {
      CopyHoldsUpTo(slots, lo, xs, n - 1, newLen);
      assert At(slots, lo, n - 1) == Work(xs[n - 1]);
      PushLast(CopyLoop(slots, lo, n - 1, newLen), lo, xs[..n - 1], xs[n - 1]);
      assert xs[..n] == xs[..n - 1] + [xs[n - 1]];
    }
  }

  lemma CopyHolds(slots: seq<Slot>, lo: nat, xs: seq<Item>, newLen: nat)
    requires Holds(slots, lo, xs) && |xs| <= newLen && 0 < newLen
    ensures Holds(CopyLoop(slots, lo, |xs|, newLen), lo, xs)
  {
    CopyHoldsUpTo(slots, lo, xs, |xs|, newLen);
    assert xs[..|xs|] == xs;
  }

  ghost predicate Distinct(xs: seq<Item>) {
    forall i, j :: 0 <= i < j < |xs| ==> xs[i] != xs[j]
  }

  /** deque_copy_array() keeps each item at its position but then restarts positions at
      0. The new ring still holds what the old one did if there was nothing to copy or
      the old head is a multiple of the new length; */
  lemma RebaseKeeps(slots: seq<Slot>, lo: nat, xs: seq<Item>)
    requires Holds(slots, lo, xs)
    requires xs == [] || lo % |slots| == 0
    ensures Holds(slots, 0, xs)
  {
    if xs == [] {
      EmptyEverywhere(slots, lo);
    } else {
      forall i: nat | i < |slots|
        ensures At(slots, 0, i) == if i < |xs| then Work(xs[i]) else Null
      {
        ModIs(lo + i, |slots|, lo / |slots|, i);
        Within(i, |slots|);
        assert At(slots, lo, i) == At(slots, 0, i);
      }
    }
  }

  /** otherwise the first item is no longer where it is looked for. */
  lemma RebaseLoses(slots: seq<Slot>, lo: nat, xs: seq<Item>)
    requires Holds(slots, lo, xs) && Distinct(xs)
    requires xs != [] && lo % |slots| != 0
    ensures At(slots, 0, 0) != Work(xs[0])
  {
    var n := |slots|;
    var i := n - lo % n;
    assert lo + i == n * (lo / n + 1);
    ModIs(lo + i, n, lo / n + 1, 0);
    Within(0, n);
    assert At(slots, lo, i) == At(slots, 0, 0);
  }
}
