/** The deque under concurrency: the owner and any number of thieves, one memory
    operation at a time. Only the null pointers in the slots tell them of each other. */
module DequeMachine {
  import opened DequeRing
  import opened Deque

  /** Where the owner is: in a put before its write, between the write and the new tail;
      in a take between the exchange and the update of its indices. */
  datatype Owner = Idle | Putting(item: Item) | Written | Took(result: Slot)

  /** The thief that holds the lock, before and after its exchange. */
  datatype Thief = Away | Locked(id: nat) | Swapped(id: nat, result: Slot)

  /** puts, taken and stolen are bookkeeping: what was written to the ring, and what was
      exchanged out of it by the owner and by thieves, in order. */
  datatype Machine = Machine(
    slots: seq<Slot>,
    ownerHead: nat,
    ownerTail: nat,
    thiefHead: nat,
    owner: Owner,
    thief: Thief,
    puts: seq<Item>,
    taken: seq<Item>,
    stolen: seq<Item>)

  datatype Action =
    | PutBegin(item: Item)
    | Expand
    | PutWrite
    | PutPublish
    | TakeEmpty
    | TakeXchg
    | TakeCommit
    | StealLock(id: nat)
    | StealXchg
    | StealAdvance

  function Initial(): Machine {
    Machine(seq(INITIAL_LENGTH, _ => Null), 0, 0, 0, Idle, Away, [], [], [])
  }

  /** The ring and the indices fit their types. */
  predicate InRange(m: Machine) {
    0 < |m.slots| <= MAX_LENGTH && m.ownerHead <= DEQUE_INDEX_MAX && m.ownerTail <= DEQUE_INDEX_MAX && m.thiefHead <= DEQUE_INDEX_MAX
  }

  predicate Enabled(m: Machine, a: Action) {
    InRange(m) &&
    match a
    case PutBegin(_) => m.owner.Idle?
    case Expand =>
      m.owner.Putting? && m.thief.Away? && MustExpand(|m.slots|, m.ownerHead, m.ownerTail) &&
      CanDouble(|m.slots|, m.thiefHead, m.ownerTail)
    case PutWrite => m.owner.Putting? && !MustExpand(|m.slots|, m.ownerHead, m.ownerTail)
    case PutPublish => m.owner.Written?
    case TakeEmpty => m.owner.Idle? && m.ownerHead == m.ownerTail
    case TakeXchg => m.owner.Idle? && m.ownerHead != m.ownerTail
    case TakeCommit => m.owner.Took?
    case StealLock(_) => m.thief.Away?
    case StealXchg => m.thief.Locked?
    case StealAdvance => m.thief.Swapped?
  }

  /** The next index, on an unsigned 32-bit counter. */
  function Next(i: nat): nat {
    if i == DEQUE_INDEX_MAX then 0 else i + 1
  }

  function ItemsIn(v: Slot): seq<Item> {
    if v.Work? then [v.item] else []
  }

  /** deque_expand(): the head is brought up to date, and the ring copied if little room
      is left or the tail index is about to roll over. */
  function Expanded(m: Machine): Machine
    requires Enabled(m, Expand)
  {
    var len := |m.slots|;
    var head := m.thiefHead;
    var size := Minus(m.ownerTail, head);
    var rounds := if head < m.ownerTail then m.ownerTail - head else 0;
    if MustDouble(len, head, m.ownerTail) then
      m.(slots := CopyLoop(m.slots, head, rounds, 2 * len), ownerHead := 0, thiefHead := 0, ownerTail := size)
    else if m.ownerTail == DEQUE_INDEX_MAX then
      m.(slots := CopyLoop(m.slots, head, rounds, len), ownerHead := 0, thiefHead := 0, ownerTail := size)
    else m.(ownerHead := head)
  }

  function Do(m: Machine, a: Action): Machine
    requires Enabled(m, a)
  {
    match a
    case PutBegin(x) => m.(owner := Putting(x))
    case Expand => Expanded(m)
    case PutWrite =>
      m.(slots := Put(m.slots, m.ownerTail, 0, Work(m.owner.item)), owner := Written, puts := m.puts + [m.owner.item])
    case PutPublish => m.(ownerTail := Next(m.ownerTail), owner := Idle)
    case TakeEmpty => m
    case TakeXchg =>
      var v := At(m.slots, Minus(m.ownerTail, 1), 0);
      m.(slots := Put(m.slots, Minus(m.ownerTail, 1), 0, Null), owner := Took(v), taken := m.taken + ItemsIn(v))
    case TakeCommit =>
      if m.owner.result == Null then m.(ownerHead := m.ownerTail, owner := Idle)
      else m.(ownerTail := Minus(m.ownerTail, 1), owner := Idle)
    case StealLock(id) => m.(thief := Locked(id))
    case StealXchg =>
      var v := At(m.slots, m.thiefHead, 0);
      m.(slots := Put(m.slots, m.thiefHead, 0, Null), thief := Swapped(m.thief.id, v), stolen := m.stolen + ItemsIn(v))
    case StealAdvance =>
      if m.thief.result == Null then m.(thief := Away)
      else m.(thiefHead := Next(m.thiefHead), thief := Away)
  }

  // ----- The abstract deque ------------------------------------------------------------

  /** The position of the oldest item: past the one a thief has just exchanged out. */
  function Head(m: Machine): nat {
    if m.thief.Swapped? && m.thief.result.Work? then m.thiefHead + 1 else m.thiefHead
  }

  /** The position after the newest item, whether or not the tail says so yet. */
  function Tail(m: Machine): int {
    if m.owner.Written? then m.ownerTail + 1
    else if m.owner.Took? && m.owner.result.Work? then m.ownerTail - 1
    else m.ownerTail
  }

  function ItemOf(v: Slot): Item {
    if v.Work? then v.item else 0
  }

  function Contents(m: Machine): (r: seq<Item>)
    requires 0 < |m.slots|
  {
    seq(if Head(m) <= Tail(m) then Tail(m) - Head(m) else 0, (i: nat) => ItemOf(At(m.slots, Head(m), i)))
  }

  lemma ContentsIs(m: Machine, xs: seq<Item>)
    requires Holds(m.slots, Head(m), xs) && Tail(m) == Head(m) + |xs|
    ensures Contents(m) == xs
  {
    forall i | 0 <= i < |xs|
      ensures Contents(m)[i] == xs[i]
    {
      assert At(m.slots, Head(m), i) == Work(xs[i]);
    }
  }

  // ----- Subsequences ------------------------------------------------------------------

  /** xs can be had from ys by leaving items out. */
  predicate Subsequence(xs: seq<Item>, ys: seq<Item>) {
    xs == [] ||
    (ys != [] &&
     (Subsequence(xs, ys[..|ys| - 1]) ||
      (xs[|xs| - 1] == ys[|ys| - 1] && Subsequence(xs[..|xs| - 1], ys[..|ys| - 1]))))
  }

  lemma SubsequencePush(xs: seq<Item>, ys: seq<Item>, x: Item)
    requires Subsequence(xs, ys)
    ensures Subsequence(xs + [x], ys + [x])
  {
    assert (ys + [x])[..|ys|] == ys && (xs + [x])[..|xs|] == xs;
  }

  lemma {:induction false} SubsequencePop(xs: seq<Item>, ys: seq<Item>)
    requires Subsequence(xs, ys) && xs != []
    ensures Subsequence(xs[..|xs| - 1], ys)
  {
    var init := ys[..|ys| - 1];
    if Subsequence(xs, init) {
      SubsequencePop(xs, init);
    }
  }

  // ----- What every step keeps -----------------------------------------------------------

  ghost predicate Indices(m: Machine) {
    && InRange(m)
    && m.ownerHead <= Head(m) <= Tail(m)
    && m.ownerTail <= m.ownerHead + |m.slots| && m.ownerTail <= DEQUE_INDEX_MAX
    && (m.owner.Written? ==> !MustExpand(|m.slots|, m.ownerHead, m.ownerTail))
    && (m.owner.Took? ==> m.ownerHead < m.ownerTail)
    && (m.owner == Took(Null) ==> Head(m) == Tail(m))
  }

  /** What was put is accounted for, and stolen items come before those still there, in
      the order they were put. */
  ghost predicate Accounts(puts: seq<Item>, taken: seq<Item>, stolen: seq<Item>, xs: seq<Item>) {
    && multiset(puts) == multiset(taken) + multiset(stolen) + multiset(xs)
    && Subsequence(stolen + xs, puts)
  }

  lemma PutAccounts(puts: seq<Item>, taken: seq<Item>, stolen: seq<Item>, xs: seq<Item>, x: Item)
    requires Accounts(puts, taken, stolen, xs)
    ensures Accounts(puts + [x], taken, stolen, xs + [x])
  {
    SubsequencePush(stolen + xs, puts, x);
    assert stolen + xs + [x] == stolen + (xs + [x]);
  }

  lemma TakeAccounts(puts: seq<Item>, taken: seq<Item>, stolen: seq<Item>, xs: seq<Item>)
    requires Accounts(puts, taken, stolen, xs) && xs != []
    ensures Accounts(puts, taken + [xs[|xs| - 1]], stolen, xs[..|xs| - 1])
  {
    assert xs == xs[..|xs| - 1] + [xs[|xs| - 1]];
    SubsequencePop(stolen + xs, puts);
    assert (stolen + xs)[..|stolen + xs| - 1] == stolen + xs[..|xs| - 1];
  }

  lemma StealAccounts(puts: seq<Item>, taken: seq<Item>, stolen: seq<Item>, xs: seq<Item>)
    requires Accounts(puts, taken, stolen, xs) && xs != []
    ensures Accounts(puts, taken, stolen + [xs[0]], xs[1..])
  {
    assert xs == [xs[0]] + xs[1..];
    assert stolen + [xs[0]] + xs[1..] == stolen + xs;
  }

  ghost predicate Invariant(m: Machine) {
    Indices(m) && Holds(m.slots, Head(m), Contents(m)) && Accounts(m.puts, m.taken, m.stolen, Contents(m))
  }

  /** Expansion is safe when it moves no item off its position. */
  predicate SafeStep(m: Machine, a: Action) {
    a.Expand? ==> InRange(m) && SafeToExpand(|m.slots|, m.thiefHead, m.ownerTail)
  }

  /** What a step does to the abstract deque: a put adds the newest item, a take gets the
      newest and a steal the oldest, each a null pointer exactly when the deque is empty
      at the exchange, which tells the owner that all before its tail is gone; no other step
      changes it. */
  ghost predicate ActsOn(m: Machine, a: Action, m': Machine)
    requires 0 < |m.slots| && 0 < |m'.slots|
  {
    var xs, xs' := Contents(m), Contents(m');
    match a
    case PutWrite => m.owner.Putting? && xs' == xs + [m.owner.item]
    case TakeEmpty => xs' == xs == []
    case TakeXchg =>
      if xs == [] then xs' == [] && m'.owner == Took(Null)
      else xs' == xs[..|xs| - 1] && m'.owner == Took(Work(xs[|xs| - 1]))
    case StealXchg =>
      m.thief.Locked? &&
      if xs == [] then xs' == [] && m'.thief == Swapped(m.thief.id, Null)
      else xs' == xs[1..] && m'.thief == Swapped(m.thief.id, Work(xs[0]))
    case TakeCommit => xs' == xs && m'.ownerHead == if m.owner == Took(Null) then m'.ownerTail else m.ownerHead
    case _ => xs' == xs
  }

  lemma PutWriteStep(m: Machine)
    requires Invariant(m) && Enabled(m, PutWrite)
    ensures Invariant(Do(m, PutWrite)) && ActsOn(m, PutWrite, Do(m, PutWrite))
  {
    var xs, x, m' := Contents(m), m.owner.item, Do(m, PutWrite);
    PushLast(m.slots, Head(m), xs, x);
    assert m'.slots == Put(m.slots, Head(m), |xs|, Work(x));
    ContentsIs(m', xs + [x]);
    PutAccounts(m.puts, m.taken, m.stolen, xs, x);
  }

  lemma TakeXchgEmpty(m: Machine)
    requires Invariant(m) && Enabled(m, TakeXchg) && Contents(m) == []
    ensures Invariant(Do(m, TakeXchg)) && ActsOn(m, TakeXchg, Do(m, TakeXchg))
  {
    var m' := Do(m, TakeXchg);
    EmptyEverywhere(m.slots, Head(m));
    assert m'.slots == m.slots;
    ContentsIs(m', []);
    assert m.taken + ItemsIn(Null) == m.taken;
  }

  lemma TakeXchgLast(m: Machine)
    requires Invariant(m) && Enabled(m, TakeXchg) && Contents(m) != []
    ensures Invariant(Do(m, TakeXchg)) && ActsOn(m, TakeXchg, Do(m, TakeXchg))
  {
    var xs, m' := Contents(m), Do(m, TakeXchg);
    PopLast(m.slots, Head(m), xs);
    assert m'.slots == Put(m.slots, Head(m), |xs| - 1, Null);
    ContentsIs(m', xs[..|xs| - 1]);
    TakeAccounts(m.puts, m.taken, m.stolen, xs);
  }

  lemma StealXchgStep(m: Machine)
    requires Invariant(m) && Enabled(m, StealXchg)
    ensures Invariant(Do(m, StealXchg)) && ActsOn(m, StealXchg, Do(m, StealXchg))
  {
    var xs, m' := Contents(m), Do(m, StealXchg);
    if xs == [] {
      EmptyEverywhere(m.slots, Head(m));
      assert m'.slots == m.slots;
      ContentsIs(m', xs);
      assert m.stolen + ItemsIn(Null) == m.stolen;
    } else {
      PopFirst(m.slots, Head(m), xs);
      ContentsIs(m', xs[1..]);
      StealAccounts(m.puts, m.taken, m.stolen, xs);
    }
  }

  lemma ExpandStep(m: Machine)
    requires Invariant(m) && Enabled(m, Expand) && SafeStep(m, Expand)
    ensures Invariant(Do(m, Expand)) && ActsOn(m, Expand, Do(m, Expand))
  {
    var xs, m' := Contents(m), Do(m, Expand);
    if m'.slots != m.slots || m'.thiefHead != m.thiefHead {
      CopyHolds(m.slots, m.thiefHead, xs, |m'.slots|);
      RebaseKeeps(m'.slots, m.thiefHead, xs);
    }
    ContentsIs(m', xs);
  }

  /** The other steps leave the ring, and who has what, as they are. */
  lemma SmallStep(m: Machine, a: Action)
    requires Invariant(m) && Enabled(m, a)
    requires !a.PutWrite? && !a.TakeXchg? && !a.StealXchg? && !a.Expand?
    ensures Invariant(Do(m, a)) && ActsOn(m, a, Do(m, a))
  {
    var m' := Do(m, a);
    assert Head(m') == Head(m) && Tail(m') == Tail(m);
    ContentsIs(m', Contents(m));
  }

  lemma EachStep(m: Machine, a: Action)
    requires Invariant(m) && Enabled(m, a) && SafeStep(m, a)
    ensures Invariant(Do(m, a)) && ActsOn(m, a, Do(m, a))
  {
    match a
    case PutWrite => PutWriteStep(m);
    case TakeXchg =>
      if Contents(m) == [] {
        TakeXchgEmpty(m);
      } else {
        TakeXchgLast(m);
      }
    case StealXchg => StealXchgStep(m);
    case Expand => ExpandStep(m);
    case _ => SmallStep(m, a);
  }

  /** A put needs at most one expansion, safe or not, and the indices do not wrap. */
  lemma OneExpansionIsEnough(m: Machine)
    requires Indices(m) && Enabled(m, Expand)
    ensures Enabled(Do(m, Expand), PutWrite)
    ensures Do(m, Expand).ownerTail < DEQUE_INDEX_MAX && Do(m, Expand).thiefHead <= Do(m, Expand).ownerTail
  {
  }

  /** An expansion that is not safe leaves the oldest item where no thief will look. */
  lemma UnsafeExpansionLoses(m: Machine)
    requires Invariant(m) && Enabled(m, Expand) && Distinct(Contents(m))
    ensures SafeToExpand(|m.slots|, m.thiefHead, m.ownerTail) <==>
      Contents(Do(m, Expand)) == Contents(m) && Invariant(Do(m, Expand))
    ensures !SafeToExpand(|m.slots|, m.thiefHead, m.ownerTail) ==>
      Contents(m) != [] && At(Do(m, Expand).slots, Do(m, Expand).thiefHead, 0) != Work(Contents(m)[0])
  {
    var xs, m' := Contents(m), Do(m, Expand);
    if SafeToExpand(|m.slots|, m.thiefHead, m.ownerTail) {
      ExpandStep(m);
    } else {
      CopyHolds(m.slots, m.thiefHead, xs, |m'.slots|);
      RebaseLoses(m'.slots, m.thiefHead, xs);
      var oldest := At(m'.slots, Head(m'), 0);
    }
  }

  /** A put is held up just if the ring is full as far as the owner knows, or the tail index
      would roll over. */
  lemma PutFindsRoom(m: Machine)
    requires Invariant(m) && m.owner.Putting?
    ensures Enabled(m, PutWrite) <==> m.ownerTail - m.ownerHead < |m.slots| && m.ownerTail < DEQUE_INDEX_MAX
  {
  }

  /** What an expansion does goes by the items that are there: with more than a sixteenth of
      the ring free it is left alone, unless the tail index is about to roll over. */
  lemma ExpandedByRoom(m: Machine)
    requires Invariant(m) && Enabled(m, Expand)
    ensures Do(m, Expand).ownerHead == Do(m, Expand).thiefHead
    ensures var len, m' := |m.slots|, Do(m, Expand);
      if 16 * (len - |Contents(m)|) <= len then |m'.slots| == 2 * len && m'.thiefHead == 0
      else if m.ownerTail == DEQUE_INDEX_MAX then |m'.slots| == len && m'.thiefHead == 0
      else m'.slots == m.slots && m'.thiefHead == m.thiefHead && Contents(m') == Contents(m) && Invariant(m')
  {
    DoublesIfFewAreFree(|m.slots|, m.thiefHead, m.ownerTail);
    if 16 * (|m.slots| - |Contents(m)|) > |m.slots| && m.ownerTail < DEQUE_INDEX_MAX {
      ExpandStep(m);
    }
  }

  // ----- Runs ------------------------------------------------------------------------------

  predicate CanRun(m: Machine, run: seq<Action>)
    decreases |run|
  {
    run == [] || (Enabled(m, run[0]) && CanRun(Do(m, run[0]), run[1..]))
  }

  function After(m: Machine, run: seq<Action>): Machine
    requires CanRun(m, run)
    decreases |run|
  {
    if run == [] then m else After(Do(m, run[0]), run[1..])
  }

  /** Every expansion of the run is safe. */
  predicate SafeRun(m: Machine, run: seq<Action>)
    requires CanRun(m, run)
    decreases |run|
  {
    run == [] || (SafeStep(m, run[0]) && SafeRun(Do(m, run[0]), run[1..]))
  }

  lemma InitialInvariant()
    ensures Invariant(Initial())
  {
    ContentsIs(Initial(), []);
  }

  lemma {:induction false} RunKeepsInvariant(m: Machine, run: seq<Action>)
    requires Invariant(m) && CanRun(m, run) && SafeRun(m, run)
    ensures Invariant(After(m, run))
    decreases |run|
  {
    if run != [] {
      EachStep(m, run[0]);
      RunKeepsInvariant(Do(m, run[0]), run[1..]);
    }
  }

  /** Every run, however owner and thieves interleave: what was put was taken by the
      owner, or stolen, or is still there; thieves get items in the order they were put,
      before any that is still there. */
  lemma NothingLostOrInvented(run: seq<Action>)
    requires CanRun(Initial(), run) && SafeRun(Initial(), run)
    ensures var m := After(Initial(), run);
      && 0 < |m.slots|
      && multiset(m.puts) == multiset(m.taken) + multiset(m.stolen) + multiset(Contents(m))
      && Subsequence(m.stolen + Contents(m), m.puts)
      && m.thiefHead <= DEQUE_INDEX_MAX && m.ownerTail <= DEQUE_INDEX_MAX
  {
    InitialInvariant();
    RunKeepsInvariant(Initial(), run);
  }

  lemma MultiplicityOfDistinct(xs: seq<Item>, x: Item)
    requires Distinct(xs)
    ensures multiset(xs)[x] <= 1
  {
    if xs != [] {
      var init := xs[..|xs| - 1];
      assert xs == init + [xs[|xs| - 1]];
      MultiplicityOfDistinct(init, x);
      if x == xs[|xs| - 1] {
        assert x !in init;
      }
    }
  }

  /** If no item is put twice then no item is delivered twice, nor both to the owner and
      to a thief, nor while it is still in the deque. */
  lemma DeliveredOnce(run: seq<Action>, x: Item)
    requires CanRun(Initial(), run) && SafeRun(Initial(), run) && Distinct(After(Initial(), run).puts)
    ensures var m := After(Initial(), run);
      0 < |m.slots| &&
      multiset(m.taken)[x] + multiset(m.stolen)[x] + multiset(Contents(m))[x] == (if x in m.puts then 1 else 0)
  {
    NothingLostOrInvented(run);
    var m := After(Initial(), run);
    MultiplicityOfDistinct(m.puts, x);
  }

  // ----- Runs with any expansions --------------------------------------------------------------

  /** How often the slots hold x. */
  function Copies(slots: seq<Slot>, x: Item): nat {
    multiset(slots)[Work(x)]
  }

  lemma PutCopies(slots: seq<Slot>, lo: nat, i: nat, v: Slot, x: Item)
    requires |slots| > 0
    ensures Copies(Put(slots, lo, i, v), x) + (if At(slots, lo, i) == Work(x) then 1 else 0) ==
      Copies(slots, x) + if v == Work(x) then 1 else 0
  {
  }

  /** The ring with n slots from position lo on made null. */
  function Emptied(slots: seq<Slot>, lo: nat, n: nat): (r: seq<Slot>)
    requires |slots| > 0
    ensures |r| == |slots|
  {
    if n == 0 then slots else Put(Emptied(slots, lo, n - 1), lo, n - 1, Null)
  }

  lemma {:induction false} EmptiedAt(slots: seq<Slot>, lo: nat, n: nat, i: nat)
    requires n <= i < |slots|
    ensures At(Emptied(slots, lo, n), lo, i) == At(slots, lo, i)
  {
    if n > 0 {
      EmptiedAt(slots, lo, n - 1, i);
      PutAt(Emptied(slots, lo, n - 1), lo, n - 1, Null, i);
    }
  }

  /** What n rounds of the copy loop have made of the number of slots with x, in the new
      ring and among those of the old one that it has not come to. */
  function CopiesAfter(slots: seq<Slot>, lo: nat, newLen: nat, x: Item, n: nat): nat
    requires 0 < |slots| && 0 < newLen
  {
    Copies(CopyLoop(slots, lo, n, newLen), x) + Copies(Emptied(slots, lo, n), x)
  }

  lemma NoRounds(slots: seq<Slot>, lo: nat, newLen: nat, x: Item)
    requires 0 < |slots| && 0 < newLen
    ensures CopiesAfter(slots, lo, newLen, x, 0) == Copies(slots, x)
  {
    NullsHoldNothing(newLen, x);
  }

  lemma OneRound(slots: seq<Slot>, lo: nat, newLen: nat, x: Item, n: nat)
    requires n < |slots| && 0 < newLen
    ensures CopiesAfter(slots, lo, newLen, x, n + 1) <= CopiesAfter(slots, lo, newLen, x, n)
  {
    CopyMovesOne(slots, lo, n, newLen);
    MoveCopies(CopyLoop(slots, lo, n, newLen), Emptied(slots, lo, n), lo, n, x);
  }

  /** No slot with x was copied twice in n rounds. */
  ghost predicate CopiedOnce(slots: seq<Slot>, lo: nat, newLen: nat, x: Item, n: nat)
    requires 0 < |slots| && 0 < newLen
  {
    CopiesAfter(slots, lo, newLen, x, n) <= Copies(slots, x)
  }

  lemma FirstRound(slots: seq<Slot>, lo: nat, newLen: nat, x: Item)
    requires 0 < |slots| && 0 < newLen
    ensures CopiedOnce(slots, lo, newLen, x, 0)
  {
    NoRounds(slots, lo, newLen, x);
  }

  lemma NextRound(slots: seq<Slot>, lo: nat, newLen: nat, x: Item, n: nat)
    requires 0 < n <= |slots| && 0 < newLen && CopiedOnce(slots, lo, newLen, x, n - 1)
    ensures CopiedOnce(slots, lo, newLen, x, n)
  {
    OneRound(slots, lo, newLen, x, n - 1);
  }

  lemma {:induction false} EveryRound(slots: seq<Slot>, lo: nat, newLen: nat, x: Item, n: nat)
    requires n <= |slots| && 0 < |slots| && 0 < newLen
    ensures CopiedOnce(slots, lo, newLen, x, n)
  {
    if n == 0 {
      FirstRound(slots, lo, newLen, x);
    } else {
      EveryRound(slots, lo, newLen, x, n - 1);
      NextRound(slots, lo, newLen, x, n);
    }
  }

  /** Copying no more than a ring's worth of positions copies no slot twice. */
  lemma CopyOnce(slots: seq<Slot>, lo: nat, n: nat, newLen: nat, x: Item)
    requires n <= |slots| && 0 < |slots| && 0 < newLen
    ensures Copies(CopyLoop(slots, lo, n, newLen), x) <= Copies(slots, x)
  {
    EveryRound(slots, lo, newLen, x, n);
  }

  lemma CopyMovesOne(slots: seq<Slot>, lo: nat, n: nat, newLen: nat)
    requires n < |slots| && 0 < newLen
    ensures var a, b := CopyLoop(slots, lo, n, newLen), Emptied(slots, lo, n);
      CopyLoop(slots, lo, n + 1, newLen) == Put(a, lo, n, At(b, lo, n)) &&
      Emptied(slots, lo, n + 1) == Put(b, lo, n, Null)
  {
    EmptiedAt(slots, lo, n, n);
  }

  /** Moving what one ring has at a position to the other adds no copies. */
  lemma MoveCopies(a: seq<Slot>, b: seq<Slot>, lo: nat, i: nat, x: Item)
    requires |a| > 0 && |b| > 0
    ensures Copies(Put(a, lo, i, At(b, lo, i)), x) + Copies(Put(b, lo, i, Null), x) <= Copies(a, x) + Copies(b, x)
  {
    PutCopies(a, lo, i, At(b, lo, i), x);
    PutCopies(b, lo, i, Null, x);
  }

  lemma NullsHoldNothing(n: nat, x: Item)
    ensures Copies(seq(n, _ => Null), x) == 0
  {
    var s: seq<Slot> := seq(n, _ => Null);
    assert Work(x) !in s;
    assert Work(x) !in multiset(s);
  }

  /** Copying into a ring of the same length leaves every slot as it was, or null. */
  lemma {:induction false} CopyInPlace(slots: seq<Slot>, lo: nat, n: nat, k: nat)
    requires k < |slots|
    ensures CopyLoop(slots, lo, n, |slots|)[k] == slots[k] || CopyLoop(slots, lo, n, |slots|)[k] == Null
  {
    if n > 0 {
      CopyInPlace(slots, lo, n - 1, k);
    }
  }

  lemma {:induction false} FewerCopies(a: seq<Slot>, b: seq<Slot>, x: Item)
    requires |a| == |b| && forall k :: 0 <= k < |a| ==> a[k] == b[k] || a[k] == Null
    ensures Copies(a, x) <= Copies(b, x)
  {
    if a != [] {
      var n := |a| - 1;
      FewerCopies(a[..n], b[..n], x);
      assert a == a[..n] + [a[n]] && b == b[..n] + [b[n]];
    }
  }

  /** In how many places x is: taken, stolen, or in some slot. */
  function Places(m: Machine, x: Item): nat {
    multiset(m.taken)[x] + multiset(m.stolen)[x] + Copies(m.slots, x)
  }

  /** No item is in more places than it was put. */
  ghost predicate NotDuplicated(m: Machine) {
    InRange(m) && forall x {:trigger Places(m, x)} :: Places(m, x) <= multiset(m.puts)[x]
  }

  lemma SameLengthCopyOnce(slots: seq<Slot>, lo: nat, n: nat, x: Item)
    requires 0 < |slots|
    ensures Copies(CopyLoop(slots, lo, n, |slots|), x) <= Copies(slots, x)
  {
    var copy := CopyLoop(slots, lo, n, |slots|);
    forall k | 0 <= k < |slots|
      ensures copy[k] == slots[k] || copy[k] == Null
    {
      CopyInPlace(slots, lo, n, k);
    }
    FewerCopies(copy, slots, x);
  }

  lemma ExpandDuplicatesNothing(m: Machine, x: Item)
    requires Enabled(m, Expand)
    ensures Copies(Do(m, Expand).slots, x) <= Copies(m.slots, x)
  {
    var len, head := |m.slots|, m.thiefHead;
    var rounds := if head < m.ownerTail then m.ownerTail - head else 0;
    if MustDouble(len, head, m.ownerTail) {
      CopyOnce(m.slots, head, rounds, 2 * len, x);
    } else if m.ownerTail == DEQUE_INDEX_MAX {
      SameLengthCopyOnce(m.slots, head, rounds, x);
    }
  }

  lemma PutWriteDuplicatesNothing(m: Machine, x: Item)
    requires Enabled(m, PutWrite) && Places(m, x) <= multiset(m.puts)[x]
    ensures Places(Do(m, PutWrite), x) <= multiset(Do(m, PutWrite).puts)[x]
  {
    PutCopies(m.slots, m.ownerTail, 0, Work(m.owner.item), x);
  }

  lemma TakeXchgDuplicatesNothing(m: Machine, x: Item)
    requires Enabled(m, TakeXchg)
    ensures Places(Do(m, TakeXchg), x) <= Places(m, x)
  {
    PutCopies(m.slots, Minus(m.ownerTail, 1), 0, Null, x);
  }

  lemma StealXchgDuplicatesNothing(m: Machine, x: Item)
    requires Enabled(m, StealXchg)
    ensures Places(Do(m, StealXchg), x) <= Places(m, x)
  {
    PutCopies(m.slots, m.thiefHead, 0, Null, x);
  }

  lemma StepStaysInRange(m: Machine, a: Action)
    requires Enabled(m, a)
    ensures InRange(Do(m, a))
  {
  }

  lemma StepDuplicatesNothing(m: Machine, a: Action, x: Item)
    requires Enabled(m, a) && Places(m, x) <= multiset(m.puts)[x]
    ensures Places(Do(m, a), x) <= multiset(Do(m, a).puts)[x]
  {
    match a
    case Expand => ExpandDuplicatesNothing(m, x);
    case PutWrite => PutWriteDuplicatesNothing(m, x);
    case TakeXchg => TakeXchgDuplicatesNothing(m, x);
    case StealXchg => StealXchgDuplicatesNothing(m, x);
    case _ =>
  }

  lemma {:induction false} RunDuplicatesNothing(m: Machine, run: seq<Action>)
    requires NotDuplicated(m) && CanRun(m, run)
    ensures NotDuplicated(After(m, run))
    decreases |run|
  {
    if run != [] {
      var m' := Do(m, run[0]);
      forall x {:trigger Places(m', x)}
        ensures Places(m', x) <= multiset(m'.puts)[x]
      {
        assert Places(m, x) <= multiset(m.puts)[x];
        StepDuplicatesNothing(m, run[0], x);
      }
      StepStaysInRange(m, run[0]);
      RunDuplicatesNothing(m', run[1..]);
    }
  }

  /** Every run, with expansions that are safe or not: items may be lost, but none is
      delivered more often than it was put. */
  lemma NothingDeliveredTwice(run: seq<Action>)
    requires CanRun(Initial(), run)
    ensures var m := After(Initial(), run); multiset(m.taken) + multiset(m.stolen) <= multiset(m.puts)
  {
    forall x
      ensures Copies(Initial().slots, x) == 0
    {
      NullsHoldNothing(INITIAL_LENGTH, x);
    }
    RunDuplicatesNothing(Initial(), run);
    var m := After(Initial(), run);
    forall x
      ensures multiset(m.taken)[x] + multiset(m.stolen)[x] <= multiset(m.puts)[x]
    {
      assert Places(m, x) <= multiset(m.puts)[x];
    }
  }

  // ----- A run that loses an item --------------------------------------------------------------

  /** The machine after n undisturbed puts of 0, 1, ..., n - 1. */
  function Filled(n: nat): Machine
    requires n <= INITIAL_LENGTH
  {
    Machine(seq(INITIAL_LENGTH, (i: nat) => if i < n then Work(i) else Null), 0, n, 0, Idle, Away, seq(n, (i: nat) => i), [], [])
  }

  function Puts(n: nat): seq<Action> {
    if n == 0 then [] else Puts(n - 1) + [PutBegin(n - 1), PutWrite, PutPublish]
  }

  lemma {:induction false} RunOn(m: Machine, run: seq<Action>, more: seq<Action>)
    requires CanRun(m, run) && CanRun(After(m, run), more)
    ensures CanRun(m, run + more) && After(m, run + more) == After(After(m, run), more)
    decreases |run|
  {
    if run == [] {
      assert run + more == more;
    } else {
      RunOn(Do(m, run[0]), run[1..], more);
      assert (run + more)[0] == run[0] && (run + more)[1..] == run[1..] + more;
    }
  }

  lemma OnePut(n: nat)
    requires n < INITIAL_LENGTH
    ensures CanRun(Filled(n), [PutBegin(n), PutWrite, PutPublish])
    ensures After(Filled(n), [PutBegin(n), PutWrite, PutPublish]) == Filled(n + 1)
  {
    var m := Filled(n);
    var m1 := Do(m, PutBegin(n));
    var m2 := Do(m1, PutWrite);
    Within(n, INITIAL_LENGTH);
    assert m2.slots == Filled(n + 1).slots;
    assert m2.puts == Filled(n + 1).puts;
    assert Do(m2, PutPublish) == Filled(n + 1);
    assert [PutBegin(n), PutWrite, PutPublish][1..] == [PutWrite, PutPublish];
    assert [PutWrite, PutPublish][1..] == [PutPublish];
    assert After(m2, [PutPublish]) == Filled(n + 1);
    assert After(m1, [PutWrite, PutPublish]) == Filled(n + 1);
  }

  lemma {:induction false} PutsFill(n: nat)
    requires n <= INITIAL_LENGTH
    ensures CanRun(Initial(), Puts(n)) && After(Initial(), Puts(n)) == Filled(n)
  {
    if n == 0 {
      assert Initial().slots == Filled(0).slots;
    } else {
      PutsFill(n - 1);
      OnePut(n - 1);
      RunOn(Initial(), Puts(n - 1), [PutBegin(n - 1), PutWrite, PutPublish]);
    }
  }

  const STEAL_THEN_PUT: seq<Action> := [StealLock(0), StealXchg, StealAdvance, PutBegin(INITIAL_LENGTH)]

  /** The full ring after its oldest item was stolen, as the owner is about to put. */
  function OneStolen(m: Machine): Machine
    requires 0 < |m.slots|
  {
    m.(slots := Put(m.slots, 0, 0, Null), thiefHead := 1, owner := Putting(INITIAL_LENGTH), stolen := [0])
  }

  lemma StealThenPut(m: Machine)
    requires InRange(m) && At(m.slots, 0, 0) == Work(0)
    requires m.thiefHead == 0 && m.thief == Away && m.owner == Idle && m.stolen == []
    ensures CanRun(m, STEAL_THEN_PUT) && After(m, STEAL_THEN_PUT) == OneStolen(m)
  {
    var m1 := Do(m, StealLock(0));
    var m2 := Do(m1, StealXchg);
    var m3 := Do(m2, StealAdvance);
    var m4 := Do(m3, PutBegin(INITIAL_LENGTH));
    assert m4 == OneStolen(m);
    var last3, last2, last1 := STEAL_THEN_PUT[1..], STEAL_THEN_PUT[2..], STEAL_THEN_PUT[3..];
    assert last3[1..] == last2 && last2[1..] == last1 && last1[1..] == [];
    assert CanRun(m4, []) && After(m4, []) == m4;
    assert CanRun(m3, last1) && After(m3, last1) == m4;
    assert CanRun(m2, last2) && After(m2, last2) == m4;
    assert CanRun(m1, last3) && After(m1, last3) == m4;
  }

  lemma FilledHolds(n: nat)
    requires n <= INITIAL_LENGTH
    ensures Holds(Filled(n).slots, 0, seq(n, (i: nat) => i))
  {
    forall i: nat | i < INITIAL_LENGTH
      ensures At(Filled(n).slots, 0, i) == if i < n then Work(i) else Null
    {
      Within(i, INITIAL_LENGTH);
    }
  }

  lemma FilledThenStolen(n: nat) returns (run: seq<Action>)
    requires n == INITIAL_LENGTH
    ensures CanRun(Initial(), run)
    ensures var m := After(Initial(), run);
      && Enabled(m, Expand) && |Contents(m)| == INITIAL_LENGTH - 1
      && At(Do(m, Expand).slots, Do(m, Expand).thiefHead, 0) == Null
  {
    var m, all := Filled(n), seq(n, (i: nat) => i);
    PutsFill(n);
    FilledHolds(n);
    assert At(m.slots, 0, 0) == Work(all[0]);
    StealThenPut(m);
    RunOn(Initial(), Puts(n), STEAL_THEN_PUT);
    OneStolenLoses(m, all);
    run := Puts(n) + STEAL_THEN_PUT;
  }

  /** Fill the initial ring, let a thief take one item, and put another: the ring is
      doubled with its head at position 1, and although 1023 items were there, the next
      thief finds a null pointer. */
  lemma DoublingAfterAStealLoses() returns (run: seq<Action>)
    ensures CanRun(Initial(), run)
    ensures var m := After(Initial(), run);
      && Enabled(m, Expand) && |Contents(m)| == INITIAL_LENGTH - 1
      && At(Do(m, Expand).slots, Do(m, Expand).thiefHead, 0) == Null
  {
    run := FilledThenStolen(INITIAL_LENGTH);
  }

  lemma OneStolenLoses(m: Machine, xs: seq<Item>)
    requires |m.slots| == INITIAL_LENGTH == |xs| && Holds(m.slots, 0, xs)
    requires m.ownerHead == 0 && m.ownerTail == INITIAL_LENGTH && m.thief == Away
    ensures var m' := OneStolen(m);
      && Enabled(m', Expand) && |Contents(m')| == INITIAL_LENGTH - 1
      && At(Do(m', Expand).slots, Do(m', Expand).thiefHead, 0) == Null
  {
    PopFirst(m.slots, 0, xs);
    DoublingLoses(OneStolen(m), xs[1..]);
  }

  lemma DoublingLoses(m: Machine, xs: seq<Item>)
    requires |m.slots| == INITIAL_LENGTH && |xs| == INITIAL_LENGTH - 1 && Holds(m.slots, 1, xs)
    requires m.thiefHead == 1 && m.ownerHead == 0 && m.ownerTail == INITIAL_LENGTH && m.thief == Away && m.owner.Putting?
    ensures Enabled(m, Expand) && |Contents(m)| == INITIAL_LENGTH - 1
    ensures At(Do(m, Expand).slots, Do(m, Expand).thiefHead, 0) == Null
  {
    ContentsIs(m, xs);
    CopyHolds(m.slots, 1, xs, 2 * INITIAL_LENGTH);
    var m' := Do(m, Expand);
    assert At(m'.slots, 1, 2 * INITIAL_LENGTH - 1) == Null;
    ModIs(1 + (2 * INITIAL_LENGTH - 1), 2 * INITIAL_LENGTH, 1, 0);
  }
}
