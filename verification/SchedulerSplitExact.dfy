/** Exactly when pushes and pops of pending guards may come apart. */
module SchedulerSplitExact {
  import opened FiniteSets
  import opened SchedulerState
  import opened SchedulerSteps
  import opened SchedulerInvariant
  import opened SchedulerRuns
  import opened SchedulerSplitLists
  import opened SchedulerSplitRuns

  // ----- How the words are related, whatever got lost -----------------------------------------------

  predicate Within(a: Word, b: Word) {
    forall r :: r in a ==> r in b && b[r] == a[r]
  }

  /** A word that a pop has read is within the list, and the list within a word that a push
      has read. All that is in a list or a word is as it was once asked for. */
  ghost predicate PushNested(x: Split, known: Word, r: RequestId)
    requires r in x.pushes
  {
    var push := x.pushes[r];
    && r !in x.s.requests && r in known && known[r] == Request(push.point, push.guard)
    && Within(ListOf(x.s, push.point), push.word) && Within(push.word, known)
    && (forall k :: k in push.word ==> push.word[k].point == push.point && k !in x.pushes)
    && (forall q :: q in x.pushes && x.pushes[q].point == push.point ==> q == r)
    && (push.point in x.pops ==> Within(x.pops[push.point], push.word))
  }

  ghost predicate Nested(x: Split, known: Word) {
    && Within(x.s.requests, known)
    && (forall p :: p in x.pops ==> Within(x.pops[p], ListOf(x.s, p)))
    && (forall r {:trigger PushNested(x, known, r)} :: r in x.pushes ==> PushNested(x, known, r))
  }

  lemma WholeRequests(x: Split, a: Action)
    requires SplitEnabled(x, Whole(a))
    ensures Do(x.s, a).requests == x.s.requests
  {
    assert WithRequests(x.s, x.s.requests) == x.s;
    SameDo(x.s, x.s.requests, a);
  }

  lemma WholeNested(x: Split, a: Action, x': Split, known: Word)
    requires Nested(x, known) && SplitStep(x, Whole(a), x')
    ensures Nested(x', known)
  {
    WholeRequests(x, a);
    SameListsNested(x, x', known);
  }

  lemma SameLists(s: State, s': State, p: PointId)
    requires s'.requests == s.requests
    ensures ListOf(s', p) == ListOf(s, p)
  {
  }

  lemma SameListsNested(x: Split, x': Split, known: Word)
    requires Nested(x, known) && x'.s.requests == x.s.requests && x'.pops == x.pops && x'.pushes == x.pushes
    ensures Nested(x', known)
  {
    forall p
      ensures ListOf(x'.s, p) == ListOf(x.s, p)
    {
      SameLists(x.s, x'.s, p);
    }
    forall r {:trigger PushNested(x', known, r)} | r in x'.pushes
      ensures PushNested(x', known, r)
    {
      assert PushNested(x, known, r);
    }
  }

  lemma PopReadNested(x: Split, p: PointId, x': Split, known: Word)
    requires Nested(x, known) && SplitStep(x, PopRead(p), x')
    ensures Nested(x', known)
  {
    forall r {:trigger PushNested(x', known, r)} | r in x'.pushes
      ensures PushNested(x', known, r)
    {
      assert PushNested(x, known, r);
    }
  }

  lemma ListWritten(s: State, p: PointId, word: Word, q: PointId)
    requires forall r :: r in word ==> word[r].point == p && (r in s.requests ==> s.requests[r].point == p)
    ensures ListOf(WriteList(s, p, word), q) == if q == p then word else ListOf(s, q)
  {
  }

  lemma ListSwapped(s: State, p: PointId, r: RequestId, q: PointId)
    requires Enabled(s, SwapLock(p, r))
    ensures ListOf(Do(s, SwapLock(p, r)), q) == if q == p then ListOf(s, p) - {r} else ListOf(s, q)
    ensures Do(s, SwapLock(p, r)).requests == s.requests - {r}
  {
    assert Do(s, SwapLock(p, r)).requests == s.requests - {r};
  }

  /** What a pop writes back: what it read, without the entry it takes. */
  lemma PopWritten(x: Split, p: PointId, r: RequestId, x': Split, known: Word, q: PointId)
    requires Nested(x, known) && SplitStep(x, PopWrite(p, r), x')
    ensures ListOf(x'.s, q) == if q == p then x.pops[p] - {r} else ListOf(x.s, q)
    ensures x'.s.requests.Keys <= x.s.requests.Keys && Within(x'.s.requests, x.s.requests)
  {
    ListWritten(x.s, p, x.pops[p], q);
    ListSwapped(WriteList(x.s, p, x.pops[p]), p, r, q);
  }

  lemma PopWriteNested(x: Split, p: PointId, r: RequestId, x': Split, known: Word)
    requires Nested(x, known) && SplitStep(x, PopWrite(p, r), x')
    ensures Nested(x', known)
  {
    forall q
      ensures ListOf(x'.s, q) == if q == p then x.pops[p] - {r} else ListOf(x.s, q)
      ensures Within(x'.s.requests, x.s.requests)
    {
      PopWritten(x, p, r, x', known, q);
    }
    assert x'.pushes == x.pushes && x'.pops == x.pops - {p};
    forall y {:trigger PushNested(x', known, y)} | y in x'.pushes
      ensures PushNested(x', known, y)
    {
      assert PushNested(x, known, y);
    }
  }

  lemma PushReadNested(x: Split, t: PointId, p: PointId, g: GuardId, r: RequestId, x': Split, known: Word)
    requires Nested(x, known) && SplitStep(x, PushRead(t, p, g, r), x')
    ensures Nested(x', known[r := Request(p, g)])
  {
    var more := known[r := Request(p, g)];
    forall q
      ensures ListOf(x'.s, q) == ListOf(x.s, q)
    {
      SameLists(x.s, x'.s, q);
    }
    forall y {:trigger PushNested(x', more, y)} | y in x'.pushes
      ensures PushNested(x', more, y)
    {
      if y != r {
        assert PushNested(x, known, y);
      } else {
        ReadPushNested(x, t, p, g, r, x', known);
      }
    }
  }

  lemma ReadPushNested(x: Split, t: PointId, p: PointId, g: GuardId, r: RequestId, x': Split, known: Word)
    requires Nested(x, known) && SplitStep(x, PushRead(t, p, g, r), x')
    ensures PushNested(x', known[r := Request(p, g)], r)
  {
    SameLists(x.s, x'.s, p);
    forall k | k in ListOf(x.s, p)
      ensures k !in x'.pushes
    {
      assert k in x.pushes ==> PushNested(x, known, k);
    }
  }

  lemma PushWritten(x: Split, r: RequestId, x': Split, known: Word, q: PointId)
    requires Nested(x, known) && SplitStep(x, PushWrite(r), x')
    ensures var push := x.pushes[r];
      ListOf(x'.s, q) == if q == push.point then push.word[r := Request(push.point, push.guard)] else ListOf(x.s, q)
    ensures Within(x'.s.requests, known) && (forall k :: k in x'.s.requests ==> k == r || k in x.pushes[r].word || k in x.s.requests)
  {
    assert PushNested(x, known, r);
    var push := x.pushes[r];
    ListWritten(x.s, push.point, push.word[r := Request(push.point, push.guard)], q);
  }

  lemma OtherPushNested(x: Split, r: RequestId, x': Split, known: Word, y: RequestId)
    requires Nested(x, known) && SplitStep(x, PushWrite(r), x') && y in x'.pushes
    ensures PushNested(x', known, y)
  {
    assert PushNested(x, known, r) && PushNested(x, known, y);
    PushWritten(x, r, x', known, x.pushes[y].point);
  }

  lemma PushWriteNested(x: Split, r: RequestId, x': Split, known: Word)
    requires Nested(x, known) && SplitStep(x, PushWrite(r), x')
    ensures Nested(x', known)
  {
    assert PushNested(x, known, r) && x'.pops == x.pops;
    PushWritten(x, r, x', known, x.pushes[r].point);
    forall p | p in x'.pops
      ensures Within(x'.pops[p], ListOf(x'.s, p))
    {
      PushWritten(x, r, x', known, p);
    }
    forall y {:trigger PushNested(x', known, y)} | y in x'.pushes
      ensures PushNested(x', known, y)
    {
      OtherPushNested(x, r, x', known, y);
    }
  }

  lemma StepIsNested(x: Split, b: SplitAction, x': Split, known: Word) returns (more: Word)
    requires Nested(x, known) && SplitStep(x, b, x')
    ensures Nested(x', more)
  {
    more := known;
    match b
    case Whole(a) => WholeNested(x, a, x', known);
    case PopRead(p) => PopReadNested(x, p, x', known);
    case PopWrite(p, r) => PopWriteNested(x, p, r, x', known);
    case PushRead(t, p, g, r) =>
      more := known[r := Request(p, g)];
      PushReadNested(x, t, p, g, r, x', known);
    case PushWrite(r) => PushWriteNested(x, r, x', known);
  }

  lemma {:induction false} RunIsNested(xs: seq<Split>, bs: seq<SplitAction>, i: nat) returns (known: Word)
    requires SplitRun(xs, bs) && i < |xs|
    ensures Nested(xs[i], known)
  {
    if i == 0 {
      known := map[];
    } else {
      known := RunIsNested(xs, bs, i - 1);
      known := StepIsNested(xs[i - 1], bs[i - 1], xs[i], known);
    }
  }

  // ----- A stale word breaks the invariant ----------------------------------------------------------

  lemma WithinAll(a: Word, b: Word)
    requires Within(a, b)
    ensures (forall k :: k in b ==> k in a) ==> a == b
  {
    if forall k :: k in b ==> k in a {
      assert a.Keys == b.Keys;
    }
  }

  lemma MissingEntry(a: Word, b: Word) returns (k: RequestId)
    requires Within(a, b) && a != b
    ensures k in b && k !in a
  {
    WithinAll(a, b);
    k :| k in b && k !in a;
  }

  /** The count of a guard is given by these. */
  function GuardTotal(s: State, g: GuardId): nat {
    |GuardRequests(s, g)| + |GuardTakers(s, g)|
  }

  lemma OtherTotal(s: State, s': State, g: GuardId)
    requires g in s.guards && g in s'.guards && GuardOk(s, g, 0)
    requires s'.guards[g].rc == s.guards[g].rc && s'.guards[g].user == s.guards[g].user && s'.guards[g].live == s.guards[g].live
    requires s.guards[g].live || GuardTotal(s', g) > GuardTotal(s, g)
    requires GuardTotal(s', g) != GuardTotal(s, g)
    ensures !GuardOk(s', g, 0)
  {
  }

  lemma CountsBroken(s: State, g: GuardId)
    requires g in s.guards && !GuardOk(s, g, 0)
    ensures !Invariant(s)
  {
    assert !GuardOk(s, g, Debt(None, g));
  }

  lemma SwapKeepsCounts(s: State, p: PointId, r: RequestId, g: GuardId)
    requires Enabled(s, SwapLock(p, r)) && g in s.guards
    ensures var s' := Do(s, SwapLock(p, r));
      g in s'.guards &&
      s'.guards[g].rc == s.guards[g].rc && s'.guards[g].user == s.guards[g].user && s'.guards[g].live == s.guards[g].live
  {
  }

  /** One that takes a guard is one more taker of it. */
  lemma SwapTakers(s: State, p: PointId, r: RequestId, g: GuardId)
    requires Enabled(s, SwapLock(p, r))
    ensures p !in GuardTakers(s, g)
    ensures GuardTakers(Do(s, SwapLock(p, r)), g) == if s.requests[r].guard == g then GuardTakers(s, g) + {p} else GuardTakers(s, g)
  {
  }

  /** A pop with a stale word loses the entry k beside the one it takes. */
  lemma DueShrinks(x: Split, p: PointId, r: RequestId, x': Split, k: RequestId)
    requires SplitStep(x, PopWrite(p, r), x') && Within(x.pops[p], ListOf(x.s, p)) && r !in x.pushes && k !in x.pushes
    requires k in ListOf(x.s, p) && k !in x.pops[p]
    ensures Within(Due(x'), Due(x)) && r !in Due(x') && k !in Due(x')
  {
    ListSwapped(WriteList(x.s, p, x.pops[p]), p, r, p);
  }

  lemma LostRequest(x: Split, x': Split, r: RequestId, k: RequestId)
    requires Within(Due(x'), Due(x)) && r in Due(x) && r !in Due(x') && k in Due(x) && k !in Due(x') && k != r
    ensures var h := Due(x)[k].guard;
      |GuardRequests(Atomic(x'), h)| < |GuardRequests(Atomic(x), h)| - Bit(Due(x)[r].guard == h)
  {
    var h := Due(x)[k].guard;
    var few := GuardRequests(Atomic(x'), h);
    var both := few + {k} + if Due(x)[r].guard == h then {r} else {};
    assert |both| == |few| + 1 + Bit(Due(x)[r].guard == h);
    SmallerSet(both, GuardRequests(Atomic(x), h));
  }

  /** So the reference count of its guard stands too high. */
  lemma StalePopBreaks(x: Split, p: PointId, r: RequestId, x': Split, known: Word)
    requires AsAtomic(x) && Nested(x, known) && SplitStep(x, PopWrite(p, r), x') && !FoundAsRead(x, PopWrite(p, r))
    ensures !Invariant(Atomic(x'))
  {
    var k := MissingEntry(x.pops[p], ListOf(x.s, p));
    NotPushed(x, known, r);
    NotPushed(x, known, k);
    DueShrinks(x, p, r, x', k);
    LostRequest(x, x', r, k);
    var h := Due(x)[k].guard;
    ReachableInvariant(Atomic(x));
    assert RequestOk(Atomic(x), k) && GuardOk(Atomic(x), h, Debt(None, h));
    StalePopTakers(x, p, r, x', h);
    OtherTotal(Atomic(x), Atomic(x'), h);
    CountsBroken(Atomic(x'), h);
  }

  lemma NotPushed(x: Split, known: Word, k: RequestId)
    requires Nested(x, known) && k in x.s.requests
    ensures k !in x.pushes && Due(x)[k] == x.s.requests[k]
  {
    assert k in x.pushes ==> PushNested(x, known, k);
  }

  lemma StalePopTakers(x: Split, p: PointId, r: RequestId, x': Split, h: GuardId)
    requires SplitStep(x, PopWrite(p, r), x') && Within(x.pops[p], ListOf(x.s, p)) && h in x.s.guards
    requires r in Due(x) && Due(x)[r] == x.s.requests[r]
    ensures h in x'.s.guards
    ensures x'.s.guards[h].rc == x.s.guards[h].rc && x'.s.guards[h].user == x.s.guards[h].user && x'.s.guards[h].live == x.s.guards[h].live
    ensures |GuardTakers(Atomic(x'), h)| == |GuardTakers(Atomic(x), h)| + Bit(Due(x)[r].guard == h)
  {
    var s1 := WriteList(x.s, p, x.pops[p]);
    SwapKeepsCounts(s1, p, r, h);
    SwapTakers(s1, p, r, h);
    assert GuardTakers(Atomic(x'), h) == GuardTakers(x'.s, h) && GuardTakers(Atomic(x), h) == GuardTakers(s1, h);
  }

  /** A push with a stale word brings back the entry k. */
  lemma DueGrows(x: Split, r: RequestId, x': Split, known: Word, k: RequestId)
    requires Nested(x, known) && SplitStep(x, PushWrite(r), x') && k in x.pushes[r].word && k !in ListOf(x.s, x.pushes[r].point)
    ensures Within(Due(x), Due(x')) && k in Due(x') && k !in Due(x) && x'.s.guards == x.s.guards && x'.s.points == x.s.points
  {
    assert PushNested(x, known, r);
    forall y | y in Due(x)
      ensures y in Due(x') && Due(x')[y] == Due(x)[y]
    {
      if y in x.pushes {
        assert PushNested(x, known, y);
      }
    }
  }

  lemma RestoredRequest(x: Split, x': Split, k: RequestId)
    requires Within(Due(x), Due(x')) && k in Due(x') && k !in Due(x)
    ensures var h := Due(x')[k].guard; |GuardRequests(Atomic(x'), h)| > |GuardRequests(Atomic(x), h)|
  {
    var h := Due(x')[k].guard;
    var few, more := GuardRequests(Atomic(x), h), GuardRequests(Atomic(x'), h);
    assert few < more by {
      assert k in more && k !in few;
    }
    FewerMembers(few, more);
  }

  /** So the reference count of its guard stands too low, or the guard is gone. */
  lemma StalePushBreaks(x: Split, r: RequestId, x': Split, known: Word)
    requires AsAtomic(x) && Nested(x, known) && SplitStep(x, PushWrite(r), x') && !FoundAsRead(x, PushWrite(r))
    ensures !Invariant(Atomic(x'))
  {
    assert PushNested(x, known, r);
    var k := MissingEntry(ListOf(x.s, x.pushes[r].point), x.pushes[r].word);
    DueGrows(x, r, x', known, k);
    RestoredRequest(x, x', k);
    var h := Due(x')[k].guard;
    if h in x.s.guards {
      ReachableInvariant(Atomic(x));
      assert GuardOk(Atomic(x), h, Debt(None, h));
      assert GuardTakers(Atomic(x'), h) == GuardTakers(Atomic(x), h);
      OtherTotal(Atomic(x), Atomic(x'), h);
      CountsBroken(Atomic(x'), h);
    } else {
      assert !RequestOk(Atomic(x'), k);
    }
  }

  lemma StaleBreaks(x: Split, b: SplitAction, x': Split, known: Word)
    requires AsAtomic(x) && Nested(x, known) && SplitStep(x, b, x') && !FoundAsRead(x, b)
    ensures !Invariant(Atomic(x'))
  {
    match b
    case PopWrite(p, r) => StalePopBreaks(x, p, r, x', known);
    case PushWrite(r) => StalePushBreaks(x, r, x', known);
  }

  // ----- Whole runs --------------------------------------------------------------------------------

  /** Every write-back finds the list as it was read. */
  ghost predicate Undisturbed(xs: seq<Split>, bs: seq<SplitAction>)
    requires |xs| == |bs| + 1
  {
    forall i {:trigger bs[i]} :: 0 <= i < |bs| ==> FoundAsRead(xs[i], bs[i])
  }

  /** Then all is as in a run in which pushes and pops are atomic. */
  lemma {:induction false} UndisturbedIsAtomic(xs: seq<Split>, bs: seq<SplitAction>, i: nat)
    requires SplitRun(xs, bs) && i < |xs| && forall j {:trigger bs[j]} :: 0 <= j < i ==> FoundAsRead(xs[j], bs[j])
    ensures AsAtomic(xs[i])
  {
    if i == 0 {
      StartIsAtomic();
    } else {
      UndisturbedIsAtomic(xs, bs, i - 1);
      StepKeepsAtomic(xs[i - 1], bs[i - 1], xs[i]);
    }
  }

  lemma RunStepIsNested(xs: seq<Split>, bs: seq<SplitAction>, k: nat) returns (known: Word)
    requires SplitRun(xs, bs) && k < |bs|
    ensures Nested(xs[k], known) && SplitStep(xs[k], bs[k], xs[k + 1])
  {
    known := RunIsNested(xs, bs, k);
  }

  lemma {:induction false} FirstDisturbed(xs: seq<Split>, bs: seq<SplitAction>, n: nat) returns (i: nat)
    requires |xs| == |bs| + 1 && n <= |bs| && exists j {:trigger bs[j]} :: 0 <= j < n && !FoundAsRead(xs[j], bs[j])
    ensures i < n && !FoundAsRead(xs[i], bs[i]) && forall j {:trigger bs[j]} :: 0 <= j < i ==> FoundAsRead(xs[j], bs[j])
    decreases n
  {
    if j :| 0 <= j < n - 1 && !FoundAsRead(xs[j], bs[j]) {
      i := FirstDisturbed(xs, bs, n - 1);
    } else {
      i := n - 1;
    }
  }

  /** The first write-back that does not find the list as it was read breaks the invariant. */
  lemma FirstDisturbedBreaks(xs: seq<Split>, bs: seq<SplitAction>, i: nat)
    requires SplitRun(xs, bs) && i < |bs| && !FoundAsRead(xs[i], bs[i])
    requires forall j {:trigger bs[j]} :: 0 <= j < i ==> FoundAsRead(xs[j], bs[j])
    ensures !Invariant(Atomic(xs[i + 1]))
  {
    UndisturbedIsAtomic(xs, bs, i);
    var known := RunStepIsNested(xs, bs, i);
    StaleBreaks(xs[i], bs[i], xs[i + 1], known);
  }

  lemma UndisturbedKeepsInvariant(xs: seq<Split>, bs: seq<SplitAction>, i: nat)
    requires SplitRun(xs, bs) && Undisturbed(xs, bs) && i < |xs|
    ensures Reachable(Atomic(xs[i])) && Invariant(Atomic(xs[i]))
  {
    UndisturbedIsAtomic(xs, bs, i);
    ReachableInvariant(Atomic(xs[i]));
  }

  /** The invariant holds throughout a run if and only if each push and each pop writes
      back to the list as it read it. */
  lemma InvariantJustIfUndisturbed(xs: seq<Split>, bs: seq<SplitAction>)
    requires SplitRun(xs, bs)
    ensures (forall i :: 0 <= i < |xs| ==> Invariant(Atomic(xs[i]))) <==> Undisturbed(xs, bs)
  {
    if Undisturbed(xs, bs) {
      forall i | 0 <= i < |xs|
        ensures Invariant(Atomic(xs[i]))
      {
        UndisturbedKeepsInvariant(xs, bs, i);
      }
    } else {
      var i := FirstDisturbed(xs, bs, |bs|);
      FirstDisturbedBreaks(xs, bs, i);
    }
  }

  // ----- Which actions disturb ---------------------------------------------------------------------

  /** The action writes the list of p back for a push. */
  predicate PushesTo(x: Split, b: SplitAction, p: PointId) {
    b.PushWrite? && b.r in x.pushes && x.pushes[b.r].point == p
  }

  predicate PopsFrom(b: SplitAction, p: PointId) {
    b.PopWrite? && b.p == p
  }

  /** Only the two write-backs change a list. */
  lemma ListChanges(x: Split, b: SplitAction, x': Split, known: Word, p: PointId)
    requires Nested(x, known) && SplitStep(x, b, x') && !PushesTo(x, b, p) && !PopsFrom(b, p)
    ensures ListOf(x'.s, p) == ListOf(x.s, p)
  {
    match b
    case Whole(a) =>
      WholeRequests(x, a);
      SameLists(x.s, x'.s, p);
    case PopRead(_) =>
    case PopWrite(q, r) => PopWritten(x, q, r, x', known, p);
    case PushRead(_, _, _, _) => SameLists(x.s, x'.s, p);
    case PushWrite(r) => PushWritten(x, r, x', known, p);
  }

  /** A pop of p is under way, and what it read is the list, or lacks the entry k that was
      pushed since and that no push will leave out. */
  ghost predicate PopSince(x: Split, p: PointId, k: Option<RequestId>) {
    p in x.pops &&
    match k
    case None => ListOf(x.s, p) == x.pops[p]
    case Some(k) =>
      k in ListOf(x.s, p) && k !in x.pops[p] && forall r :: r in x.pushes && x.pushes[r].point == p ==> k in x.pushes[r].word
  }

  lemma PopSinceStep(x: Split, b: SplitAction, x': Split, known: Word, p: PointId, k: Option<RequestId>) returns (k': Option<RequestId>)
    requires Nested(x, known) && SplitStep(x, b, x') && PopSince(x, p, k) && !PopsFrom(b, p)
    ensures PopSince(x', p, k') && (k'.Some? <==> k.Some? || PushesTo(x, b, p))
  {
    if PushesTo(x, b, p) {
      PushedSince(x, b.r, x', known, p);
      k' := Some(b.r);
    } else {
      ListChanges(x, b, x', known, p);
      k' := k;
    }
  }

  /** After a push to p the entry it brought is in the list, and in no word a pop has read. */
  lemma PushedSince(x: Split, r: RequestId, x': Split, known: Word, p: PointId)
    requires Nested(x, known) && SplitStep(x, PushWrite(r), x') && x.pushes[r].point == p && p in x.pops
    ensures PopSince(x', p, Some(r))
  {
    assert PushNested(x, known, r);
    PushWritten(x, r, x', known, p);
    assert r in ListOf(x'.s, p);
    forall y | y in x'.pushes
      ensures x'.pushes[y].point != p
    {
      assert x.pushes[y].point == p ==> y == r;
    }
  }

  lemma PopBegins(x: Split, p: PointId, x': Split)
    requires SplitStep(x, PopRead(p), x')
    ensures PopSince(x', p, None)
  {
  }

  /** From i up to k a pop writes to the list of p. */
  predicate PoppedBetween(bs: seq<SplitAction>, i: nat, k: nat, p: PointId)
    requires k <= |bs|
  {
    exists j :: i <= j < k && PopsFrom(bs[j], p)
  }

  /** From i up to k the push of r writes. */
  predicate WrittenBetween(bs: seq<SplitAction>, i: nat, k: nat, r: RequestId)
    requires k <= |bs|
  {
    exists j :: i <= j < k && bs[j] == PushWrite(r)
  }

  lemma OneWriteLater(bs: seq<SplitAction>, i: nat, k: nat, r: RequestId)
    requires i <= k < |bs|
    ensures WrittenBetween(bs, i, k + 1, r) == (WrittenBetween(bs, i, k, r) || bs[k] == PushWrite(r))
  {
  }

  lemma OnePopLater(bs: seq<SplitAction>, i: nat, k: nat, p: PointId)
    requires i <= k < |bs|
    ensures PoppedBetween(bs, i, k + 1, p) == (PoppedBetween(bs, i, k, p) || PopsFrom(bs[k], p))
  {
  }

  /** From i up to k a push writes to the list of p. */
  predicate PushedBetween(xs: seq<Split>, bs: seq<SplitAction>, i: nat, k: nat, p: PointId)
    requires k <= |bs| && k <= |xs|
  {
    exists j {:trigger bs[j]} :: i <= j < k && PushesTo(xs[j], bs[j], p)
  }

  lemma OnePushLater(xs: seq<Split>, bs: seq<SplitAction>, i: nat, k: nat, p: PointId)
    requires i <= k < |bs| && |xs| == |bs| + 1
    ensures PushedBetween(xs, bs, i, k + 1, p) == (PushedBetween(xs, bs, i, k, p) || PushesTo(xs[k], bs[k], p))
  {
  }

  lemma PopSinceRunStep(xs: seq<Split>, bs: seq<SplitAction>, i: nat, p: PointId, k: Option<RequestId>) returns (k': Option<RequestId>)
    requires SplitRun(xs, bs) && i < |bs| && PopSince(xs[i], p, k) && !PopsFrom(bs[i], p)
    ensures PopSince(xs[i + 1], p, k') && (k'.Some? <==> k.Some? || PushesTo(xs[i], bs[i], p))
  {
    var known := RunStepIsNested(xs, bs, i);
    k' := PopSinceStep(xs[i], bs[i], xs[i + 1], known, p, k);
  }

  lemma {:induction false} PopSinceRun(xs: seq<Split>, bs: seq<SplitAction>, i: nat, j: nat, p: PointId) returns (k: Option<RequestId>)
    requires SplitRun(xs, bs) && i <= j < |xs| && PopSince(xs[i], p, None) && !PoppedBetween(bs, i, j, p)
    ensures PopSince(xs[j], p, k) && (k.Some? <==> PushedBetween(xs, bs, i, j, p))
    decreases j
  {
    k := None;
    if i < j {
      OnePopLater(bs, i, j - 1, p);
      OnePushLater(xs, bs, i, j - 1, p);
      k := PopSinceRun(xs, bs, i, j - 1, p);
      k := PopSinceRunStep(xs, bs, j - 1, p, k);
    }
  }

  /** A pop that read the list of p at i and writes at j finds it as it was read if and only
      if no push wrote to it in between. */
  lemma PopFindsAsRead(xs: seq<Split>, bs: seq<SplitAction>, i: nat, j: nat, p: PointId, r: RequestId)
    requires SplitRun(xs, bs) && i < j < |bs| && bs[i] == PopRead(p) && bs[j] == PopWrite(p, r)
    requires !PoppedBetween(bs, i + 1, j, p)
    ensures FoundAsRead(xs[j], bs[j]) <==> !PushedBetween(xs, bs, i + 1, j, p)
  {
    PopBegins(xs[i], p, xs[i + 1]);
    var k := PopSinceRun(xs, bs, i + 1, j, p);
  }

  /** A push of r is under way, and what it read is the list, or has the entry k that was
      popped since. */
  ghost predicate PushSince(x: Split, r: RequestId, p: PointId, k: Option<RequestId>) {
    r in x.pushes && x.pushes[r].point == p &&
    match k
    case None => ListOf(x.s, p) == x.pushes[r].word
    case Some(k) => k in x.pushes[r].word && k !in ListOf(x.s, p)
  }

  lemma PushSinceStep(x: Split, b: SplitAction, x': Split, known: Word, r: RequestId, p: PointId, k: Option<RequestId>)
    returns (k': Option<RequestId>)
    requires Nested(x, known) && SplitStep(x, b, x') && PushSince(x, r, p, k) && b != PushWrite(r)
    ensures PushSince(x', r, p, k') && (k'.Some? <==> k.Some? || PopsFrom(b, p))
  {
    assert PushNested(x, known, r);
    if PopsFrom(b, p) {
      PopWritten(x, p, b.r, x', known, p);
      k' := Some(b.r);
    } else {
      ListChanges(x, b, x', known, p);
      k' := k;
    }
  }

  lemma PushBegins(x: Split, t: PointId, p: PointId, g: GuardId, r: RequestId, x': Split)
    requires SplitStep(x, PushRead(t, p, g, r), x')
    ensures PushSince(x', r, p, None)
  {
    SameLists(x.s, x'.s, p);
  }

  lemma PushSinceRunStep(xs: seq<Split>, bs: seq<SplitAction>, i: nat, r: RequestId, p: PointId, k: Option<RequestId>)
    returns (k': Option<RequestId>)
    requires SplitRun(xs, bs) && i < |bs| && PushSince(xs[i], r, p, k) && bs[i] != PushWrite(r)
    ensures PushSince(xs[i + 1], r, p, k') && (k'.Some? <==> k.Some? || PopsFrom(bs[i], p))
  {
    var known := RunStepIsNested(xs, bs, i);
    k' := PushSinceStep(xs[i], bs[i], xs[i + 1], known, r, p, k);
  }

  lemma {:induction false} PushSinceRun(xs: seq<Split>, bs: seq<SplitAction>, i: nat, j: nat, r: RequestId, p: PointId)
    returns (k: Option<RequestId>)
    requires SplitRun(xs, bs) && i <= j < |xs| && PushSince(xs[i], r, p, None) && !WrittenBetween(bs, i, j, r)
    ensures PushSince(xs[j], r, p, k) && (k.Some? <==> PoppedBetween(bs, i, j, p))
    decreases j
  {
    k := None;
    if i < j {
      OneWriteLater(bs, i, j - 1, r);
      OnePopLater(bs, i, j - 1, p);
      k := PushSinceRun(xs, bs, i, j - 1, r, p);
      k := PushSinceRunStep(xs, bs, j - 1, r, p, k);
    }
  }

  /** A push that read the list of p at i and writes at j finds it as it was read if and
      only if no pop wrote to it in between. */
  lemma PushFindsAsRead(xs: seq<Split>, bs: seq<SplitAction>, i: nat, j: nat, t: PointId, p: PointId, g: GuardId, r: RequestId)
    requires SplitRun(xs, bs) && i < j < |bs| && bs[i] == PushRead(t, p, g, r) && bs[j] == PushWrite(r)
    requires !WrittenBetween(bs, i + 1, j, r)
    ensures FoundAsRead(xs[j], bs[j]) <==> !PoppedBetween(bs, i + 1, j, p)
  {
    PushBegins(xs[i], t, p, g, r, xs[i + 1]);
    var k := PushSinceRun(xs, bs, i + 1, j, r, p);
  }
}
