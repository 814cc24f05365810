/** Two runs in which a task asks for a lock of a point that is taking its guards. In one
    the pop, and in the other the push, writes back a word that is out of date. */
module SchedulerLostLock {
  import opened SchedulerState
  import opened SchedulerSteps
  import opened SchedulerExample
  import opened SchedulerGuardTheorems
  import opened SchedulerRuns
  import opened SchedulerSplitLists
  import opened SchedulerSplitTheorems

  // ----- The list of 3 has one entry -------------------------------------------------------------------

  /** Point 3 has taken guard 0 over from the interval 1 to 2, which is still running. */
  function Scene(p1: Point, p2: Point, p3: Point, rc4: nat, rc: nat, g1: Guard, g2: Guard, requests: map<RequestId, Request>,
                 inflight: set<EdgeId>, clock: nat): State
  {
    State(map[0 := RootEnd(3), 1 := p1, 2 := p2, 3 := p3, 4 := EndPoint(3, 2, rc4, NotRun)],
          SchedulerExample.Links()[Out(0) := Edge(2, 3, true)],
          map[0 := Guard(rc, Some(4), 1, true, [1, 3]), 1 := g1, 2 := g2], requests, inflight, {}, clock)
  }

  function Running(taking: Taking, rc2: nat, rc4: nat, rc: nat, g1: Guard, g2: Guard, requests: map<RequestId, Request>): State {
    Scene(StartPoint(2, WC_STARTED, 0, Occurred(0, true, SchedulerState.Running), None), EndPoint(1, 1, rc2, Body(None, None)),
          Waiter(taking, 2), rc4, rc, g1, g2, requests, {}, 1)
  }

  function Unheld(rc: nat): Guard {
    Guard(rc, None, 1, true, [])
  }

  const ONE: map<RequestId, Request> := map[2 := Request(3, 1)]
  const BOTH: map<RequestId, Request> := map[2 := Request(3, 1), 3 := Request(3, 2)]

  lemma ThreeGuards()
    ensures Reachable(Running(Linked(0, 2), 2, 2, 2, Unheld(1), Unheld(1), map[]))
  {
    SecondGuard();
    var s' := Running(Linked(0, 2), 2, 2, 2, Unheld(1), Unheld(1), map[]);
    assert Do(TwoGuards(), CreateGuard(2)).guards == s'.guards;
    ReachNext(TwoGuards(), CreateGuard(2), s');
  }

  lemma MayAskThree(s: State)
    requires InBody(s, 2) && 3 in s.points && Out(0) in s.edges && s.edges[Out(0)] == Edge(2, 3, true)
    ensures CanAddDep(s, 2, 3)
  {
    assert IsPath(s, [Out(0)][1..], 3, 3);
    assert IsPath(s, [Out(0)], 2, 3);
  }

  lemma OneAsked()
    ensures Reachable(Running(Linked(0, 2), 2, 2, 2, Unheld(2), Unheld(1), ONE))
  {
    ThreeGuards();
    var s, s' := Running(Linked(0, 2), 2, 2, 2, Unheld(1), Unheld(1), map[]), Running(Linked(0, 2), 2, 2, 2, Unheld(2), Unheld(1), ONE);
    MayAskThree(s);
    assert Do(s, AddLock(2, 3, 1, 2)).guards == s'.guards && Do(s, AddLock(2, 3, 1, 2)).requests == ONE;
    ReachNext(s, AddLock(2, 3, 1, 2), s');
  }

  lemma OneLetFormerGo()
    ensures Step(Running(Linked(0, 2), 2, 2, 2, Unheld(2), Unheld(1), ONE), ReleaseFormer(3),
                 Running(Letting(0), 1, 2, 2, Unheld(2), Unheld(1), ONE))
  {
    var s, s' := Running(Linked(0, 2), 2, 2, 2, Unheld(2), Unheld(1), ONE), Running(Letting(0), 1, 2, 2, Unheld(2), Unheld(1), ONE);
    assert Do(s, ReleaseFormer(3)).points == s'.points;
  }

  lemma OneFormerLetGo()
    ensures Reachable(Running(Letting(0), 1, 2, 2, Unheld(2), Unheld(1), ONE))
  {
    OneAsked();
    OneLetFormerGo();
    ReachNext(Running(Linked(0, 2), 2, 2, 2, Unheld(2), Unheld(1), ONE), ReleaseFormer(3),
              Running(Letting(0), 1, 2, 2, Unheld(2), Unheld(1), ONE));
  }

  /** Point 3 is about to pop the entry for guard 1. */
  function Ready(): State {
    Running(Popping, 1, 2, 1, Unheld(2), Unheld(1), ONE)
  }

  lemma OneLetGo()
    ensures Step(Running(Letting(0), 1, 2, 2, Unheld(2), Unheld(1), ONE), ReleaseTaken(3), Ready())
  {
    var s, s' := Running(Letting(0), 1, 2, 2, Unheld(2), Unheld(1), ONE), Ready();
    assert Do(s, ReleaseTaken(3)).points == s'.points && Do(s, ReleaseTaken(3)).guards == s'.guards;
  }

  lemma ReadyReached()
    ensures Reachable(Ready())
  {
    OneFormerLetGo();
    OneLetGo();
    ReachNext(Running(Letting(0), 1, 2, 2, Unheld(2), Unheld(1), ONE), ReleaseTaken(3), Ready());
  }

  // ----- Runs in which a lock was asked for --------------------------------------------------------------

  const ASKS: SplitAction := PushRead(2, 3, 2, 3)

  /** A run leads to x in which the task that ends at 2 has asked for guard 2 for point 3. */
  ghost predicate Asked(x: Split) {
    exists xs: seq<Split>, bs: seq<SplitAction> :: SplitRun(xs, bs) && xs[|xs| - 1] == x && ASKS in bs
  }

  lemma AskedNext(x: Split, b: SplitAction, x': Split)
    requires Asked(x) && SplitStep(x, b, x') && CountsInRange(x'.s)
    ensures Asked(x')
  {
    var xs: seq<Split>, bs: seq<SplitAction> :| SplitRun(xs, bs) && xs[|xs| - 1] == x && ASKS in bs;
    LongerRun(xs, bs, b, x');
    assert (xs + [x'])[|xs + [x']| - 1] == x' && ASKS in bs + [b];
  }

  lemma AskedNow(x: Split, x': Split)
    requires SplitReachable(x) && SplitStep(x, ASKS, x') && CountsInRange(x'.s)
    ensures Asked(x')
  {
    var xs: seq<Split>, bs: seq<SplitAction> :| SplitRun(xs, bs) && xs[|xs| - 1] == x;
    LongerRun(xs, bs, ASKS, x');
    assert (xs + [x'])[|xs + [x']| - 1] == x' && ASKS in bs + [ASKS];
  }

  lemma AskedWhole(s: State, a: Action, s': State)
    requires Asked(AtRest(s)) && Step(s, a, s') && !a.AddLock? && !a.SwapLock? && CountsInRange(s')
    ensures Asked(AtRest(s'))
  {
    OtherStep(s, a, s');
    AskedNext(AtRest(s), Whole(a), AtRest(s'));
  }

  // ----- A lock that is lost ----------------------------------------------------------------------------

  /** The pop has read the list, and then a push has. */
  function PopIsUnderWay(): Split {
    Split(Ready(), map[3 := ONE], map[])
  }

  function BothUnderWay(): Split {
    Split(Running(Popping, 1, 2, 1, Unheld(2), Unheld(2), ONE), map[3 := ONE], map[3 := Push(2, 3, 2, ONE)])
  }

  function PushIsOver(): Split {
    Split(Running(Popping, 1, 2, 1, Unheld(2), Unheld(2), BOTH), map[3 := ONE], map[])
  }

  /** The pop has written back an empty list, and gone on with guard 1. */
  function Taken(taking: Taking, rc: nat): State {
    Running(taking, 1, 3, 1, Guard(rc, Some(4), 1, true, [3]), Unheld(2), map[])
  }

  lemma ListIs(s: State, p: PointId, word: Word)
    requires forall r :: r in s.requests ==> s.requests[r].point == p
    requires s.requests == word
    ensures ListOf(s, p) == word
  {
  }

  lemma PopReads()
    ensures SplitReachable(PopIsUnderWay())
  {
    ReadyReached();
    AtomicIsSplit(Ready());
    ListIs(Ready(), 3, ONE);
    assert Ready().requests[2].point == 3;
    assert SplitStep(AtRest(Ready()), PopRead(3), PopIsUnderWay());
    SplitReachNext(AtRest(Ready()), PopRead(3), PopIsUnderWay());
  }

  lemma MayAskNow()
    ensures Enabled(Ready(), AddLock(2, 3, 2, 3))
  {
    MayAskThree(Ready());
  }

  lemma PushReads()
    ensures SplitStep(PopIsUnderWay(), ASKS, BothUnderWay())
  {
    ListIs(Ready(), 3, ONE);
    MayAskNow();
    var x := SplitDo(PopIsUnderWay(), ASKS);
    assert x.s.guards == BothUnderWay().s.guards;
  }

  lemma PushWrites()
    ensures SplitStep(BothUnderWay(), PushWrite(3), PushIsOver())
  {
    var x := SplitDo(BothUnderWay(), PushWrite(3));
    assert x.s.requests == BOTH;
    assert x.pushes == map[];
  }

  /** Guard 1 is taken if the list is as the pop has read it. */
  lemma TakesOne()
    ensures Step(Running(Popping, 1, 2, 1, Unheld(2), Unheld(2), ONE), SwapLock(3, 2), Taken(Letting(1), 2))
  {
    var s' := Do(Running(Popping, 1, 2, 1, Unheld(2), Unheld(2), ONE), SwapLock(3, 2));
    assert s'.points == Taken(Letting(1), 2).points;
    assert s'.guards[1].holders == [3];
    assert s'.guards == Taken(Letting(1), 2).guards && s'.requests == map[];
  }

  lemma PopWrites()
    ensures SplitStep(PushIsOver(), PopWrite(3, 2), AtRest(Taken(Letting(1), 2)))
  {
    assert WriteList(PushIsOver().s, 3, ONE).requests == ONE;
    assert WriteList(PushIsOver().s, 3, ONE) == Running(Popping, 1, 2, 1, Unheld(2), Unheld(2), ONE);
    TakesOne();
    assert PushIsOver().pops - {3} == map[];
  }

  lemma PushReadsReached()
    ensures Asked(BothUnderWay())
  {
    PopReads();
    PushReads();
    AskedNow(PopIsUnderWay(), BothUnderWay());
  }

  lemma PushWritesReached()
    ensures Asked(PushIsOver())
  {
    PushReadsReached();
    PushWrites();
    AskedNext(BothUnderWay(), PushWrite(3), PushIsOver());
  }

  lemma LockLost()
    ensures Asked(AtRest(Taken(Letting(1), 2)))
  {
    PushWritesReached();
    PopWrites();
    TakenInRange(Letting(1), 2);
    AskedNext(PushIsOver(), PopWrite(3, 2), AtRest(Taken(Letting(1), 2)));
  }

  lemma TakenInRange(taking: Taking, rc: nat)
    ensures CountsInRange(Taken(taking, rc))
  {
  }

  // ----- The point occurs without it ----------------------------------------------------------------------

  lemma LetGuardGo()
    ensures Step(Taken(Letting(1), 2), ReleaseTaken(3), Taken(Popping, 1))
  {
    var s, s' := Taken(Letting(1), 2), Taken(Popping, 1);
    assert Do(s, ReleaseTaken(3)).points == s'.points && Do(s, ReleaseTaken(3)).guards == s'.guards;
  }

  lemma GuardLetGo()
    ensures Asked(AtRest(Taken(Popping, 1)))
  {
    LockLost();
    LetGuardGo();
    AskedWhole(Taken(Letting(1), 2), ReleaseTaken(3), Taken(Popping, 1));
  }

  /** Guard 1 is taken, and 3 waits for the end of the first interval. */
  function Later(p1: Point, p2: Point, p3: Point, inflight: set<EdgeId>, clock: nat): State {
    Scene(p1, p2, p3, 3, 1, Guard(1, Some(4), 1, true, [3]), Unheld(2), map[], inflight, clock)
  }

  function WaitingThree(): Point {
    StartPoint(4, 1, 1, Waiting, None)
  }

  function FreedOne(): Point {
    StartPoint(2, WC_STARTED, U64_MAX, Freed(0, true), None)
  }

  function RunningOne(): Point {
    StartPoint(2, WC_STARTED, 0, Occurred(0, true, SchedulerState.Running), None)
  }

  function EndedTwo(): Point {
    Point(Some(0), 1, Empty, WC_STARTED, 0, Occurred(1, true, Notifying), 0, None, Closed, Some(1))
  }

  function Unguarded(): State {
    Later(FreedOne(), EndedTwo(), StartPoint(4, WC_STARTED, 0, Occurred(2, true, Notifying), None), {BoundOf(2), BoundOf(3)}, 3)
  }

  function Over(run: Run): State {
    Later(if run.Body? then RunningOne() else FreedOne(), EndPoint(1, 1, 1, run), WaitingThree(), {}, 1)
  }

  lemma TakeNoMore()
    ensures Step(Taken(Popping, 1), LocksTaken(3), Over(Body(None, None))) && CountsInRange(Over(Body(None, None)))
  {
    assert Do(Taken(Popping, 1), LocksTaken(3)).points == Over(Body(None, None)).points;
  }

  lemma AllTaken()
    ensures Asked(AtRest(Over(Body(None, None))))
  {
    GuardLetGo();
    TakeNoMore();
    AskedWhole(Taken(Popping, 1), LocksTaken(3), Over(Body(None, None)));
  }

  lemma FirstReturns()
    ensures Step(Over(Body(None, None)), FinishBody(2), Over(Flushing)) && CountsInRange(Over(Flushing))
  {
    assert Do(Over(Body(None, None)), FinishBody(2)).points == Over(Flushing).points;
  }

  lemma FirstReturned()
    ensures Asked(AtRest(Over(Flushing)))
  {
    AllTaken();
    FirstReturns();
    AskedWhole(Over(Body(None, None)), FinishBody(2), Over(Flushing));
  }

  function Notified(): State {
    Later(FreedOne(), EndedTwo(), WaitingThree(), {BoundOf(2), Out(0)}, 2)
  }

  lemma FirstEnds()
    ensures Step(Over(Flushing), EndTask(2), Notified())
  {
    assert OutEdges(Over(Flushing), 2) == {BoundOf(2), Out(0)};
    assert Do(Over(Flushing), EndTask(2)).points == Notified().points;
  }

  lemma NotifiedInRange()
    ensures CountsInRange(Notified())
  {
  }

  lemma FirstEnded()
    ensures Asked(AtRest(Notified()))
  {
    FirstReturned();
    FirstEnds();
    NotifiedInRange();
    AskedWhole(Over(Flushing), EndTask(2), Notified());
  }

  lemma ThreeOccurs()
    ensures Step(Notified(), Deliver(Out(0)), Unguarded())
  {
    var s := Notified();
    assert OutEdges(s, 3) == {BoundOf(3)};
    assert Do(s, Deliver(Out(0))).points == Unguarded().points;
    assert Do(s, Deliver(Out(0))).inflight == Unguarded().inflight;
  }

  /** The task that ends at 2 asks for guard 2 for point 3, while 3 pops another entry. The
      pop writes back a list without it: 3 occurs, and has never taken the guard. */
  lemma OccursWithoutItsLock() returns (x: Split)
    ensures Asked(x) && Occ(x.s, 3) && x.pops == map[] && x.pushes == map[]
    ensures 2 in x.s.guards && 3 !in x.s.guards[2].holders && x.s.requests == map[]
  {
    x := AtRest(Unguarded());
    FirstEnded();
    ThreeOccurs();
    AskedWhole(Notified(), Deliver(Out(0)), Unguarded());
  }

  // ----- A lock that is taken twice -----------------------------------------------------------------------

  lemma AskInRange()
    ensures CountsInRange(AskIsUnderWay(map[]).s)
  {
  }

  /** Now the push reads first, and writes last. */
  function AskIsUnderWay(pops: map<PointId, Word>): Split {
    Split(Running(Popping, 1, 2, 1, Unheld(2), Unheld(2), ONE), pops, map[3 := Push(2, 3, 2, ONE)])
  }

  lemma AskReads()
    ensures SplitStep(AtRest(Ready()), ASKS, AskIsUnderWay(map[]))
  {
    ListIs(Ready(), 3, ONE);
    MayAskNow();
    var x := SplitDo(AtRest(Ready()), ASKS);
    assert x.s.guards == AskIsUnderWay(map[]).s.guards;
  }

  lemma AskReadsFirst()
    ensures Asked(AskIsUnderWay(map[]))
  {
    ReadyReached();
    AtomicIsSplit(Ready());
    AskReads();
    AskInRange();
    AskedNow(AtRest(Ready()), AskIsUnderWay(map[]));
  }

  lemma PopReadsNext()
    ensures Asked(AskIsUnderWay(map[3 := ONE]))
  {
    AskReadsFirst();
    var x := AskIsUnderWay(map[]);
    ListIs(x.s, 3, ONE);
    assert x.s.requests[2].point == 3;
    assert SplitStep(x, PopRead(3), AskIsUnderWay(map[3 := ONE]));
    AskedNext(x, PopRead(3), AskIsUnderWay(map[3 := ONE]));
  }

  /** Guard 1 is taken, and the push has yet to write. */
  function OnlyAskUnderWay(): Split {
    Split(Taken(Letting(1), 2), map[], map[3 := Push(2, 3, 2, ONE)])
  }

  lemma PopWritesNext()
    ensures SplitStep(AskIsUnderWay(map[3 := ONE]), PopWrite(3, 2), OnlyAskUnderWay())
  {
    var x := AskIsUnderWay(map[3 := ONE]);
    assert WriteList(x.s, 3, ONE).requests == ONE;
    assert WriteList(x.s, 3, ONE) == x.s;
    TakesOne();
    assert x.pops - {3} == map[];
  }

  /** Both entries are in the list, though the first has been popped. */
  function Restored(): State {
    Taken(Letting(1), 2).(requests := BOTH)
  }

  lemma AskWritesLast()
    ensures SplitStep(OnlyAskUnderWay(), PushWrite(3), AtRest(Restored()))
  {
    var x := SplitDo(OnlyAskUnderWay(), PushWrite(3));
    assert x.s.requests == BOTH;
    assert x.pushes == map[];
  }

  lemma PopWritesNextReached()
    ensures Asked(OnlyAskUnderWay())
  {
    PopReadsNext();
    PopWritesNext();
    AskedNext(AskIsUnderWay(map[3 := ONE]), PopWrite(3, 2), OnlyAskUnderWay());
  }

  /** The push brings back an entry that was popped in between: 3 has taken guard 1, whose
      reference it is about to release, and is going to take it again. */
  lemma TakenTwice() returns (x: Split)
    ensures SplitReachable(x) && x.pops == map[] && x.pushes == map[]
    ensures 1 in x.s.guards && x.s.guards[1].holders == [3] && AskedFor(x.s, 3, 1)
    ensures 3 in x.s.points && x.s.points[3].life == Acquiring(Letting(1))
  {
    x := AtRest(Restored());
    PopWritesNextReached();
    AskWritesLast();
    AskedNext(OnlyAskUnderWay(), PushWrite(3), x);
    assert x.s.requests[2] == Request(3, 1);
  }
}
