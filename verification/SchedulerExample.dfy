/** A run with two intervals that lock the same guard. The first may still add to the start
    of the second when that has begun to take its guards, since it waits, by a synthetic
    edge, for the end of the first; and so it can upset the order in which a further guard
    is taken. */
module SchedulerExample {
  import opened SchedulerState
  import opened SchedulerSteps
  import opened SchedulerGuardTheorems
  import opened SchedulerPaths
  import opened SchedulerRuns
  import opened SchedulerRuntime
  import opened SchedulerTurns

  lemma ReachNext(s: State, a: Action, s': State)
    requires Reachable(s) && Step(s, a, s') && CountsInRange(s')
    ensures Reachable(s')
  {
    ReachableInvariant(s);
    assert RunsTo(Do(s, a), [a][1..], s');
    assert RunsTo(s, [a], s');
    LeadsToReachable(s, [a], s');
  }

  function RootEnd(wc: nat): Point {
    Point(None, 0, Latch, wc, 1, Waiting, 0, None, Body(None, None), None)
  }

  function StartPoint(end: PointId, wc: nat, rc: nat, life: Life, owner: Option<PointId>): Point {
    Point(Some(end), 2, Block, wc, rc, life, 0, owner, Closed, None)
  }

  function EndPoint(start: PointId, wc: nat, rc: nat, run: Run): Point {
    Point(Some(0), 1, Empty, wc, rc, Waiting, 0, None, run, Some(start))
  }

  function Links(): map<EdgeId, Edge> {
    map[BoundOf(2) := Edge(2, 0, false), BoundOf(1) := Edge(1, 2, false),
        BoundOf(4) := Edge(4, 0, false), BoundOf(3) := Edge(3, 4, false)]
  }

  function OneLink(): map<EdgeId, Edge> {
    map[BoundOf(2) := Edge(2, 0, false), BoundOf(1) := Edge(1, 2, false)]
  }

  /** How far the run has come: the points of the two intervals, 1 to 2 and 3 to 4, and
      the guard. */
  function Moment(p1: Point, p2: Point, p3: Point, p4: Point, g: Guard, requests: map<RequestId, Request>,
                  inflight: set<EdgeId>, clock: nat): State
  {
    State(map[0 := RootEnd(3), 1 := p1, 2 := p2, 3 := p3, 4 := p4], Links(), map[0 := g], requests, inflight, {}, clock)
  }

  function Listed(end: PointId): Point {
    StartPoint(end, 1, 1, Waiting, Some(0))
  }

  function Two(): State {
    Moment(Listed(2), EndPoint(1, 2, 1, NotRun), Listed(4), EndPoint(3, 2, 1, NotRun), Guard(1, None, 1, true, []), map[], {}, 0)
  }

  function Locked(): State {
    Two().(guards := map[0 := Guard(3, None, 1, true, [])], requests := map[0 := Request(1, 0), 1 := Request(3, 0)])
  }

  function WithGuard(): State {
    State(map[0 := RootEnd(1)], map[], map[0 := Guard(1, None, 1, true, [])], map[], {}, {}, 0)
  }

  function OneInterval(): State {
    State(map[0 := RootEnd(2), 1 := Listed(2), 2 := EndPoint(1, 2, 1, NotRun)],
          OneLink(), map[0 := Guard(1, None, 1, true, [])], map[], {}, {}, 0)
  }

  lemma FirstInterval()
    ensures Step(WithGuard(), NewInterval(0, 0, 1, 2, Out(0)), OneInterval())
  {
  }

  lemma SecondInterval()
    ensures Step(OneInterval(), NewInterval(0, 0, 3, 4, Out(0)), Two())
  {
  }

  lemma GuardCreated()
    ensures Reachable(WithGuard())
  {
    var s := Initial();
    assert IsRun([s], []);
    assert Reachable(s);
    assert Do(s, CreateGuard(0)) == WithGuard();
    ReachNext(s, CreateGuard(0), WithGuard());
  }

  lemma FirstIntervalReached()
    ensures Reachable(OneInterval())
  {
    GuardCreated();
    FirstInterval();
    ReachNext(WithGuard(), NewInterval(0, 0, 1, 2, Out(0)), OneInterval());
  }

  lemma TwoIntervals()
    ensures Reachable(Two())
  {
    FirstIntervalReached();
    SecondInterval();
    ReachNext(OneInterval(), NewInterval(0, 0, 3, 4, Out(0)), Two());
  }

  function OneLocked(): State {
    Two().(guards := map[0 := Guard(2, None, 1, true, [])], requests := map[0 := Request(1, 0)])
  }

  lemma LockFirst()
    ensures Step(Two(), AddLock(0, 1, 0, 0), OneLocked())
  {
    assert Two().points[1].owner == Some(0);
    assert IsUnscheduled(Two(), 0, 1);
  }

  lemma LockSecond()
    ensures Step(OneLocked(), AddLock(0, 3, 0, 1), Locked())
  {
    assert OneLocked().points[3].owner == Some(0);
    assert IsUnscheduled(OneLocked(), 0, 3);
  }

  lemma LockFirstReached()
    ensures Reachable(OneLocked())
  {
    TwoIntervals();
    LockFirst();
    ReachNext(Two(), AddLock(0, 1, 0, 0), OneLocked());
  }

  lemma BothLocked()
    ensures Reachable(Locked())
  {
    LockFirstReached();
    LockSecond();
    ReachNext(OneLocked(), AddLock(0, 3, 0, 1), Locked());
  }

  /** The first interval has taken the guard and is about to occur. */
  function FirstHolds(life: Life, rc: nat): State {
    Moment(StartPoint(2, 1, 1, life, None), EndPoint(1, 2, 2, NotRun), Listed(4), EndPoint(3, 2, 1, NotRun),
           Guard(rc, Some(2), 1, true, [1]), map[1 := Request(3, 0)], {}, 0)
  }

  function FirstScheduled(): State {
    Locked().(points := Locked().points[1 := StartPoint(2, 1, 1, Acquiring(Popping), None)])
  }

  lemma ScheduleFirst()
    ensures Step(Locked(), Schedule(0, 1), FirstScheduled())
  {
    var s := Locked();
    assert s.requests[0] == Request(1, 0);
    assert HasRequest(s.(points := s.points[1 := s.points[1].(owner := None)]), 1);
    assert Do(s, Schedule(0, 1)).points == FirstScheduled().points;
  }

  lemma SwapFirst()
    ensures Step(FirstScheduled(), SwapLock(1, 0), FirstHolds(Acquiring(Letting(0)), 3))
  {
    var s, goal := FirstScheduled(), FirstHolds(Acquiring(Letting(0)), 3);
    assert s.requests[0] == Request(1, 0) && s.points[1].bound == Some(2);
    var s' := Do(s, SwapLock(1, 0));
    assert s'.points == goal.points;
    assert s'.requests == goal.requests;
    assert s'.guards[0].holders == [1];
    assert s'.guards == goal.guards;
  }

  lemma ReleaseFirst()
    ensures Step(FirstHolds(Acquiring(Letting(0)), 3), ReleaseTaken(1), FirstHolds(Acquiring(Popping), 2))
  {
    var s' := Do(FirstHolds(Acquiring(Letting(0)), 3), ReleaseTaken(1));
    assert s'.points == FirstHolds(Acquiring(Popping), 2).points;
  }

  lemma ScheduleFirstReached()
    ensures Reachable(FirstScheduled())
  {
    BothLocked();
    ScheduleFirst();
    ReachNext(Locked(), Schedule(0, 1), FirstScheduled());
  }

  lemma SwapFirstReached()
    ensures Reachable(FirstHolds(Acquiring(Letting(0)), 3))
  {
    ScheduleFirstReached();
    SwapFirst();
    ReachNext(FirstScheduled(), SwapLock(1, 0), FirstHolds(Acquiring(Letting(0)), 3));
  }

  lemma FirstTakes()
    ensures Reachable(FirstHolds(Acquiring(Popping), 2))
  {
    SwapFirstReached();
    ReleaseFirst();
    ReachNext(FirstHolds(Acquiring(Letting(0)), 3), ReleaseTaken(1), FirstHolds(Acquiring(Popping), 2));
  }

  /** The first start has occurred, dead, and its end has wc to go. */
  function FirstOccurred(stage: Stage, wc: nat, run: Run, inflight: set<EdgeId>): State {
    Moment(StartPoint(2, WC_STARTED, 0, Occurred(0, true, stage), None), EndPoint(1, wc, 2, run), Listed(4),
           EndPoint(3, 2, 1, NotRun), Guard(2, Some(2), 1, true, [1]), map[1 := Request(3, 0)], inflight, 1)
  }

  lemma OccurFirst()
    ensures Step(FirstHolds(Acquiring(Popping), 2), LocksTaken(1), FirstOccurred(Notifying, 2, NotRun, {BoundOf(1)}))
  {
    var s, s' := FirstHolds(Acquiring(Popping), 2), FirstOccurred(Notifying, 2, NotRun, {BoundOf(1)});
    assert OutEdges(s, 1) == {BoundOf(1)};
    assert !HasRequest(s, 1);
    assert Do(s, LocksTaken(1)).points == s'.points;
  }

  lemma FirstStarts()
    ensures Reachable(FirstOccurred(Notifying, 2, NotRun, {BoundOf(1)}))
  {
    FirstTakes();
    OccurFirst();
    ReachNext(FirstHolds(Acquiring(Popping), 2), LocksTaken(1), FirstOccurred(Notifying, 2, NotRun, {BoundOf(1)}));
  }

  lemma DeliverFirst()
    ensures Step(FirstOccurred(Notifying, 2, NotRun, {BoundOf(1)}), Deliver(BoundOf(1)), FirstOccurred(Notifying, 1, NotRun, {}))
  {
    var s' := Do(FirstOccurred(Notifying, 2, NotRun, {BoundOf(1)}), Deliver(BoundOf(1)));
    assert s'.points == FirstOccurred(Notifying, 1, NotRun, {}).points;
  }

  lemma DispatchFirst()
    ensures Step(FirstOccurred(Notifying, 1, NotRun, {}), Dispatch(1), FirstOccurred(Queued, 1, NotRun, {}))
  {
    var s' := Do(FirstOccurred(Notifying, 1, NotRun, {}), Dispatch(1));
    assert s'.points == FirstOccurred(Queued, 1, NotRun, {}).points;
  }

  lemma StartFirst()
    ensures Step(FirstOccurred(Queued, 1, NotRun, {}), StartTask(1), FirstOccurred(Running, 1, Body(None, None), {}))
  {
    var s' := Do(FirstOccurred(Queued, 1, NotRun, {}), StartTask(1));
    assert s'.points == FirstOccurred(Running, 1, Body(None, None), {}).points;
  }

  lemma DeliverFirstReached()
    ensures Reachable(FirstOccurred(Notifying, 1, NotRun, {}))
  {
    FirstStarts();
    DeliverFirst();
    ReachNext(FirstOccurred(Notifying, 2, NotRun, {BoundOf(1)}), Deliver(BoundOf(1)), FirstOccurred(Notifying, 1, NotRun, {}));
  }

  lemma DispatchFirstReached()
    ensures Reachable(FirstOccurred(Queued, 1, NotRun, {}))
  {
    DeliverFirstReached();
    DispatchFirst();
    ReachNext(FirstOccurred(Notifying, 1, NotRun, {}), Dispatch(1), FirstOccurred(Queued, 1, NotRun, {}));
  }

  lemma FirstRuns()
    ensures Reachable(FirstOccurred(Running, 1, Body(None, None), {}))
  {
    DispatchFirstReached();
    StartFirst();
    ReachNext(FirstOccurred(Queued, 1, NotRun, {}), StartTask(1), FirstOccurred(Running, 1, Body(None, None), {}));
  }

  /** The second start takes the guard over from the first end. */
  function SecondTakes(life: Life): State {
    Moment(StartPoint(2, WC_STARTED, 0, Occurred(0, true, Running), None), EndPoint(1, 1, 2, Body(None, None)),
           StartPoint(4, 1, 1, life, None), EndPoint(3, 2, 2, NotRun), Guard(2, Some(4), 1, true, [1, 3]), map[], {}, 1)
  }

  function SecondScheduled(): State {
    var s := FirstOccurred(Running, 1, Body(None, None), {});
    s.(points := s.points[3 := StartPoint(4, 1, 1, Acquiring(Popping), None)])
  }

  lemma ScheduleSecond()
    ensures Step(FirstOccurred(Running, 1, Body(None, None), {}), Schedule(0, 3), SecondScheduled())
  {
    var s := FirstOccurred(Running, 1, Body(None, None), {});
    assert s.requests[1] == Request(3, 0);
    assert HasRequest(s.(points := s.points[3 := s.points[3].(owner := None)]), 3);
    assert Do(s, Schedule(0, 3)).points == SecondScheduled().points;
  }

  lemma SwapSecond()
    ensures Step(SecondScheduled(), SwapLock(3, 1), SecondTakes(Acquiring(Swapped(0, 2))))
  {
    var s' := Do(SecondScheduled(), SwapLock(3, 1));
    assert s'.points == SecondTakes(Acquiring(Swapped(0, 2))).points;
    assert s'.requests == map[];
    assert s'.guards[0].holders == [1, 3];
  }

  lemma ScheduleSecondReached()
    ensures Reachable(SecondScheduled())
  {
    FirstRuns();
    ScheduleSecond();
    ReachNext(FirstOccurred(Running, 1, Body(None, None), {}), Schedule(0, 3), SecondScheduled());
  }

  lemma SecondWaits()
    ensures Reachable(SecondTakes(Acquiring(Swapped(0, 2))))
  {
    ScheduleSecondReached();
    SwapSecond();
    ReachNext(SecondScheduled(), SwapLock(3, 1), SecondTakes(Acquiring(Swapped(0, 2))));
  }

  function HandedOver(): State {
    var s := SecondTakes(Acquiring(Linked(0, 2)));
    s.(points := s.points[3 := StartPoint(4, 2, 1, Acquiring(Linked(0, 2)), None)],
       edges := s.edges[Out(0) := Edge(2, 3, true)])
  }

  lemma HandOver()
    ensures Step(SecondTakes(Acquiring(Swapped(0, 2))), LinkLock(3, Out(0)), HandedOver())
  {
    assert Do(SecondTakes(Acquiring(Swapped(0, 2))), LinkLock(3, Out(0))).points == HandedOver().points;
  }

  lemma HandedOverReached()
    ensures Reachable(HandedOver())
  {
    SecondWaits();
    HandOver();
    ReachNext(SecondTakes(Acquiring(Swapped(0, 2))), LinkLock(3, Out(0)), HandedOver());
  }

  /** The task that ends at 2 may still add edges to 3, and even further locks, although 3
      has already begun to take its guards. */
  lemma AddingAfterTurning()
    ensures Reachable(HandedOver()) && InBody(HandedOver(), 2) && CanAddDep(HandedOver(), 2, 3)
    ensures Turned(HandedOver(), 3) && 3 in HandedOver().guards[0].holders
  {
    HandedOverReached();
    var s := HandedOver();
    assert s.edges[Out(0)] == Edge(2, 3, true);
    EdgePath(s, Out(0));
  }

  // ----- A guard taken out of order ------------------------------------------------------------

  /** The running task has created a third interval, 5 to 6, and a second guard. */
  function Third(p3: Point, rc2: nat, rc4: nat, p5: Point, rc6: nat, g0: Guard, g1: Guard,
                 requests: map<RequestId, Request>, edges: map<EdgeId, Edge>): State
  {
    State(map[0 := RootEnd(4), 1 := StartPoint(2, WC_STARTED, 0, Occurred(0, true, Running), None),
              2 := EndPoint(1, 1, rc2, Body(None, None)), 3 := p3, 4 := EndPoint(3, 2, rc4, NotRun),
              5 := p5, 6 := EndPoint(5, 2, rc6, NotRun)],
          edges, map[0 := g0, 1 := g1], requests, {}, {}, 1)
  }

  function ThirdLinks(): map<EdgeId, Edge> {
    map[BoundOf(2) := Edge(2, 0, false), BoundOf(1) := Edge(1, 2, false),
        BoundOf(4) := Edge(4, 0, false), BoundOf(3) := Edge(3, 4, false), Out(0) := Edge(2, 3, true),
        BoundOf(6) := Edge(6, 0, false), BoundOf(5) := Edge(5, 6, false)]
  }

  function LateLinks(): map<EdgeId, Edge> {
    ThirdLinks()[Out(1) := Edge(6, 3, false)]
  }

  function Waiter(taking: Taking, wc: nat): Point {
    StartPoint(4, wc, 1, Acquiring(taking), None)
  }

  function TwoGuards(): State {
    HandedOver().(guards := map[0 := Guard(2, Some(4), 1, true, [1, 3]), 1 := Guard(1, None, 1, true, [])])
  }

  function Created(): State {
    Third(Waiter(Linked(0, 2), 2), 2, 2, StartPoint(6, 1, 1, Waiting, Some(2)), 1,
          Guard(2, Some(4), 1, true, [1, 3]), Guard(1, None, 1, true, []), map[], ThirdLinks())
  }

  function Asked(rc: nat, requests: map<RequestId, Request>): State {
    Created().(guards := map[0 := Guard(2, Some(4), 1, true, [1, 3]), 1 := Guard(rc, None, 1, true, [])], requests := requests)
  }

  const BOTH_ASKED: map<RequestId, Request> := map[2 := Request(5, 1), 3 := Request(3, 1)]

  function Late(taking: Taking, rc2: nat, rc: nat): State {
    Third(Waiter(taking, 3), rc2, 2, StartPoint(6, 1, 1, Waiting, Some(2)), 1,
          Guard(rc, Some(4), 1, true, [1, 3]), Guard(3, None, 1, true, []), BOTH_ASKED, LateLinks())
  }

  /** 3 has taken the second guard; 5 is still to take it, or has. */
  function Overtaken(p5: Point): State {
    Third(Waiter(Letting(1), 3), 1, 3, p5, 1, Guard(1, Some(4), 1, true, [1, 3]),
          Guard(3, Some(4), 1, true, [3]), map[2 := Request(5, 1)], LateLinks())
  }

  function OutOfOrder(): State {
    Third(Waiter(Letting(1), 3), 1, 3, StartPoint(6, 1, 1, Acquiring(Swapped(1, 4)), None), 2,
          Guard(1, Some(4), 1, true, [1, 3]), Guard(3, Some(6), 1, true, [3, 5]), map[], LateLinks())
  }

  lemma SecondGuard()
    ensures Reachable(TwoGuards())
  {
    HandedOverReached();
    assert Do(HandedOver(), CreateGuard(1)).guards == TwoGuards().guards;
    ReachNext(HandedOver(), CreateGuard(1), TwoGuards());
  }

  lemma CreateThird()
    ensures Step(TwoGuards(), NewInterval(2, 0, 5, 6, Out(1)), Created())
  {
    var s := TwoGuards();
    assert s.edges[BoundOf(2)] == Edge(2, 0, false);
    EdgePath(s, BoundOf(2));
    assert Enabled(s, NewInterval(2, 0, 5, 6, Out(1)));
    var s' := Do(s, NewInterval(2, 0, 5, 6, Out(1)));
    assert s'.points == Created().points;
    assert s'.edges == Created().edges;
  }

  lemma ThirdCreated()
    ensures Reachable(Created())
  {
    SecondGuard();
    CreateThird();
    ReachNext(TwoGuards(), NewInterval(2, 0, 5, 6, Out(1)), Created());
  }

  lemma AskThird()
    ensures Step(Created(), AddLock(2, 5, 1, 2), Asked(2, map[2 := Request(5, 1)]))
  {
    assert Created().points[5].owner == Some(2);
    assert IsUnscheduled(Created(), 2, 5);
    assert Do(Created(), AddLock(2, 5, 1, 2)).guards == Asked(2, map[2 := Request(5, 1)]).guards;
  }

  lemma ThirdAsked()
    ensures Reachable(Asked(2, map[2 := Request(5, 1)]))
  {
    ThirdCreated();
    AskThird();
    ReachNext(Created(), AddLock(2, 5, 1, 2), Asked(2, map[2 := Request(5, 1)]));
  }

  lemma AskAgain()
    ensures Step(Asked(2, map[2 := Request(5, 1)]), AddLock(2, 3, 1, 3), Asked(3, BOTH_ASKED))
  {
    var s := Asked(2, map[2 := Request(5, 1)]);
    assert s.edges[Out(0)] == Edge(2, 3, true);
    EdgePath(s, Out(0));
    assert Do(s, AddLock(2, 3, 1, 3)).guards == Asked(3, BOTH_ASKED).guards;
  }

  lemma AskedAgain()
    ensures Reachable(Asked(3, BOTH_ASKED))
  {
    ThirdAsked();
    AskAgain();
    ReachNext(Asked(2, map[2 := Request(5, 1)]), AddLock(2, 3, 1, 3), Asked(3, BOTH_ASKED));
  }

  lemma AddLateEdge()
    ensures Step(Asked(3, BOTH_ASKED), AddHb(2, 6, 3, Out(1)), Late(Linked(0, 2), 2, 2))
  {
    var s := Asked(3, BOTH_ASKED);
    assert s.edges[Out(0)] == Edge(2, 3, true);
    EdgePath(s, Out(0));
    assert Do(s, AddHb(2, 6, 3, Out(1))).points == Late(Linked(0, 2), 2, 2).points;
  }

  lemma LateEdge()
    ensures Reachable(Late(Linked(0, 2), 2, 2))
  {
    AskedAgain();
    AddLateEdge();
    ReachNext(Asked(3, BOTH_ASKED), AddHb(2, 6, 3, Out(1)), Late(Linked(0, 2), 2, 2));
  }

  lemma LetFormer()
    ensures Step(Late(Linked(0, 2), 2, 2), ReleaseFormer(3), Late(Letting(0), 1, 2))
  {
    assert Do(Late(Linked(0, 2), 2, 2), ReleaseFormer(3)).points == Late(Letting(0), 1, 2).points;
  }

  lemma FormerLetGo()
    ensures Reachable(Late(Letting(0), 1, 2))
  {
    LateEdge();
    LetFormer();
    ReachNext(Late(Linked(0, 2), 2, 2), ReleaseFormer(3), Late(Letting(0), 1, 2));
  }

  lemma LetTaken()
    ensures Step(Late(Letting(0), 1, 2), ReleaseTaken(3), Late(Popping, 1, 1))
  {
    var s' := Do(Late(Letting(0), 1, 2), ReleaseTaken(3));
    assert s'.points == Late(Popping, 1, 1).points;
    assert s'.guards == Late(Popping, 1, 1).guards;
  }

  lemma TakenLetGo()
    ensures Reachable(Late(Popping, 1, 1))
  {
    FormerLetGo();
    LetTaken();
    ReachNext(Late(Letting(0), 1, 2), ReleaseTaken(3), Late(Popping, 1, 1));
  }

  lemma SwapLate()
    ensures Step(Late(Popping, 1, 1), SwapLock(3, 3), Overtaken(StartPoint(6, 1, 1, Waiting, Some(2))))
  {
    var s := Late(Popping, 1, 1);
    assert s.requests[3] == Request(3, 1);
    var s' := Do(s, SwapLock(3, 3));
    assert s'.points == Overtaken(StartPoint(6, 1, 1, Waiting, Some(2))).points;
    assert s'.requests == map[2 := Request(5, 1)];
    assert s'.guards[1].holders == [3];
  }

  lemma LateSwapped()
    ensures Reachable(Overtaken(StartPoint(6, 1, 1, Waiting, Some(2))))
  {
    TakenLetGo();
    SwapLate();
    ReachNext(Late(Popping, 1, 1), SwapLock(3, 3), Overtaken(StartPoint(6, 1, 1, Waiting, Some(2))));
  }

  lemma ScheduleThird()
    ensures Step(Overtaken(StartPoint(6, 1, 1, Waiting, Some(2))), Schedule(2, 5),
                 Overtaken(StartPoint(6, 1, 1, Acquiring(Popping), None)))
  {
    var s := Overtaken(StartPoint(6, 1, 1, Waiting, Some(2)));
    assert s.requests[2] == Request(5, 1);
    assert HasRequest(s.(points := s.points[5 := s.points[5].(owner := None)]), 5);
    assert Do(s, Schedule(2, 5)).points == Overtaken(StartPoint(6, 1, 1, Acquiring(Popping), None)).points;
  }

  lemma ThirdScheduled()
    ensures Reachable(Overtaken(StartPoint(6, 1, 1, Acquiring(Popping), None)))
  {
    LateSwapped();
    ScheduleThird();
    ReachNext(Overtaken(StartPoint(6, 1, 1, Waiting, Some(2))), Schedule(2, 5),
              Overtaken(StartPoint(6, 1, 1, Acquiring(Popping), None)));
  }

  lemma SwapThird()
    ensures Step(Overtaken(StartPoint(6, 1, 1, Acquiring(Popping), None)), SwapLock(5, 2), OutOfOrder())
  {
    var s := Overtaken(StartPoint(6, 1, 1, Acquiring(Popping), None));
    assert s.requests[2] == Request(5, 1);
    var s' := Do(s, SwapLock(5, 2));
    assert s'.points == OutOfOrder().points;
    assert s'.requests == map[];
    assert s'.guards[1].holders == [3, 5];
  }

  /** A point that takes one guard is told, by the end it waits for, to lock another and to
      wait for the end of an interval that was told to lock it first: it takes the guard
      at once, although that end happens before it. */
  lemma GuardTakenOutOfOrder() returns (s: State, s': State)
    ensures Reachable(s) && Enabled(s, SwapLock(3, 3)) && s.requests[3].guard == 1
    ensures 5 in s.points && s.points[5].bound == Some(6) && HappensBefore(s, 6, 3) && AskedFor(s, 5, 1)
    ensures Reachable(s') && 5 in s'.points && s'.points[5].bound == Some(6) && HappensBefore(s', 6, 3)
    ensures 1 in s'.guards && s'.guards[1].holders == [3, 5]
  {
    s, s' := Late(Popping, 1, 1), OutOfOrder();
    TakenLetGo();
    SwapLate();
    ThirdScheduled();
    SwapThird();
    ReachNext(Overtaken(StartPoint(6, 1, 1, Acquiring(Popping), None)), SwapLock(5, 2), s');
    assert s.requests[2] == Request(5, 1);
    assert s.edges[Out(1)] == Edge(6, 3, false) && s'.edges[Out(1)] == Edge(6, 3, false);
    EdgePath(s, Out(1));
    EdgePath(s', Out(1));
  }
}
