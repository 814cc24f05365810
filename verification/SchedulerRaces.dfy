/** Two races at the end of the root, each shown by a run: one interval has just ended on a
    worker thread, and its end has still to arrive at the end of the root. */
module SchedulerRaces {
  import opened SchedulerState
  import opened SchedulerSteps
  import opened SchedulerInvariant
  import opened SchedulerLiveness
  import opened SchedulerRuns
  import opened SchedulerRuntime
  import opened SchedulerExample
  import opened SchedulerSplitArrival

  /** The end of the root, and one interval from 1 to 2. */
  function Single(p0: Point, p1: Point, p2: Point, inflight: set<EdgeId>, clock: nat): State {
    State(map[0 := p0, 1 := p1, 2 := p2], OneLink(), map[], map[], inflight, {}, clock)
  }

  function RootPoint(wc: nat, rc: nat, life: Life, user: nat, run: Run): Point {
    Point(None, 0, Latch, wc, rc, life, user, None, run, None)
  }

  function Begun(stage: Stage, wc: nat, run: Run, inflight: set<EdgeId>): State {
    Single(RootEnd(2), StartPoint(2, WC_STARTED, 0, Occurred(0, true, stage), None), EndPoint(1, wc, 1, run), inflight, 1)
  }

  function Fresh(): State {
    Single(RootEnd(2), Listed(2), EndPoint(1, 2, 1, NotRun), {}, 0)
  }

  function Gone(): Point {
    StartPoint(2, WC_STARTED, U64_MAX, Freed(0, true), None)
  }

  function Returned(): State {
    Single(RootEnd(2), Gone(), EndPoint(1, 1, 1, Flushing), {}, 1)
  }

  function Ended(): Point {
    Point(Some(0), 1, Empty, WC_STARTED, 0, Occurred(1, true, Notifying), 0, None, Closed, Some(1))
  }

  /** The interval has ended, and its end is to arrive at the root. */
  function Ending(root: Point): State {
    Single(root, Gone(), Ended(), {BoundOf(2)}, 2)
  }

  lemma FirstState()
    ensures Reachable(Initial())
  {
    var s := Initial();
    assert IsRun([s], []);
  }

  lemma IntervalCreates()
    ensures Step(Initial(), NewInterval(0, 0, 1, 2, Out(0)), Fresh())
  {
    var s, s' := Initial(), Fresh();
    assert Do(s, NewInterval(0, 0, 1, 2, Out(0))).points == s'.points;
  }

  lemma IntervalCreatesReached()
    ensures Reachable(Fresh())
  {
    FirstState();
    IntervalCreates();
    ReachNext(Initial(), NewInterval(0, 0, 1, 2, Out(0)), Fresh());
  }

  lemma IntervalSchedules()
    ensures Step(Fresh(), Schedule(0, 1), Begun(Notifying, 2, NotRun, {BoundOf(1)}))
  {
    var s, s' := Fresh(), Begun(Notifying, 2, NotRun, {BoundOf(1)});
    assert OutEdges(s, 1) == {BoundOf(1)} && !HasRequest(s, 1);
    assert Do(s, Schedule(0, 1)).points == s'.points;
  }

  lemma IntervalSchedulesReached()
    ensures Reachable(Begun(Notifying, 2, NotRun, {BoundOf(1)}))
  {
    IntervalCreatesReached();
    IntervalSchedules();
    ReachNext(Fresh(), Schedule(0, 1), Begun(Notifying, 2, NotRun, {BoundOf(1)}));
  }

  lemma IntervalDelivers()
    ensures Step(Begun(Notifying, 2, NotRun, {BoundOf(1)}), Deliver(BoundOf(1)), Begun(Notifying, 1, NotRun, {}))
  {
    var s, s' := Begun(Notifying, 2, NotRun, {BoundOf(1)}), Begun(Notifying, 1, NotRun, {});
    assert Do(s, Deliver(BoundOf(1))).points == s'.points;
  }

  lemma IntervalDeliversReached()
    ensures Reachable(Begun(Notifying, 1, NotRun, {}))
  {
    IntervalSchedulesReached();
    IntervalDelivers();
    ReachNext(Begun(Notifying, 2, NotRun, {BoundOf(1)}), Deliver(BoundOf(1)), Begun(Notifying, 1, NotRun, {}));
  }

  lemma IntervalDispatches()
    ensures Step(Begun(Notifying, 1, NotRun, {}), Dispatch(1), Begun(Queued, 1, NotRun, {}))
  {
    var s, s' := Begun(Notifying, 1, NotRun, {}), Begun(Queued, 1, NotRun, {});
    assert Do(s, Dispatch(1)).points == s'.points;
  }

  lemma IntervalDispatchesReached()
    ensures Reachable(Begun(Queued, 1, NotRun, {}))
  {
    IntervalDeliversReached();
    IntervalDispatches();
    ReachNext(Begun(Notifying, 1, NotRun, {}), Dispatch(1), Begun(Queued, 1, NotRun, {}));
  }

  lemma IntervalStarts()
    ensures Step(Begun(Queued, 1, NotRun, {}), StartTask(1), Begun(Running, 1, Body(None, None), {}))
  {
    var s, s' := Begun(Queued, 1, NotRun, {}), Begun(Running, 1, Body(None, None), {});
    assert Do(s, StartTask(1)).points == s'.points;
  }

  lemma IntervalStartsReached()
    ensures Reachable(Begun(Running, 1, Body(None, None), {}))
  {
    IntervalDispatchesReached();
    IntervalStarts();
    ReachNext(Begun(Queued, 1, NotRun, {}), StartTask(1), Begun(Running, 1, Body(None, None), {}));
  }

  lemma IntervalReturns()
    ensures Step(Begun(Running, 1, Body(None, None), {}), FinishBody(2), Returned())
  {
    var s, s' := Begun(Running, 1, Body(None, None), {}), Returned();
    assert Do(s, FinishBody(2)).points == s'.points;
  }

  lemma IntervalReturnsReached()
    ensures Reachable(Returned())
  {
    IntervalStartsReached();
    IntervalReturns();
    ReachNext(Begun(Running, 1, Body(None, None), {}), FinishBody(2), Returned());
  }

  lemma IntervalEnds()
    ensures Step(Returned(), EndTask(2), Ending(RootEnd(2)))
  {
    var s, s' := Returned(), Ending(RootEnd(2));
    assert OutEdges(s, 2) == {BoundOf(2)};
    assert Do(s, EndTask(2)).points == s'.points;
  }

  lemma IntervalEndsReached()
    ensures Reachable(Ending(RootEnd(2)))
  {
    IntervalReturnsReached();
    IntervalEnds();
    ReachNext(Returned(), EndTask(2), Ending(RootEnd(2)));
  }

  // ----- An early signal -----------------------------------------------------------------

  lemma RootReturns()
    ensures Step(Ending(RootPoint(2, 1, Waiting, 0, Body(None, None))), FinishBody(0), Ending(RootPoint(2, 1, Waiting, 0, Flushing)))
  {
    var s, s' := Ending(RootPoint(2, 1, Waiting, 0, Body(None, None))), Ending(RootPoint(2, 1, Waiting, 0, Flushing));
    assert Do(s, FinishBody(0)).points == s'.points;
  }

  lemma RootReturnsReached()
    ensures Reachable(Ending(RootPoint(2, 1, Waiting, 0, Flushing)))
  {
    IntervalEndsReached();
    RootReturns();
    ReachNext(Ending(RootPoint(2, 1, Waiting, 0, Body(None, None))), FinishBody(0), Ending(RootPoint(2, 1, Waiting, 0, Flushing)));
  }

  lemma RootArrives()
    ensures Step(Ending(RootPoint(2, 1, Waiting, 0, Flushing)), EndTask(0), Ending(RootPoint(1, 1, Waiting, 0, Closed)))
  {
    var s, s' := Ending(RootPoint(2, 1, Waiting, 0, Flushing)), Ending(RootPoint(1, 1, Waiting, 0, Closed));
    assert Do(s, EndTask(0)).points == s'.points;
  }

  lemma RootArrivesReached()
    ensures Reachable(Ending(RootPoint(1, 1, Waiting, 0, Closed)))
  {
    RootReturnsReached();
    RootArrives();
    ReachNext(Ending(RootPoint(2, 1, Waiting, 0, Flushing)), EndTask(0), Ending(RootPoint(1, 1, Waiting, 0, Closed)));
  }

  /** The last arrival, made by the worker. */
  function Signalled(): State {
    Single(RootPoint(WC_STARTED, 0, Occurred(2, true, Notifying), 0, Closed), Gone(), Ended(), {}, 3)
  }

  lemma WorkerArrives()
    ensures Step(Ending(RootPoint(1, 1, Waiting, 0, Closed)), Deliver(BoundOf(2)), Signalled())
  {
    var s, s' := Ending(RootPoint(1, 1, Waiting, 0, Closed)), Signalled();
    assert OutEdges(s, 0) == {};
    assert Do(s, Deliver(BoundOf(2))).points == s'.points;
  }

  /** The root's own thread has made its arrival, which was not the last, and goes on to
      wait for the latch. */
  ghost predicate RootWaits(s: State) {
    ROOT in s.points && s.points[ROOT].run == Closed && !Occ(s, ROOT)
  }

  /** The latch is signalled, everything has occurred and the client holds nothing, but the
      points that are named are still live. */
  ghost predicate SignalledWithLive(s: State, live: set<PointId>) {
    LatchSignalled(s, ROOT) && AllOccurred(s) && ClientHoldsNothing(s) && LivePoints(s) == live
  }

  lemma TwoAreLive()
    ensures SignalledWithLive(Signalled(), {ROOT, 2})
  {
    assert OutEdges(Signalled(), 0) == {};
  }

  lemma WorkerGoesOn()
    ensures !Stuck(Signalled())
  {
    assert OutEdges(Signalled(), 0) == {};
    assert Enabled(Signalled(), Dispatch(0));
  }

  /** The last arrival at the end of the root is a worker's: it makes that point occur and
      signals the latch before it releases its references. So the thread that was waiting
      may count the live objects while two points are still among them. */
  lemma SignalBeforeRelease() returns (s: State, s': State)
    ensures Reachable(s) && RootWaits(s) && Step(s, Deliver(BoundOf(2)), s')
    ensures Reachable(s') && SignalledWithLive(s', {ROOT, 2}) && !Stuck(s')
  {
    s, s' := Ending(RootPoint(1, 1, Waiting, 0, Closed)), Signalled();
    RootArrivesReached();
    WorkerArrives();
    ReachNext(s, Deliver(BoundOf(2)), s');
    TwoAreLive();
    WorkerGoesOn();
  }

  // ----- A stale count ---------------------------------------------------------------------------

  lemma RootRetains()
    ensures Step(Ending(RootPoint(2, 1, Waiting, 0, Body(None, None))), Retain(0), Ending(RootPoint(2, 2, Waiting, 1, Body(None, None))))
  {
    var s, s' := Ending(RootPoint(2, 1, Waiting, 0, Body(None, None))), Ending(RootPoint(2, 2, Waiting, 1, Body(None, None)));
    assert Do(s, Retain(0)).points == s'.points;
  }

  lemma RootRetainsReached()
    ensures Reachable(Ending(RootPoint(2, 2, Waiting, 1, Body(None, None))))
  {
    IntervalEndsReached();
    RootRetains();
    ReachNext(Ending(RootPoint(2, 1, Waiting, 0, Body(None, None))), Retain(0), Ending(RootPoint(2, 2, Waiting, 1, Body(None, None))));
  }

  lemma RetainedReturns()
    ensures Step(Ending(RootPoint(2, 2, Waiting, 1, Body(None, None))), FinishBody(0), Ending(RootPoint(2, 2, Waiting, 1, Flushing)))
  {
    var s, s' := Ending(RootPoint(2, 2, Waiting, 1, Body(None, None))), Ending(RootPoint(2, 2, Waiting, 1, Flushing));
    assert Do(s, FinishBody(0)).points == s'.points;
  }

  lemma RetainedReturnsReached()
    ensures Reachable(Ending(RootPoint(2, 2, Waiting, 1, Flushing)))
  {
    RootRetainsReached();
    RetainedReturns();
    ReachNext(Ending(RootPoint(2, 2, Waiting, 1, Body(None, None))), FinishBody(0), Ending(RootPoint(2, 2, Waiting, 1, Flushing)));
  }

  lemma RetainedArrives()
    ensures Step(Ending(RootPoint(2, 2, Waiting, 1, Flushing)), EndTask(0), Ending(RootPoint(1, 2, Waiting, 1, Closed)))
  {
    var s, s' := Ending(RootPoint(2, 2, Waiting, 1, Flushing)), Ending(RootPoint(1, 2, Waiting, 1, Closed));
    assert Do(s, EndTask(0)).points == s'.points;
  }

  lemma RetainedArrivesReached()
    ensures Reachable(Ending(RootPoint(1, 2, Waiting, 1, Closed)))
  {
    RetainedReturnsReached();
    RetainedArrives();
    ReachNext(Ending(RootPoint(2, 2, Waiting, 1, Flushing)), EndTask(0), Ending(RootPoint(1, 2, Waiting, 1, Closed)));
  }

  lemma ThreeSteps(s: State, a: Action, s1: State, b: Action, s2: State, c: Action, s3: State)
    requires CountsInRange(s) && CountsInRange(s1) && CountsInRange(s2)
    requires Step(s, a, s1) && Step(s1, b, s2) && Step(s2, c, s3)
    ensures RunsTo(s, [a, b, c], s3)
  {
    assert [a, b, c][1..] == [b, c] && [b, c][1..] == [c] && [c][1..] == [];
    assert RunsTo(s3, [], s3);
    assert RunsTo(s2, [c], s3);
    assert RunsTo(s1, [b, c], s3);
  }

  lemma InBetween()
    ensures RunsTo(Ending(RootEnd(2)), [Retain(0), FinishBody(0), EndTask(0)], Ending(RootPoint(1, 2, Waiting, 1, Closed)))
  {
    RootRetains();
    RetainedReturns();
    RetainedArrives();
    ThreeSteps(Ending(RootEnd(2)), Retain(0), Ending(RootPoint(2, 2, Waiting, 1, Body(None, None))),
               FinishBody(0), Ending(RootPoint(2, 2, Waiting, 1, Flushing)),
               EndTask(0), Ending(RootPoint(1, 2, Waiting, 1, Closed)));
  }

  /** The end of the interval is still to arrive at the end of the root. */
  ghost predicate ToArrive(s: State) {
    BoundOf(2) in s.inflight && ConnectedIn(s, BoundOf(2)) && s.edges[BoundOf(2)].dst == ROOT
  }

  /** The first half of this arrival brings no reference and reads the count c. */
  ghost predicate FirstHalfReads(s: State, c: nat) {
    ToArrive(s) && HalfDelivered(s, BoundOf(2)) == s.(inflight := s.inflight - {BoundOf(2)}) && s.points[ROOT].rc == c
  }

  /** Its second half, with the count c, breaks the invariant, and the client holds a
      reference on the end of the root. */
  ghost predicate SecondHalfBreaks(s: State, c: nat) {
    ToArrive(s) && s.points[ROOT].user == 1 && !Invariant(AdjustWait(HalfDelivered(s, BoundOf(2)), ROOT, c))
  }

  lemma ReadsOne(s: State)
    requires s == Ending(RootEnd(2))
    ensures FirstHalfReads(s, 1)
  {
    assert s.edges[BoundOf(2)] == Edge(2, 0, false);
    SamePoint(s.(inflight := s.inflight - {BoundOf(2)}), 0);
  }

  lemma ActsOnOne(s: State)
    requires s == Ending(RootPoint(1, 2, Waiting, 1, Closed)) && Invariant(s)
    ensures SecondHalfBreaks(s, 1)
  {
    assert s.edges[BoundOf(2)] == Edge(2, 0, false);
    LateHalfKeepsInvariant(s, Deliver(BoundOf(2)), ROOT, 1);
    assert !HasRequest(HalfDelivered(s, BoundOf(2)), 0);
  }

  /** In s a worker does the first half of the arrival from 2 at the end of the root: the
      reference count it reads is 1. Then the root's block retains its own end and
      returns, which is an arrival that brings no reference. In s' the worker goes on, and
      declares dead a point that the client holds. */
  lemma StaleCountIsRead() returns (s: State, s': State)
    ensures Reachable(s) && FirstHalfReads(s, 1)
    ensures RunsTo(s, [Retain(ROOT), FinishBody(ROOT), EndTask(ROOT)], s')
    ensures Reachable(s') && SecondHalfBreaks(s', 1)
  {
    s, s' := Ending(RootEnd(2)), Ending(RootPoint(1, 2, Waiting, 1, Closed));
    IntervalEndsReached();
    ReadsOne(s);
    InBetween();
    RetainedArrivesReached();
    ReachableInvariant(s');
    ActsOnOne(s');
  }
}
