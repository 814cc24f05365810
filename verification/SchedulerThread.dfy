/** One thread inside the scheduler. Its methods update the shared tables in place, as
    the program does, and each is proved to be a chain of the scheduler's transitions
    that leaves nothing half done. */
module SchedulerThread {
  import opened SchedulerState
  import opened SchedulerSteps
  import opened SchedulerRuntime
  import opened SchedulerSettling
  import opened SchedulerSettlingLocks

  lemma SameUnoccurredCounts(s: State, s': State)
    requires s'.points.Keys == s.points.Keys
    requires forall p :: p in s.points ==> HasOccurred(s'.points[p].life) == HasOccurred(s.points[p].life)
    ensures Unoccurred(s') == Unoccurred(s)
  {
  }

  /** What was added to the edges since cannot be from q if nothing from q is in flight. */
  lemma OnwardEdgesFrom(s: State, s': State, q: PointId)
    requires Sound(s) && Onward(s, s') && s'.inflight == s.inflight - OutEdges(s, q)
    ensures forall e :: e in s'.inflight && e in s'.edges ==> s'.edges[e].src != q
  {
    NotifiedAreEdges(s);
  }

  lemma AllNotified(s: State, q: PointId, before: set<EdgeId>, after: set<EdgeId>)
    requires Sound(s) && before <= s.inflight
    requires forall e :: e in s.inflight ==> (e !in before <==> e.Out? && e in OutEdges(s, q))
    requires after == before - {BoundOf(q)}
    ensures after == s.inflight - OutEdges(s, q)
  {
    BoundEdgeSource(s);
    NotifiedAreEdges(s);
  }

  class Thread {
    var points: map<PointId, Point>
    var edges: map<EdgeId, Edge>
    var guards: map<GuardId, Guard>
    var requests: map<RequestId, Request>
    var inflight: set<EdgeId>
    var releasing: set<EdgeId>
    var clock: nat

    ghost function S(): State
      reads this
    {
      State(points, edges, guards, requests, inflight, releasing, clock)
    }

    // ----- Releasing points ----------------------------------------------------------------

    /** point_release(). The caller has given up the unit of the count it owned. */
    method PointRelease(p: PointId)
      requires CanRelease(S(), p)
      modifies this
      ensures Releasing(Release(old(S()), p), S()) && releasing == old(releasing)
      decreases |Unfreed(S())|, 2
    {
      ghost var s0 := S();
      var rc := AtomicSub(points[p].rc);
      points := points[p := points[p].(rc := rc)];
      SameUnfreed(s0, S());
      if rc == RC_DEAD_POST {
        PointFree(p, false);
      } else if rc == 0 {
        PointFree(p, true);
      } else {
        ReleasingStarts(S());
      }
    }

    /** point_free(). */
    method PointFree(p: PointId, decSucc: bool)
      requires p in points && !points[p].life.Freed? && Sound(Free(S(), p, decSucc))
      requires forall e :: e in releasing && e in edges ==> edges[e].src != p
      modifies this
      ensures Releasing(Free(old(S()), p, decSucc), S()) && releasing == old(releasing)
      decreases |Unfreed(S())|, 1
    {
      ghost var s0 := S();
      FreedShrinks(s0, p, decSucc);
      points := points[p := points[p].(life := Freed(TimeOf(points[p].life), !decSucc))];
      if decSucc {
        releasing := releasing + set e | e in edges && edges[e].src == p;
      }
      assert S() == Free(s0, p, decSucc);
      ReleasingStarts(S());
      if decSucc {
        FreeSuccessors(p);
        assert releasing == s0.releasing;
      }
    }

    /** The references of p on its successors: out_edges first, then the bound. */
    method FreeSuccessors(p: PointId)
      requires Sound(S())
      modifies this
      ensures Releasing(old(S()), S())
      ensures releasing == old(releasing) - (set e | e in old(releasing) && e in edges && edges[e].src == p)
      decreases |Unfreed(S())|, 5
    {
      ghost var s0 := S();
      BoundEdgeSource(s0);
      FreeEdges(p);
      if BoundOf(p) in releasing && BoundOf(p) in edges {
        ghost var s1 := S();
        FewerUnfreed(s0, s1);
        ReleaseOneEdge(BoundOf(p));
        ReleasingOn(s0, s1, S());
      }
    }

    /** free_edges() with release set. */
    method FreeEdges(p: PointId)
      requires Sound(S())
      modifies this
      ensures Releasing(old(S()), S())
      ensures releasing == old(releasing) - (set e | e in old(releasing) && e.Out? && e in edges && edges[e].src == p)
      decreases |Unfreed(S())|, 4
    {
      ghost var s0 := S();
      ReleasingStarts(s0);
      while exists e :: e in releasing && e.Out? && e in edges && edges[e].src == p
        invariant Releasing(s0, S()) && releasing <= s0.releasing && edges == s0.edges
        invariant forall e :: e in s0.releasing && e !in releasing ==> e.Out? && e in s0.edges && s0.edges[e].src == p
        decreases |releasing|
      {
        var e :| e in releasing && e.Out? && e in edges && edges[e].src == p;
        ghost var s1 := S();
        FewerUnfreed(s0, s1);
        ReleaseOneEdge(e);
        ReleasingOn(s0, s1, S());
      }
    }

    method ReleaseOneEdge(e: EdgeId)
      requires Sound(S()) && e in releasing
      modifies this
      ensures Releasing(old(S()), S()) && releasing == old(releasing) - {e}
      decreases |Unfreed(S())|, 3
    {
      ghost var s0 := S();
      ReleaseEdgeGoesOn(s0, e);
      releasing := releasing - {e};
      PointRelease(edges[e].dst);
      ReleasedEdge(s0, e, S());
    }

    // ----- Occurring ---------------------------------------------------------------------------

    /** arrive(). The caller has given up the unit of the wait count it owned. */
    method Arrive(q: PointId, addRefs: nat)
      requires CanArrive(S(), q, addRefs)
      modifies this
      ensures Arriving(old(S()), SchedulerSteps.Arrive(old(S()), q, addRefs), S())
      decreases |Unoccurred(S())|, |S().requests|, 3
    {
      ghost var s0 := S();
      var refCount := points[q].rc + addRefs;
      points := points[q := points[q].(rc := refCount)];
      var waitCount := AtomicSub(points[q].wc);
      points := points[q := points[q].(wc := waitCount)];
      ghost var s1 := S();
      assert Adjusted(s0, q, addRefs, s1);
      if waitCount == 0 {
        if exists r :: r in requests && requests[r].point == q {
          points := points[q := points[q].(wc := 1, life := Acquiring(Popping))];
          ghost var s2 := S();
          ArrivalToLocks(s0, q, addRefs, s1, s2);
          ArriveAfterLocks(q);
          ArrivedAfterLocks(s0, q, s2, S());
        } else {
          ArrivalToOccur(s0, q, addRefs, s1);
          Occur(q, refCount);
          ArrivingFrom(s0, s1, q, SchedulerSteps.Occur(s1, q, refCount), S());
        }
      } else {
        ArrivalEnds(s0, q, addRefs, s1);
      }
    }

    /** The pending guards of q are taken, then q is made eligible to occur. */
    method ArriveAfterLocks(q: PointId)
      requires Sound(S()) && q in points && points[q].life == Acquiring(Popping) && HasRequest(S(), q)
      modifies this
      ensures Sound(S()) && Leads(old(S()), S()) && inflight == old(inflight) && releasing == old(releasing)
      ensures Onward(old(S()), S()) && LivesSettleBut(old(S()), S(), q)
      ensures q in points && (points[q].life.Waiting? || IsDispatched(points[q].life))
      decreases |Unoccurred(S())|, |S().requests|, 2
    {
      ghost var s0 := S();
      LockPendingGuards(q);
      ghost var s1 := S();
      SameUnoccurred(s0, s1, q);
      FewerRequests(s0, s1, q);
      LocksTakenComes(s1, q);
      points := points[q := points[q].(life := Waiting)];
      SameUnoccurredCounts(s1, S());
      Arrive(q, 0);
      LocksTakenDone(s0, s1, q, S());
    }

    /** occur(). */
    method Occur(q: PointId, refCount: nat)
      requires CanOccur(S(), q, refCount)
      modifies this
      ensures Arriving(old(S()), SchedulerSteps.Occur(old(S()), q, refCount), S())
      decreases |Unoccurred(S())|, |S().requests|, 2
    {
      ghost var s0 := S();
      NewlyOccurredShrinks(s0, q, refCount);
      MarkStarted(q, refCount);
      ghost var s1 := S();
      OccurIs(s0, q, refCount, s1);
      NotifySuccessors(q);
      ghost var s2 := S();
      StaysNotifying(s1, s2, q);
      OnwardEdgesFrom(s1, s2, q);
      TaskDispatch(q);
      OccurDone(s0, q, refCount, s2, S());
    }

    /** Under the lock of q: it is marked started, and whom to notify is copied; a point
        that only the scheduler holds is marked dead. */
    method MarkStarted(q: PointId, refCount: nat)
      requires q in points
      modifies this
      ensures S() == SchedulerSteps.Occur(old(S()), q, refCount)
    {
      points := points[q := points[q].(wc := WC_STARTED, life := Occurred(clock, refCount == 1, Notifying))];
      inflight := inflight + set e | e in edges && edges[e].src == q;
      clock := clock + 1;
      if refCount == 1 {
        points := points[q := points[q].(rc := RC_DEAD_PRE)];
      }
    }

    /** arrive_edge() on the snapshot, then arrive() on the bound. */
    method NotifySuccessors(q: PointId)
      requires Sound(S())
      modifies this
      ensures Settled(old(S()), S()) && inflight == old(inflight) - OutEdges(old(S()), q)
      decreases |Unoccurred(S())|, |S().requests|, 6
    {
      ghost var s0 := S();
      BoundEdgeSource(s0);
      NotifiedAreEdges(s0);
      ArriveEdges(q);
      ghost var s1 := S();
      if BoundOf(q) in inflight {
        FewerUnoccurred(s0, s1);
        OnwardRoom(s0, s1);
        DeliverOne(BoundOf(q));
        SettledOn(s0, s1, S());
      }
      AllNotified(s0, q, s1.inflight, inflight);
    }

    /** arrive_edge(). */
    method ArriveEdges(q: PointId)
      requires Sound(S())
      modifies this
      ensures Settled(old(S()), S()) && inflight <= old(inflight)
      ensures forall e :: e in old(inflight) ==> (e !in inflight <==> e.Out? && e in OutEdges(old(S()), q))
      decreases |Unoccurred(S())|, |S().requests|, 5
    {
      ghost var s0 := S();
      SettledStart(s0);
      NotifiedAreEdges(s0);
      while exists e :: e in inflight && e.Out? && e in edges && edges[e].src == q
        invariant Settled(s0, S()) && inflight <= s0.inflight
        invariant forall e :: e in s0.inflight && e !in inflight ==> e.Out? && e in OutEdges(s0, q)
        decreases |inflight|
      {
        var e :| e in inflight && e.Out? && e in edges && edges[e].src == q;
        ghost var s1 := S();
        assert e in OutEdges(s0, q);
        FewerUnoccurred(s0, s1);
        OnwardRoom(s0, s1);
        DeliverOne(e);
        SettledOn(s0, s1, S());
      }
    }

    method DeliverOne(e: EdgeId)
      requires Sound(S()) && e in inflight
      modifies this
      ensures Settled(old(S()), S()) && inflight == old(inflight) - {e}
      decreases |Unoccurred(S())|, |S().requests|, 4
    {
      ghost var s0 := S();
      DeliverComes(s0, e);
      var addRefs := if IsDead(points[edges[e].src].life) then 0 else 1;
      inflight := inflight - {e};
      Arrive(edges[e].dst, addRefs);
      Delivered(s0, e, S());
    }

    /** task_dispatch(): a block is enqueued; otherwise the point is released. */
    method TaskDispatch(q: PointId)
      requires CanDispatch(S(), q)
      modifies this
      ensures SettledBut(old(S()), q, S()) && inflight == old(inflight)
    {
      ghost var s0 := S();
      if points[q].task == Block {
        points := points[q := points[q].(life := points[q].life.(stage := Queued))];
        BlockDispatchDone(s0, q, S());
      } else {
        DispatchGoesOn(s0, q);
        points := points[q := points[q].(life := points[q].life.(stage := Done))];
        PointRelease(q);
        DispatchDone(s0, q, S());
      }
    }

    // ----- Taking guards -------------------------------------------------------------------------

    /** lock_pending_guards(). */
    method LockPendingGuards(p: PointId)
      requires Sound(S()) && p in points && points[p].life == Acquiring(Popping)
      modifies this
      ensures TakesGuards(old(S()), S(), p) && points[p].life == Acquiring(Popping) && !HasRequest(S(), p)
      ensures forall r :: r in requests ==> r in old(requests) && requests[r] == old(requests)[r]
    {
      ghost var s0 := S();
      TakesGuardsStart(s0, p);
      while exists r :: r in requests && requests[r].point == p
        invariant TakesGuards(s0, S(), p) && points[p].life == Acquiring(Popping)
        invariant forall r :: r in requests ==> r in s0.requests && requests[r] == s0.requests[r]
        decreases |requests.Keys|
      {
        var r :| r in requests && requests[r].point == p;
        ghost var s1 := S();
        assert r in requests.Keys;
        TakeGuard(p, r);
        TakesGuardsOn(s0, s1, S(), p);
      }
    }

    /** One round: the guard is popped and exchanged, the edge from the former holder is
        added, and the references on holder and guard are given up. */
    method TakeGuard(p: PointId, r: RequestId)
      requires Sound(S()) && p in points && points[p].life == Acquiring(Popping) && r in requests && requests[r].point == p
      modifies this
      ensures TakesGuards(old(S()), S(), p) && points[p].life == Acquiring(Popping) && requests == old(requests) - {r}
    {
      ghost var s0 := S();
      SwapAndLink(p, r);
      ghost var s1 := S();
      LetFormerGo(p);
      TakesGuardsOn(s0, s1, S(), p);
      ghost var s2 := S();
      LetGuardGo(p);
      TakesGuardsOn(s0, s2, S(), p);
    }

    /** The reference the former holder had from last_lock is given up. */
    method LetFormerGo(p: PointId)
      requires Sound(S()) && p in points && points[p].life.Acquiring?
      requires points[p].life.taking.Linked? || points[p].life.taking.Letting?
      modifies this
      ensures TakesGuards(old(S()), S(), p) && requests == old(requests) && points[p].life.taking.Letting?
    {
      ghost var s1 := S();
      if points[p].life.taking.Linked? {
        FormerComes(s1, p);
        var former := points[p].life.taking.former;
        points := points[p := points[p].(life := Acquiring(Letting(points[p].life.taking.guard)))];
        PointRelease(former);
        FormerDone(s1, p, S());
      } else {
        TakesGuardsStart(s1, p);
      }
    }

    /** The reference the pending list had on the guard is given up. */
    method LetGuardGo(p: PointId)
      requires Sound(S()) && p in points && points[p].life.Acquiring? && points[p].life.taking.Letting?
      modifies this
      ensures TakesGuards(old(S()), S(), p) && requests == old(requests) && points[p].life == Acquiring(Popping)
    {
      ghost var s2 := S();
      var g := points[p].life.taking.guard;
      TakenIs(s2, p, g);
      TakenComes(s2, p, g);
      points := points[p := points[p].(life := Acquiring(Popping))];
      GuardRelease(g);
      TakenDone(s2, p, g, S());
    }

    method SwapAndLink(p: PointId, r: RequestId)
      requires Sound(S()) && p in points && points[p].life == Acquiring(Popping) && r in requests && requests[r].point == p
      modifies this
      ensures TakesGuards(old(S()), S(), p) && requests == old(requests) - {r}
      ensures points[p].life.taking.Linked? || points[p].life.taking.Letting?
    {
      ghost var s0 := S();
      SwapComes(s0, p, r);
      ExchangeLastLock(p, r);
      ghost var s1 := S();
      SwapRoom(s0, p, r, s1);
      SwapDone(s0, p, r, s1);
      if points[p].life.taking.Swapped? {
        var e := FreshEdge();
        LinkComes(s1, p, e);
        LinkFormer(p, e);
        LinkIs(s1, p, e, S());
        LinkDone(s0, s1, p, e, S());
      }
    }

    /** point_retain(end_point) and the exchange of last_lock. */
    method ExchangeLastLock(p: PointId, r: RequestId)
      requires Enabled(S(), SwapLock(p, r))
      modifies this
      ensures Step(old(S()), SwapLock(p, r), S()) && requests == old(requests) - {r}
    {
      var end := points[p].bound;
      var g := requests[r].guard;
      if end.Some? {
        points := points[end.value := points[end.value].(rc := points[end.value].rc + 1)];
      }
      var last := guards[g].last;
      requests := requests - {r};
      guards := guards[g := guards[g].(last := end, holders := guards[g].holders + [p])];
      points := points[p := points[p].(life := Acquiring(if last.Some? then Swapped(g, last.value) else Letting(g)))];
    }

    /** The edge from the former holder. */
    method LinkFormer(p: PointId, e: EdgeId)
      requires Enabled(S(), LinkLock(p, e))
      modifies this
      ensures Step(old(S()), LinkLock(p, e), S())
    {
      var taking := points[p].life.taking;
      points := points[p := points[p].(life := Acquiring(Linked(taking.guard, taking.former)))];
      AddHbUnchecked(taking.former, p, true, e);
    }

    /** A place for a new entry of out_edges. */
    method FreshEdge() returns (e: EdgeId)
      ensures e.Out? && e !in edges
    {
      var n := 0;
      ghost var rest := edges.Keys;
      while Out(n) in edges
        invariant forall m :: m >= n && Out(m) in edges ==> Out(m) in rest
        decreases |rest|
      {
        assert Out(n) in rest;
        rest := rest - {Out(n)};
        n := n + 1;
      }
      e := Out(n);
    }

    /** interval_add_hb_unchecked(): the target waits for a source that has not occurred,
        and is retained by one that has. */
    method AddHbUnchecked(before: PointId, after: PointId, synthetic: bool, e: EdgeId)
      requires before in points && after in points
      modifies this
      ensures S() == AddEdge(old(S()), before, after, synthetic, e)
    {
      if points[before].wc != WC_STARTED {
        points := points[after := points[after].(wc := points[after].wc + 1)];
      } else {
        points := points[after := points[after].(rc := points[after].rc + 1)];
      }
      edges := edges[e := Edge(before, after, synthetic)];
    }

    /** guard_release(). */
    method GuardRelease(g: GuardId)
      requires CanReleaseGuard(S(), g)
      modifies this
      ensures Dropping(DropGuard(old(S()), g), S())
    {
      var rc := AtomicSub(guards[g].rc);
      guards := guards[g := guards[g].(rc := rc, live := rc != 0)];
      ghost var s1 := S();
      assert s1 == DropGuard(old(S()), g);
      LeadsToItself(s1);
      if rc == 0 && guards[g].last.Some? {
        GuardLastIs(s1, g);
        GuardLastComes(s1, g);
        var last := guards[g].last.value;
        guards := guards[g := guards[g].(last := None)];
        PointRelease(last);
        GuardLastDone(s1, g, S());
      }
    }

    // ----- The end of a task -----------------------------------------------------------------------

    /** interval_schedule_unchecked(): every start on the unscheduled list of the task
        that ends at t arrives. */
    method IntervalScheduleUnchecked(t: PointId)
      requires Sound(S()) && t in points && (InBody(S(), t) || points[t].run.Flushing?)
      modifies this
      ensures TaskMoves(old(S()), S(), t) && points[t].run == old(points)[t].run
      ensures forall p :: p in points ==> points[p].owner != Some(t)
    {
      ghost var s0 := S();
      TaskMovesStart(s0, t);
      while exists p :: p in points && points[p].owner == Some(t)
        invariant TaskMoves(s0, S(), t) && t in points && points[t].run == s0.points[t].run
        decreases |Owned(S(), t)|
      {
        var p :| p in points && points[p].owner == Some(t);
        ghost var s1 := S();
        ScheduleOne(t, p);
        TaskMovesOn(s0, s1, S(), t);
        OwnedShrinks(s1, S(), t, p);
      }
    }

    /** One start leaves the unscheduled list. */
    method ScheduleOne(t: PointId, p: PointId)
      requires Sound(S()) && t in points && (InBody(S(), t) || points[t].run.Flushing?) && p in points && points[p].owner == Some(t)
      modifies this
      ensures TaskMoves(old(S()), S(), t) && t in points && points[t].run == old(points)[t].run
      ensures p in points && points[p].owner == None
    {
      ghost var s0 := S();
      ScheduleComes(s0, t, p);
      points := points[p := points[p].(owner := None)];
      Arrive(p, 0);
      ScheduleDone(s0, t, p, S());
    }

    /** interval_execute(), once the block has returned and its start is released: what
        the task created is scheduled, and the end of the interval arrives. */
    method IntervalEnd(t: PointId)
      requires Sound(S()) && t in points && points[t].run.Flushing?
      modifies this
      ensures TaskMoves(old(S()), S(), t) && points[t].run == Closed
      ensures forall p :: p in points ==> points[p].owner != Some(t)
    {
      ghost var s0 := S();
      IntervalScheduleUnchecked(t);
      ghost var s1 := S();
      EndTaskComes(s1, t);
      points := points[t := points[t].(run := Closed)];
      Arrive(t, 0);
      EndTaskDone(s1, t, S());
      TaskMovesOn(s0, s1, S(), t);
    }
  }
}
