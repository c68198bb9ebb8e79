/** While an endpoint is halted or a lane paused, nothing is delivered past it, whatever else runs. */
module SimBarriers {
  import opened Results
  import opened SimTypes
  import opened SimSpec
  import opened SimPlaces
  import opened SimProgress
  import opened SimRun
  import opened SimDelivery

  datatype Barrier = AtEndpoint(endpoint: EndpointId) | OnLane(lane: Lane)

  predicate Up(n: Net, b: Barrier) {
    match b
    case AtEndpoint(p) => p in n.endpoints && n.endpoints[p].state == Halted
    case OnLane(lane) => lane in n.lanes && n.lanes[lane] == Paused
  }

  predicate Covers(b: Barrier, p: EndpointId, lane: Lane) {
    match b
    case AtEndpoint(q) => p == q
    case OnLane(l) => lane == l
  }

  /** The one operation that takes the barrier down. */
  predicate Lifts(op: Operation, b: Barrier) {
    match b
    case AtEndpoint(p) => op == DoResumeEndpoint(p)
    case OnLane(lane) => op == DoResumeLane(lane)
  }

  /** The barrier is still up and every inbox behind it is as it was. */
  ghost predicate Holds(n: Net, m: Net, b: Barrier) {
    && Up(m, b)
    && (forall p, lane :: p in n.endpoints && Covers(b, p, lane) ==>
          p in m.endpoints && m.endpoints[p].Inbox(lane) == n.endpoints[p].Inbox(lane))
  }

  lemma HoldsStill(n: Net, b: Barrier)
    requires Up(n, b)
    ensures Holds(n, n, b)
  {
  }

  lemma HoldsOn(n: Net, m: Net, o: Net, b: Barrier)
    requires Holds(n, m, b) && Holds(m, o, b)
    ensures Holds(n, o, b)
  {
  }

  /** Endpoints and lanes are the same. */
  lemma HoldsUnchanged(n: Net, m: Net, b: Barrier)
    requires Up(n, b) && m.endpoints == n.endpoints && m.lanes == n.lanes
    ensures Holds(n, m, b)
  {
  }

  lemma LandingHolds(n: Net, e: Event, m: Net, b: Barrier)
    requires Up(n, b) && m.lanes == n.lanes
    requires e.destination in n.endpoints && e.id in m.events && e.destination in m.endpoints && Lands(n, e, m)
    ensures Holds(n, m, b)
  {
    hide RecordOf;
    hide Expires;
  }

  lemma SettledHolds(n: Net, e: Event, v: Verdict, b: Barrier)
    requires Up(n, b) && e.destination in n.endpoints
    ensures Holds(n, Settled(n, e, v), b)
  {
    hide Settled;
    hide Lands;
    hide Holds;
    SettledEnds(n, e, v);
    SettledMoves(n, e, v);
    if v.Proceed? {
      LandingHolds(n, e, Settled(n, e, v), b);
    } else {
      HoldsUnchanged(n, Settled(n, e, v), b);
    }
  }

  lemma AttemptHolds(identity: Identity, n: Net, b: Barrier)
    requires Valid(n) && IsDue(n) && Up(n, b)
    ensures PlanSound(n.plan) && Holds(n, DeliverNext(identity, n), b)
  {
    hide Compose;
    hide Settled;
    hide Grown;
    var k := First(n.queue);
    var popped := n.(queue := n.queue - {k});
    assert KeyPlaced(n, k, None) && EventPlaced(n, k.event, None);
    hide Valid;
    var (m, f, v) := Compose(identity, popped, n.events[k.event].Bumped());
    ComposeEffect(identity, popped, n.events[k.event].Bumped());
    GrownContext(popped.(resolved := popped.resolved + {k.event}), m, k.event);
    SettledHolds(m, f, v, b);
  }

  lemma {:induction false} ReadyHolds(identity: Identity, n: Net, b: Barrier)
    requires Valid(n) && Up(n, b)
    ensures Holds(n, DeliverReady(identity, n).0, b)
    decreases |Callers(n)|, |Made(n)|, |Decided(n)|
  {
    hide Valid;
    hide DeliverNext;
    HoldsStill(n, b);
    if IsDue(n) {
      AttemptHolds(identity, n, b);
      DeliverNextFollows(identity, n);
      ReadyHolds(identity, DeliverNext(identity, n), b);
      HoldsOn(n, DeliverNext(identity, n), DeliverReady(identity, n).0, b);
    }
  }

  lemma {:induction false} DrainHolds(identity: Identity, n: Net, limit: Tick, b: Barrier)
    requires Valid(n) && n.now <= limit && Up(n, b)
    ensures Holds(n, Drain(identity, n, limit).0, b)
    decreases |Callers(n)|, |Made(n)|, |Decided(n)|
  {
    hide Valid;
    hide DeliverNext;
    hide DeliverReady;
    HoldsStill(n, b);
    if n.queue != {} && First(n.queue).deliverAt <= limit {
      var moved := n.(now := Later(First(n.queue).deliverAt, n.now));
      ClockKeeps(n, moved.now);
      SameWork(n, moved);
      HoldsUnchanged(n, moved, b);
      ReadyHolds(identity, moved, b);
      var m := DeliverReady(identity, moved).0;
      DrainHolds(identity, m, limit, b);
      HoldsOn(n, moved, m, b);
      HoldsOn(n, m, Drain(identity, n, limit).0, b);
    }
  }

  lemma ReleaseHolds(n: Net, m: Net, b: Barrier)
    requires Up(n, b) && Holds(n, m, b)
    ensures Holds(n, ReleaseHeld(m), b)
  {
  }

  lemma StateHolds(n: Net, id: EndpointId, state: EndpointState, b: Barrier)
    requires Up(n, b) && id in n.endpoints && (state == Active ==> b != AtEndpoint(id))
    ensures Holds(n, WithEndpointState(n, id, state).value, b)
  {
  }

  lemma MoveHolds(n: Net, key: QueueKey, target: Tick, b: Barrier)
    requires Up(n, b)
    ensures Holds(n, MoveTo(n, key, target), b)
  {
  }

  lemma SwapHolds(n: Net, left: EventId, right: EventId, b: Barrier)
    requires Up(n, b) && SwapTicks(n, left, right).Ok?
    ensures Holds(n, SwapTicks(n, left, right).value, b)
  {
    hide MoveTo;
    hide PendingKey;
    hide Holds;
    var l, r := PendingKey(n, left).value, PendingKey(n, right).value;
    var half := MoveTo(n, l, r.deliverAt);
    MoveHolds(n, l, r.deliverAt, b);
    HoldsUp(n, half, b);
    MoveHolds(half, r, l.deliverAt, b);
    HoldsOn(n, half, MoveTo(half, r, l.deliverAt), b);
  }

  lemma MoveBeforeHolds(n: Net, event: EventId, other: EventId, b: Barrier)
    requires Up(n, b) && MoveBefore(n, event, other).Ok?
    ensures Holds(n, MoveBefore(n, event, other).value, b)
  {
    hide MoveTo;
    hide PendingKey;
    var key, anchor := PendingKey(n, event).value, PendingKey(n, other).value;
    MoveHolds(n, key, Later(if anchor.deliverAt == 0 then 0 else anchor.deliverAt - 1, n.now), b);
  }

  lemma MoveAfterHolds(n: Net, event: EventId, other: EventId, b: Barrier)
    requires Up(n, b) && MoveAfter(n, event, other).Ok?
    ensures Holds(n, MoveAfter(n, event, other).value, b)
  {
    hide MoveTo;
    hide PendingKey;
    var key, anchor := PendingKey(n, event).value, PendingKey(n, other).value;
    MoveHolds(n, key, AddTicks(anchor.deliverAt, 1).value, b);
  }

  lemma ScheduleHolds(identity: Identity, n: Net, r: ControlRequest, b: Barrier)
    requires Up(n, b) && ScheduleControl(identity, n, r).Ok?
    ensures Holds(n, ScheduleControl(identity, n, r).value, b)
  {
    HoldsUnchanged(n, ScheduleControl(identity, n, r).value, b);
  }

  lemma AssetHolds(n: Net, r: AssetRequest, b: Barrier)
    requires Up(n, b) && ScheduleAsset(n, r).Ok?
    ensures Holds(n, ScheduleAsset(n, r).value, b)
  {
    HoldsUnchanged(n, ScheduleAsset(n, r).value, b);
  }

  lemma PlanHolds(n: Net, f: Fault, b: Barrier)
    requires Up(n, b) && AddFault(n, f).Ok?
    ensures Holds(n, AddFault(n, f).value, b)
  {
    HoldsUnchanged(n, AddFault(n, f).value, b);
  }

  lemma StepHolds(identity: Identity, n: Net, op: Operation, b: Barrier)
    requires Valid(n) && Up(n, b) && !Lifts(op, b) && Step(identity, n, op).Ok?
    ensures Holds(n, Step(identity, n, op).value, b)
  {
    hide Valid;
    hide DeliverNext;
    hide DeliverReady;
    hide Drain;
    hide MoveTo;
    hide ReleaseHeld;
    hide Holds;
    hide SwapTicks;
    hide MoveBefore;
    hide MoveAfter;
    hide ScheduleControl;
    hide ScheduleAsset;
    hide AddFault;
    HoldsStill(n, b);
    var m := Step(identity, n, op).value;
    match op
    case DoDeliverNext =>
      if IsDue(n) {
        AttemptHolds(identity, n, b);
      }
    case DoDeliverReady => ReadyHolds(identity, n, b);
    case DoRunUntilIdle => DrainHolds(identity, n, LAST_TICK, b);
    case DoRunUntil(tick) =>
      DrainHolds(identity, n, tick, b);
      var drained := Drain(identity, n, tick).0;
      HoldsUp(n, drained, b);
      HoldsUnchanged(drained, m, b);
      HoldsOn(n, drained, m, b);
    case DoHaltEndpoint(id) => StateHolds(n, id, Halted, b);
    case DoResumeEndpoint(id) =>
      StateHolds(n, id, Active, b);
      ReleaseHolds(n, WithEndpointState(n, id, Active).value, b);
    case DoPauseLane(lane) => LaneHolds(n, lane, Paused, b);
    case DoResumeLane(lane) =>
      LaneHolds(n, lane, Running, b);
      ReleaseHolds(n, n.(lanes := n.lanes[lane := Running]), b);
    case DoSwapTicks(left, right) => SwapHolds(n, left, right, b);
    case DoMoveBefore(event, other) => MoveBeforeHolds(n, event, other, b);
    case DoMoveAfter(event, other) => MoveAfterHolds(n, event, other, b);
    case DoScheduleControl(r) => ScheduleHolds(identity, n, r, b);
    case DoScheduleAsset(r) => AssetHolds(n, r, b);
    case DoAddFault(f) => PlanHolds(n, f, b);
    case _ => HoldsUnchanged(n, m, b);
  }

  lemma HoldsUp(n: Net, m: Net, b: Barrier)
    requires Holds(n, m, b)
    ensures Up(m, b)
  {
  }

  lemma LaneHolds(n: Net, lane: Lane, state: LaneState, b: Barrier)
    requires Up(n, b) && (state == Running ==> b != OnLane(lane))
    ensures Holds(n, n.(lanes := n.lanes[lane := state]), b)
  {
  }

  /** Until it is lifted, no run delivers anything past a barrier, and the barrier stays up. */
  lemma {:induction false} BarriersHold(identity: Identity, n: Net, ops: seq<Operation>, b: Barrier)
    requires Valid(n) && Up(n, b) && forall op :: op in ops ==> !Lifts(op, b)
    ensures Holds(n, Run(identity, n, ops), b)
    decreases |ops|
  {
    hide Valid;
    hide Step;
    hide Holds;
    HoldsStill(n, b);
    if ops != [] {
      if Step(identity, n, ops[0]).Ok? {
        var m := Step(identity, n, ops[0]).value;
        StepHolds(identity, n, ops[0], b);
        StepKeeps(identity, n, ops[0]);
        HoldsUp(n, m, b);
        BarriersHold(identity, m, ops[1..], b);
        HoldsOn(n, m, Run(identity, n, ops), b);
      } else {
        BarriersHold(identity, n, ops[1..], b);
      }
    }
  }

  /** Halting an endpoint or pausing a lane puts up a barrier that holds over every run until it is lifted. */
  lemma HaltAndPauseHold(identity: Identity, n: Net, op: Operation, ops: seq<Operation>, b: Barrier)
    requires Valid(n) && Step(identity, n, op).Ok?
    requires match b case AtEndpoint(p) => op == DoHaltEndpoint(p) case OnLane(lane) => op == DoPauseLane(lane)
    requires forall o :: o in ops ==> !Lifts(o, b)
    ensures Valid(Step(identity, n, op).value)
    ensures Holds(n, Run(identity, Step(identity, n, op).value, ops), b)
  {
    hide Valid;
    StepKeeps(identity, n, op);
    hide Run;
    BarriersHold(identity, Step(identity, n, op).value, ops, b);
  }
}
