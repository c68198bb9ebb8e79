/** Whole runs of the simulator: draining the queue, every operation, and what all of them keep. */
module SimRun {
  import opened Results
  import opened Words
  import opened SimTypes
  import opened SimSpec
  import opened SimPlaces
  import opened SimProgress

  /** Events at rest are never touched again. */
  ghost predicate KeepsTerminal(n: Net, m: Net) {
    forall id :: id in n.events && n.events[id].status.IsTerminal() ==> id in m.events && m.events[id] == n.events[id]
  }

  lemma DeliverNextKeepsTerminal(identity: Identity, n: Net)
    requires Valid(n) && IsDue(n)
    ensures PlanSound(n.plan) && KeepsTerminal(n, DeliverNext(identity, n))
  {
    hide Compose;
    hide Settled;
    var k := First(n.queue);
    var popped := n.(queue := n.queue - {k});
    assert KeyPlaced(n, k, None);
    assert EventPlaced(n, k.event, None);
    var (m, f, v) := Compose(identity, popped, n.events[k.event].Bumped());
    ComposeEffect(identity, popped, n.events[k.event].Bumped());
    SettledMoves(m, f, v);
  }

  lemma DeliverNextFrame(identity: Identity, n: Net)
    requires Valid(n) && IsDue(n)
    ensures PlanSound(n.plan)
    ensures DeliverNext(identity, n).now == n.now && DeliverNext(identity, n).plan == n.plan
  {
    hide Compose;
    hide Settled;
    hide Grown;
    var k := First(n.queue);
    var popped := n.(queue := n.queue - {k});
    assert KeyPlaced(n, k, None);
    assert EventPlaced(n, k.event, None);
    var (m, f, v) := Compose(identity, popped, n.events[k.event].Bumped());
    ComposeEffect(identity, popped, n.events[k.event].Bumped());
    GrownFrame(popped.(resolved := popped.resolved + {k.event}), m, k.event);
    SettledMoves(m, f, v);
  }

  /** What one or more attempts guarantee. */
  ghost predicate Follows(n: Net, m: Net) {
    Valid(m) && KeepsTerminal(n, m) && m.now == n.now && m.plan == n.plan
  }

  lemma DeliverNextFollows(identity: Identity, n: Net)
    requires Valid(n) && IsDue(n)
    ensures PlanSound(n.plan) && Follows(n, DeliverNext(identity, n)) && LessWork(DeliverNext(identity, n), n)
  {
    hide Valid;
    hide DeliverNext;
    hide LessWork;
    hide KeepsTerminal;
    DeliverNextKeeps(identity, n);
    DeliverNextKeepsTerminal(identity, n);
    DeliverNextFrame(identity, n);
    DeliverNextProgresses(identity, n);
  }

  /** Attempts every event that is due now. Ends because every attempt leaves less work behind. */
  ghost function DeliverReady(identity: Identity, n: Net): (r: (Net, nat))
    requires Valid(n)
    ensures Follows(n, r.0) && !IsDue(r.0) && NoMoreWork(r.0, n)
    ensures IsDue(n) ==> LessWork(r.0, n)
    decreases |Callers(n)|, |Made(n)|, |Decided(n)|
  {
    if !IsDue(n) then (n, 0) else
      DeliverNextFollows(identity, n);
      var m := DeliverNext(identity, n);
      var (last, count) := DeliverReady(identity, m);
      (last, count + 1)
  }

  /** Moves time to each due tick up to `limit` and delivers what is due there. */
  ghost function Drain(identity: Identity, n: Net, limit: Tick): (r: (Net, nat))
    requires Valid(n) && n.now <= limit
    ensures Valid(r.0) && KeepsTerminal(n, r.0) && r.0.plan == n.plan && n.now <= r.0.now <= limit
    ensures r.0.queue != {} ==> limit < First(r.0.queue).deliverAt
    decreases |Callers(n)|, |Made(n)|, |Decided(n)|
  {
    if n.queue == {} || limit < First(n.queue).deliverAt then (n, 0) else
      var moved := n.(now := Later(First(n.queue).deliverAt, n.now));
      ClockKeeps(n, moved.now);
      var (m, count) := DeliverReady(identity, moved);
      assert LessWork(m, moved);
      SameWork(n, moved);
      var (last, more) := Drain(identity, m, limit);
      (last, count + more)
  }

  lemma ClockKeeps(n: Net, now: Tick)
    requires Valid(n)
    ensures Valid(n.(now := now)) && KeepsTerminal(n, n.(now := now))
  {
    var m := n.(now := now);
    forall id | id in m.events
      ensures EventPlaced(m, id, None)
    {
      assert EventPlaced(n, id, None);
    }
    forall k | k in m.queue
      ensures KeyPlaced(m, k, None)
    {
      assert KeyPlaced(n, k, None);
    }
    InboxesAgree(n, m);
  }

  lemma SameWork(n: Net, m: Net)
    requires m.queue == n.queue && m.events == n.events && m.resolved == n.resolved
    ensures Callers(m) == Callers(n) && Made(m) == Made(n) && Decided(m) == Decided(n)
  {
  }

  /** Runs until the queue holds nothing. */
  ghost function RunUntilIdle(identity: Identity, n: Net): (r: (Net, nat))
    requires Valid(n)
    ensures Valid(r.0) && KeepsTerminal(n, r.0) && r.0.plan == n.plan && r.0.queue == {}
  {
    Drain(identity, n, LAST_TICK)
  }

  /** Runs up to and including one tick, then leaves time there. */
  ghost function RunUntil(identity: Identity, n: Net, target: Tick): (r: Outcomes<(Net, nat)>)
    requires Valid(n)
    ensures r.Ok? <==> n.now <= target
    ensures r.Ok? ==> Valid(r.value.0) && KeepsTerminal(n, r.value.0) && r.value.0.plan == n.plan && !IsDue(r.value.0)
    ensures r.Ok? ==> r.value.0.now == target
  {
    if target < n.now then Err(TimeMovesBackwards(n.now, target)) else
      var (m, count) := Drain(identity, n, target);
      ClockKeeps(m, target);
      Ok((m.(now := target), count))
  }

  // The other operations.

  lemma ScheduleKeeps(n: Net, e: Event, next: U64)
    requires Valid(n) && e.id !in n.events && e.id < next && n.nextEvent <= next
    requires e.status == Scheduled && e.destination in n.endpoints
    ensures var m := n.(nextEvent := next).Queued(e, e.id); Valid(m) && KeepsTerminal(n, m)
  {
    var m := n.(nextEvent := next).Queued(e, e.id);
    forall id | id in m.events
      ensures EventPlaced(m, id, None)
    {
      if id != e.id {
        assert EventPlaced(n, id, None);
      }
    }
    forall k | k in m.queue
      ensures KeyPlaced(m, k, None)
    {
      if k in n.queue {
        assert KeyPlaced(n, k, None);
      }
    }
    InboxesAgree(n, m);
  }

  lemma PlanKeeps(n: Net, plan: FaultPlan)
    requires Valid(n) && PlanSound(plan)
    ensures Valid(n.(plan := plan)) && KeepsTerminal(n, n.(plan := plan))
  {
    var m := n.(plan := plan);
    forall id | id in m.events
      ensures EventPlaced(m, id, None)
    {
      assert EventPlaced(n, id, None);
    }
    forall k | k in m.queue
      ensures KeyPlaced(m, k, None)
    {
      assert KeyPlaced(n, k, None);
    }
    InboxesAgree(n, m);
  }

  /** Endpoints and lanes may change state; inboxes and known endpoints stay. */
  ghost predicate OnlyStates(n: Net, m: Net) {
    && m == n.(endpoints := m.endpoints, lanes := m.lanes)
    && m.endpoints.Keys == n.endpoints.Keys
    && (forall p :: p in n.endpoints ==> m.endpoints[p] == n.endpoints[p].(state := m.endpoints[p].state))
  }

  lemma StatesKeepInboxes(n: Net, m: Net)
    requires Inboxes(n) && OnlyStates(n, m)
    ensures Inboxes(m)
  {
    forall p, lane | p in m.endpoints
      ensures InboxSound(m, p, lane)
    {
      assert InboxSound(n, p, lane);
    }
    forall id | id in m.events && m.events[id].status == Delivered
      ensures m.events[id].destination in m.endpoints && IsRecorded(m, id)
    {
      assert IsRecorded(n, id);
      var e := n.events[id];
      assert m.endpoints[e.destination].Inbox(e.Lane()) == n.endpoints[e.destination].Inbox(e.Lane());
    }
  }

  /** Blocking more paths leaves every held event behind a real block. */
  lemma BlockingKeeps(n: Net, m: Net)
    requires Valid(n) && OnlyStates(n, m)
    requires forall id :: id in n.held && PathBlocked(n, n.events[id]) ==> PathBlocked(m, n.events[id])
    ensures Valid(m) && KeepsTerminal(n, m)
  {
    forall id | id in m.events
      ensures EventPlaced(m, id, None)
    {
      assert EventPlaced(n, id, None);
    }
    forall k | k in m.queue
      ensures KeyPlaced(m, k, None)
    {
      assert KeyPlaced(n, k, None);
    }
    StatesKeepInboxes(n, m);
  }

  /** Unblocking releases exactly the held events whose path is now clear: no wakeup is lost. */
  lemma ReleasedEvent(n: Net, m: Net, id: EventId)
    requires Valid(n) && OnlyStates(n, m) && id in n.events
    ensures id in ReleaseHeld(m).events && EventPlaced(ReleaseHeld(m), id, None)
  {
    assert EventPlaced(n, id, None);
    hide Valid;
  }

  lemma ReleasedKey(n: Net, m: Net, k: QueueKey)
    requires Valid(n) && OnlyStates(n, m) && k in ReleaseHeld(m).queue
    ensures KeyPlaced(ReleaseHeld(m), k, None)
  {
    if k in n.queue {
      assert KeyPlaced(n, k, None);
    } else {
      assert k.event in Clear(m) by { FreshKeyIsClear(n, m, k); }
    }
    assert EventPlaced(n, k.event, None);
    hide Valid;
  }

  lemma FreshKeyIsClear(n: Net, m: Net, k: QueueKey)
    requires Valid(n) && OnlyStates(n, m) && k in ReleaseHeld(m).queue && k !in n.queue
    ensures k.event in Clear(m)
  {
    PlacedIds(n);
    hide Valid;
  }

  lemma ReleaseKeeps(n: Net, m: Net)
    requires Valid(n) && OnlyStates(n, m)
    ensures Valid(ReleaseHeld(m)) && KeepsTerminal(n, ReleaseHeld(m))
  {
    StatesKeepInboxes(n, m);
    ReleaseKeepsDelivered(n, m);
    InboxesAgree(m, ReleaseHeld(m));
    hide EventPlaced;
    hide KeyPlaced;
    hide Inboxes;
    forall id | id in ReleaseHeld(m).events
      ensures EventPlaced(ReleaseHeld(m), id, None)
    {
      ReleasedEvent(n, m, id);
    }
    forall k | k in ReleaseHeld(m).queue
      ensures KeyPlaced(ReleaseHeld(m), k, None)
    {
      ReleasedKey(n, m, k);
    }
  }

  lemma ReleaseSparesRest(n: Net, m: Net, id: EventId)
    requires Valid(n) && OnlyStates(n, m) && id in n.events
    ensures id in ReleaseHeld(m).events
    ensures if id in Clear(m) then m.events[id].status == Blocked && ReleaseHeld(m).events[id].status == Scheduled
      else ReleaseHeld(m).events[id] == m.events[id]
  {
    assert EventPlaced(n, id, None);
    hide Valid;
  }

  lemma ReleaseKeepsDelivered(n: Net, m: Net)
    requires Valid(n) && OnlyStates(n, m)
    ensures SameDelivered(m, ReleaseHeld(m)) && KeepsTerminal(m, ReleaseHeld(m))
  {
    assert ReleaseHeld(m).events.Keys == m.events.Keys && ReleaseHeld(m).endpoints == m.endpoints;
    hide Valid;
    hide ReleaseHeld;
    hide Clear;
    forall id | id in n.events
      ensures id in ReleaseHeld(m).events
      ensures if id in Clear(m) then m.events[id].status == Blocked && ReleaseHeld(m).events[id].status == Scheduled
        else ReleaseHeld(m).events[id] == m.events[id]
    {
      ReleaseSparesRest(n, m, id);
    }
  }

  lemma MovedEvent(n: Net, key: QueueKey, target: Tick, id: EventId)
    requires Valid(n) && key in n.queue && id in n.events
    ensures id in MoveTo(n, key, target).events && EventPlaced(MoveTo(n, key, target), id, None)
  {
    assert KeyPlaced(n, key, None) && EventPlaced(n, key.event, None) && EventPlaced(n, id, None);
    hide Valid;
  }

  lemma MovedKey(n: Net, key: QueueKey, target: Tick, k: QueueKey)
    requires Valid(n) && key in n.queue && k in MoveTo(n, key, target).queue
    ensures KeyPlaced(MoveTo(n, key, target), k, None)
  {
    assert KeyPlaced(n, key, None) && EventPlaced(n, key.event, None);
    assert k in n.queue ==> KeyPlaced(n, k, None);
    hide Valid;
  }

  lemma MovedFrame(n: Net, key: QueueKey, target: Tick)
    requires Valid(n) && key in n.queue
    ensures var m := MoveTo(n, key, target);
      && m == n.(events := m.events, queue := m.queue) && m.events.Keys == n.events.Keys
      && SameDelivered(n, m) && KeepsTerminal(n, m)
      && forall k :: k in n.queue && k != key ==> k in m.queue
  {
    assert KeyPlaced(n, key, None) && EventPlaced(n, key.event, None);
    hide Valid;
  }

  lemma MoveKeeps(n: Net, key: QueueKey, target: Tick)
    requires Valid(n) && key in n.queue
    ensures Valid(MoveTo(n, key, target)) && KeepsTerminal(n, MoveTo(n, key, target))
    ensures forall k :: k in n.queue && k != key ==> k in MoveTo(n, key, target).queue
  {
    MovedFrame(n, key, target);
    hide MoveTo;
    hide EventPlaced;
    hide KeyPlaced;
    InboxesAgree(n, MoveTo(n, key, target));
    hide Inboxes;
    forall id | id in n.events
      ensures EventPlaced(MoveTo(n, key, target), id, None)
    {
      MovedEvent(n, key, target, id);
    }
    forall k | k in MoveTo(n, key, target).queue
      ensures KeyPlaced(MoveTo(n, key, target), k, None)
    {
      MovedKey(n, key, target, k);
    }
  }

  /** The new key of a moved event does not collide with another event's. */
  lemma SwapKeeps(n: Net, left: EventId, right: EventId)
    requires Valid(n) && SwapTicks(n, left, right).Ok?
    ensures Valid(SwapTicks(n, left, right).value) && KeepsTerminal(n, SwapTicks(n, left, right).value)
  {
    hide Valid;
    hide MoveTo;
    var l, r := PendingKey(n, left).value, PendingKey(n, right).value;
    var m := MoveTo(n, l, r.deliverAt);
    MoveKeeps(n, l, r.deliverAt);
    if l == r {
      assert MoveTo(n, l, l.deliverAt) == n by { SameTick(n, l); }
    }
    MoveKeeps(m, r, l.deliverAt);
  }

  lemma SameTick(n: Net, k: QueueKey)
    ensures MoveTo(n, k, k.deliverAt) == n
  {
  }

  /** A new endpoint starts active with empty inboxes, and disturbs nothing. */
  lemma AddEndpointKeeps(n: Net, id: EndpointId)
    requires Valid(n) && AddEndpoint(n, id).Ok?
    ensures Valid(AddEndpoint(n, id).value) && KeepsTerminal(n, AddEndpoint(n, id).value)
  {
    var m := AddEndpoint(n, id).value;
    forall e | e in m.events
      ensures EventPlaced(m, e, None)
    {
      assert EventPlaced(n, e, None);
    }
    forall k | k in m.queue
      ensures KeyPlaced(m, k, None)
    {
      assert KeyPlaced(n, k, None);
    }
    forall p, lane | p in m.endpoints
      ensures InboxSound(m, p, lane)
    {
      assert p != id ==> InboxSound(n, p, lane);
    }
    forall e | e in m.events && m.events[e].status == Delivered
      ensures m.events[e].destination in m.endpoints && IsRecorded(m, e)
    {
      assert IsRecorded(n, e);
      assert m.endpoints[m.events[e].destination] == n.endpoints[m.events[e].destination];
    }
  }

  // One step.

  datatype Operation =
    | DoScheduleControl(control: ControlRequest)
    | DoScheduleAsset(asset: AssetRequest)
    | DoAddFault(fault: Fault)
    | DoAdvanceBy(ticks: U64)
    | DoAdvanceTo(tick: Tick)
    | DoDeliverNext
    | DoDeliverReady
    | DoRunUntilIdle
    | DoRunUntil(tick: Tick)
    | DoHaltEndpoint(endpoint: EndpointId)
    | DoResumeEndpoint(endpoint: EndpointId)
    | DoPauseLane(lane: Lane)
    | DoResumeLane(lane: Lane)
    | DoSwapTicks(left: EventId, right: EventId)
    | DoMoveBefore(event: EventId, other: EventId)
    | DoMoveAfter(event: EventId, other: EventId)

  ghost function Step(identity: Identity, n: Net, op: Operation): Outcomes<Net>
    requires Valid(n)
  {
    match op
    case DoScheduleControl(r) => ScheduleControl(identity, n, r)
    case DoScheduleAsset(r) => ScheduleAsset(n, r)
    case DoAddFault(f) => AddFault(n, f)
    case DoAdvanceBy(ticks) => AdvanceBy(n, ticks)
    case DoAdvanceTo(tick) => AdvanceTo(n, tick)
    case DoDeliverNext => Ok(if IsDue(n) then DeliverNext(identity, n) else n)
    case DoDeliverReady => Ok(DeliverReady(identity, n).0)
    case DoRunUntilIdle => Ok(RunUntilIdle(identity, n).0)
    case DoRunUntil(tick) =>
      var r :- RunUntil(identity, n, tick);
      Ok(r.0)
    case DoHaltEndpoint(id) => WithEndpointState(n, id, Halted)
    case DoResumeEndpoint(id) => ResumeEndpoint(n, id)
    case DoPauseLane(lane) => Ok(n.(lanes := n.lanes[lane := Paused]))
    case DoResumeLane(lane) => Ok(ResumeLane(n, lane))
    case DoSwapTicks(left, right) => SwapTicks(n, left, right)
    case DoMoveBefore(event, other) => MoveBefore(n, event, other)
    case DoMoveAfter(event, other) => MoveAfter(n, event, other)
  }

  /** Every operation keeps every event in exactly one place and never touches one at rest. */
  lemma StepKeeps(identity: Identity, n: Net, op: Operation)
    requires Valid(n) && Step(identity, n, op).Ok?
    ensures Valid(Step(identity, n, op).value) && KeepsTerminal(n, Step(identity, n, op).value)
  {
    hide Valid;
    hide KeepsTerminal;
    hide DeliverNext;
    hide DeliverReady;
    hide Drain;
    hide MoveTo;
    hide ReleaseHeld;
    match op
    case DoScheduleControl(r) => ScheduleControlKeeps(identity, n, r);
    case DoScheduleAsset(r) => ScheduleAssetKeeps(n, r);
    case DoAddFault(f) => AddFaultKeeps(n, f);
    case DoAdvanceBy(ticks) => ClockKeeps(n, AddTicks(n.now, ticks).value);
    case DoAdvanceTo(tick) => ClockKeeps(n, tick);
    case DoDeliverNext => DeliveryKeeps(identity, n);
    case DoDeliverReady =>
      assert Follows(n, DeliverReady(identity, n).0);
    case DoRunUntilIdle =>
    case DoRunUntil(tick) =>
    case DoHaltEndpoint(id) => HaltKeeps(n, id);
    case DoResumeEndpoint(id) => ResumeKeeps(n, id);
    case DoPauseLane(lane) => PauseKeeps(n, lane);
    case DoResumeLane(lane) => ResumeLaneKeeps(n, lane);
    case DoSwapTicks(left, right) => SwapKeeps(n, left, right);
    case DoMoveBefore(event, other) =>
      var key, anchor := PendingKey(n, event).value, PendingKey(n, other).value;
      MoveKeeps(n, key, Later(if anchor.deliverAt == 0 then 0 else anchor.deliverAt - 1, n.now));
    case DoMoveAfter(event, other) =>
      var key, anchor := PendingKey(n, event).value, PendingKey(n, other).value;
      MoveKeeps(n, key, AddTicks(anchor.deliverAt, 1).value);
  }

  lemma ScheduleControlKeeps(identity: Identity, n: Net, r: ControlRequest)
    requires Valid(n) && ScheduleControl(identity, n, r).Ok?
    ensures Valid(ScheduleControl(identity, n, r).value) && KeepsTerminal(n, ScheduleControl(identity, n, r).value)
  {
    hide Valid;
    hide KeepsTerminal;
    var (id, next) := ReserveId(n.events, n.nextEvent, r.id).value;
    ScheduleKeeps(n, Event(
      id, r.source, r.destination, r.destination, Message(r.bytes, identity(r.bytes), None),
      r.deliverAt, 0, None, r.expiresAt, false, Scheduled), next);
  }

  lemma ScheduleAssetKeeps(n: Net, r: AssetRequest)
    requires Valid(n) && ScheduleAsset(n, r).Ok?
    ensures Valid(ScheduleAsset(n, r).value) && KeepsTerminal(n, ScheduleAsset(n, r).value)
  {
    hide Valid;
    hide KeepsTerminal;
    var (id, next) := ReserveId(n.events, n.nextEvent, r.id).value;
    ScheduleKeeps(n, Event(
      id, r.source, r.destination, r.destination, Value(r.transfer, r.amount, r.amount, None, false),
      r.deliverAt, 0, None, r.timeoutAt, false, Scheduled), next);
  }

  lemma AddFaultKeeps(n: Net, f: Fault)
    requires Valid(n) && AddFault(n, f).Ok?
    ensures Valid(AddFault(n, f).value) && KeepsTerminal(n, AddFault(n, f).value)
  {
    PlanKeeps(n, n.plan[f.id := f]);
  }

  lemma DeliveryKeeps(identity: Identity, n: Net)
    requires Valid(n)
    ensures var m := if IsDue(n) then DeliverNext(identity, n) else n; Valid(m) && KeepsTerminal(n, m)
  {
    if IsDue(n) {
      DeliverNextFollows(identity, n);
    }
  }

  lemma HaltKeeps(n: Net, id: EndpointId)
    requires Valid(n) && id in n.endpoints
    ensures Valid(WithEndpointState(n, id, Halted).value)
    ensures KeepsTerminal(n, WithEndpointState(n, id, Halted).value)
  {
    BlockingKeeps(n, WithEndpointState(n, id, Halted).value);
  }

  lemma PauseKeeps(n: Net, lane: Lane)
    requires Valid(n)
    ensures Valid(n.(lanes := n.lanes[lane := Paused])) && KeepsTerminal(n, n.(lanes := n.lanes[lane := Paused]))
  {
    BlockingKeeps(n, n.(lanes := n.lanes[lane := Paused]));
  }

  lemma ResumeKeeps(n: Net, id: EndpointId)
    requires Valid(n) && ResumeEndpoint(n, id).Ok?
    ensures Valid(ResumeEndpoint(n, id).value) && KeepsTerminal(n, ResumeEndpoint(n, id).value)
  {
    hide Valid;
    hide KeepsTerminal;
    ReleaseKeeps(n, WithEndpointState(n, id, Active).value);
  }

  lemma ResumeLaneKeeps(n: Net, lane: Lane)
    requires Valid(n)
    ensures Valid(ResumeLane(n, lane)) && KeepsTerminal(n, ResumeLane(n, lane))
  {
    hide Valid;
    hide KeepsTerminal;
    ReleaseKeeps(n, n.(lanes := n.lanes[lane := Running]));
  }

  // Whole runs.

  ghost function Run(identity: Identity, n: Net, ops: seq<Operation>): (m: Net)
    requires Valid(n)
    decreases |ops|
  {
    if ops == [] then n
    else if Step(identity, n, ops[0]).Err? then Run(identity, n, ops[1..])
    else
      StepKeeps(identity, n, ops[0]);
      Run(identity, Step(identity, n, ops[0]).value, ops[1..])
  }

  /** Over every run, refused steps included, events stay in one place and those at rest stay as they are. */
  lemma {:induction false} RunKeepsPlaces(identity: Identity, n: Net, ops: seq<Operation>)
    requires Valid(n)
    ensures Valid(Run(identity, n, ops)) && KeepsTerminal(n, Run(identity, n, ops))
    decreases |ops|
  {
    hide Valid;
    hide Step;
    if ops != [] {
      if Step(identity, n, ops[0]).Ok? {
        StepKeeps(identity, n, ops[0]);
        RunKeepsPlaces(identity, Step(identity, n, ops[0]).value, ops[1..]);
      } else {
        RunKeepsPlaces(identity, n, ops[1..]);
      }
    }
  }

  /** A network of active endpoints with nothing scheduled. */
  function Fresh(config: SimConfig, endpoints: set<EndpointId>): (n: Net)
    ensures Valid(n)
  {
    Net(config, 0, map p | p in endpoints :: Endpoint(Active, [], []), map[], {}, {},
        map[Control := Running, Assets := Running], map[], {}, 1, map[])
  }

  /** Once the queue is empty, whatever is not at rest waits behind a paused lane or a halted endpoint. */
  lemma IdleMeansBlocked(n: Net, id: EventId)
    requires Valid(n) && n.queue == {} && id in n.events && !n.events[id].status.IsTerminal()
    ensures id in n.held && PathBlocked(n, n.events[id])
  {
    assert EventPlaced(n, id, None);
  }

  ghost predicate RecordedAt(n: Net, p: EndpointId, lane: Lane, i: int, id: EventId) {
    p in n.endpoints && 0 <= i < |n.endpoints[p].Inbox(lane)| && n.endpoints[p].Inbox(lane)[i].event == id
  }

  /** An event is in some inbox exactly when it was delivered, as what it carried. */
  lemma DeliveredIffRecorded(n: Net, id: EventId)
    requires Valid(n)
    ensures id in n.events && n.events[id].status == Delivered <==> exists p, lane, i :: RecordedAt(n, p, lane, i, id)
    ensures forall p, lane, i :: RecordedAt(n, p, lane, i, id) ==>
      id in n.events && n.endpoints[p].Inbox(lane)[i].payload == n.events[id].payload
  {
    forall p, lane, i | RecordedAt(n, p, lane, i, id)
      ensures id in n.events && n.events[id].status == Delivered
      ensures n.endpoints[p].Inbox(lane)[i].payload == n.events[id].payload
    {
      assert InboxSound(n, p, lane);
    }
    if id in n.events && n.events[id].status == Delivered {
      assert IsRecorded(n, id);
      var e := n.events[id];
      var i :| 0 <= i < |n.endpoints[e.destination].Inbox(e.Lane())|
            && n.endpoints[e.destination].Inbox(e.Lane())[i].event == id;
      assert RecordedAt(n, e.destination, e.Lane(), i, id);
    }
  }

  /** It is in no inbox twice and in no two inboxes. */
  lemma RecordedOnce(n: Net, id: EventId, p: EndpointId, lane: Lane, i: int, q: EndpointId, other: Lane, j: int)
    requires Valid(n) && RecordedAt(n, p, lane, i, id) && RecordedAt(n, q, other, j, id)
    ensures p == q && lane == other && i == j
  {
    assert InboxSound(n, p, lane) && InboxSound(n, q, other);
  }
}
