/** When scheduling, faults, the clock and reordering are accepted, and what they change. */
module SimControl {
  import opened Results
  import opened Words
  import opened SimTypes
  import opened SimSpec
  import opened SimPlaces
  import opened SimRun
  import opened SimFaults

  // Scheduling.

  /** The id an event asks for, or the next one. */
  function IdFor(n: Net, wanted: Option<EventId>): EventId {
    if wanted.Some? then wanted.value else n.nextEvent
  }

  predicate CanSchedule(n: Net, source: EndpointId, destination: EndpointId, at: Tick, wanted: Option<EventId>) {
    && source in n.endpoints && destination in n.endpoints && source != destination && n.now <= at
    && IdFor(n, wanted) !in n.events && IdFor(n, wanted) + 1 < LIMIT64
  }

  /** `m` is `n` with one new event, queued, not attempted and not touched by any fault. */
  ghost predicate Schedules(n: Net, m: Net, e: Event) {
    && e.id !in n.events && m.events == n.events[e.id := e] && m.queue == n.queue + {e.Key()}
    && m == n.(events := m.events, queue := m.queue, nextEvent := m.nextEvent, lineage := n.lineage[e.id := e.id])
    && m.nextEvent == Max(n.nextEvent, e.id + 1)
  }

  lemma ControlAcceptedIff(identity: Identity, n: Net, r: ControlRequest)
    ensures ScheduleControl(identity, n, r).Ok? <==>
      CanSchedule(n, r.source, r.destination, r.deliverAt, r.id) && r.bytes != []
    ensures ScheduleControl(identity, n, r).Ok? ==>
      Schedules(n, ScheduleControl(identity, n, r).value, Event(
        IdFor(n, r.id), r.source, r.destination, r.destination, Message(r.bytes, identity(r.bytes), None),
        r.deliverAt, 0, None, r.expiresAt, false, Scheduled))
  {
  }

  lemma AssetAcceptedIff(n: Net, r: AssetRequest)
    ensures ScheduleAsset(n, r).Ok? <==>
      CanSchedule(n, r.source, r.destination, r.deliverAt, r.id) && r.amount > 0
    ensures ScheduleAsset(n, r).Ok? ==>
      Schedules(n, ScheduleAsset(n, r).value, Event(
        IdFor(n, r.id), r.source, r.destination, r.destination, Value(r.transfer, r.amount, r.amount, None, false),
        r.deliverAt, 0, None, r.timeoutAt, false, Scheduled))
  {
  }

  // The clock.

  lemma ClockAcceptedIff(n: Net, ticks: U64)
    ensures AdvanceTo(n, ticks)
         == if n.now <= ticks then Ok(n.(now := ticks)) else Err(TimeMovesBackwards(n.now, ticks))
    ensures AdvanceBy(n, ticks)
         == if n.now + ticks < LIMIT64 then Ok(n.(now := n.now + ticks)) else Err(ArithmeticOverflow)
  {
  }

  // Faults.

  /** The action fits the lane of what it targets: bytes of messages, amounts of assets. */
  predicate FitsLane(a: FaultAction, control: bool) {
    (a.CorruptByte? ==> control) && (a.Partial? || a.OverDeliver? || a.Split? ==> !control)
  }

  predicate TargetsControl(n: Net, t: FaultTarget) {
    match t
    case OneEvent(id) => id in n.events && n.events[id].payload.Message?
    case OneMessage(_) => true
    case OneTransfer(_) => false
    case Route(_, _, lane) => lane == Control
    case WholeLane(lane) => lane == Control
  }

  /** The action changes something and its numbers make sense by themselves. */
  predicate WellShaped(a: FaultAction) {
    match a
    case Duplicate(copies, _) => copies > 0
    case CorruptByte(_, mask) => mask > 0
    case Partial(amount) => amount > 0
    case OverDeliver(amount) => amount > 0
    case Split(pieces, _) => pieces != [] && 0 !in pieces && SumPieces(pieces) < LIMIT128
    case _ => true
  }

  /** A fault on one event comes before that event's faults are decided, and fits what it carries. */
  predicate FitsEvent(n: Net, id: EventId, a: FaultAction) {
    && id in n.events && id !in n.resolved
    && n.events[id].status !in {Delivered, Dropped, Expired, RejectedBySimulator}
    && var p := n.events[id].payload;
    match a
    case CorruptByte(offset, _) => p.Message? && offset < |p.bytes|
    case Partial(amount) => if p.Value? then amount <= p.requested else amount == 0
    case Split(pieces, _) =>
      SumPieces(pieces) < LIMIT128 && if p.Value? then SumPieces(pieces) <= p.requested else SumPieces(pieces) == 0
    case _ => true
  }

  ghost predicate CanRegister(n: Net, f: Fault) {
    && f.id !in n.plan && WellShaped(f.action) && FitsLane(f.action, TargetsControl(n, f.target))
    && (f.target.OneEvent? ==> FitsEvent(n, f.target.event, f.action))
    && (f.target.Route? ==> f.target.source in n.endpoints && f.target.destination in n.endpoints)
    && (f.action.ReplaceDestination? ==> f.action.endpoint in n.endpoints)
    && forall id :: id in n.plan && n.plan[id].target == f.target ==> !Clash(n.plan[id].action, f.action)
  }

  lemma NoRivals(plan: FaultPlan, f: Fault)
    ensures Rivals(plan, f) == {} <==>
      forall id :: id in plan && plan[id].target == f.target ==> !Clash(plan[id].action, f.action)
  {
    forall id | id in plan
      ensures Clash(plan[id].action, f.action) <==> plan[id].action.Group() == f.action.Group()
    {
      ClashIff(plan[id].action, f.action);
    }
    if id :| id in plan && plan[id].target == f.target && Clash(plan[id].action, f.action) {
      assert id in Rivals(plan, f);
    }
  }

  lemma LaneFits(n: Net, f: Fault)
    requires TargetLane(n.events, f).Ok?
    ensures (f.action.RequiredLane().None? || f.action.RequiredLane().value == TargetLane(n.events, f).value) <==>
      FitsLane(f.action, TargetsControl(n, f.target))
  {
  }

  lemma ShapeFits(a: FaultAction)
    ensures CheckShape(a).Ok? <==> WellShaped(a)
  {
  }

  lemma EventFits(n: Net, id: EventId, a: FaultAction)
    ensures CheckNamedEvent(n.events, n.resolved, id, a).Ok? <==> FitsEvent(n, id, a)
  {
  }

  /** A fault is registered, and nothing else changes, if and only if it makes sense and has no rival. */
  lemma FaultAcceptedIff(n: Net, f: Fault)
    ensures AddFault(n, f).Ok? <==> CanRegister(n, f)
    ensures AddFault(n, f).Ok? ==> AddFault(n, f).value == n.(plan := n.plan[f.id := f])
  {
    hide CheckShape;
    hide WellShaped;
    hide CheckNamedEvent;
    hide FitsEvent;
    hide Rivals;
    hide Clash;
    hide FitsLane;
    if TargetLane(n.events, f).Ok? {
      LaneFits(n, f);
    } else {
      UnknownTarget(n, f);
    }
    ShapeFits(f.action);
    NoRivals(n.plan, f);
    if f.target.OneEvent? {
      EventFits(n, f.target.event, f.action);
    }
  }

  lemma UnknownTarget(n: Net, f: Fault)
    requires TargetLane(n.events, f).Err?
    ensures f.target.OneEvent? && !FitsEvent(n, f.target.event, f.action)
  {
  }

  // Reordering.

  predicate IsQueued(n: Net, id: EventId) {
    id in n.events && n.events[id].status == Scheduled
  }

  lemma KeyOfQueued(n: Net, id: EventId)
    requires Valid(n)
    ensures PendingKey(n, id).Ok? <==> IsQueued(n, id)
    ensures PendingKey(n, id).Ok? ==> PendingKey(n, id).value == n.events[id].Key()
    ensures PendingKey(n, id).Ok? ==> n.events[id].Key() in n.queue
  {
    if id in n.events {
      assert EventPlaced(n, id, None);
      if IsQueued(n, id) {
        assert n.events[id].Key() in n.queue;
      }
      forall k | k in n.queue && k.event == id
        ensures IsQueued(n, id) && k == n.events[id].Key()
      {
        assert KeyPlaced(n, k, None);
      }
    }
    hide Valid;
  }

  /** One event is due at another tick; everything else stays. */
  ghost predicate Retimed(n: Net, m: Net, id: EventId, tick: Tick)
    requires id in n.events
  {
    && m.events == n.events[id := n.events[id].(deliverAt := tick)]
    && m == n.(events := m.events, queue := m.queue)
  }

  lemma MoveRetimes(n: Net, id: EventId, tick: Tick)
    requires Valid(n) && IsQueued(n, id)
    ensures Retimed(n, MoveTo(n, n.events[id].Key(), tick), id, tick)
  {
    assert EventPlaced(n, id, None);
    hide Valid;
    if n.events[id].deliverAt == tick {
      assert n.events[id := n.events[id].(deliverAt := tick)] == n.events;
    }
  }

  /** An event moved before another is due one tick earlier than it, but never in the past. */
  lemma MoveBeforeIff(n: Net, event: EventId, other: EventId)
    requires Valid(n)
    ensures MoveBefore(n, event, other).Ok? <==> IsQueued(n, event) && IsQueued(n, other)
    ensures MoveBefore(n, event, other).Ok? ==>
      Retimed(n, MoveBefore(n, event, other).value, event, Max(n.events[other].deliverAt - 1, n.now))
  {
    hide Valid;
    hide PendingKey;
    hide MoveTo;
    hide Retimed;
    KeyOfQueued(n, event);
    KeyOfQueued(n, other);
    if IsQueued(n, event) && IsQueued(n, other) {
      MoveRetimes(n, event, Max(n.events[other].deliverAt - 1, n.now));
    }
  }

  /** An event moved after another is due one tick later than it. */
  lemma MoveAfterIff(n: Net, event: EventId, other: EventId)
    requires Valid(n)
    ensures MoveAfter(n, event, other).Ok? <==>
      IsQueued(n, event) && IsQueued(n, other) && n.events[other].deliverAt < 0xFFFF_FFFF_FFFF_FFFF
    ensures MoveAfter(n, event, other).Ok? ==>
      Retimed(n, MoveAfter(n, event, other).value, event, n.events[other].deliverAt + 1)
  {
    hide Valid;
    hide PendingKey;
    hide MoveTo;
    hide Retimed;
    KeyOfQueued(n, event);
    KeyOfQueued(n, other);
    if MoveAfter(n, event, other).Ok? {
      MoveRetimes(n, event, n.events[other].deliverAt + 1);
    }
  }

  /** Two events swap their ticks, and only their ticks. */
  lemma SwapIff(n: Net, left: EventId, right: EventId)
    requires Valid(n)
    ensures SwapTicks(n, left, right).Ok? <==> IsQueued(n, left) && IsQueued(n, right)
    ensures SwapTicks(n, left, right).Ok? ==>
      SwapTicks(n, left, right).value.events
      == n.events[left := n.events[left].(deliverAt := n.events[right].deliverAt)]
                 [right := n.events[right].(deliverAt := n.events[left].deliverAt)]
  {
    hide Valid;
    hide PendingKey;
    hide MoveTo;
    KeyOfQueued(n, left);
    KeyOfQueued(n, right);
    if IsQueued(n, left) && IsQueued(n, right) {
      var l, r := n.events[left].Key(), n.events[right].Key();
      var half := MoveTo(n, l, r.deliverAt);
      MoveRetimes(n, left, r.deliverAt);
      MoveKeeps(n, l, r.deliverAt);
      if left == right {
        assert half.events == n.events;
        MoveRetimes(half, right, l.deliverAt);
      } else {
        MoveRetimes(half, right, l.deliverAt);
      }
    }
  }

  // Lanes and endpoints.

  /** A released event is due at its own tick, or now if that is past; every other event stays as it is. */
  lemma ReleaseRetimes(n: Net, id: EventId)
    requires id in n.events
    ensures id in ReleaseHeld(n).events
    ensures var e, f := n.events[id], ReleaseHeld(n).events[id];
      if id in n.held && e.destination in n.endpoints && n.endpoints[e.destination].state == Active
         && !(e.Lane() in n.lanes && n.lanes[e.Lane()] == Paused)
      then f == e.(status := Scheduled, deliverAt := Max(n.now, e.deliverAt)) && id !in ReleaseHeld(n).held
      else f == e && (id in ReleaseHeld(n).held <==> id in n.held)
  {
  }

  /** An endpoint is added if and only if its id is new; it is then active with nothing delivered. */
  lemma EndpointAcceptedIff(n: Net, id: EndpointId)
    ensures AddEndpoint(n, id).Ok? <==> id !in n.endpoints
    ensures AddEndpoint(n, id).Ok? ==>
      var m := AddEndpoint(n, id).value;
      && m == n.(endpoints := m.endpoints) && m.endpoints.Keys == n.endpoints.Keys + {id}
      && m.endpoints[id].state == Active && (forall lane :: m.endpoints[id].Inbox(lane) == [])
      && (forall p :: p in n.endpoints ==> m.endpoints[p] == n.endpoints[p])
  {
  }

  /** A fresh network: every endpoint active, both lanes running, and nothing scheduled, delivered or planned. */
  lemma FreshIs(config: SimConfig, endpoints: set<EndpointId>)
    ensures var n := Fresh(config, endpoints);
      && n.config == config && n.now == 0 && n.endpoints.Keys == endpoints
      && (forall p :: p in endpoints ==> n.endpoints[p] == Endpoint(Active, [], []))
      && n.lanes == map[Control := Running, Assets := Running]
      && n.events == map[] && n.queue == {} && n.held == {} && n.plan == map[] && n.resolved == {}
  {
  }

  lemma SwitchIff(n: Net, id: EndpointId, state: EndpointState)
    ensures WithEndpointState(n, id, state).Ok? <==> id in n.endpoints
    ensures WithEndpointState(n, id, state).Ok? ==>
      var m := WithEndpointState(n, id, state).value;
      && m == n.(endpoints := m.endpoints) && m.endpoints.Keys == n.endpoints.Keys
      && (forall p :: p in n.endpoints ==>
            m.endpoints[p] == n.endpoints[p].(state := if p == id then state else n.endpoints[p].state))
  {
  }

  // What a refusal says.

  predicate IsSchedule(op: Operation) {
    op.DoScheduleControl? || op.DoScheduleAsset?
  }

  /** The fault an operation refuses for is really there. Numbers that do not fit need no further cause. */
  ghost predicate Justifies(n: Net, op: Operation, r: SimError) {
    match r
    case UnknownEndpoint(p) => p !in n.endpoints
    case UnknownEvent(id) => id !in n.events
    case DuplicateEventId(id) => IsSchedule(op) && id in n.events
    case DuplicateFaultId(id) => op.DoAddFault? && op.fault.id == id && id in n.plan
    case TimeMovesBackwards(now, to) => now == n.now && to < now && (op.DoAdvanceTo? || op.DoRunUntil?)
    case DeliveryTickInPast(now, to) => now == n.now && to < now && IsSchedule(op)
    case ZeroAssetAmount =>
      || (op.DoScheduleAsset? && op.asset.amount == 0)
      || (op.DoAddFault? && (op.fault.action == Partial(0) || op.fault.action == OverDeliver(0)))
    case InvalidPartialSplit =>
      op.DoAddFault? && op.fault.action.Split? && (op.fault.action.pieces == [] || 0 in op.fault.action.pieces)
    case PartialSumExceedsRequest(asked, offered) => op.DoAddFault? && asked < offered
    case ConflictingFaults(first, second) =>
      && op.DoAddFault? && second == op.fault.id && first in n.plan
      && n.plan[first].target == op.fault.target && Clash(n.plan[first].action, op.fault.action)
    case EventAlreadyTerminal(id) => id in n.events && (op.DoAddFault? || n.events[id].status != Scheduled)
    case FaultsAlreadyBound(id) => op.DoAddFault? && id in n.resolved
    case InvalidConfiguration(problem) => JustifiesProblem(op, problem)
    case ArithmeticOverflow => true
    case DuplicateEndpoint(_) => false
  }

  predicate JustifiesProblem(op: Operation, problem: ConfigProblem) {
    match problem
    case EmptyMessage => op.DoScheduleControl? && op.control.bytes == []
    case SameEndpointRoute =>
      || (op.DoScheduleControl? && op.control.source == op.control.destination)
      || (op.DoScheduleAsset? && op.asset.source == op.asset.destination)
    case NoDuplicateCopies => op.DoAddFault? && op.fault.action.Duplicate? && op.fault.action.copies == 0
    case NoByteChange => op.DoAddFault? && op.fault.action.CorruptByte? && op.fault.action.mask == 0
    case ActionLaneMismatch => op.DoAddFault? && IsContent(op.fault.action)
    case CorruptOffsetOutOfRange => op.DoAddFault? && op.fault.action.CorruptByte?
    case NoEndpoints => false
  }

  lemma ScheduleJustified(identity: Identity, n: Net, op: Operation)
    requires Valid(n) && IsSchedule(op) && Step(identity, n, op).Err?
    ensures Justifies(n, op, Step(identity, n, op).error)
  {
    hide Valid;
    hide AddFault;
    hide DeliverNext;
    hide DeliverReady;
    hide Drain;
    hide ReleaseHeld;
    hide PendingKey;
    hide MoveTo;
  }

  lemma NamedJustified(n: Net, f: Fault)
    requires f.target.OneEvent? && CheckNamedEvent(n.events, n.resolved, f.target.event, f.action).Err?
    ensures Justifies(n, DoAddFault(f), CheckNamedEvent(n.events, n.resolved, f.target.event, f.action).error)
  {
    hide SumPieces;
  }

  lemma ShapeJustified(n: Net, f: Fault)
    requires CheckShape(f.action).Err?
    ensures Justifies(n, DoAddFault(f), CheckShape(f.action).error)
  {
    hide SumPieces;
  }

  lemma AddFaultJustified(n: Net, f: Fault)
    requires AddFault(n, f).Err?
    ensures Justifies(n, DoAddFault(f), AddFault(n, f).error)
  {
    hide CheckNamedEvent;
    hide CheckShape;
    hide Clash;
    if CheckShape(f.action).Err? {
      ShapeJustified(n, f);
    }
    if f.target.OneEvent? && CheckNamedEvent(n.events, n.resolved, f.target.event, f.action).Err? {
      NamedJustified(n, f);
    }
    if Rivals(n.plan, f) != {} {
      ClashIff(n.plan[Least(Rivals(n.plan, f))].action, f.action);
    }
  }

  lemma KeyJustified(n: Net, id: EventId, op: Operation)
    requires Valid(n) && PendingKey(n, id).Err?
    ensures Justifies(n, op, PendingKey(n, id).error)
  {
    KeyOfQueued(n, id);
    hide Valid;
  }

  predicate IsReorder(op: Operation) {
    op.DoSwapTicks? || op.DoMoveBefore? || op.DoMoveAfter?
  }

  lemma ReorderJustified(identity: Identity, n: Net, op: Operation, event: EventId, other: EventId)
    requires Valid(n) && Step(identity, n, op).Err?
    requires op in {DoSwapTicks(event, other), DoMoveBefore(event, other), DoMoveAfter(event, other)}
    ensures Justifies(n, op, Step(identity, n, op).error)
  {
    hide Valid;
    hide PendingKey;
    hide MoveTo;
    hide DeliverNext;
    hide DeliverReady;
    hide Drain;
    hide ReleaseHeld;
    if PendingKey(n, event).Err? {
      KeyJustified(n, event, op);
    }
    if PendingKey(n, other).Err? {
      KeyJustified(n, other, op);
    }
  }

  lemma OthersJustified(identity: Identity, n: Net, op: Operation)
    requires Valid(n) && !IsSchedule(op) && !IsReorder(op) && !op.DoAddFault? && Step(identity, n, op).Err?
    ensures Justifies(n, op, Step(identity, n, op).error)
  {
    hide Valid;
    hide ScheduleControl;
    hide ScheduleAsset;
    hide AddFault;
    hide DeliverNext;
    hide DeliverReady;
    hide Drain;
    hide ReleaseHeld;
    hide PendingKey;
    hide MoveTo;
  }

  /** Every refused operation names a fault that is really there. */
  lemma RefusalIsJustified(identity: Identity, n: Net, op: Operation)
    requires Valid(n) && Step(identity, n, op).Err?
    ensures Justifies(n, op, Step(identity, n, op).error)
  {
    hide Valid;
    hide Justifies;
    if IsSchedule(op) {
      ScheduleJustified(identity, n, op);
    } else if op.DoAddFault? {
      hide AddFault;
      AddFaultJustified(n, op.fault);
    } else if IsReorder(op) {
      match op
      case DoSwapTicks(left, right) => ReorderJustified(identity, n, op, left, right);
      case DoMoveBefore(event, other) => ReorderJustified(identity, n, op, event, other);
      case DoMoveAfter(event, other) => ReorderJustified(identity, n, op, event, other);
    } else {
      OthersJustified(identity, n, op);
    }
  }
}
