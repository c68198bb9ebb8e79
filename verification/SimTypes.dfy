/** Events, faults and endpoints of the simulated network. */
module SimTypes {
  import opened Results
  import opened Words

  type Tick = U64
  type EndpointId = U32
  type EventId = U64
  type FaultId = U32
  type MessageId = U256
  type TransferId = U256
  type Bytes = seq<U8>

  /** The canonical identifier of a byte string, as an unknown function. */
  type Identity = Bytes -> MessageId

  const LAST_TICK: Tick := 0xFFFF_FFFF_FFFF_FFFF

  function AddTicks(t: Tick, ticks: U64): Option<Tick> {
    if t + ticks < LIMIT64 then Some(t + ticks) else None
  }

  /** `t` plus `index` times `spacing`, stopping at the last tick. */
  function Spaced(t: Tick, spacing: U64, index: U16): Tick {
    var sum: nat := t + Times(spacing, index);
    if sum < LIMIT64 then sum else LAST_TICK
  }

  /** Control messages and asset value move on separate lanes. */
  datatype Lane = Control | Assets {
    function Priority(): U8 {
      if this == Control then 0 else 1
    }
  }

  datatype LaneState = Running | Paused

  datatype EndpointState = Active | Halted

  datatype EventStatus = Scheduled | Ready | Delivered | Dropped | Blocked | Expired | RejectedBySimulator {
    /** No later attempt can change this event. */
    predicate IsTerminal() {
      this == Delivered || this == Dropped || this == Expired || this == RejectedBySimulator
    }
  }

  datatype ByteMutation = ByteMutation(offset: nat, before: U8, after: U8, originalMessageId: MessageId)

  /** What an event carries. */
  datatype Payload =
    | Message(bytes: Bytes, messageId: MessageId, mutation: Option<ByteMutation>)
    | Value(transfer: TransferId, requested: U128, delivered: U128, piece: Option<U16>, overDelivered: bool)

  datatype Event = Event(
    id: EventId, source: EndpointId, destination: EndpointId, intended: EndpointId, payload: Payload,
    deliverAt: Tick, attempts: U32, duplicateOf: Option<EventId>, deadline: Option<Tick>,
    fromFault: bool, status: EventStatus)
  {
    function Lane(): Lane {
      if payload.Message? then Control else Assets
    }

    function Key(): QueueKey {
      QueueKey(deliverAt, Lane().Priority(), id)
    }

    function Bumped(): Event {
      this.(attempts := if attempts < 0xFFFF_FFFF then attempts + 1 else attempts, status := Ready)
    }
  }

  // The delivery order.

  datatype QueueKey = QueueKey(deliverAt: Tick, lanePriority: U8, event: EventId) {
    /** Tick first, then lane, then event id. */
    predicate Before(other: QueueKey) {
      || deliverAt < other.deliverAt
      || (deliverAt == other.deliverAt && lanePriority < other.lanePriority)
      || (deliverAt == other.deliverAt && lanePriority == other.lanePriority && event < other.event)
    }
  }

  /** The entry that should be attempted next. */
  predicate IsFirst(queue: set<QueueKey>, k: QueueKey) {
    k in queue && forall j :: j in queue ==> j == k || k.Before(j)
  }

  lemma {:induction false} HasFirst(queue: set<QueueKey>)
    requires queue != {}
    ensures exists k :: IsFirst(queue, k)
    decreases |queue|
  {
    var k :| k in queue;
    var rest := queue - {k};
    assert forall j :: j in queue ==> j == k || j in rest;
    if rest == {} {
      assert IsFirst(queue, k);
    } else {
      HasFirst(rest);
      var first :| IsFirst(rest, first);
      assert IsFirst(queue, if k.Before(first) then k else first);
    }
  }

  ghost function First(queue: set<QueueKey>): (k: QueueKey)
    requires queue != {}
    ensures IsFirst(queue, k)
  {
    HasFirst(queue);
    var k :| IsFirst(queue, k);
    k
  }

  // Faults.

  datatype FaultTarget =
    | OneEvent(event: EventId)
    | OneMessage(message: MessageId)
    | OneTransfer(transfer: TransferId)
    | Route(source: EndpointId, destination: EndpointId, lane: Lane)
    | WholeLane(lane: Lane)
  {
    predicate Matches(e: Event) {
      match this
      case OneEvent(id) => e.id == id
      case OneMessage(id) => e.payload.Message? && e.payload.messageId == id
      case OneTransfer(id) => e.payload.Value? && e.payload.transfer == id
      case Route(from, to, lane) => e.Lane() == lane && e.source == from && e.intended == to
      case WholeLane(lane) => e.Lane() == lane
    }
  }

  datatype ExclusionGroup = DestinationGroup | ContentGroup | FanoutGroup | TimingGroup | RemovalGroup

  datatype FaultAction =
    | Delay(ticks: U64)
    | Drop
    | Duplicate(copies: U16, spacing: U64)
    | ReplaceDestination(endpoint: EndpointId)
    | CorruptByte(offset: nat, mask: U8)
    | Partial(amount: U128)
    | Split(pieces: seq<U128>, spacing: U64)
    | OverDeliver(amount: U128)
  {
    /** The pass in which the action runs: reroute, content, fan-out, delay, drop. */
    function Stage(): nat {
      match this
      case ReplaceDestination(_) => 0
      case CorruptByte(_, _) => 1
      case Partial(_) => 1
      case Split(_, _) => 1
      case OverDeliver(_) => 1
      case Duplicate(_, _) => 2
      case Delay(_) => 3
      case Drop => 4
    }

    /** Actions in one group cannot both apply to a single event. */
    function Group(): ExclusionGroup {
      match this
      case ReplaceDestination(_) => DestinationGroup
      case CorruptByte(_, _) => ContentGroup
      case Partial(_) => ContentGroup
      case Split(_, _) => ContentGroup
      case OverDeliver(_) => ContentGroup
      case Duplicate(_, _) => FanoutGroup
      case Delay(_) => TimingGroup
      case Drop => RemovalGroup
    }

    predicate CreatesEvents() {
      Duplicate? || Split?
    }

    function RequiredLane(): Option<Lane> {
      if CorruptByte? then Some(Control)
      else if Partial? || Split? || OverDeliver? then Some(Assets)
      else None
    }
  }

  datatype Fault = Fault(id: FaultId, target: FaultTarget, action: FaultAction) {
    /** Composition order: by stage, then by identifier. */
    predicate Precedes(other: Fault) {
      || action.Stage() < other.action.Stage()
      || (action.Stage() == other.action.Stage() && id < other.id)
    }
  }

  type FaultPlan = map<FaultId, Fault>

  predicate PlanSound(plan: FaultPlan) {
    forall id :: id in plan ==> plan[id].id == id
  }

  predicate IsEarliest(plan: FaultPlan, ids: set<FaultId>, id: FaultId)
    requires ids <= plan.Keys
  {
    id in ids && forall j :: j in ids ==> j == id || plan[id].Precedes(plan[j])
  }

  lemma {:induction false} HasEarliest(plan: FaultPlan, ids: set<FaultId>)
    requires ids != {} && ids <= plan.Keys && PlanSound(plan)
    ensures exists id :: IsEarliest(plan, ids, id)
    decreases |ids|
  {
    var id :| id in ids;
    var rest := ids - {id};
    assert forall j :: j in ids ==> j == id || j in rest;
    if rest == {} {
      assert IsEarliest(plan, ids, id);
    } else {
      HasEarliest(plan, rest);
      var first :| IsEarliest(plan, rest, first);
      assert IsEarliest(plan, ids, if plan[id].Precedes(plan[first]) then id else first);
    }
  }

  /** The given faults in composition order. */
  ghost function InOrder(plan: FaultPlan, ids: set<FaultId>): seq<Fault>
    requires ids <= plan.Keys && PlanSound(plan)
    decreases |ids|
  {
    if ids == {} then [] else
      HasEarliest(plan, ids);
      var id :| IsEarliest(plan, ids, id);
      [plan[id]] + InOrder(plan, ids - {id})
  }

  /** Exactly those faults, each once. */
  lemma {:induction false} InOrderHolds(plan: FaultPlan, ids: set<FaultId>, f: Fault)
    requires ids <= plan.Keys && PlanSound(plan)
    ensures f in InOrder(plan, ids) <==> f.id in ids && plan[f.id] == f
    decreases |ids|
  {
    if ids != {} {
      HasEarliest(plan, ids);
      var id :| IsEarliest(plan, ids, id) && InOrder(plan, ids) == [plan[id]] + InOrder(plan, ids - {id});
      InOrderHolds(plan, ids - {id}, f);
    }
  }

  // Deliveries.

  datatype Delivery = Delivery(
    event: EventId, source: EndpointId, intended: EndpointId, payload: Payload,
    deliveredAt: Tick, duplicateOf: Option<EventId>, late: bool)

  datatype Endpoint = Endpoint(state: EndpointState, controlInbox: seq<Delivery>, assetInbox: seq<Delivery>) {
    function Inbox(lane: Lane): seq<Delivery> {
      if lane == Control then controlInbox else assetInbox
    }

    function Pushed(lane: Lane, d: Delivery): Endpoint {
      if lane == Control then this.(controlInbox := controlInbox + [d]) else this.(assetInbox := assetInbox + [d])
    }
  }

  datatype LatePolicy = DeliverWithMarker | Expire

  datatype SimConfig = SimConfig(controlLatePolicy: LatePolicy, assetLatePolicy: LatePolicy) {
    function Policy(lane: Lane): LatePolicy {
      if lane == Control then controlLatePolicy else assetLatePolicy
    }
  }

  // Refusals.

  datatype ConfigProblem =
    | EmptyMessage | ActionLaneMismatch | SameEndpointRoute | NoDuplicateCopies | NoEndpoints
    | CorruptOffsetOutOfRange | NoByteChange

  datatype SimError =
    | DuplicateEndpoint(endpoint: EndpointId)
    | UnknownEndpoint(endpoint: EndpointId)
    | DuplicateEventId(event: EventId)
    | UnknownEvent(event: EventId)
    | DuplicateFaultId(fault: FaultId)
    | TimeMovesBackwards(now: Tick, requested: Tick)
    | DeliveryTickInPast(now: Tick, requested: Tick)
    | ZeroAssetAmount
    | InvalidPartialSplit
    | PartialSumExceedsRequest(asked: U128, offered: U128)
    | ConflictingFaults(first: FaultId, second: FaultId)
    | ArithmeticOverflow
    | InvalidConfiguration(problem: ConfigProblem)
    | EventAlreadyTerminal(event: EventId)
    | FaultsAlreadyBound(event: EventId)

  datatype ControlRequest = ControlRequest(
    id: Option<EventId>, source: EndpointId, destination: EndpointId, bytes: Bytes,
    deliverAt: Tick, expiresAt: Option<Tick>)

  datatype AssetRequest = AssetRequest(
    id: Option<EventId>, transfer: TransferId, source: EndpointId, destination: EndpointId, amount: U128,
    deliverAt: Tick, timeoutAt: Option<Tick>)
}
