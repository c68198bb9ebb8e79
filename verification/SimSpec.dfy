/** What every simulator operation does, as a function from network to network. */
module SimSpec {
  import opened Results
  import opened Words
  import opened SimTypes

  /**
   * The whole simulated network. `lineage` is the part of the trace that says which caller event
   * a copy or piece was made from.
   */
  datatype Net = Net(
    config: SimConfig,
    now: Tick,
    endpoints: Endpoints,
    events: map<EventId, Event>,
    queue: set<QueueKey>,
    held: set<EventId>,
    lanes: map<Lane, LaneState>,
    plan: FaultPlan,
    resolved: set<EventId>,
    nextEvent: U64,
    lineage: map<EventId, EventId>)
  {
    predicate LanePaused(lane: Lane) {
      lane in lanes && lanes[lane] == Paused
    }

    function With(e: Event): Net {
      this.(events := events[e.id := e])
    }

    /** A new event, queued under its own key. */
    function Queued(e: Event, root: EventId): Net {
      this.(events := events[e.id := e], queue := queue + {e.Key()}, lineage := lineage[e.id := root])
    }

    function Requeued(e: Event): Net {
      this.(events := events[e.id := e], queue := queue + {e.Key()})
    }
  }

  type Endpoints = map<EndpointId, Endpoint>

  type Outcomes<+T> = Result<T, SimError>

  // Scheduling.

  function RequireEndpoint(endpoints: Endpoints, id: EndpointId): Check<SimError> {
    Need(id in endpoints, UnknownEndpoint(id))
  }

  function CheckRoute(endpoints: Endpoints, source: EndpointId, destination: EndpointId): Check<SimError> {
    var _ :- RequireEndpoint(endpoints, source);
    var _ :- RequireEndpoint(endpoints, destination);
    Need(source != destination, InvalidConfiguration(SameEndpointRoute))
  }

  /** The id an event gets, and the counter after it. */
  function ReserveId(events: map<EventId, Event>, next: U64, wanted: Option<EventId>): Outcomes<(EventId, U64)> {
    var id := if wanted.Some? then wanted.value else next;
    var _ :- Need(id !in events, DuplicateEventId(id));
    var _ :- Need(id + 1 < LIMIT64, ArithmeticOverflow);
    Ok((id, if next <= id then id + 1 else next))
  }

  function ScheduleControl(identity: Identity, n: Net, r: ControlRequest): Outcomes<Net> {
    var _ :- CheckRoute(n.endpoints, r.source, r.destination);
    var _ :- Need(r.bytes != [], InvalidConfiguration(EmptyMessage));
    var _ :- Need(n.now <= r.deliverAt, DeliveryTickInPast(n.now, r.deliverAt));
    var (id, next) :- ReserveId(n.events, n.nextEvent, r.id);
    var event := Event(
      id, r.source, r.destination, r.destination, Message(r.bytes, identity(r.bytes), None),
      r.deliverAt, 0, None, r.expiresAt, false, Scheduled);
    Ok(n.(nextEvent := next).Queued(event, id))
  }

  function ScheduleAsset(n: Net, r: AssetRequest): Outcomes<Net> {
    var _ :- CheckRoute(n.endpoints, r.source, r.destination);
    var _ :- Need(r.amount != 0, ZeroAssetAmount);
    var _ :- Need(n.now <= r.deliverAt, DeliveryTickInPast(n.now, r.deliverAt));
    var (id, next) :- ReserveId(n.events, n.nextEvent, r.id);
    var event := Event(
      id, r.source, r.destination, r.destination, Value(r.transfer, r.amount, r.amount, None, false),
      r.deliverAt, 0, None, r.timeoutAt, false, Scheduled);
    Ok(n.(nextEvent := next).Queued(event, id))
  }

  function AddEndpoint(n: Net, id: EndpointId): Outcomes<Net> {
    var _ :- Need(id !in n.endpoints, DuplicateEndpoint(id));
    Ok(n.(endpoints := n.endpoints[id := Endpoint(Active, [], [])]))
  }

  // Registering faults.

  function SumPieces(pieces: seq<U128>): nat {
    if pieces == [] then 0 else pieces[0] + SumPieces(pieces[1..])
  }

  function TargetLane(events: map<EventId, Event>, f: Fault): Outcomes<Lane> {
    match f.target
    case OneEvent(id) => if id in events then Ok(events[id].Lane()) else Err(UnknownEvent(id))
    case OneMessage(_) => Ok(Control)
    case OneTransfer(_) => Ok(Assets)
    case Route(_, _, lane) => Ok(lane)
    case WholeLane(lane) => Ok(lane)
  }

  function CheckTargetEndpoints(endpoints: Endpoints, f: Fault): Check<SimError> {
    var _ :- if f.target.Route? then RequireEndpoint(endpoints, f.target.source) else Ok(());
    var _ :- if f.target.Route? then RequireEndpoint(endpoints, f.target.destination) else Ok(());
    if f.action.ReplaceDestination? then RequireEndpoint(endpoints, f.action.endpoint) else Ok(())
  }

  function CheckShape(a: FaultAction): Check<SimError> {
    match a
    case Duplicate(copies, _) => Need(copies != 0, InvalidConfiguration(NoDuplicateCopies))
    case CorruptByte(_, mask) => Need(mask != 0, InvalidConfiguration(NoByteChange))
    case Partial(amount) => Need(amount != 0, ZeroAssetAmount)
    case OverDeliver(amount) => Need(amount != 0, ZeroAssetAmount)
    case Split(pieces, _) =>
      var _ :- Need(pieces != [] && 0 !in pieces, InvalidPartialSplit);
      Need(SumPieces(pieces) < LIMIT128, ArithmeticOverflow)
    case _ => Ok(())
  }

  function RequestedBy(e: Event): U128 {
    if e.payload.Value? then e.payload.requested else 0
  }

  function CheckNamedEvent(
    events: map<EventId, Event>, resolved: set<EventId>, id: EventId, a: FaultAction): Check<SimError>
  {
    var _ :- Need(id in events, UnknownEvent(id));
    var e := events[id];
    var _ :- Need(!e.status.IsTerminal(), EventAlreadyTerminal(id));
    var _ :- Need(id !in resolved, FaultsAlreadyBound(id));
    match a
    case CorruptByte(offset, _) =>
      Need(offset < if e.payload.Message? then |e.payload.bytes| else 0, InvalidConfiguration(CorruptOffsetOutOfRange))
    case Partial(amount) =>
      Need(amount <= RequestedBy(e), PartialSumExceedsRequest(RequestedBy(e), amount))
    case Split(pieces, _) =>
      if LIMIT128 <= SumPieces(pieces) then Err(ArithmeticOverflow)
      else Need(SumPieces(pieces) <= RequestedBy(e), PartialSumExceedsRequest(RequestedBy(e), SumPieces(pieces)))
    case _ => Ok(())
  }

  /** Registered faults of the same group on the same target. */
  function Rivals(plan: FaultPlan, f: Fault): set<FaultId> {
    set id | id in plan && plan[id].target == f.target && plan[id].action.Group() == f.action.Group()
  }

  predicate IsLeast(ids: set<FaultId>, id: FaultId) {
    id in ids && forall j :: j in ids ==> id <= j
  }

  lemma {:induction false} HasLeast(ids: set<FaultId>)
    requires ids != {}
    ensures exists id :: IsLeast(ids, id)
    decreases |ids|
  {
    var id :| id in ids;
    var rest := ids - {id};
    assert forall j :: j in ids ==> j == id || j in rest;
    if rest == {} {
      assert IsLeast(ids, id);
    } else {
      HasLeast(rest);
      var least :| IsLeast(rest, least);
      assert IsLeast(ids, if id < least then id else least);
    }
  }

  ghost function Least(ids: set<FaultId>): (id: FaultId)
    requires ids != {}
    ensures IsLeast(ids, id)
  {
    HasLeast(ids);
    var id :| IsLeast(ids, id);
    id
  }

  ghost function AddFault(n: Net, f: Fault): Outcomes<Net> {
    var _ :- Need(f.id !in n.plan, DuplicateFaultId(f.id));
    var lane :- TargetLane(n.events, f);
    var _ :- Need(
      f.action.RequiredLane().None? || f.action.RequiredLane().value == lane, InvalidConfiguration(ActionLaneMismatch));
    var _ :- CheckTargetEndpoints(n.endpoints, f);
    var _ :- CheckShape(f.action);
    var _ :- if f.target.OneEvent? then CheckNamedEvent(n.events, n.resolved, f.target.event, f.action) else Ok(());
    if Rivals(n.plan, f) != {} then Err(ConflictingFaults(Least(Rivals(n.plan, f)), f.id))
    else Ok(n.(plan := n.plan[f.id := f]))
  }

  // Time.

  function AdvanceTo(n: Net, target: Tick): Outcomes<Net> {
    var _ :- Need(n.now <= target, TimeMovesBackwards(n.now, target));
    Ok(n.(now := target))
  }

  function AdvanceBy(n: Net, ticks: U64): Outcomes<Net> {
    if AddTicks(n.now, ticks).None? then Err(ArithmeticOverflow) else AdvanceTo(n, AddTicks(n.now, ticks).value)
  }

  // Fault composition.

  datatype RejectReason =
    | UnknownDestination | ConflictingGroup | DuplicateCopiesIsZero | CorruptMaskIsZero | AlreadyCorrupted
    | OffsetOutOfRange | AmountIsZero | AmountExceedsRequest | OverDeliveryNotAboveRequest
    | SplitHasNoPieces | SplitPieceIsZero | SplitExceedsRequest

  function CheckAction(endpoints: Endpoints, a: FaultAction, e: Event): Option<RejectReason> {
    match a
    case ReplaceDestination(to) => if to in endpoints then None else Some(UnknownDestination)
    case Duplicate(copies, _) => if copies == 0 then Some(DuplicateCopiesIsZero) else None
    case CorruptByte(offset, mask) =>
      if !e.payload.Message? then None
      else if mask == 0 then Some(CorruptMaskIsZero)
      else if e.payload.mutation.Some? then Some(AlreadyCorrupted)
      else if |e.payload.bytes| <= offset then Some(OffsetOutOfRange) else None
    case Partial(amount) =>
      if !e.payload.Value? then None
      else if amount == 0 then Some(AmountIsZero)
      else if e.payload.requested < amount then Some(AmountExceedsRequest) else None
    case OverDeliver(amount) =>
      if !e.payload.Value? then None
      else if amount <= e.payload.requested then Some(OverDeliveryNotAboveRequest) else None
    case Split(pieces, _) =>
      if !e.payload.Value? then None
      else if pieces == [] then Some(SplitHasNoPieces)
      else if 0 in pieces then Some(SplitPieceIsZero)
      else if LIMIT128 <= SumPieces(pieces) || e.payload.requested < SumPieces(pieces) then Some(SplitExceedsRequest)
      else None
    case Delay(_) => None
    case Drop => None
  }

  /** The first fault of a batch that repeats a group or cannot be applied. */
  function CheckBatch(
    endpoints: Endpoints, batch: seq<Fault>, e: Event, groups: set<ExclusionGroup>): Option<RejectReason>
  {
    if batch == [] then None
    else if batch[0].action.Group() in groups then Some(ConflictingGroup)
    else if CheckAction(endpoints, batch[0].action, e).Some? then CheckAction(endpoints, batch[0].action, e)
    else CheckBatch(endpoints, batch[1..], e, groups + {batch[0].action.Group()})
  }

  /** The faults that still apply: an event made by a fault never makes more events. */
  function Pending(plan: FaultPlan, e: Event): set<FaultId> {
    set id | id in plan && plan[id].target.Matches(e) && !(e.fromFault && plan[id].action.CreatesEvents())
  }

  /** The next unused id, if the counter has room. */
  function FreeId(events: map<EventId, Event>, candidate: U64): (r: Option<EventId>)
    ensures r.Some? ==> r.value !in events && candidate <= r.value && r.value + 1 < LIMIT64
    ensures r.Some? ==> forall id: EventId :: candidate <= id < r.value ==> id in events
    ensures r.None? ==> forall id: EventId :: candidate <= id < LIMIT64 - 1 ==> id in events
    decreases LIMIT64 - candidate
  {
    if LIMIT64 <= candidate + 1 then None
    else if candidate !in events then Some(candidate)
    else FreeId(events, candidate + 1)
  }

  function Narrow16(i: nat): U16 {
    if i < 0x1_0000 then i else 0xFFFF
  }

  /** Makes the pieces of a split from the `i`-th on. */
  function AddPieces(n: Net, origin: Event, pieces: seq<U128>, i: nat, spacing: U64): Net
    requires origin.payload.Value? && i <= |pieces|
    decreases |pieces| - i
  {
    var free := FreeId(n.events, n.nextEvent);
    if i == |pieces| || free.None? then n else
      var piece := origin.(
        id := free.value, deliverAt := Spaced(n.now, spacing, Narrow16(i)), attempts := 0,
        payload := origin.payload.(delivered := pieces[i], piece := Some(Narrow16(i))),
        fromFault := true, status := Scheduled);
      AddPieces(n.(nextEvent := free.value + 1).Queued(piece, origin.id), origin, pieces, i + 1, spacing)
  }

  /** Makes the remaining copies of an event, starting with copy `i`. */
  function AddCopies(n: Net, origin: Event, copies: U16, i: nat, spacing: U64): Net
    requires 1 <= i <= copies + 1
    decreases copies + 1 - i
  {
    var free := FreeId(n.events, n.nextEvent);
    if i == copies + 1 || free.None? then n else
      var copy := origin.(
        id := free.value, deliverAt := Spaced(n.now, spacing, Narrow16(i)), attempts := 0,
        duplicateOf := Some(origin.id), fromFault := true, status := Scheduled);
      AddCopies(n.(nextEvent := free.value + 1).Queued(copy, origin.id), origin, copies, i + 1, spacing)
  }

  function Flip(b: U8, mask: U8): U8 {
    ((b as bv8) ^ (mask as bv8)) as int
  }

  function Corrupted(identity: Identity, e: Event, offset: nat, mask: U8): Event {
    if !e.payload.Message? || |e.payload.bytes| <= offset then e else
      var before := e.payload.bytes[offset];
      var bytes := e.payload.bytes[offset := Flip(before, mask)];
      var original :=
        if e.payload.mutation.Some? then e.payload.mutation.value.originalMessageId else e.payload.messageId;
      e.(payload := Message(
           bytes, identity(bytes), Some(ByteMutation(offset, before, Flip(before, mask), original))))
  }

  function WithDelivered(e: Event, amount: U128, over: bool): Event {
    if e.payload.Value? then e.(payload := e.payload.(delivered := amount, overDelivered := over)) else e
  }

  /** One fault of an accepted batch. Delays and drops only leave their mark in the outcome. */
  function ApplyFault(identity: Identity, n: Net, e: Event, a: FaultAction): (Net, Event) {
    match a
    case ReplaceDestination(to) => (n, e.(destination := to))
    case CorruptByte(offset, mask) => (n, Corrupted(identity, e, offset, mask))
    case Partial(amount) => (n, WithDelivered(e, amount, false))
    case OverDeliver(amount) => (n, WithDelivered(e, amount, true))
    case Split(pieces, spacing) =>
      if !e.payload.Value? || pieces == [] then (n, e) else
        var first := e.(payload := e.payload.(delivered := pieces[0], piece := Some(0)));
        (AddPieces(n, first, pieces, 1, spacing), first)
    case Duplicate(copies, spacing) => (AddCopies(n, e, copies, 1, spacing), e)
    case Delay(_) => (n, e)
    case Drop => (n, e)
  }

  datatype Verdict = Proceed | Delayed(to: Tick) | DroppedBy(fault: FaultId) | Rejected(reason: RejectReason)

  /** A drop outweighs a delay, and a later delay an earlier one. */
  function Marked(v: Verdict, now: Tick, f: Fault): Verdict {
    match f.action
    case Delay(ticks) =>
      if v.DroppedBy? then v else Delayed(if AddTicks(now, ticks).Some? then AddTicks(now, ticks).value else LAST_TICK)
    case Drop => DroppedBy(f.id)
    case _ => v
  }

  function ApplyBatch(identity: Identity, n: Net, e: Event, batch: seq<Fault>, v: Verdict): (Net, Event, Verdict)
    decreases |batch|
  {
    if batch == [] then (n, e, v) else
      var (n', e') := ApplyFault(identity, n, e, batch[0].action);
      ApplyBatch(identity, n', e', batch[1..], Marked(v, n.now, batch[0]))
  }

  /** Decides an event's faults, once. */
  ghost function Compose(identity: Identity, n: Net, e: Event): (Net, Event, Verdict)
    requires PlanSound(n.plan)
  {
    if e.id in n.resolved then (n, e, Proceed) else
      var n' := n.(resolved := n.resolved + {e.id});
      var batch := InOrder(n.plan, Pending(n.plan, e));
      var problem := CheckBatch(n.endpoints, batch, e, {});
      if problem.Some? then (n', e, Rejected(problem.value))
      else ApplyBatch(identity, n', e, batch, Proceed)
  }

  // Delivery.

  function Handed(n: Net, e: Event, late: bool): Net {
    var record := Delivery(e.id, e.source, e.intended, e.payload, n.now, e.duplicateOf, late);
    var n' := n.With(e.(status := Delivered));
    if e.destination in n.endpoints
    then n'.(endpoints := n.endpoints[e.destination := n.endpoints[e.destination].Pushed(e.Lane(), record)])
    else n'
  }

  function Blocks(n: Net, e: Event): Net {
    n.With(e.(status := Blocked)).(held := n.held + {e.id})
  }

  predicate PathBlocked(n: Net, e: Event) {
    n.LanePaused(e.Lane()) || (e.destination in n.endpoints && n.endpoints[e.destination].state == Halted)
  }

  predicate IsLate(n: Net, e: Event) {
    e.deadline.Some? && e.deadline.value < n.now
  }

  /** What happens to an event whose faults let it through. */
  function Proceeds(n: Net, e: Event): Net {
    if n.LanePaused(e.Lane()) then Blocks(n, e)
    else if e.destination !in n.endpoints then n.With(e.(status := RejectedBySimulator))
    else if n.endpoints[e.destination].state == Halted then Blocks(n, e)
    else if IsLate(n, e) && n.config.Policy(e.Lane()) == Expire then n.With(e.(status := Expired))
    else Handed(n, e, IsLate(n, e))
  }

  function Settled(n: Net, e: Event, v: Verdict): Net {
    match v
    case Rejected(_) => n.With(e.(status := RejectedBySimulator))
    case DroppedBy(_) => n.With(e.(status := Dropped))
    case Delayed(to) => n.Requeued(e.(status := Scheduled, deliverAt := to))
    case Proceed => Proceeds(n, e)
  }

  ghost function Attempt(identity: Identity, n: Net, id: EventId): Net
    requires PlanSound(n.plan)
  {
    if id !in n.events || n.events[id].status.IsTerminal() then n else
      var (n', e, v) := Compose(identity, n, n.events[id].Bumped());
      Settled(n', e, v)
  }

  /** Some event is due now. */
  ghost predicate IsDue(n: Net) {
    n.queue != {} && First(n.queue).deliverAt <= n.now
  }

  ghost function DeliverNext(identity: Identity, n: Net): Net
    requires PlanSound(n.plan) && IsDue(n)
  {
    var key := First(n.queue);
    Attempt(identity, n.(queue := n.queue - {key}), key.event)
  }

  // Endpoint and lane control.

  /** The held events whose path is clear. */
  function Clear(n: Net): set<EventId> {
    set id | id in n.held && id in n.events && !n.LanePaused(n.events[id].Lane())
      && n.events[id].destination in n.endpoints && n.endpoints[n.events[id].destination].state == Active
  }

  function Later(a: Tick, b: Tick): Tick {
    if a < b then b else a
  }

  function Released(n: Net, id: EventId): Net
    requires id in n.events
  {
    var e := n.events[id].(status := Scheduled, deliverAt := Later(n.now, n.events[id].deliverAt));
    n.(held := n.held - {id}).Requeued(e)
  }

  /** Puts every held event whose path is clear back into the queue, each at its own tick or now. */
  ghost function ReleaseHeld(n: Net): Net {
    var free := Clear(n);
    n.(held := n.held - free,
       events := map id | id in n.events ::
         if id in free && id in n.events
         then n.events[id].(status := Scheduled, deliverAt := Later(n.now, n.events[id].deliverAt))
         else if id in n.events then n.events[id] else NO_EVENT,
       queue := n.queue + set id | id in free ::
         n.events[id].(status := Scheduled, deliverAt := Later(n.now, n.events[id].deliverAt)).Key())
  }

  const NO_EVENT := Event(0, 0, 0, 0, Message([], 0, None), 0, 0, None, None, false, Scheduled)

  function WithEndpointState(n: Net, id: EndpointId, state: EndpointState): Outcomes<Net> {
    var _ :- RequireEndpoint(n.endpoints, id);
    Ok(n.(endpoints := n.endpoints[id := n.endpoints[id].(state := state)]))
  }

  ghost function ResumeEndpoint(n: Net, id: EndpointId): Outcomes<Net> {
    var active :- WithEndpointState(n, id, Active);
    Ok(ReleaseHeld(active))
  }

  ghost function ResumeLane(n: Net, lane: Lane): Net {
    ReleaseHeld(n.(lanes := n.lanes[lane := Running]))
  }

  // Reordering.

  /** The queued key of an event. */
  ghost predicate HasKey(n: Net, id: EventId) {
    exists k :: k in n.queue && k.event == id
  }

  ghost function PendingKey(n: Net, id: EventId): Outcomes<QueueKey> {
    if id !in n.events then Err(UnknownEvent(id))
    else if !HasKey(n, id) then Err(EventAlreadyTerminal(id))
    else
      var k :| k in n.queue && k.event == id;
      Ok(k)
  }

  function MoveTo(n: Net, key: QueueKey, target: Tick): Net {
    if key.deliverAt == target then n
    else if key.event !in n.events then n.(queue := n.queue - {key})
    else n.(queue := n.queue - {key}).Requeued(n.events[key.event].(deliverAt := target))
  }

  ghost function SwapTicks(n: Net, left: EventId, right: EventId): Outcomes<Net> {
    var l :- PendingKey(n, left);
    var r :- PendingKey(n, right);
    Ok(MoveTo(MoveTo(n, l, r.deliverAt), r, l.deliverAt))
  }

  ghost function MoveBefore(n: Net, event: EventId, other: EventId): Outcomes<Net> {
    var key :- PendingKey(n, event);
    var anchor :- PendingKey(n, other);
    Ok(MoveTo(n, key, Later(if anchor.deliverAt == 0 then 0 else anchor.deliverAt - 1, n.now)))
  }

  ghost function MoveAfter(n: Net, event: EventId, other: EventId): Outcomes<Net> {
    var key :- PendingKey(n, event);
    var anchor :- PendingKey(n, other);
    if AddTicks(anchor.deliverAt, 1).None? then Err(ArithmeticOverflow)
    else Ok(MoveTo(n, key, AddTicks(anchor.deliverAt, 1).value))
  }
}
