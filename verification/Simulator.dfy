/** The deterministic transport engine, updated in place. */
module SimEngine {
  import opened Results
  import opened Words
  import opened SimTypes
  import opened SimSpec
  import opened SimPlaces
  import opened SimProgress
  import opened SimRun

  /** A refused call reports the specified reason and changes nothing; an accepted one makes the specified move. */
  ghost predicate Agrees<T>(r: Result<T, SimError>, spec: Outcomes<Net>, before: Net, after: Net) {
    match spec
    case Ok(n) => r.Ok? && after == n
    case Err(reason) => r == Err(reason) && after == before
  }

  /** Counters stop at the 32-bit limit. */
  function Capped(n: nat): U32 {
    if n <= 0xFFFF_FFFF then n else 0xFFFF_FFFF
  }

  function CappedAdd(a: U32, b: U32): U32 {
    Capped(a + b)
  }

  ghost predicate Distinct(ids: seq<EndpointId>) {
    forall i, j :: 0 <= i < j < |ids| ==> ids[i] != ids[j]
  }

  lemma FirstIsUnique(queue: set<QueueKey>, k: QueueKey)
    requires IsFirst(queue, k)
    ensures queue != {} && First(queue) == k
  {
    assert k in queue;
  }

  /** The entry that should be attempted next. */
  method Peek(queue: set<QueueKey>) returns (r: Option<QueueKey>)
    ensures queue == {} ==> r == None
    ensures queue != {} ==> r == Some(First(queue))
  {
    if queue == {} {
      return None;
    }
    var first :| first in queue;
    var left := queue - {first};
    while left != {}
      invariant left <= queue && first in queue
      invariant forall j :: j in queue && j !in left ==> j == first || first.Before(j)
      decreases left
    {
      var k :| k in left;
      if k.Before(first) {
        first := k;
      }
      left := left - {k};
    }
    FirstIsUnique(queue, first);
    return Some(first);
  }

  lemma EarliestIsUnique(plan: FaultPlan, ids: set<FaultId>, id: FaultId)
    requires ids <= plan.Keys && PlanSound(plan) && IsEarliest(plan, ids, id)
    ensures InOrder(plan, ids) == [plan[id]] + InOrder(plan, ids - {id})
  {
    HasEarliest(plan, ids);
    var j :| IsEarliest(plan, ids, j) && InOrder(plan, ids) == [plan[j]] + InOrder(plan, ids - {j});
    assert plan[j].Precedes(plan[id]) ==> j == id;
  }

  method Earliest(plan: FaultPlan, ids: set<FaultId>) returns (first: FaultId)
    requires ids != {} && ids <= plan.Keys && PlanSound(plan)
    ensures IsEarliest(plan, ids, first)
  {
    first :| first in ids;
    var left := ids - {first};
    while left != {}
      invariant left <= ids && first in ids
      invariant forall j :: j in ids && j !in left ==> j == first || plan[first].Precedes(plan[j])
      decreases left
    {
      var id :| id in left;
      if plan[id].Precedes(plan[first]) {
        first := id;
      }
      left := left - {id};
    }
  }

  /** The faults that reach an event, in composition order. */
  method PendingFaults(plan: FaultPlan, e: Event) returns (batch: seq<Fault>)
    requires PlanSound(plan)
    ensures batch == InOrder(plan, Pending(plan, e))
  {
    var left := Pending(plan, e);
    batch := [];
    while left != {}
      invariant left <= plan.Keys
      invariant InOrder(plan, Pending(plan, e)) == batch + InOrder(plan, left)
      decreases left
    {
      var id := Earliest(plan, left);
      EarliestIsUnique(plan, left, id);
      batch := batch + [plan[id]];
      left := left - {id};
    }
  }

  method LeastOf(ids: set<FaultId>) returns (least: FaultId)
    requires ids != {}
    ensures least == Least(ids)
  {
    least :| least in ids;
    var left := ids - {least};
    while left != {}
      invariant left <= ids && least in ids
      invariant forall j :: j in ids && j !in left ==> least <= j
      decreases left
    {
      var id :| id in left;
      if id < least {
        least := id;
      }
      left := left - {id};
    }
    assert IsLeast(ids, Least(ids));
  }

  /** Operations on endpoints, lanes and the order of delivery. */
  predicate Steers(op: Operation) {
    || op.DoHaltEndpoint? || op.DoResumeEndpoint? || op.DoPauseLane? || op.DoResumeLane?
    || op.DoSwapTicks? || op.DoMoveBefore? || op.DoMoveAfter?
  }

  class Simulator {
    const identity: Identity
    const config: SimConfig
    var now: Tick
    var endpoints: map<EndpointId, Endpoint>
    var events: map<EventId, Event>
    var queue: set<QueueKey>
    var held: set<EventId>
    var lanes: map<Lane, LaneState>
    var plan: FaultPlan
    var resolved: set<EventId>
    var nextEvent: U64
    ghost var lineage: map<EventId, EventId>

    ghost function View(): Net
      reads this
    {
      Net(config, now, endpoints, events, queue, held, lanes, plan, resolved, nextEvent, lineage)
    }

    /** A network of distinct endpoints, all active. */
    constructor (identity: Identity, config: SimConfig, ids: set<EndpointId>)
      ensures this.identity == identity && View() == Fresh(config, ids) && Valid(View())
    {
      this.identity := identity;
      this.config := config;
      now := 0;
      endpoints := map p | p in ids :: Endpoint(Active, [], []);
      events := map[];
      queue := {};
      held := {};
      lanes := map[Control := Running, Assets := Running];
      plan := map[];
      resolved := {};
      nextEvent := 1;
      lineage := map[];
    }

    /** Builds a network from a list of endpoint identifiers. */
    static method WithConfig(identity: Identity, config: SimConfig, ids: seq<EndpointId>)
      returns (r: Result<Simulator, SimError>)
      ensures r.Ok? <==> ids != [] && Distinct(ids)
      ensures ids == [] ==> r == Err(InvalidConfiguration(NoEndpoints))
      ensures ids != [] && r.Err? ==>
        exists i :: 0 <= i < |ids| && ids[i] in ids[..i] && Distinct(ids[..i]) && r.error == DuplicateEndpoint(ids[i])
      ensures r.Ok? ==> fresh(r.value) && r.value.View() == Fresh(config, set id | id in ids)
    {
      if ids == [] {
        return Err(InvalidConfiguration(NoEndpoints));
      }
      var known: set<EndpointId> := {};
      for i := 0 to |ids|
        invariant known == set id | id in ids[..i]
        invariant Distinct(ids[..i])
      {
        if ids[i] in known {
          return Err(DuplicateEndpoint(ids[i]));
        }
        known := known + {ids[i]};
      }
      assert ids[..|ids|] == ids;
      var simulator := new Simulator(identity, config, known);
      return Ok(simulator);
    }

    // Scheduling.

    method InsertScheduled(event: Event, ghost root: EventId)
      modifies this
      ensures View() == old(View()).Queued(event, root)
    {
      events := events[event.id := event];
      queue := queue + {event.Key()};
      lineage := lineage[event.id := root];
    }

    method ScheduleControl(request: ControlRequest) returns (r: Result<EventId, SimError>)
      modifies this
      ensures Agrees(r, SimSpec.ScheduleControl(identity, old(View()), request), old(View()), View())
      ensures r.Ok? ==> r.value in events && r.value !in old(events)
    {
      var _ :- CheckRoute(endpoints, request.source, request.destination);
      if request.bytes == [] {
        return Err(InvalidConfiguration(EmptyMessage));
      }
      if request.deliverAt < now {
        return Err(DeliveryTickInPast(now, request.deliverAt));
      }
      var reserved :- ReserveId(events, nextEvent, request.id);
      var id := reserved.0;
      nextEvent := reserved.1;
      InsertScheduled(Event(
        id, request.source, request.destination, request.destination,
        Message(request.bytes, identity(request.bytes), None), request.deliverAt, 0, None, request.expiresAt,
        false, Scheduled), id);
      return Ok(id);
    }

    method ScheduleAsset(request: AssetRequest) returns (r: Result<EventId, SimError>)
      modifies this
      ensures Agrees(r, SimSpec.ScheduleAsset(old(View()), request), old(View()), View())
      ensures r.Ok? ==> r.value in events && r.value !in old(events)
    {
      var _ :- CheckRoute(endpoints, request.source, request.destination);
      if request.amount == 0 {
        return Err(ZeroAssetAmount);
      }
      if request.deliverAt < now {
        return Err(DeliveryTickInPast(now, request.deliverAt));
      }
      var reserved :- ReserveId(events, nextEvent, request.id);
      var id := reserved.0;
      nextEvent := reserved.1;
      InsertScheduled(Event(
        id, request.source, request.destination, request.destination,
        Value(request.transfer, request.amount, request.amount, None, false), request.deliverAt, 0, None,
        request.timeoutAt, false, Scheduled), id);
      return Ok(id);
    }

    method TakeGeneratedId() returns (r: Option<EventId>)
      modifies this
      ensures r == FreeId(old(events), old(nextEvent))
      ensures View() == old(View()).(nextEvent := if r.Some? then r.value + 1 else old(nextEvent))
    {
      var candidate := nextEvent;
      while candidate in events
        invariant FreeId(events, candidate) == FreeId(events, nextEvent)
        decreases LIMIT64 - candidate
      {
        if candidate == LAST_TICK {
          return None;
        }
        candidate := candidate + 1;
      }
      if candidate == LAST_TICK {
        return None;
      }
      nextEvent := candidate + 1;
      return Some(candidate);
    }

    // Faults.

    /** Registers a fault, refusing anything that cannot combine safely. */
    method AddFault(fault: Fault) returns (r: Check<SimError>)
      modifies this
      ensures Agrees(r, SimSpec.AddFault(old(View()), fault), old(View()), View())
    {
      if fault.id in plan {
        return Err(DuplicateFaultId(fault.id));
      }
      var lane :- TargetLane(events, fault);
      var needed := fault.action.RequiredLane();
      if needed.Some? && needed.value != lane {
        return Err(InvalidConfiguration(ActionLaneMismatch));
      }
      var _ :- CheckTargetEndpoints(endpoints, fault);
      var _ :- CheckShape(fault.action);
      if fault.target.OneEvent? {
        var _ :- CheckNamedEvent(events, resolved, fault.target.event, fault.action);
      }
      var rivals := Rivals(plan, fault);
      if rivals != {} {
        var first := LeastOf(rivals);
        return Err(ConflictingFaults(first, fault.id));
      }
      plan := plan[fault.id := fault];
      return Ok(());
    }

    // Time.

    method AdvanceBy(ticks: U64) returns (r: Check<SimError>)
      modifies this
      ensures Agrees(r, SimSpec.AdvanceBy(old(View()), ticks), old(View()), View())
    {
      var target := AddTicks(now, ticks);
      if target.None? {
        return Err(ArithmeticOverflow);
      }
      r := AdvanceTo(target.value);
    }

    method AdvanceTo(target: Tick) returns (r: Check<SimError>)
      modifies this
      ensures Agrees(r, SimSpec.AdvanceTo(old(View()), target), old(View()), View())
    {
      if target < now {
        return Err(TimeMovesBackwards(now, target));
      }
      if target == now {
        return Ok(());
      }
      now := target;
      return Ok(());
    }

    // Fault composition.

    method CheckFaults(batch: seq<Fault>, e: Event) returns (r: Option<RejectReason>)
      ensures r == CheckBatch(endpoints, batch, e, {})
    {
      var groups: set<ExclusionGroup> := {};
      for i := 0 to |batch|
        invariant CheckBatch(endpoints, batch, e, {}) == CheckBatch(endpoints, batch[i..], e, groups)
      {
        var action := batch[i].action;
        assert batch[i..][0] == batch[i] && batch[i..][1..] == batch[i + 1..];
        if action.Group() in groups {
          return Some(ConflictingGroup);
        }
        groups := groups + {action.Group()};
        var problem := CheckAction(endpoints, action, e);
        if problem.Some? {
          return problem;
        }
      }
      return None;
    }

    /** Delivers the first piece with the event itself and schedules the others. */
    method SplitEvent(e: Event, pieces: seq<U128>, spacing: U64) returns (first: Event)
      modifies this
      ensures (View(), first) == ApplyFault(identity, old(View()), e, Split(pieces, spacing))
    {
      if !e.payload.Value? || pieces == [] {
        return e;
      }
      first := e.(payload := e.payload.(delivered := pieces[0], piece := Some(0)));
      var i := 1;
      while i < |pieces|
        invariant 1 <= i <= |pieces|
        invariant AddPieces(old(View()), first, pieces, 1, spacing) == AddPieces(View(), first, pieces, i, spacing)
      {
        var id := TakeGeneratedId();
        if id.None? {
          break;
        }
        InsertScheduled(first.(
          id := id.value, deliverAt := Spaced(now, spacing, Narrow16(i)), attempts := 0,
          payload := first.payload.(delivered := pieces[i], piece := Some(Narrow16(i))),
          fromFault := true, status := Scheduled), first.id);
        i := i + 1;
      }
    }

    /** Schedules exact copies of an event under new identifiers. */
    method DuplicateEvent(e: Event, copies: U16, spacing: U64)
      modifies this
      ensures View() == AddCopies(old(View()), e, copies, 1, spacing)
    {
      var i := 1;
      while i <= copies
        invariant 1 <= i <= copies + 1
        invariant AddCopies(old(View()), e, copies, 1, spacing) == AddCopies(View(), e, copies, i, spacing)
      {
        var id := TakeGeneratedId();
        if id.None? {
          break;
        }
        InsertScheduled(e.(
          id := id.value, deliverAt := Spaced(now, spacing, Narrow16(i)), attempts := 0,
          duplicateOf := Some(e.id), fromFault := true, status := Scheduled), e.id);
        i := i + 1;
      }
    }

    /** Decides an event's faults once, in composition order. */
    method ComposeFaults(original: Event) returns (e: Event, v: Verdict)
      requires PlanSound(plan)
      modifies this
      ensures (View(), e, v) == Compose(identity, old(View()), original)
    {
      hide AddPieces;
      hide AddCopies;
      hide CheckBatch;
      hide InOrder;
      hide Corrupted;
      e, v := original, Proceed;
      if original.id in resolved {
        return;
      }
      resolved := resolved + {original.id};
      var batch := PendingFaults(plan, original);
      var problem := CheckFaults(batch, original);
      if problem.Some? {
        v := Rejected(problem.value);
        return;
      }
      ghost var start := View();
      for i := 0 to |batch|
        invariant ApplyBatch(identity, start, original, batch, Proceed)
               == ApplyBatch(identity, View(), e, batch[i..], v)
      {
        var fault := batch[i];
        assert batch[i..][0] == fault && batch[i..][1..] == batch[i + 1..];
        v := Marked(v, now, fault);
        match fault.action
        case ReplaceDestination(to) => e := e.(destination := to);
        case CorruptByte(offset, mask) => e := Corrupted(identity, e, offset, mask);
        case Partial(amount) => e := WithDelivered(e, amount, false);
        case OverDeliver(amount) => e := WithDelivered(e, amount, true);
        case Split(pieces, spacing) => e := SplitEvent(e, pieces, spacing);
        case Duplicate(copies, spacing) => DuplicateEvent(e, copies, spacing);
        case Delay(_) =>
        case Drop =>
      }
    }

    // Delivery.

    method HandOver(e: Event, late: bool)
      modifies this
      ensures View() == Handed(old(View()), e, late)
    {
      var record := Delivery(e.id, e.source, e.intended, e.payload, now, e.duplicateOf, late);
      if e.destination in endpoints {
        endpoints := endpoints[e.destination := endpoints[e.destination].Pushed(e.Lane(), record)];
      }
      events := events[e.id := e.(status := Delivered)];
    }

    method Block(e: Event)
      modifies this
      ensures View() == Blocks(old(View()), e)
    {
      events := events[e.id := e.(status := Blocked)];
      held := held + {e.id};
    }

    method Attempt(id: EventId)
      requires PlanSound(plan)
      modifies this
      ensures View() == SimSpec.Attempt(identity, old(View()), id)
    {
      if id !in events || events[id].status.IsTerminal() {
        return;
      }
      var e, verdict := ComposeFaults(events[id].Bumped());
      match verdict
      case Rejected(_) => events := events[e.id := e.(status := RejectedBySimulator)];
      case DroppedBy(_) => events := events[e.id := e.(status := Dropped)];
      case Delayed(to) =>
        var later := e.(status := Scheduled, deliverAt := to);
        events := events[e.id := later];
        queue := queue + {later.Key()};
      case Proceed => PassOn(e);
    }

    method PassOn(e: Event)
      modifies this
      ensures View() == Proceeds(old(View()), e)
    {
      var lane := e.Lane();
      if lane in lanes && lanes[lane] == Paused {
        Block(e);
        return;
      }
      if e.destination !in endpoints {
        events := events[e.id := e.(status := RejectedBySimulator)];
        return;
      }
      if endpoints[e.destination].state == Halted {
        Block(e);
        return;
      }
      var late := false;
      if e.deadline.Some? && e.deadline.value < now {
        match config.Policy(lane)
        case Expire =>
          events := events[e.id := e.(status := Expired)];
          return;
        case DeliverWithMarker =>
          late := true;
      }
      HandOver(e, late);
    }

    /** Attempts the earliest event that is due, if any. */
    method DeliverNext() returns (r: Option<EventId>)
      requires Valid(View())
      modifies this
      ensures r.Some? <==> IsDue(old(View()))
      ensures r.None? ==> View() == old(View())
      ensures r.Some? ==> r.value == First(old(queue)).event && PlanSound(old(plan))
      ensures r.Some? ==> View() == SimSpec.DeliverNext(identity, old(View()))
      ensures Valid(View())
    {
      var first := Peek(queue);
      if first.None? || now < first.value.deliverAt {
        return None;
      }
      DeliverNextKeeps(identity, View());
      queue := queue - {first.value};
      Attempt(first.value.event);
      return Some(first.value.event);
    }

    /** Attempts every event that is due at the current tick. */
    method DeliverReady() returns (count: U32)
      requires Valid(View())
      modifies this
      ensures (View(), count) ==
        (SimRun.DeliverReady(identity, old(View())).0, Capped(SimRun.DeliverReady(identity, old(View())).1))
      ensures Valid(View()) && !IsDue(View())
    {
      hide Valid;
      hide SimRun.DeliverReady;
      hide SimSpec.DeliverNext;
      count := 0;
      ghost var start := View();
      ghost var made: nat := 0;
      while true
        invariant Valid(View()) && count == Capped(made)
        invariant SimRun.DeliverReady(identity, start).0 == SimRun.DeliverReady(identity, View()).0
        invariant SimRun.DeliverReady(identity, start).1 == made + SimRun.DeliverReady(identity, View()).1
        decreases |Callers(View())|, |Made(View())|, |Decided(View())|
      {
        ReadyUnfolds(identity, View());
        var delivered := DeliverNext();
        if delivered.None? {
          break;
        }
        count, made := CappedAdd(count, 1), made + 1;
      }
    }

    /** Runs until the queue holds nothing, moving time to each due tick. */
    method RunUntilIdle() returns (count: U32)
      requires Valid(View())
      modifies this
      ensures (View(), count) ==
        (SimRun.RunUntilIdle(identity, old(View())).0, Capped(SimRun.RunUntilIdle(identity, old(View())).1))
      ensures Valid(View()) && queue == {}
    {
      count := DrainTo(LAST_TICK);
    }

    /** Moves time to each due tick up to `limit` and delivers what is due there. */
    method DrainTo(limit: Tick) returns (count: U32)
      requires Valid(View()) && now <= limit
      modifies this
      ensures (View(), count) == (Drain(identity, old(View()), limit).0, Capped(Drain(identity, old(View()), limit).1))
      ensures Valid(View())
    {
      hide Valid;
      hide SimRun.DeliverReady;
      hide Drain;
      count := 0;
      ghost var start := View();
      ghost var made: nat := 0;
      while true
        invariant Valid(View()) && now <= limit && count == Capped(made)
        invariant Drain(identity, start, limit).0 == Drain(identity, View(), limit).0
        invariant Drain(identity, start, limit).1 == made + Drain(identity, View(), limit).1
        decreases |Callers(View())|, |Made(View())|, |Decided(View())|
      {
        DrainUnfolds(identity, View(), limit);
        var next := Peek(queue);
        if next.None? || limit < next.value.deliverAt {
          break;
        }
        now := Later(next.value.deliverAt, now);
        ghost var moved := View();
        var delivered := DeliverReady();
        count, made := CappedAdd(count, delivered), made + SimRun.DeliverReady(identity, moved).1;
      }
    }

    /** Runs up to and including one tick, then leaves time there. */
    method RunUntil(target: Tick) returns (r: Result<U32, SimError>)
      requires Valid(View())
      modifies this
      ensures match SimRun.RunUntil(identity, old(View()), target)
        case Ok(end) => r == Ok(Capped(end.1)) && View() == end.0
        case Err(reason) => r == Err(reason) && View() == old(View())
      ensures Valid(View())
    {
      if target < now {
        return Err(TimeMovesBackwards(now, target));
      }
      var count := DrainTo(target);
      ClockKeeps(View(), target);
      now := target;
      return Ok(count);
    }

    // Endpoint and lane control.

    method HaltEndpoint(id: EndpointId) returns (r: Check<SimError>)
      modifies this
      ensures Agrees(r, WithEndpointState(old(View()), id, Halted), old(View()), View())
    {
      if id !in endpoints {
        return Err(UnknownEndpoint(id));
      }
      endpoints := endpoints[id := endpoints[id].(state := Halted)];
      return Ok(());
    }

    method ResumeEndpoint(id: EndpointId) returns (r: Check<SimError>)
      requires Valid(View())
      modifies this
      ensures Agrees(r, SimSpec.ResumeEndpoint(old(View()), id), old(View()), View())
    {
      if id !in endpoints {
        return Err(UnknownEndpoint(id));
      }
      PlacedIds(View());
      endpoints := endpoints[id := endpoints[id].(state := Active)];
      var _ := ReleaseEvents();
      return Ok(());
    }

    method PauseLane(lane: Lane)
      modifies this
      ensures View() == old(View()).(lanes := old(lanes)[lane := Paused])
    {
      lanes := lanes[lane := Paused];
    }

    method ResumeLane(lane: Lane)
      requires Valid(View())
      modifies this
      ensures View() == SimSpec.ResumeLane(old(View()), lane)
    {
      PlacedIds(View());
      lanes := lanes[lane := Running];
      var _ := ReleaseEvents();
    }

    /** Puts every held event whose path is clear back into the queue. */
    method ReleaseEvents() returns (released: U32)
      requires forall id :: id in events ==> events[id].id == id
      modifies this
      ensures View() == ReleaseHeld(old(View()))
      ensures released == Capped(|Clear(old(View()))|)
    {
      var ready := set id | id in held && PathIsClear(id);
      ghost var start := View();
      ghost var made: nat := 0;
      assert ready == Clear(start);
      NothingReleased(start);
      hide ReleasedSoFar;
      hide ReleaseHeld;
      hide Released;
      hide Clear;
      released := 0;
      while ready != {}
        invariant ready <= Clear(start) && made + |ready| == |Clear(start)| && released == Capped(made)
        invariant ReleasedSoFar(start, ready, View())
        decreases ready
      {
        var id :| id in ready;
        ReleaseMore(start, ready, View(), id);
        ready := ready - {id};
        Release(id);
        released, made := CappedAdd(released, 1), made + 1;
      }
      AllReleased(start, View());
    }

    method Release(id: EventId)
      requires id in events && events[id].id == id
      modifies this
      ensures View() == Released(old(View()), id)
    {
      held := held - {id};
      var event := events[id].(status := Scheduled, deliverAt := Later(now, events[id].deliverAt));
      events := events[id := event];
      queue := queue + {event.Key()};
    }

    predicate PathIsClear(id: EventId)
      reads this
    {
      && id in events
      && !(events[id].Lane() in lanes && lanes[events[id].Lane()] == Paused)
      && events[id].destination in endpoints && endpoints[events[id].destination].state == Active
    }

    // Reordering.

    method PendingKeyOf(event: EventId) returns (r: Result<QueueKey, SimError>)
      requires Valid(View())
      ensures r == PendingKey(View(), event)
    {
      if event !in events {
        return Err(UnknownEvent(event));
      }
      var left := queue;
      while left != {}
        invariant left <= queue
        invariant forall k :: k in queue && k !in left ==> k.event != event
        decreases left
      {
        var k :| k in left;
        if k.event == event {
          KeysAreUnique(View(), k);
          return Ok(k);
        }
        left := left - {k};
      }
      return Err(EventAlreadyTerminal(event));
    }

    method MoveKey(key: QueueKey, target: Tick)
      modifies this
      ensures View() == MoveTo(old(View()), key, target)
    {
      if key.deliverAt == target {
        return;
      }
      queue := queue - {key};
      if key.event !in events {
        return;
      }
      var event := events[key.event].(deliverAt := target);
      events := events[event.id := event];
      queue := queue + {event.Key()};
    }

    method SwapDeliveryTicks(left: EventId, right: EventId) returns (r: Check<SimError>)
      requires Valid(View())
      modifies this
      ensures Agrees(r, SwapTicks(old(View()), left, right), old(View()), View())
    {
      var l := PendingKeyOf(left);
      var leftKey :- l;
      var k := PendingKeyOf(right);
      var rightKey :- k;
      MoveKey(leftKey, rightKey.deliverAt);
      MoveKey(rightKey, leftKey.deliverAt);
      return Ok(());
    }

    method MoveBefore(event: EventId, other: EventId) returns (r: Check<SimError>)
      requires Valid(View())
      modifies this
      ensures Agrees(r, SimSpec.MoveBefore(old(View()), event, other), old(View()), View())
    {
      var k := PendingKeyOf(event);
      var key :- k;
      var a := PendingKeyOf(other);
      var anchor :- a;
      MoveKey(key, Later(if anchor.deliverAt == 0 then 0 else anchor.deliverAt - 1, now));
      return Ok(());
    }

    method MoveAfter(event: EventId, other: EventId) returns (r: Check<SimError>)
      requires Valid(View())
      modifies this
      ensures Agrees(r, SimSpec.MoveAfter(old(View()), event, other), old(View()), View())
    {
      var k := PendingKeyOf(event);
      var key :- k;
      var a := PendingKeyOf(other);
      var anchor :- a;
      if anchor.deliverAt == LAST_TICK {
        return Err(ArithmeticOverflow);
      }
      MoveKey(key, anchor.deliverAt + 1);
      return Ok(());
    }

    method AddEndpoint(id: EndpointId) returns (r: Check<SimError>)
      modifies this
      ensures Agrees(r, SimSpec.AddEndpoint(old(View()), id), old(View()), View())
      ensures Valid(old(View())) ==> Valid(View()) && KeepsTerminal(old(View()), View())
    {
      hide Valid;
      if Valid(View()) && id !in endpoints {
        AddEndpointKeeps(View(), id);
      }
      if id in endpoints {
        return Err(DuplicateEndpoint(id));
      }
      endpoints := endpoints[id := Endpoint(Active, [], [])];
      return Ok(());
    }

    // Operations.

    /** Runs one step. A refused step changes nothing. */
    method Apply(op: Operation) returns (r: Check<SimError>)
      requires Valid(View())
      modifies this
      ensures Agrees(r, Step(identity, old(View()), op), old(View()), View())
      ensures Valid(View())
    {
      hide Valid;
      hide Step;
      ghost var before := View();
      if Step(identity, before, op).Ok? {
        StepKeeps(identity, before, op);
      }
      if Steers(op) {
        r := Steer(op);
      } else {
        r := Advance(op);
      }
    }

    /** Scheduling, faults, time and delivery. */
    method Advance(op: Operation) returns (r: Check<SimError>)
      requires Valid(View()) && !Steers(op)
      modifies this
      ensures Agrees(r, Step(identity, old(View()), op), old(View()), View())
    {
      hide Valid;
      hide SimSpec.DeliverNext;
      hide SimRun.DeliverReady;
      hide Drain;
      hide SimSpec.AddFault;
      hide SimSpec.ScheduleControl;
      hide SimSpec.ScheduleAsset;
      hide ReleaseHeld;
      hide SwapTicks;
      hide SimSpec.MoveBefore;
      hide SimSpec.MoveAfter;
      hide KeepsTerminal;
      hide SimSpec.ResumeEndpoint;
      hide SimSpec.ResumeLane;
      hide SimSpec.AdvanceBy;
      hide SimSpec.AdvanceTo;
      hide SimRun.RunUntilIdle;
      hide SimRun.RunUntil;
      hide WithEndpointState;
      r := Ok(());
      match op
      case DoScheduleControl(request) =>
        var id := ScheduleControl(request);
        r := if id.Ok? then Ok(()) else Err(id.error);
      case DoScheduleAsset(request) =>
        var id := ScheduleAsset(request);
        r := if id.Ok? then Ok(()) else Err(id.error);
      case DoAddFault(fault) => r := AddFault(fault);
      case DoAdvanceBy(ticks) => r := AdvanceBy(ticks);
      case DoAdvanceTo(tick) => r := AdvanceTo(tick);
      case DoDeliverNext => var _ := DeliverNext();
      case DoDeliverReady => var _ := DeliverReady();
      case DoRunUntilIdle => var _ := RunUntilIdle();
      case DoRunUntil(tick) =>
        var count := RunUntil(tick);
        r := if count.Ok? then Ok(()) else Err(count.error);
    }

    /** Endpoints, lanes and reordering. */
    method Steer(op: Operation) returns (r: Check<SimError>)
      requires Valid(View()) && Steers(op)
      modifies this
      ensures Agrees(r, Step(identity, old(View()), op), old(View()), View())
    {
      hide Valid;
      hide SimSpec.DeliverNext;
      hide SimRun.DeliverReady;
      hide Drain;
      hide SimSpec.AddFault;
      hide SimSpec.ScheduleControl;
      hide SimSpec.ScheduleAsset;
      hide ReleaseHeld;
      hide SwapTicks;
      hide SimSpec.MoveBefore;
      hide SimSpec.MoveAfter;
      hide KeepsTerminal;
      hide SimSpec.ResumeEndpoint;
      hide SimSpec.ResumeLane;
      hide SimSpec.AdvanceBy;
      hide SimSpec.AdvanceTo;
      hide SimRun.RunUntilIdle;
      hide SimRun.RunUntil;
      hide WithEndpointState;
      r := Ok(());
      match op
      case DoHaltEndpoint(id) => r := HaltEndpoint(id);
      case DoResumeEndpoint(id) => r := ResumeEndpoint(id);
      case DoPauseLane(lane) => PauseLane(lane);
      case DoResumeLane(lane) => ResumeLane(lane);
      case DoSwapTicks(left, right) => r := SwapDeliveryTicks(left, right);
      case DoMoveBefore(event, other) => r := MoveBefore(event, other);
      case DoMoveAfter(event, other) => r := MoveAfter(event, other);
    }

    /** Runs a list of steps, stopping at the first refusal. */
    method ApplyAll(ops: seq<Operation>) returns (r: Check<SimError>, ghost done: nat)
      requires Valid(View())
      modifies this
      ensures done <= |ops| && Valid(View()) && AllAccepted(identity, old(View()), ops[..done])
      ensures View() == Run(identity, old(View()), ops[..done])
      ensures if r.Ok? then done == |ops| else done < |ops| && Step(identity, View(), ops[done]) == Err(r.error)
    {
      hide Step;
      hide Valid;
      var i := 0;
      while i < |ops|
        invariant i <= |ops| && Valid(View()) && AllAccepted(identity, old(View()), ops[..i])
        invariant View() == Run(identity, old(View()), ops[..i])
      {
        done := i;
        r := Apply(ops[i]);
        if r.Err? {
          return;
        }
        AcceptedMore(identity, old(View()), ops[..i], ops[i]);
        assert ops[..i + 1] == ops[..i] + [ops[i]];
        i := i + 1;
      }
      done := i;
      r := Ok(());
    }
  }

  lemma ReadyUnfolds(identity: Identity, n: Net)
    requires Valid(n)
    ensures
      if !IsDue(n) then SimRun.DeliverReady(identity, n) == (n, 0)
      else
        && PlanSound(n.plan)
        && var m := SimSpec.DeliverNext(identity, n);
        && Valid(m) && LessWork(m, n)
        && SimRun.DeliverReady(identity, n)
             == (SimRun.DeliverReady(identity, m).0, SimRun.DeliverReady(identity, m).1 + 1)
  {
    hide Valid;
    hide SimSpec.DeliverNext;
    if IsDue(n) {
      DeliverNextFollows(identity, n);
    }
  }

  lemma DrainUnfolds(identity: Identity, n: Net, limit: Tick)
    requires Valid(n) && n.now <= limit
    ensures
      if n.queue == {} || limit < First(n.queue).deliverAt then Drain(identity, n, limit) == (n, 0)
      else
        var moved := n.(now := Later(First(n.queue).deliverAt, n.now));
        && Valid(moved)
        && var (m, count) := SimRun.DeliverReady(identity, moved);
        && Valid(m) && m.now <= limit && LessWork(m, n)
        && Drain(identity, n, limit) == (Drain(identity, m, limit).0, count + Drain(identity, m, limit).1)
  {
    hide Valid;
    hide SimRun.DeliverReady;
    if n.queue != {} && First(n.queue).deliverAt <= limit {
      var moved := n.(now := Later(First(n.queue).deliverAt, n.now));
      ClockKeeps(n, moved.now);
      SameWork(n, moved);
      assert Follows(moved, SimRun.DeliverReady(identity, moved).0);
    }
  }

  function Freed(n: Net, id: EventId): Event
    requires id in n.events
  {
    n.events[id].(status := Scheduled, deliverAt := Later(n.now, n.events[id].deliverAt))
  }

  function FreedKeys(n: Net, ids: set<EventId>): set<QueueKey>
    requires ids <= n.events.Keys
  {
    set id | id in ids :: Freed(n, id).Key()
  }

  lemma FreedKeysWith(n: Net, ids: set<EventId>, id: EventId)
    requires ids <= n.events.Keys && id in n.events
    ensures FreedKeys(n, ids + {id}) == FreedKeys(n, ids) + {Freed(n, id).Key()}
  {
  }

  /** `m` is `n` with every clear event outside `ready` released. */
  ghost predicate ReleasedSoFar(n: Net, ready: set<EventId>, m: Net) {
    var done := Clear(n) - ready;
    && m == n.(held := n.held - done, events := m.events, queue := n.queue + FreedKeys(n, done))
    && m.events.Keys == n.events.Keys
    && (forall id :: id in n.events ==> m.events[id] == if id in done then Freed(n, id) else n.events[id])
  }

  lemma NothingReleased(n: Net)
    ensures ReleasedSoFar(n, Clear(n), n)
  {
    assert Clear(n) - Clear(n) == {};
  }

  lemma ReleaseMore(n: Net, ready: set<EventId>, m: Net, id: EventId)
    requires ready <= Clear(n) && id in ready && ReleasedSoFar(n, ready, m)
    requires forall j :: j in n.events ==> n.events[j].id == j
    ensures id in m.events && m.events[id].id == id && ReleasedSoFar(n, ready - {id}, Released(m, id))
  {
    hide FreedKeys;
    var done := Clear(n) - ready;
    assert Clear(n) - (ready - {id}) == done + {id};
    assert m.held - {id} == n.held - (done + {id});
    FreedKeysWith(n, done, id);
    assert m.events[id] == n.events[id];
    assert Released(m, id).queue == n.queue + FreedKeys(n, done + {id});
  }

  lemma AllReleased(n: Net, m: Net)
    requires ReleasedSoFar(n, {}, m)
    ensures m == ReleaseHeld(n)
  {
    assert Clear(n) - {} == Clear(n);
    assert m.events == ReleaseHeld(n).events;
    assert m.queue == ReleaseHeld(n).queue;
  }

  ghost predicate AllAccepted(identity: Identity, n: Net, ops: seq<Operation>)
    requires Valid(n)
    decreases |ops|
  {
    ops == [] ||
    (&& Step(identity, n, ops[0]).Ok?
     && (StepKeeps(identity, n, ops[0]);
         AllAccepted(identity, Step(identity, n, ops[0]).value, ops[1..])))
  }

  lemma {:induction false} AcceptedMore(identity: Identity, n: Net, ops: seq<Operation>, op: Operation)
    requires Valid(n) && AllAccepted(identity, n, ops)
    requires Valid(Run(identity, n, ops)) && Step(identity, Run(identity, n, ops), op).Ok?
    ensures AllAccepted(identity, n, ops + [op])
    ensures Run(identity, n, ops + [op]) == Step(identity, Run(identity, n, ops), op).value
    decreases |ops|
  {
    hide Valid;
    hide Step;
    if ops == [] {
      assert (ops + [op])[1..] == [];
    } else {
      StepKeeps(identity, n, ops[0]);
      assert (ops + [op])[1..] == ops[1..] + [op];
      AcceptedMore(identity, Step(identity, n, ops[0]).value, ops[1..], op);
    }
  }
}
