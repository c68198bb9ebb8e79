/** How a delivery attempt ends, which event is attempted, and when nothing can be delivered. */
module SimDelivery {
  import opened Results
  import opened Words
  import opened SimTypes
  import opened SimSpec
  import opened SimPlaces
  import opened SimProgress
  import opened SimRun
  import opened SimFaults

  // How an attempt ends.

  /** The event's lane is paused, or its destination halted. */
  predicate Barred(n: Net, p: EndpointId, lane: Lane)
    requires p in n.endpoints
  {
    (lane in n.lanes && n.lanes[lane] == Paused) || n.endpoints[p].state == Halted
  }

  predicate PastDeadline(n: Net, e: Event) {
    e.deadline.Some? && n.now > e.deadline.value
  }

  predicate Expires(n: Net, e: Event) {
    && PastDeadline(n, e)
    && (if e.payload.Message? then n.config.controlLatePolicy else n.config.assetLatePolicy) == Expire
  }

  /** The record of a delivery made now. */
  function RecordOf(n: Net, e: Event): Delivery {
    Delivery(e.id, e.source, e.intended, e.payload, n.now, e.duplicateOf, PastDeadline(n, e))
  }

  /** An event let through is held, expired, or handed to its destination's inbox for its lane. */
  predicate Lands(n: Net, e: Event, m: Net)
    requires e.destination in n.endpoints && e.id in m.events && e.destination in m.endpoints
  {
    var lane := if e.payload.Message? then Control else Assets;
    if Barred(n, e.destination, lane) then
      m.events[e.id].status == Blocked && e.id in m.held && m.endpoints == n.endpoints
    else if Expires(n, e) then
      m.events[e.id].status == Expired && m.endpoints == n.endpoints
    else
      && m.events[e.id].status == Delivered
      && m.endpoints[e.destination].Inbox(lane) == n.endpoints[e.destination].Inbox(lane) + [RecordOf(n, e)]
      && SameElsewhere(n, m, e.destination, lane)
  }

  /** No endpoint changes but for one inbox. */
  predicate SameElsewhere(n: Net, m: Net, at: EndpointId, lane: Lane) {
    && m.endpoints.Keys == n.endpoints.Keys
    && (forall p :: p in n.endpoints ==> m.endpoints[p].state == n.endpoints[p].state)
    && (forall p, l :: p in n.endpoints && (p != at || l != lane) ==>
          m.endpoints[p].Inbox(l) == n.endpoints[p].Inbox(l))
  }

  lemma HandedLands(n: Net, e: Event)
    requires e.destination in n.endpoints
    ensures var m, lane := Handed(n, e, PastDeadline(n, e)), if e.payload.Message? then Control else Assets;
      && e.id in m.events && m.events[e.id] == e.(status := Delivered) && e.destination in m.endpoints
      && m.endpoints[e.destination].Inbox(lane) == n.endpoints[e.destination].Inbox(lane) + [RecordOf(n, e)]
      && SameElsewhere(n, m, e.destination, lane)
  {
  }

  lemma BlocksLands(n: Net, e: Event)
    ensures var m := Blocks(n, e);
      && e.id in m.events && m.events[e.id] == e.(status := Blocked) && e.id in m.held && m.endpoints == n.endpoints
  {
  }

  lemma ProceedsLands(n: Net, e: Event)
    requires e.destination in n.endpoints
    ensures var m := Proceeds(n, e);
      && e.id in m.events && m.events[e.id] == e.(status := m.events[e.id].status)
      && e.destination in m.endpoints && Lands(n, e, m)
  {
    hide Handed;
    hide Blocks;
    hide RecordOf;
    hide SameElsewhere;
    HandedLands(n, e);
    BlocksLands(n, e);
  }

  lemma SettledEnds(n: Net, e: Event, v: Verdict)
    requires e.destination in n.endpoints
    ensures var m := Settled(n, e, v);
      && e.id in m.events && e.destination in m.endpoints
      && m.events[e.id] == e.(status := m.events[e.id].status, deliverAt := m.events[e.id].deliverAt)
      && (v.Rejected? ==> m.events[e.id].status == RejectedBySimulator)
      && (v.DroppedBy? ==> m.events[e.id].status == Dropped)
      && (v.Delayed? ==>
            && m.events[e.id].status == Scheduled && m.events[e.id].deliverAt == v.to
            && m.events[e.id].Key() in m.queue)
      && (v.Proceed? ==> Lands(n, e, m))
      && (!v.Proceed? ==> m.endpoints == n.endpoints)
  {
    hide Proceeds;
    hide Lands;
    ProceedsLands(n, e);
  }

  /** A drop is among the faults that hit the event. */
  ghost predicate IsDropped(n: Net, e: Event) {
    exists i :: Hits(n.plan, e, i) && n.plan[i].action.Drop?
  }

  ghost predicate IsDelayed(n: Net, e: Event, to: Tick) {
    exists i :: Hits(n.plan, e, i) && n.plan[i].action.Delay?
             && to == Min(n.now + n.plan[i].action.ticks, 0xFFFF_FFFF_FFFF_FFFF)
  }

  ghost predicate IsUndelayed(n: Net, e: Event) {
    forall i :: Hits(n.plan, e, i) ==> !n.plan[i].action.Delay?
  }

  /** How the attempt of event `e` in `n` ends in `m`, read off the plan, the clock and the network. */
  ghost predicate Ends(n: Net, e: Event, m: Net)
    requires e.id in m.events && m.events[e.id].id == e.id
    requires m.events[e.id].destination in n.endpoints && m.events[e.id].destination in m.endpoints
  {
    var g, decided := m.events[e.id], e.id in n.resolved;
    && (!decided && !Compatible(n, e) ==> g.status == RejectedBySimulator)
    && (!decided && Compatible(n, e) && IsDropped(n, e) ==> g.status == Dropped)
    && (forall to :: !decided && Compatible(n, e) && !IsDropped(n, e) && IsDelayed(n, e, to) ==>
          g.status == Scheduled && g.deliverAt == to && g.Key() in m.queue)
    && (decided || (Compatible(n, e) && !IsDropped(n, e) && IsUndelayed(n, e)) ==> Lands(n, g, m))
  }

  lemma BumpedHits(n: Net, popped: Net, e: Event)
    requires popped == n.(queue := popped.queue)
    ensures forall i :: Hits(popped.plan, e.Bumped(), i) == Hits(n.plan, e, i)
    ensures Compatible(popped, e.Bumped()) == Compatible(n, e)
  {
    assert forall i {:trigger Hits(n.plan, e, i)} :: Hits(popped.plan, e.Bumped(), i) == Hits(n.plan, e, i);
    assert forall i :: i in n.plan ==>
      Applies(n.endpoints, n.plan[i].action, e.Bumped()) == Applies(n.endpoints, n.plan[i].action, e);
    hide Reaches;
    hide Applies;
    hide Clash;
  }

  /** What an accepted composition says about the verdict, in those terms. */
  lemma VerdictIs(n: Net, e: Event, v: Verdict)
    requires Decides(n, e, v)
    ensures IsDropped(n, e) ==> v.DroppedBy?
    ensures forall to :: !IsDropped(n, e) && IsDelayed(n, e, to) ==> v == Delayed(to)
    ensures !IsDropped(n, e) && IsUndelayed(n, e) ==> v == Proceed
  {
    hide Reaches;
  }

  lemma LandsSame(n: Net, n': Net, e: Event, g: Event, m: Net)
    requires n'.now == n.now && n'.config == n.config && n'.endpoints == n.endpoints && n'.lanes == n.lanes
    requires e.destination in n.endpoints && e.id in m.events && e.destination in m.endpoints
    requires g == e.(status := g.status, deliverAt := g.deliverAt)
    ensures Lands(n', e, m) == Lands(n, g, m)
  {
  }

  lemma GrownContext(n: Net, m: Net, root: EventId)
    requires Grown(n, m, root)
    ensures m.now == n.now && m.config == n.config && m.endpoints == n.endpoints && m.lanes == n.lanes
  {
  }

  /** The same clock, plan and network, and the same event up to its bookkeeping. */
  lemma SameFaults(identity: Identity, n: Net, popped: Net, e: Event, f: Event, g: Event, v: Verdict)
    requires popped == n.(queue := popped.queue) && ActedOn(identity, popped, e.Bumped(), f, v)
    requires g == f.(status := g.status, deliverAt := g.deliverAt)
    ensures Altered(identity, n, e, g) && Decides(n, e, v)
  {
    BumpedHits(n, popped, e);
    hide Hits;
    hide Changed;
  }

  /** The outcome that goes with a verdict. */
  lemma EndsAs(n: Net, e: Event, m: Net, v: Verdict)
    requires e.id in m.events && m.events[e.id].id == e.id
    requires m.events[e.id].destination in n.endpoints && m.events[e.id].destination in m.endpoints
    requires if e.id in n.resolved then v == Proceed else if Compatible(n, e) then Decides(n, e, v) else v.Rejected?
    requires v.Rejected? ==> m.events[e.id].status == RejectedBySimulator
    requires v.DroppedBy? ==> m.events[e.id].status == Dropped
    requires v.Delayed? ==>
      && m.events[e.id].status == Scheduled && m.events[e.id].deliverAt == v.to && m.events[e.id].Key() in m.queue
    requires v.Proceed? ==> Lands(n, m.events[e.id], m)
    ensures Ends(n, e, m)
  {
    hide Compatible;
    hide Lands;
    if e.id !in n.resolved && Compatible(n, e) {
      VerdictIs(n, e, v);
    }
    hide Decides;
    hide IsDropped;
    hide IsDelayed;
    hide IsUndelayed;
  }

  /** Every attempt ends as the plan, the clock and the state of lane and destination say. */
  lemma AttemptEnds(identity: Identity, n: Net)
    requires Valid(n) && IsDue(n)
    ensures PlanSound(n.plan) && First(n.queue).event in n.events
    ensures var e, m := n.events[First(n.queue).event], DeliverNext(identity, n);
      && e.id == First(n.queue).event && e.id in m.events && m.events[e.id].id == e.id
      && m.events[e.id].destination in n.endpoints && m.events[e.id].destination in m.endpoints
      && Ends(n, e, m) && m.events[e.id].attempts == Min(e.attempts + 1, 0xFFFF_FFFF)
      && (if e.id !in n.resolved && Compatible(n, e) then Altered(identity, n, e, m.events[e.id])
          else m.events[e.id].destination == e.destination && m.events[e.id].payload == e.payload)
  {
    hide Compose;
    hide Settled;
    hide Grown;
    hide Compatible;
    hide Lands;
    hide Altered;
    hide Decides;
    hide Ends;
    hide ActedOn;
    hide Hits;
    var k := First(n.queue);
    var popped := n.(queue := n.queue - {k});
    assert KeyPlaced(n, k, None) && EventPlaced(n, k.event, None);
    hide Valid;
    var e := n.events[k.event];
    var (m, f, v) := Compose(identity, popped, e.Bumped());
    ComposeEffect(identity, popped, e.Bumped());
    FaultsTakeEffect(identity, popped, e.Bumped());
    BumpedHits(n, popped, e);
    GrownContext(popped.(resolved := n.resolved + {e.id}), m, e.id);
    SettledEnds(m, f, v);
    var after := Settled(m, f, v);
    var g := after.events[e.id];
    LandsSame(n, m, f, g, after);
    if e.id !in n.resolved && Compatible(n, e) {
      SameFaults(identity, n, popped, e, f, g, v);
    }
    EndsAs(n, e, after, v);
  }

  // Which event is attempted, and when.

  /** Earlier ticks first, at one tick control messages before assets, and then the lower id. */
  lemma EarliestFirst(n: Net, id: EventId)
    requires Valid(n) && n.queue != {} && id in n.events && n.events[id].status == Scheduled
    requires id != First(n.queue).event
    ensures First(n.queue).event in n.events
    ensures var a, b := n.events[First(n.queue).event], n.events[id];
      || a.deliverAt < b.deliverAt
      || (&& a.deliverAt == b.deliverAt
          && if a.payload.Message? == b.payload.Message? then a.id < b.id else a.payload.Message?)
  {
    var k := First(n.queue);
    assert KeyPlaced(n, k, None) && EventPlaced(n, k.event, None) && EventPlaced(n, id, None);
    hide Valid;
  }

  /** An event that waits for a later tick. */
  predicate Waits(n: Net, id: EventId) {
    id in n.events && n.events[id].status == Scheduled && n.now < n.events[id].deliverAt
  }

  /** Attempts leave an event alone whose tick has not come. */
  lemma WaitingIsSpared(identity: Identity, n: Net, id: EventId)
    requires Valid(n) && IsDue(n) && Waits(n, id)
    ensures PlanSound(n.plan)
    ensures var m := DeliverNext(identity, n); id in m.events && m.events[id] == n.events[id] && m.now == n.now
  {
    hide Compose;
    hide Settled;
    hide Grown;
    var k := First(n.queue);
    var popped := n.(queue := n.queue - {k});
    assert KeyPlaced(n, k, None) && EventPlaced(n, k.event, None);
    hide Valid;
    var (m, f, v) := Compose(identity, popped, n.events[k.event].Bumped());
    ComposeEffect(identity, popped, n.events[k.event].Bumped());
    GrownEvents(popped.(resolved := popped.resolved + {k.event}), m, k.event);
    GrownContext(popped.(resolved := popped.resolved + {k.event}), m, k.event);
    SettledMoves(m, f, v);
  }

  lemma {:induction false} ReadySpares(identity: Identity, n: Net, id: EventId)
    requires Valid(n) && Waits(n, id)
    ensures var m := DeliverReady(identity, n).0; id in m.events && m.events[id] == n.events[id] && m.now == n.now
    decreases |Callers(n)|, |Made(n)|, |Decided(n)|
  {
    hide Valid;
    hide DeliverNext;
    if IsDue(n) {
      WaitingIsSpared(identity, n, id);
      DeliverNextFollows(identity, n);
      ReadySpares(identity, DeliverNext(identity, n), id);
    }
  }

  lemma {:induction false} DrainSpares(identity: Identity, n: Net, limit: Tick, id: EventId)
    requires Valid(n) && n.now <= limit && Waits(n, id) && limit < n.events[id].deliverAt
    ensures var m := Drain(identity, n, limit).0; id in m.events && m.events[id] == n.events[id]
    decreases |Callers(n)|, |Made(n)|, |Decided(n)|
  {
    hide Valid;
    hide DeliverNext;
    hide DeliverReady;
    if n.queue != {} && First(n.queue).deliverAt <= limit {
      var moved := n.(now := Later(First(n.queue).deliverAt, n.now));
      ClockKeeps(n, moved.now);
      SameWork(n, moved);
      ReadySpares(identity, moved, id);
      DrainSpares(identity, DeliverReady(identity, moved).0, limit, id);
    }
  }

  /** Running up to a tick before its own never touches an event, so a delayed event is not delivered early. */
  lemma RunUntilSpares(identity: Identity, n: Net, target: Tick, id: EventId)
    requires Valid(n) && RunUntil(identity, n, target).Ok? && Waits(n, id) && target < n.events[id].deliverAt
    ensures var m := RunUntil(identity, n, target).value.0; id in m.events && m.events[id] == n.events[id]
  {
    hide Valid;
    hide Drain;
    DrainSpares(identity, n, target, id);
  }

  /** A delay lasts: after the attempt that meets it, no run up to an earlier tick delivers the event. */
  lemma DelayIsKept(identity: Identity, n: Net, i: FaultId, target: Tick)
    requires Valid(n) && IsDue(n) && First(n.queue).event in n.events
    requires var e := n.events[First(n.queue).event];
      && e.id !in n.resolved && Compatible(n, e) && !IsDropped(n, e)
      && Hits(n.plan, e, i) && n.plan[i].action.Delay?
      && n.now <= target < Min(n.now + n.plan[i].action.ticks, 0xFFFF_FFFF_FFFF_FFFF)
    ensures PlanSound(n.plan) && Valid(DeliverNext(identity, n))
    ensures var id, r := First(n.queue).event, RunUntil(identity, DeliverNext(identity, n), target);
      && r.Ok? && id in r.value.0.events && r.value.0.events[id].status == Scheduled
      && r.value.0.events[id].deliverAt == Min(n.now + n.plan[i].action.ticks, 0xFFFF_FFFF_FFFF_FFFF)
  {
    hide Valid;
    hide DeliverNext;
    hide Compatible;
    hide Altered;
    hide Reaches;
    hide RunUntil;
    DeliverNextFollows(identity, n);
    AttemptEnds(identity, n);
    var to := Min(n.now + n.plan[i].action.ticks, 0xFFFF_FFFF_FFFF_FFFF);
    assert IsDelayed(n, n.events[First(n.queue).event], to);
    RunUntilSpares(identity, DeliverNext(identity, n), target, First(n.queue).event);
  }

  // How many attempts a delivery loop makes.

  /** `count` attempts in a row lead from `n` to `m`, each of an event that was due. */
  ghost predicate Takes(identity: Identity, n: Net, count: nat, m: Net)
    decreases count
  {
    if count == 0 then m == n
    else Valid(n) && IsDue(n) && PlanSound(n.plan) && Takes(identity, DeliverNext(identity, n), count - 1, m)
  }

  /** The loop reports exactly the attempts it made. */
  lemma {:induction false} ReadyTakes(identity: Identity, n: Net)
    requires Valid(n)
    ensures Takes(identity, n, DeliverReady(identity, n).1, DeliverReady(identity, n).0)
    decreases |Callers(n)|, |Made(n)|, |Decided(n)|
  {
    hide Valid;
    hide DeliverNext;
    if IsDue(n) {
      DeliverNextFollows(identity, n);
      ReadyTakes(identity, DeliverNext(identity, n));
    }
  }
}
