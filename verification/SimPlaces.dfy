/** Where every event is: in exactly one place at any time, and in an inbox exactly when it was delivered. */
module SimPlaces {
  import opened Results
  import opened Words
  import opened SimTypes
  import opened SimSpec

  /**
   * One event's place: queued under its own key, held behind a real block, or at rest.
   * The event in hand is the one a delivery attempt has taken out of the queue.
   */
  ghost predicate EventPlaced(n: Net, id: EventId, hand: Option<EventId>)
    requires id in n.events
  {
    var e := n.events[id];
    && e.id == id && id < n.nextEvent && e.destination in n.endpoints && id in n.lineage
    && if hand == Some(id) then e.status == Scheduled && id !in n.held
       else match e.status
         case Scheduled => e.Key() in n.queue && id !in n.held
         case Blocked => id in n.held && id in n.resolved && PathBlocked(n, e)
         case Ready => false
         case _ => id !in n.held && id in n.resolved
  }

  /** A queued key belongs to a scheduled event and matches its tick and lane. */
  ghost predicate KeyPlaced(n: Net, k: QueueKey, hand: Option<EventId>) {
    && k.event in n.events && hand != Some(k.event)
    && n.events[k.event].status == Scheduled && k == n.events[k.event].Key()
  }

  ghost predicate Placed(n: Net, hand: Option<EventId>) {
    && (forall id :: id in n.events ==> EventPlaced(n, id, hand))
    && (forall k :: k in n.queue ==> KeyPlaced(n, k, hand))
    && n.held <= n.events.Keys && n.resolved <= n.events.Keys
    && (hand.Some? ==> hand.value in n.events)
    && PlanSound(n.plan)
  }

  /** The record an inbox holds of a delivered event. */
  predicate Records(d: Delivery, e: Event) {
    && d.event == e.id && d.source == e.source && d.intended == e.intended
    && d.payload == e.payload && d.duplicateOf == e.duplicateOf
  }

  /** Every record is of an event delivered to that inbox, and no event is recorded twice. */
  ghost predicate InboxSound(n: Net, p: EndpointId, lane: Lane)
    requires p in n.endpoints
  {
    var inbox := n.endpoints[p].Inbox(lane);
    && (forall i :: 0 <= i < |inbox| ==>
          && inbox[i].event in n.events
          && n.events[inbox[i].event].status == Delivered
          && n.events[inbox[i].event].destination == p
          && n.events[inbox[i].event].Lane() == lane
          && Records(inbox[i], n.events[inbox[i].event]))
    && (forall i, j :: 0 <= i < j < |inbox| ==> inbox[i].event != inbox[j].event)
  }

  /** A delivered event is in its destination's inbox. */
  ghost predicate IsRecorded(n: Net, id: EventId)
    requires id in n.events && n.events[id].destination in n.endpoints
  {
    var e := n.events[id];
    exists i :: 0 <= i < |n.endpoints[e.destination].Inbox(e.Lane())|
             && n.endpoints[e.destination].Inbox(e.Lane())[i].event == id
  }

  ghost predicate Inboxes(n: Net) {
    && (forall p, lane :: p in n.endpoints ==> InboxSound(n, p, lane))
    && (forall id :: id in n.events && n.events[id].status == Delivered ==>
          n.events[id].destination in n.endpoints && IsRecorded(n, id))
  }

  ghost predicate Valid(n: Net) {
    Placed(n, None) && Inboxes(n)
  }

  lemma PlacedIds(n: Net)
    requires Valid(n)
    ensures forall id :: id in n.events ==> n.events[id].id == id
  {
    forall id | id in n.events
      ensures n.events[id].id == id
    {
      assert EventPlaced(n, id, None);
    }
  }

  // Making events.

  /** `m` is `n` with fresh events made by faults from `root`, each queued under its own key. */
  ghost predicate Grown(n: Net, m: Net, root: EventId) {
    && m == n.(events := m.events, queue := m.queue, nextEvent := m.nextEvent, lineage := m.lineage)
    && n.nextEvent <= m.nextEvent
    && (forall id :: id in n.events ==> id in m.events && m.events[id] == n.events[id])
    && (forall id :: id in n.lineage ==> id in m.lineage)
    && (forall id :: id in n.lineage && id < n.nextEvent ==> m.lineage[id] == n.lineage[id])
    && (forall id :: id in m.events && id !in n.events ==> IsFresh(n, m, id, root))
    && (forall k :: k in n.queue ==> k in m.queue)
    && (forall k :: k in m.queue && k !in n.queue ==>
          k.event in m.events && k.event !in n.events && k == m.events[k.event].Key())
  }

  ghost predicate IsFresh(n: Net, m: Net, id: EventId, root: EventId)
    requires id in m.events
  {
    && n.nextEvent <= id < m.nextEvent
    && m.events[id].id == id && m.events[id].fromFault && m.events[id].status == Scheduled
    && m.events[id].destination in m.endpoints
    && m.events[id].Key() in m.queue
    && id in m.lineage && m.lineage[id] == root
  }

  lemma GrownByNothing(n: Net, root: EventId)
    ensures Grown(n, n, root)
  {
  }

  lemma GrownTransitive(n: Net, m: Net, o: Net, root: EventId)
    requires Grown(n, m, root) && Grown(m, o, root)
    ensures Grown(n, o, root)
  {
    forall id | id in o.events && id !in n.events
      ensures IsFresh(n, o, id, root)
    {
      if id in m.events {
        assert IsFresh(n, m, id, root);
      } else {
        assert IsFresh(m, o, id, root);
      }
    }
  }

  lemma GrownByOne(n: Net, e: Event, next: U64, root: EventId)
    requires e.id !in n.events && n.nextEvent <= e.id < next
    requires e.fromFault && e.status == Scheduled && e.destination in n.endpoints
    ensures Grown(n, n.(nextEvent := next).Queued(e, root), root)
  {
    assert IsFresh(n, n.(nextEvent := next).Queued(e, root), e.id, root);
  }

  lemma {:induction false} PiecesGrow(n: Net, origin: Event, pieces: seq<U128>, i: nat, spacing: U64)
    requires origin.payload.Value? && i <= |pieces| && origin.destination in n.endpoints
    ensures Grown(n, AddPieces(n, origin, pieces, i, spacing), origin.id)
    decreases |pieces| - i
  {
    hide Grown;
    GrownByNothing(n, origin.id);
    var free := FreeId(n.events, n.nextEvent);
    if i < |pieces| && free.Some? {
      var piece := origin.(
        id := free.value, deliverAt := Spaced(n.now, spacing, Narrow16(i)), attempts := 0,
        payload := origin.payload.(delivered := pieces[i], piece := Some(Narrow16(i))),
        fromFault := true, status := Scheduled);
      var m := n.(nextEvent := free.value + 1).Queued(piece, origin.id);
      GrownByOne(n, piece, free.value + 1, origin.id);
      PiecesGrow(m, origin, pieces, i + 1, spacing);
      GrownTransitive(n, m, AddPieces(n, origin, pieces, i, spacing), origin.id);
    }
  }

  lemma {:induction false} CopiesGrow(n: Net, origin: Event, copies: U16, i: nat, spacing: U64)
    requires 1 <= i <= copies + 1 && origin.destination in n.endpoints
    ensures Grown(n, AddCopies(n, origin, copies, i, spacing), origin.id)
    decreases copies + 1 - i
  {
    hide Grown;
    GrownByNothing(n, origin.id);
    var free := FreeId(n.events, n.nextEvent);
    if i < copies + 1 && free.Some? {
      var copy := origin.(
        id := free.value, deliverAt := Spaced(n.now, spacing, Narrow16(i)), attempts := 0,
        duplicateOf := Some(origin.id), fromFault := true, status := Scheduled);
      var m := n.(nextEvent := free.value + 1).Queued(copy, origin.id);
      GrownByOne(n, copy, free.value + 1, origin.id);
      CopiesGrow(m, origin, copies, i + 1, spacing);
      GrownTransitive(n, m, AddCopies(n, origin, copies, i, spacing), origin.id);
    }
  }

  /** What faults never change about an event. */
  predicate SameIdentity(e: Event, f: Event) {
    && f.id == e.id && f.source == e.source && f.intended == e.intended && f.Lane() == e.Lane()
    && f.fromFault == e.fromFault && f.deadline == e.deadline && f.duplicateOf == e.duplicateOf
    && f.deliverAt == e.deliverAt
  }

  /** Every reroute of a batch leads to a known endpoint. */
  ghost predicate ReroutesKnown(n: Net, batch: seq<Fault>) {
    forall f :: f in batch && f.action.ReplaceDestination? ==> f.action.endpoint in n.endpoints
  }

  lemma FaultEffect(identity: Identity, n: Net, e: Event, a: FaultAction)
    requires e.destination in n.endpoints
    requires a.ReplaceDestination? ==> a.endpoint in n.endpoints
    ensures var (m, f) := ApplyFault(identity, n, e, a);
      && Grown(n, m, e.id) && SameIdentity(e, f) && f.destination in n.endpoints
      && (!a.CreatesEvents() ==> m == n)
  {
    hide Grown;
    hide AddPieces;
    hide AddCopies;
    GrownByNothing(n, e.id);
    match a
    case Split(pieces, spacing) =>
      if e.payload.Value? && pieces != [] {
        PiecesGrow(n, e.(payload := e.payload.(delivered := pieces[0], piece := Some(0))), pieces, 1, spacing);
      }
    case Duplicate(copies, spacing) => CopiesGrow(n, e, copies, 1, spacing);
    case _ =>
  }

  lemma {:induction false} BatchEffect(identity: Identity, n: Net, e: Event, batch: seq<Fault>, v: Verdict)
    requires e.destination in n.endpoints && ReroutesKnown(n, batch)
    ensures var (m, f, _) := ApplyBatch(identity, n, e, batch, v);
      && Grown(n, m, e.id) && SameIdentity(e, f) && f.destination in n.endpoints
      && ((forall g :: g in batch ==> !g.action.CreatesEvents()) ==> m == n)
    decreases |batch|
  {
    hide Grown;
    hide ApplyFault;
    GrownByNothing(n, e.id);
    if batch != [] {
      var (m, f) := ApplyFault(identity, n, e, batch[0].action);
      FaultEffect(identity, n, e, batch[0].action);
      GrownKeepsEndpoints(n, m, e.id);
      BatchEffect(identity, m, f, batch[1..], Marked(v, n.now, batch[0]));
      GrownTransitive(n, m, ApplyBatch(identity, n, e, batch, v).0, e.id);
    }
  }

  lemma GrownKeepsEndpoints(n: Net, m: Net, root: EventId)
    requires Grown(n, m, root)
    ensures m.endpoints == n.endpoints
  {
  }

  lemma {:induction false} CheckedReroutes(n: Net, batch: seq<Fault>, e: Event, groups: set<ExclusionGroup>)
    requires CheckBatch(n.endpoints, batch, e, groups).None?
    ensures ReroutesKnown(n, batch)
    decreases |batch|
  {
    if batch != [] {
      CheckedReroutes(n, batch[1..], e, groups + {batch[0].action.Group()});
      assert batch == [batch[0]] + batch[1..];
    }
  }

  /** Deciding an event's faults: it is resolved from then on, and only caller events make others. */
  lemma ComposeEffect(identity: Identity, n: Net, e: Event)
    requires PlanSound(n.plan) && e.destination in n.endpoints
    ensures var (m, f, v) := Compose(identity, n, e);
      && Grown(n.(resolved := n.resolved + {e.id}), m, e.id) && SameIdentity(e, f) && f.destination in n.endpoints
      && (e.fromFault || e.id in n.resolved ==> m == n.(resolved := n.resolved + {e.id}))
      && (e.id in n.resolved ==> v == Proceed)
  {
    hide Grown;
    hide ApplyBatch;
    var n' := n.(resolved := n.resolved + {e.id});
    GrownByNothing(n', e.id);
    if e.id in n.resolved {
      assert n.resolved + {e.id} == n.resolved;
      assert n' == n;
    } else {
      var ids := Pending(n.plan, e);
      var batch := InOrder(n.plan, ids);
      if CheckBatch(n.endpoints, batch, e, {}).None? {
        CheckedReroutes(n, batch, e, {});
        assert ReroutesKnown(n', batch);
        BatchEffect(identity, n', e, batch, Proceed);
        forall f | f in batch
          ensures f.id in ids && n.plan[f.id] == f
        {
          InOrderHolds(n.plan, ids, f);
        }
      }
    }
  }

  // A delivery attempt.

  lemma GrownKeepsPlaced(n: Net, m: Net, root: EventId, hand: Option<EventId>)
    requires Placed(n, hand) && Grown(n, m, root)
    ensures Placed(m, hand)
  {
    forall id | id in m.events
      ensures EventPlaced(m, id, hand)
    {
      if id in n.events {
        assert EventPlaced(n, id, hand);
      } else {
        assert IsFresh(n, m, id, root);
        assert hand != Some(id) && id !in n.held;
      }
    }
    forall k | k in m.queue
      ensures KeyPlaced(m, k, hand)
    {
      if k in n.queue {
        assert KeyPlaced(n, k, hand);
      } else {
        assert IsFresh(n, m, k.event, root);
      }
    }
  }

  /** The records of other events do not depend on one undelivered event. */
  predicate SameDelivered(n: Net, m: Net) {
    && m.endpoints == n.endpoints
    && (forall id :: id in n.events && n.events[id].status == Delivered ==>
          id in m.events && m.events[id] == n.events[id])
    && (forall id :: id in m.events && m.events[id].status == Delivered ==>
          id in n.events && n.events[id] == m.events[id])
  }

  lemma InboxesAgree(n: Net, m: Net)
    requires Inboxes(n) && SameDelivered(n, m)
    ensures Inboxes(m)
  {
    forall p, lane | p in m.endpoints
      ensures InboxSound(m, p, lane)
    {
      assert InboxSound(n, p, lane);
    }
    forall id | id in m.events && m.events[id].status == Delivered
      ensures m.events[id].destination in m.endpoints && IsRecorded(m, id)
    {
      assert IsRecorded(n, id);
    }
  }

  lemma GrownKeepsDelivered(n: Net, m: Net, root: EventId)
    requires Grown(n, m, root)
    ensures SameDelivered(n, m)
  {
    forall id | id in m.events && m.events[id].status == Delivered
      ensures id in n.events && n.events[id] == m.events[id]
    {
      assert id !in n.events ==> IsFresh(n, m, id, root);
    }
  }

  /** The event in hand, as the faults left it, can be put down. */
  ghost predicate InHand(n: Net, e: Event) {
    && Placed(n, Some(e.id)) && Inboxes(n)
    && e.id in n.resolved && e.destination in n.endpoints
  }

  /** Putting the event in hand down at rest. */
  lemma RestKeeps(n: Net, e: Event)
    requires InHand(n, e) && e.status.IsTerminal() && e.status != Delivered
    ensures Valid(n.With(e))
  {
    var m := n.With(e);
    forall id | id in m.events
      ensures EventPlaced(m, id, None)
    {
      assert EventPlaced(n, id, Some(e.id));
    }
    forall k | k in m.queue
      ensures KeyPlaced(m, k, None)
    {
      assert KeyPlaced(n, k, Some(e.id));
    }
    assert EventPlaced(n, e.id, Some(e.id));
    InboxesAgree(n, m);
  }

  lemma BlockKeeps(n: Net, e: Event)
    requires InHand(n, e) && PathBlocked(n, e)
    ensures Valid(Blocks(n, e))
  {
    var m := Blocks(n, e);
    forall id | id in m.events
      ensures EventPlaced(m, id, None)
    {
      assert EventPlaced(n, id, Some(e.id));
    }
    forall k | k in m.queue
      ensures KeyPlaced(m, k, None)
    {
      assert KeyPlaced(n, k, Some(e.id));
    }
    assert EventPlaced(n, e.id, Some(e.id));
    InboxesAgree(n, m);
  }

  lemma RequeueKeeps(n: Net, e: Event)
    requires InHand(n, e) && e.status == Scheduled
    ensures Valid(n.Requeued(e))
  {
    var m := n.Requeued(e);
    forall id | id in m.events
      ensures EventPlaced(m, id, None)
    {
      assert EventPlaced(n, id, Some(e.id));
    }
    forall k | k in m.queue
      ensures KeyPlaced(m, k, None)
    {
      if k in n.queue {
        assert KeyPlaced(n, k, Some(e.id));
      }
    }
    assert EventPlaced(n, e.id, Some(e.id));
    InboxesAgree(n, m);
  }

  lemma HandedPlaced(n: Net, e: Event, late: bool)
    requires InHand(n, e)
    ensures Placed(Handed(n, e, late), None)
  {
    var m := Handed(n, e, late);
    forall id | id in m.events
      ensures EventPlaced(m, id, None)
    {
      assert EventPlaced(n, id, Some(e.id));
    }
    forall k | k in m.queue
      ensures KeyPlaced(m, k, None)
    {
      assert KeyPlaced(n, k, Some(e.id));
    }
  }

  lemma HandedSound(n: Net, e: Event, late: bool, p: EndpointId, lane: Lane)
    requires p in n.endpoints && InboxSound(n, p, lane)
    requires e.id in n.events && n.events[e.id].status != Delivered && e.destination in n.endpoints
    ensures p in Handed(n, e, late).endpoints && InboxSound(Handed(n, e, late), p, lane)
  {
    var m := Handed(n, e, late);
    var before, after := n.endpoints[p].Inbox(lane), m.endpoints[p].Inbox(lane);
    assert forall i :: 0 <= i < |before| ==> before[i].event != e.id;
    if p == e.destination && lane == e.Lane() {
      assert after == before + [after[|before|]] && Records(after[|before|], m.events[e.id]);
    } else {
      assert after == before;
    }
  }

  lemma HandedRecorded(n: Net, e: Event, late: bool, id: EventId)
    requires InHand(n, e) && id in n.events && (id == e.id || n.events[id].status == Delivered)
    ensures var m := Handed(n, e, late);
      id in m.events && m.events[id].destination in m.endpoints && IsRecorded(m, id)
  {
    hide InboxSound;
    var m := Handed(n, e, late);
    var f := m.events[id];
    if id == e.id {
      var inbox := m.endpoints[f.destination].Inbox(f.Lane());
      assert inbox[|inbox| - 1].event == id;
    } else {
      assert IsRecorded(n, id);
      var i :| 0 <= i < |n.endpoints[f.destination].Inbox(f.Lane())|
            && n.endpoints[f.destination].Inbox(f.Lane())[i].event == id;
      assert m.endpoints[f.destination].Inbox(f.Lane())[i].event == id;
    }
  }

  /** The record of the event in hand goes at the end of its destination's inbox, where it was not before. */
  lemma HandedInboxes(n: Net, e: Event, late: bool)
    requires InHand(n, e)
    ensures Inboxes(Handed(n, e, late))
  {
    hide InboxSound;
    hide IsRecorded;
    var m := Handed(n, e, late);
    assert EventPlaced(n, e.id, Some(e.id));
    forall p, lane | p in m.endpoints
      ensures InboxSound(m, p, lane)
    {
      HandedSound(n, e, late, p, lane);
    }
    forall id | id in m.events && m.events[id].status == Delivered
      ensures m.events[id].destination in m.endpoints && IsRecorded(m, id)
    {
      HandedRecorded(n, e, late, id);
    }
  }

  lemma SettledKeeps(n: Net, e: Event, v: Verdict)
    requires InHand(n, e)
    ensures Valid(Settled(n, e, v))
  {
    hide InHand;
    hide Valid;
    match v
    case Rejected(_) => RestAs(n, e, RejectedBySimulator);
    case DroppedBy(_) => RestAs(n, e, Dropped);
    case Delayed(to) => RequeueAs(n, e, to);
    case Proceed =>
      KnownDestination(n, e);
      if PathBlocked(n, e) {
        BlockKeeps(n, e);
      } else if IsLate(n, e) && n.config.Policy(e.Lane()) == Expire {
        RestAs(n, e, Expired);
      } else {
        HandOver(n, e, IsLate(n, e));
      }
  }

  lemma KnownDestination(n: Net, e: Event)
    requires InHand(n, e)
    ensures e.destination in n.endpoints
  {
  }

  lemma RestAs(n: Net, e: Event, status: EventStatus)
    requires InHand(n, e) && status.IsTerminal() && status != Delivered
    ensures Valid(n.With(e.(status := status)))
  {
    RestKeeps(n, e.(status := status));
  }

  lemma RequeueAs(n: Net, e: Event, to: Tick)
    requires InHand(n, e)
    ensures Valid(n.Requeued(e.(status := Scheduled, deliverAt := to)))
  {
    RequeueKeeps(n, e.(status := Scheduled, deliverAt := to));
  }

  lemma HandOver(n: Net, e: Event, late: bool)
    requires InHand(n, e)
    ensures Valid(Handed(n, e, late))
  {
    HandedPlaced(n, e, late);
    HandedInboxes(n, e, late);
  }

  /** Taking the first key out of the queue leaves its event in hand. */
  lemma PopKeeps(n: Net, k: QueueKey)
    requires Valid(n) && k in n.queue
    ensures Placed(n.(queue := n.queue - {k}), Some(k.event)) && Inboxes(n.(queue := n.queue - {k}))
  {
    var m := n.(queue := n.queue - {k});
    assert KeyPlaced(n, k, None);
    forall id | id in m.events
      ensures EventPlaced(m, id, Some(k.event))
    {
      assert EventPlaced(n, id, None);
    }
    forall j | j in m.queue
      ensures KeyPlaced(m, j, Some(k.event))
    {
      assert KeyPlaced(n, j, None);
    }
    InboxesAgree(n, m);
  }

  lemma ResolvedKeeps(n: Net, id: EventId)
    requires Placed(n, Some(id)) && Inboxes(n)
    ensures Placed(n.(resolved := n.resolved + {id}), Some(id)) && Inboxes(n.(resolved := n.resolved + {id}))
  {
    var m := n.(resolved := n.resolved + {id});
    forall j | j in m.events
      ensures EventPlaced(m, j, Some(id))
    {
      assert EventPlaced(n, j, Some(id));
    }
    forall k | k in m.queue
      ensures KeyPlaced(m, k, Some(id))
    {
      assert KeyPlaced(n, k, Some(id));
    }
    InboxesAgree(n, m);
  }

  lemma HandFacts(n: Net, id: EventId)
    requires Placed(n, Some(id))
    ensures id in n.events && n.events[id].id == id && n.events[id].status == Scheduled
    ensures n.events[id].destination in n.endpoints && PlanSound(n.plan)
  {
    assert EventPlaced(n, id, Some(id));
  }

  lemma AttemptKeeps(identity: Identity, n: Net, id: EventId)
    requires Placed(n, Some(id)) && Inboxes(n)
    ensures PlanSound(n.plan) && Valid(Attempt(identity, n, id))
  {
    hide Placed;
    hide Inboxes;
    hide Valid;
    hide Compose;
    hide Grown;
    HandFacts(n, id);
    var e := n.events[id].Bumped();
    var (m, f, v) := Compose(identity, n, e);
    var n' := n.(resolved := n.resolved + {id});
    ComposeEffect(identity, n, e);
    ResolvedKeeps(n, id);
    GrownKeepsPlaced(n', m, id, Some(id));
    GrownKeepsDelivered(n', m, id);
    InboxesAgree(n', m);
    GrownFrame(n', m, id);
    SettledKeeps(m, f, v);
  }

  lemma GrownFrame(n: Net, m: Net, root: EventId)
    requires Grown(n, m, root)
    ensures m.endpoints == n.endpoints && m.resolved == n.resolved && m.plan == n.plan
    ensures m.now == n.now && m.lanes == n.lanes && m.held == n.held && m.config == n.config
    ensures n.events.Keys <= m.events.Keys && n.queue <= m.queue
  {
  }

  /** Attempting the event that is due keeps every event in its place. */
  lemma DeliverNextKeeps(identity: Identity, n: Net)
    requires Valid(n) && IsDue(n)
    ensures PlanSound(n.plan) && Valid(DeliverNext(identity, n))
  {
    hide Placed;
    hide Inboxes;
    hide Attempt;
    var k := First(n.queue);
    PopKeeps(n, k);
    AttemptKeeps(identity, n.(queue := n.queue - {k}), k.event);
  }
}
