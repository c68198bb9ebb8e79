/**
 * What an event's faults do to it, read off the plan: which of them reach it, when they go together, and what
 * each of them then changes.
 */
module SimFaults {
  import opened Results
  import opened Words
  import opened SimTypes
  import opened SimSpec
  import opened SimPlaces

  // Which faults reach an event, and when they go together.

  /** The fault names the event, its content, its route or its lane; what faults made is not multiplied again. */
  predicate Reaches(f: Fault, e: Event) {
    && (match f.target
        case OneEvent(id) => id == e.id
        case OneMessage(id) => e.payload.Message? && id == e.payload.messageId
        case OneTransfer(id) => e.payload.Value? && id == e.payload.transfer
        case Route(from, to, lane) =>
          from == e.source && to == e.intended && (lane == Control <==> e.payload.Message?)
        case WholeLane(lane) => lane == Control <==> e.payload.Message?)
    && (e.fromFault ==> !f.action.Duplicate? && !f.action.Split?)
  }

  /** A registered fault that reaches the event. */
  predicate Hits(plan: FaultPlan, e: Event, id: FaultId) {
    id in plan && Reaches(plan[id], e)
  }

  /** The action makes sense for the event and the network. Content faults ignore the other lane. */
  predicate Applies(endpoints: Endpoints, a: FaultAction, e: Event) {
    match a
    case Delay(_) => true
    case Drop => true
    case Duplicate(copies, _) => copies > 0
    case ReplaceDestination(to) => to in endpoints
    case CorruptByte(offset, mask) =>
      e.payload.Message? ==> mask > 0 && e.payload.mutation.None? && offset < |e.payload.bytes|
    case Partial(amount) => e.payload.Value? ==> 0 < amount <= e.payload.requested
    case OverDeliver(amount) => e.payload.Value? ==> amount > e.payload.requested
    case Split(pieces, _) =>
      e.payload.Value? ==> pieces != [] && 0 !in pieces && SumPieces(pieces) <= e.payload.requested
  }

  predicate IsContent(a: FaultAction) {
    a.CorruptByte? || a.Partial? || a.OverDeliver? || a.Split?
  }

  /** Two actions that cannot both happen to one event. */
  predicate Clash(a: FaultAction, b: FaultAction) {
    || (a.Delay? && b.Delay?) || (a.Drop? && b.Drop?) || (a.Duplicate? && b.Duplicate?)
    || (a.ReplaceDestination? && b.ReplaceDestination?) || (IsContent(a) && IsContent(b))
  }

  /** Every fault that hits the event applies to it, and no two of them clash. */
  ghost predicate Compatible(n: Net, e: Event) {
    && (forall i :: Hits(n.plan, e, i) ==> Applies(n.endpoints, n.plan[i].action, e))
    && (forall i, j :: Hits(n.plan, e, i) && Hits(n.plan, e, j) && i != j ==>
          !Clash(n.plan[i].action, n.plan[j].action))
  }

  lemma PendingHits(plan: FaultPlan, e: Event, id: FaultId)
    ensures id in Pending(plan, e) <==> Hits(plan, e, id)
  {
  }

  lemma AppliesIff(endpoints: Endpoints, a: FaultAction, e: Event)
    ensures CheckAction(endpoints, a, e).None? <==> Applies(endpoints, a, e)
  {
  }

  lemma ClashIff(a: FaultAction, b: FaultAction)
    ensures Clash(a, b) <==> a.Group() == b.Group()
  {
  }

  /** No two faults of the batch share a group, nor one of those taken already. */
  ghost predicate Apart(batch: seq<Fault>, groups: set<ExclusionGroup>) {
    && (forall i :: 0 <= i < |batch| ==> batch[i].action.Group() !in groups)
    && (forall i, j :: 0 <= i < j < |batch| ==> batch[i].action.Group() != batch[j].action.Group())
  }

  lemma ApartSplits(batch: seq<Fault>, groups: set<ExclusionGroup>)
    requires batch != []
    ensures Apart(batch, groups) <==>
      batch[0].action.Group() !in groups && Apart(batch[1..], groups + {batch[0].action.Group()})
  {
    var rest, more := batch[1..], groups + {batch[0].action.Group()};
    assert forall i :: 0 <= i < |rest| ==> rest[i] == batch[i + 1];
    if batch[0].action.Group() !in groups && Apart(rest, more) {
      assert forall i :: 0 < i < |batch| ==> batch[i] == rest[i - 1];
    }
  }

  lemma {:induction false} CheckBatchIff(
    endpoints: Endpoints, batch: seq<Fault>, e: Event, groups: set<ExclusionGroup>)
    ensures CheckBatch(endpoints, batch, e, groups).None? <==>
      Apart(batch, groups) && forall i :: 0 <= i < |batch| ==> Applies(endpoints, batch[i].action, e)
    decreases |batch|
  {
    hide CheckAction;
    hide Applies;
    hide Apart;
    if batch == [] {
      NothingClashes(groups);
    } else {
      ApartSplits(batch, groups);
      AppliesIff(endpoints, batch[0].action, e);
      CheckBatchIff(endpoints, batch[1..], e, groups + {batch[0].action.Group()});
      assert forall i :: 0 < i < |batch| ==> batch[i] == batch[1..][i - 1];
    }
  }

  lemma NothingClashes(groups: set<ExclusionGroup>)
    ensures Apart([], groups)
  {
  }

  /** Each fault comes up once, in the order of stages and then ids. */
  lemma {:induction false} InOrderSorted(plan: FaultPlan, ids: set<FaultId>)
    requires ids <= plan.Keys && PlanSound(plan)
    ensures forall i, j :: 0 <= i < j < |InOrder(plan, ids)| ==> InOrder(plan, ids)[i].Precedes(InOrder(plan, ids)[j])
    decreases |ids|
  {
    if ids != {} {
      HasEarliest(plan, ids);
      var id :| IsEarliest(plan, ids, id) && InOrder(plan, ids) == [plan[id]] + InOrder(plan, ids - {id});
      var rest := InOrder(plan, ids - {id});
      InOrderSorted(plan, ids - {id});
      forall j | 0 <= j < |rest|
        ensures plan[id].Precedes(rest[j])
      {
        InOrderHolds(plan, ids - {id}, rest[j]);
      }
    }
  }

  /** The batch of an event. */
  ghost function Batch(n: Net, e: Event): seq<Fault>
    requires PlanSound(n.plan)
  {
    InOrder(n.plan, Pending(n.plan, e))
  }

  lemma BatchHolds(n: Net, e: Event, f: Fault)
    requires PlanSound(n.plan)
    ensures f in Batch(n, e) <==> Hits(n.plan, e, f.id) && n.plan[f.id] == f
  {
    hide InOrder;
    PendingHits(n.plan, e, f.id);
    InOrderHolds(n.plan, Pending(n.plan, e), f);
  }

  lemma HitIsInBatch(n: Net, e: Event, i: FaultId) returns (at: nat)
    requires PlanSound(n.plan) && Hits(n.plan, e, i)
    ensures at < |Batch(n, e)| && Batch(n, e)[at] == n.plan[i]
  {
    hide InOrder;
    BatchHolds(n, e, n.plan[i]);
    at :| 0 <= at < |Batch(n, e)| && Batch(n, e)[at] == n.plan[i];
  }

  /** A batch is accepted exactly when its faults are compatible. */
  lemma BatchAcceptedIff(n: Net, e: Event)
    requires PlanSound(n.plan)
    ensures CheckBatch(n.endpoints, Batch(n, e), e, {}).None? <==> Compatible(n, e)
  {
    hide InOrder;
    hide CheckBatch;
    hide Applies;
    var batch := Batch(n, e);
    CheckBatchIff(n.endpoints, batch, e, {});
    InOrderSorted(n.plan, Pending(n.plan, e));
    forall i | 0 <= i < |batch|
      ensures Hits(n.plan, e, batch[i].id) && n.plan[batch[i].id] == batch[i]
    {
      BatchHolds(n, e, batch[i]);
    }
    hide Reaches;
    if Compatible(n, e) {
      forall i, j | 0 <= i < j < |batch|
        ensures batch[i].action.Group() != batch[j].action.Group()
      {
        SortedDiffer(batch[i], batch[j]);
        assert batch[i].id != batch[j].id;
        ClashIff(batch[i].action, batch[j].action);
      }
    }
    if Apart(batch, {}) && forall i :: 0 <= i < |batch| ==> Applies(n.endpoints, batch[i].action, e) {
      CompatibleIfApart(n, e);
    }
  }

  lemma SortedDiffer(f: Fault, g: Fault)
    requires f.Precedes(g)
    ensures f != g
  {
  }

  lemma CompatibleIfApart(n: Net, e: Event)
    requires PlanSound(n.plan) && Apart(Batch(n, e), {})
    requires forall i :: 0 <= i < |Batch(n, e)| ==> Applies(n.endpoints, Batch(n, e)[i].action, e)
    ensures Compatible(n, e)
  {
    hide InOrder;
    hide Applies;
    hide Reaches;
    forall i | Hits(n.plan, e, i)
      ensures Applies(n.endpoints, n.plan[i].action, e)
    {
      var at := HitIsInBatch(n, e, i);
    }
    forall i, j | Hits(n.plan, e, i) && Hits(n.plan, e, j) && i != j
      ensures !Clash(n.plan[i].action, n.plan[j].action)
    {
      var a := HitIsInBatch(n, e, i);
      var b := HitIsInBatch(n, e, j);
      assert a != b;
      ClashIff(n.plan[i].action, n.plan[j].action);
    }
  }

  // What the faults of an accepted batch do, one after the other.

  lemma FaultFrame(identity: Identity, n: Net, e: Event, a: FaultAction)
    requires e.destination in n.endpoints
    requires a.ReplaceDestination? ==> a.endpoint in n.endpoints
    ensures var (m, f) := ApplyFault(identity, n, e, a);
      && m.now == n.now && m.endpoints == n.endpoints && f.destination in n.endpoints
      && f == e.(destination := f.destination, payload := f.payload)
      && (a.ReplaceDestination? ==> f.destination == a.endpoint)
      && (!a.ReplaceDestination? ==> f.destination == e.destination)
      && (!IsContent(a) ==> f.payload == e.payload)
  {
    hide Grown;
    hide AddPieces;
    hide AddCopies;
    FaultEffect(identity, n, e, a);
    GrownClock(n, ApplyFault(identity, n, e, a).0, e.id);
  }

  lemma GrownClock(n: Net, m: Net, root: EventId)
    requires Grown(n, m, root)
    ensures m.now == n.now && m.endpoints == n.endpoints
  {
  }

  /** The payload after one content fault. */
  ghost predicate Changed(identity: Identity, a: FaultAction, p: Payload, q: Payload) {
    match a
    case CorruptByte(offset, mask) =>
      if p.Message? && offset < |p.bytes| then
        && q.Message? && |q.bytes| == |p.bytes| && q.messageId == identity(q.bytes)
        && (forall i :: 0 <= i < |p.bytes| && i != offset ==> q.bytes[i] == p.bytes[i])
        && (q.bytes[offset] as bv8) == (p.bytes[offset] as bv8) ^ (mask as bv8)
        && q.mutation.Some? && q.mutation.value.offset == offset
        && q.mutation.value.before == p.bytes[offset] && q.mutation.value.after == q.bytes[offset]
        && (p.mutation.None? ==> q.mutation.value.originalMessageId == p.messageId)
      else q == p
    case Partial(amount) => if p.Value? then q == p.(delivered := amount, overDelivered := false) else q == p
    case OverDeliver(amount) => if p.Value? then q == p.(delivered := amount, overDelivered := true) else q == p
    case Split(pieces, _) =>
      if p.Value? && pieces != [] then q == p.(delivered := pieces[0], piece := Some(0)) else q == p
    case _ => q == p
  }

  lemma FaultChanges(identity: Identity, n: Net, e: Event, a: FaultAction)
    ensures Changed(identity, a, e.payload, ApplyFault(identity, n, e, a).1.payload)
  {
    hide AddPieces;
    hide AddCopies;
  }

  /** The faults of `batch` that come after its first. */
  lemma RestOf(n: Net, batch: seq<Fault>)
    requires batch != [] && Apart(batch, {}) && ReroutesKnown(n, batch)
    ensures Apart(batch[1..], {}) && ReroutesKnown(n, batch[1..])
    ensures batch[0].action.ReplaceDestination? ==> batch[0].action.endpoint in n.endpoints
    ensures forall i :: 0 < i < |batch| ==> batch[i] == batch[1..][i - 1]
    ensures forall i :: 0 < i < |batch| ==> !Clash(batch[0].action, batch[i].action)
  {
    assert forall i :: 0 <= i < |batch[1..]| ==> batch[1..][i] == batch[i + 1];
    assert batch[0] in batch;
    forall i | 0 < i < |batch|
      ensures !Clash(batch[0].action, batch[i].action)
    {
      ClashIff(batch[0].action, batch[i].action);
    }
  }

  /** An event is rerouted to where the fault says, and otherwise keeps its destination. */
  ghost predicate Rerouted(batch: seq<Fault>, e: Event, f: Event) {
    && f == e.(destination := f.destination, payload := f.payload)
    && (forall i :: 0 <= i < |batch| && batch[i].action.ReplaceDestination? ==>
          f.destination == batch[i].action.endpoint)
    && ((forall i :: 0 <= i < |batch| ==> !batch[i].action.ReplaceDestination?) ==> f.destination == e.destination)
  }

  lemma {:induction false} BatchReroutes(identity: Identity, n: Net, e: Event, batch: seq<Fault>, v: Verdict)
    requires e.destination in n.endpoints && ReroutesKnown(n, batch) && Apart(batch, {})
    ensures Rerouted(batch, e, ApplyBatch(identity, n, e, batch, v).1)
    decreases |batch|
  {
    hide ApplyFault;
    hide Apart;
    if batch != [] {
      RestOf(n, batch);
      var (m, f) := ApplyFault(identity, n, e, batch[0].action);
      FaultFrame(identity, n, e, batch[0].action);
      BatchReroutes(identity, m, f, batch[1..], Marked(v, n.now, batch[0]));
    }
  }

  /** The content changes as its one content fault says, and otherwise not at all. */
  ghost predicate Rewritten(identity: Identity, batch: seq<Fault>, e: Event, f: Event) {
    && (forall i :: 0 <= i < |batch| && IsContent(batch[i].action) ==>
          Changed(identity, batch[i].action, e.payload, f.payload))
    && ((forall i :: 0 <= i < |batch| ==> !IsContent(batch[i].action)) ==> f.payload == e.payload)
  }

  lemma {:induction false} BatchRewrites(identity: Identity, n: Net, e: Event, batch: seq<Fault>, v: Verdict)
    requires e.destination in n.endpoints && ReroutesKnown(n, batch) && Apart(batch, {})
    ensures Rewritten(identity, batch, e, ApplyBatch(identity, n, e, batch, v).1)
    decreases |batch|
  {
    hide ApplyFault;
    hide Apart;
    hide Changed;
    if batch != [] {
      RestOf(n, batch);
      var (m, f) := ApplyFault(identity, n, e, batch[0].action);
      FaultFrame(identity, n, e, batch[0].action);
      FaultChanges(identity, n, e, batch[0].action);
      BatchRewrites(identity, m, f, batch[1..], Marked(v, n.now, batch[0]));
    }
  }

  /** A drop decides; without one a delay does, for its own number of ticks from now. */
  ghost predicate Judged(batch: seq<Fault>, now: Tick, v: Verdict, w: Verdict) {
    && (forall i :: 0 <= i < |batch| && batch[i].action.Drop? ==> w == DroppedBy(batch[i].id))
    && ((forall i :: 0 <= i < |batch| ==> !batch[i].action.Drop?) ==>
          && (v.DroppedBy? ==> w == v)
          && (!v.DroppedBy? ==>
                && (forall i :: 0 <= i < |batch| && batch[i].action.Delay? ==>
                      w == Delayed(Min(now + batch[i].action.ticks, 0xFFFF_FFFF_FFFF_FFFF)))
                && ((forall i :: 0 <= i < |batch| ==> !batch[i].action.Delay?) ==> w == v)))
  }

  lemma {:induction false} BatchJudges(identity: Identity, n: Net, e: Event, batch: seq<Fault>, v: Verdict)
    requires e.destination in n.endpoints && ReroutesKnown(n, batch) && Apart(batch, {})
    ensures Judged(batch, n.now, v, ApplyBatch(identity, n, e, batch, v).2)
    decreases |batch|
  {
    hide ApplyFault;
    hide Apart;
    if batch != [] {
      RestOf(n, batch);
      var (m, f) := ApplyFault(identity, n, e, batch[0].action);
      FaultFrame(identity, n, e, batch[0].action);
      BatchJudges(identity, m, f, batch[1..], Marked(v, n.now, batch[0]));
    }
  }

  // The same, read off the plan.

  /** What becomes of an event when its faults go together: its destination and its content, nothing else. */
  ghost predicate Altered(identity: Identity, n: Net, e: Event, f: Event) {
    && (forall i :: Hits(n.plan, e, i) && n.plan[i].action.ReplaceDestination? ==>
          f.destination == n.plan[i].action.endpoint)
    && ((forall i :: Hits(n.plan, e, i) ==> !n.plan[i].action.ReplaceDestination?) ==>
          f.destination == e.destination)
    && (forall i :: Hits(n.plan, e, i) && IsContent(n.plan[i].action) ==>
          Changed(identity, n.plan[i].action, e.payload, f.payload))
    && ((forall i :: Hits(n.plan, e, i) ==> !IsContent(n.plan[i].action)) ==> f.payload == e.payload)
  }

  /** What becomes of its attempt. */
  ghost predicate Decides(n: Net, e: Event, v: Verdict) {
    && (forall i :: Hits(n.plan, e, i) && n.plan[i].action.Drop? ==> v == DroppedBy(i))
    && ((forall i :: Hits(n.plan, e, i) ==> !n.plan[i].action.Drop?) ==>
          && (forall i :: Hits(n.plan, e, i) && n.plan[i].action.Delay? ==>
                v == Delayed(Min(n.now + n.plan[i].action.ticks, 0xFFFF_FFFF_FFFF_FFFF)))
          && ((forall i :: Hits(n.plan, e, i) ==> !n.plan[i].action.Delay?) ==> v == Proceed))
  }

  ghost predicate ActedOn(identity: Identity, n: Net, e: Event, f: Event, v: Verdict) {
    && f == e.(destination := f.destination, payload := f.payload)
    && Altered(identity, n, e, f) && Decides(n, e, v)
  }

  lemma BatchIsPlan(identity: Identity, n: Net, e: Event, f: Event, v: Verdict)
    requires PlanSound(n.plan)
    requires var batch := Batch(n, e);
      Rerouted(batch, e, f) && Rewritten(identity, batch, e, f) && Judged(batch, n.now, Proceed, v)
    ensures ActedOn(identity, n, e, f, v)
  {
    hide InOrder;
    hide Changed;
    hide Reaches;
    hide PlanSound;
    var batch := Batch(n, e);
    forall i | Hits(n.plan, e, i)
      ensures n.plan[i].id == i && exists at :: 0 <= at < |batch| && batch[at] == n.plan[i]
    {
      SoundAt(n.plan, i);
      var at := HitIsInBatch(n, e, i);
      assert batch[at] == n.plan[i];
    }
    forall at | 0 <= at < |batch|
      ensures Hits(n.plan, e, batch[at].id) && n.plan[batch[at].id] == batch[at]
    {
      BatchHolds(n, e, batch[at]);
    }
  }

  lemma SoundAt(plan: FaultPlan, id: FaultId)
    requires PlanSound(plan) && id in plan
    ensures plan[id].id == id
  {
  }

  lemma ActedOnFrame(identity: Identity, n: Net, e: Event, f: Event, v: Verdict)
    requires ActedOn(identity, n, e, f, v)
    ensures f == e.(destination := f.destination, payload := f.payload)
  {
  }

  /**
   * Faults that go together all take effect: the destination, the content, the delay and the drop are those the
   * plan names. Faults that do not reject the event and change nothing, and a decided event has no more faults.
   */
  lemma FaultsTakeEffect(identity: Identity, n: Net, e: Event)
    requires PlanSound(n.plan) && e.destination in n.endpoints
    ensures var f := Compose(identity, n, e).1; f == e.(destination := f.destination, payload := f.payload)
    ensures var (m, f, v) := Compose(identity, n, e);
      if e.id in n.resolved then m == n && f == e && v == Proceed
      else if Compatible(n, e) then ActedOn(identity, n, e, f, v)
      else m == n.(resolved := n.resolved + {e.id}) && f == e && v.Rejected?
  {
    hide InOrder;
    hide ApplyBatch;
    hide CheckBatch;
    hide Compatible;
    hide ActedOn;
    if e.id !in n.resolved {
      var batch := Batch(n, e);
      BatchAcceptedIff(n, e);
      if Compatible(n, e) {
        CheckBatchIff(n.endpoints, batch, e, {});
        CheckedReroutes(n, batch, e, {});
        hide Applies;
        hide Apart;
        hide Rerouted;
        hide Rewritten;
        hide Judged;
        var n' := n.(resolved := n.resolved + {e.id});
        BatchReroutes(identity, n', e, batch, Proceed);
        BatchRewrites(identity, n', e, batch, Proceed);
        BatchJudges(identity, n', e, batch, Proceed);
        var (m, f, v) := ApplyBatch(identity, n', e, batch, Proceed);
        BatchIsPlan(identity, n, e, f, v);
        ActedOnFrame(identity, n, e, f, v);
      }
    }
  }
}
