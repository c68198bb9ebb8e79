/**
 * Value conservation: while no accepted fault duplicates, over-delivers, or cuts a piece that was already made,
 * one scheduled asset event and all pieces split from it never deliver more than was requested.
 */
module SimValue {
  import opened Results
  import opened Words
  import opened Sums
  import opened SimTypes
  import opened SimSpec
  import opened SimPlaces
  import opened SimProgress
  import opened SimRun

  predicate InFamily(n: Net, r: EventId, id: EventId) {
    id in n.events && id in n.lineage && n.lineage[id] == r && n.events[id].payload.Value?
  }

  /** What a caller event and its pieces carry. */
  ghost function Family(n: Net, r: EventId): map<EventId, nat> {
    map id | id in n.events && InFamily(n, r, id) ::
      if id in n.events && InFamily(n, r, id) then n.events[id].payload.delivered else 0
  }

  /** What of it was delivered. */
  ghost function DeliveredFamily(n: Net, r: EventId): map<EventId, nat> {
    map id | id in n.events && InFamily(n, r, id) && n.events[id].status == Delivered ::
      if id in n.events && InFamily(n, r, id) && n.events[id].status == Delivered
      then n.events[id].payload.delivered else 0
  }

  predicate Tame(a: FaultAction) {
    !a.Duplicate? && !a.OverDeliver?
  }

  /** A piece is aimed, carried and requested like the event it was split from. */
  predicate SameScope(e: Event, f: Event) {
    && f.source == e.source && f.intended == e.intended && f.Lane() == e.Lane()
    && (e.payload.Value? ==> f.payload.transfer == e.payload.transfer && f.payload.requested == e.payload.requested)
  }

  /** Every event descends from a caller event; only a decided one has other descendants. */
  ghost predicate Descends(n: Net, id: EventId)
    requires id in n.events
  {
    && id in n.lineage && n.lineage[id] in n.events
    && !n.events[n.lineage[id]].fromFault
    && SameScope(n.events[n.lineage[id]], n.events[id])
    && if n.events[id].fromFault then n.lineage[id] in n.resolved else n.lineage[id] == id
  }

  /** No fault changes what this piece carries. */
  ghost predicate OutOfReach(plan: FaultPlan, e: Event) {
    forall f :: f in plan && plan[f].action.Partial? ==> !plan[f].target.Matches(e)
  }

  ghost predicate PlanFixed(n: Net) {
    && (forall f :: f in n.plan ==> Tame(n.plan[f].action))
    && (forall f :: f in n.plan && n.plan[f].action.Partial? && n.plan[f].target.OneEvent? ==>
          n.plan[f].target.event in n.events && !n.events[n.plan[f].target.event].fromFault)
  }

  ghost predicate Within(n: Net, r: EventId)
    requires r in n.events
  {
    n.events[r].payload.Value? && !n.events[r].fromFault ==> Sum(Family(n, r)) <= n.events[r].payload.requested
  }

  ghost predicate Conserving(n: Net) {
    && PlanFixed(n)
    && (forall id :: id in n.events ==> Descends(n, id))
    && (forall id :: id in n.events && n.events[id].fromFault && n.events[id].payload.Value? ==>
          OutOfReach(n.plan, n.events[id]))
    && (forall r :: r in n.events ==> Within(n, r))
  }

  /** The promise: nothing a caller event led to exceeds its request. */
  lemma DeliveredWithinRequest(n: Net, r: EventId)
    requires Conserving(n) && r in n.events && n.events[r].payload.Value? && !n.events[r].fromFault
    ensures Sum(DeliveredFamily(n, r)) <= n.events[r].payload.requested
  {
    assert Within(n, r);
    SumMonotone(DeliveredFamily(n, r), Family(n, r));
  }

  // Steps that move events without changing what they carry.

  /** Same events carrying the same, under the same plan. */
  ghost predicate SameContents(n: Net, m: Net) {
    && m.plan == n.plan && m.lineage == n.lineage && n.resolved <= m.resolved
    && m.events.Keys == n.events.Keys
    && (forall id :: id in n.events ==> SameContent(n.events[id], m.events[id]))
  }

  predicate SameContent(e: Event, f: Event) {
    && f.id == e.id && f.source == e.source && f.intended == e.intended && f.fromFault == e.fromFault
    && f.Lane() == e.Lane() && (e.payload.Value? ==> f.payload == e.payload)
  }

  lemma SameFamilies(n: Net, m: Net, r: EventId)
    requires SameContents(n, m)
    ensures Family(m, r) == Family(n, r)
  {
    FamiliesAgree(n, m, r);
  }

  lemma SameReach(plan: FaultPlan, e: Event, f: Event)
    requires SameContent(e, f) && e.payload.Value?
    ensures OutOfReach(plan, e) == OutOfReach(plan, f)
  {
    assert forall t: FaultTarget :: t.Matches(e) <==> t.Matches(f);
  }

  lemma SameDescent(n: Net, m: Net, id: EventId)
    requires SameContents(n, m) && id in n.events && Descends(n, id)
    ensures Descends(m, id)
  {
  }

  lemma ContentsConserve(n: Net, m: Net)
    requires Conserving(n) && SameContents(n, m)
    ensures Conserving(m)
  {
    hide Family;
    hide Sum;
    hide Descends;
    hide OutOfReach;
    forall id | id in m.events
      ensures Descends(m, id)
    {
      SameDescent(n, m, id);
    }
    forall id | id in m.events && m.events[id].fromFault && m.events[id].payload.Value?
      ensures OutOfReach(m.plan, m.events[id])
    {
      SameReach(n.plan, n.events[id], m.events[id]);
    }
    forall r | r in m.events
      ensures Within(m, r)
    {
      assert Within(n, r);
      SameFamilies(n, m, r);
    }
  }

  // What a batch does to what an event carries.

  predicate ChangesValue(a: FaultAction) {
    a.Partial? || a.Split?
  }

  /** What the pieces made so far share with the event they come from. */
  ghost predicate PiecesAlike(n: Net, m: Net, e: Event) {
    forall id :: id in m.events && id !in n.events ==> m.events[id].payload.Value? && SameScope(e, m.events[id])
  }

  ghost predicate Extends(n: Net, m: Net) {
    forall id :: id in n.events ==> id in m.events && m.events[id] == n.events[id]
  }

  lemma {:induction false} PiecesAreAlike(n: Net, origin: Event, pieces: seq<U128>, i: nat, spacing: U64)
    requires origin.payload.Value? && i <= |pieces|
    ensures PiecesAlike(n, AddPieces(n, origin, pieces, i, spacing), origin)
    ensures Extends(n, AddPieces(n, origin, pieces, i, spacing))
    decreases |pieces| - i
  {
    var free := FreeId(n.events, n.nextEvent);
    if i < |pieces| && free.Some? {
      var piece := origin.(
        id := free.value, deliverAt := Spaced(n.now, spacing, Narrow16(i)), attempts := 0,
        payload := origin.payload.(delivered := pieces[i], piece := Some(Narrow16(i))),
        fromFault := true, status := Scheduled);
      var m := n.(nextEvent := free.value + 1).Queued(piece, origin.id);
      PiecesAreAlike(m, origin, pieces, i + 1, spacing);
      var o := AddPieces(n, origin, pieces, i, spacing);
      assert o == AddPieces(m, origin, pieces, i + 1, spacing);
      forall id | id in o.events && id !in n.events
        ensures o.events[id].payload.Value? && SameScope(origin, o.events[id])
      {
        if id == piece.id {
          assert id in m.events && o.events[id] == piece;
        } else {
          assert id !in m.events;
        }
      }
    }
  }

  /** One fault of a tame plan. */
  lemma TameFault(identity: Identity, n: Net, e: Event, a: FaultAction)
    requires Tame(a)
    ensures var (m, f) := ApplyFault(identity, n, e, a);
      && SameScope(e, f) && Extends(n, m) && PiecesAlike(n, m, e)
      && (e.payload.Message? || !a.Split? ==> m == n)
      && (e.payload.Value? && !ChangesValue(a) ==> f.payload == e.payload)
  {
    hide AddPieces;
    if a.Split? && e.payload.Value? && a.pieces != [] {
      PiecesAreAlike(n, e.(payload := e.payload.(delivered := a.pieces[0], piece := Some(0))), a.pieces, 1, a.spacing);
    }
  }

  lemma {:induction false} TameBatch(identity: Identity, n: Net, e: Event, batch: seq<Fault>, v: Verdict)
    requires forall f :: f in batch ==> Tame(f.action)
    ensures var (m, f, _) := ApplyBatch(identity, n, e, batch, v);
      && SameScope(e, f) && Extends(n, m) && PiecesAlike(n, m, e)
      && (e.payload.Message? || (forall g :: g in batch ==> !g.action.Split?) ==> m == n)
      && (e.payload.Value? && (forall g :: g in batch ==> !ChangesValue(g.action)) ==> f.payload == e.payload)
    decreases |batch|
  {
    hide ApplyFault;
    if batch != [] {
      var (m, f) := ApplyFault(identity, n, e, batch[0].action);
      TameFault(identity, n, e, batch[0].action);
      TameBatch(identity, m, f, batch[1..], Marked(v, n.now, batch[0]));
      var o := ApplyBatch(identity, n, e, batch, v).0;
      forall id | id in o.events && id !in n.events
        ensures o.events[id].payload.Value? && SameScope(e, o.events[id])
      {
        if id in m.events {
          assert o.events[id] == m.events[id];
        } else {
          assert SameScope(f, o.events[id]);
        }
      }
    }
  }

  // The budget of a family.

  /** Only the root itself is in its family. */
  ghost predicate NoPieces(n: Net, r: EventId) {
    forall id :: id in n.events && id in n.lineage && n.lineage[id] == r ==> id == r
  }

  lemma RootAlone(n: Net, e: Event)
    requires e.id in n.events && e.id in n.lineage && n.lineage[e.id] == e.id && NoPieces(n, e.id)
    requires e.payload.Value?
    ensures Sum(Family(n.With(e), e.id)) == e.payload.delivered
  {
    hide Sum;
    hide Family;
    AloneInFamily(n.With(e), e.id);
  }

  lemma FamilyGains(n: Net, piece: Event, next: U64, r: EventId)
    requires piece.id !in n.events && piece.payload.Value?
    ensures Sum(Family(n.(nextEvent := next).Queued(piece, r), r)) == Sum(Family(n, r)) + piece.payload.delivered
  {
    hide Sum;
    var m := n.(nextEvent := next).Queued(piece, r);
    assert Family(m, r) == Family(n, r)[piece.id := piece.payload.delivered];
    SumUpdate(Family(n, r), piece.id, piece.payload.delivered);
  }

  /** Making a piece and putting the original down commute. */
  lemma PieceAside(n: Net, origin: Event, piece: Event, next: U64)
    requires piece.id != origin.id
    ensures n.(nextEvent := next).Queued(piece, origin.id).With(origin)
         == n.With(origin).(nextEvent := next).Queued(piece, origin.id)
  {
    assert n.events[piece.id := piece][origin.id := origin] == n.events[origin.id := origin][piece.id := piece];
  }

  lemma {:induction false} PiecesWithinSum(n: Net, origin: Event, pieces: seq<U128>, i: nat, spacing: U64)
    requires origin.payload.Value? && i <= |pieces| && origin.id in n.events
    ensures Sum(Family(AddPieces(n, origin, pieces, i, spacing).With(origin), origin.id))
         <= Sum(Family(n.With(origin), origin.id)) + SumPieces(pieces[i..])
    decreases |pieces| - i
  {
    hide Family;
    hide Sum;
    hide FreeId;
    hide Spaced;
    var free := FreeId(n.events, n.nextEvent);
    if i < |pieces| && free.Some? {
      var piece := origin.(
        id := free.value, deliverAt := Spaced(n.now, spacing, Narrow16(i)), attempts := 0,
        payload := origin.payload.(delivered := pieces[i], piece := Some(Narrow16(i))),
        fromFault := true, status := Scheduled);
      PiecesWithinSum(
        n.(nextEvent := free.value + 1).Queued(piece, origin.id), origin, pieces, i + 1, spacing);
      FamilyGains(n.With(origin), piece, free.value + 1, origin.id);
      PieceAside(n, origin, piece, free.value + 1);
      assert pieces[i..][0] == pieces[i] && pieces[i..][1..] == pieces[i + 1..];
    }
  }

  /** The family of the event in hand, counting it as the faults left it. */
  ghost predicate InBudget(n: Net, e: Event) {
    e.payload.Value? ==> Sum(Family(n.With(e), e.id)) <= e.payload.requested
  }

  predicate Affordable(a: FaultAction, requested: nat) {
    && (a.Partial? ==> a.amount <= requested)
    && (a.Split? ==> a.pieces != [] && SumPieces(a.pieces) <= requested)
  }

  /** No two faults of a batch are in the same group. */
  ghost predicate GroupsDiffer(batch: seq<Fault>) {
    forall i, j :: 0 <= i < j < |batch| ==> batch[i].action.Group() != batch[j].action.Group()
  }

  lemma {:induction false} CheckedBatch(n: Net, batch: seq<Fault>, e: Event, groups: set<ExclusionGroup>)
    requires CheckBatch(n.endpoints, batch, e, groups).None?
    ensures GroupsDiffer(batch)
    ensures forall i :: 0 <= i < |batch| ==> batch[i].action.Group() !in groups
    ensures e.payload.Value? ==> forall i :: 0 <= i < |batch| ==> Affordable(batch[i].action, e.payload.requested)
    decreases |batch|
  {
    if batch != [] {
      CheckedBatch(n, batch[1..], e, groups + {batch[0].action.Group()});
      assert batch == [batch[0]] + batch[1..];
    }
  }

  ghost predicate IsRoot(n: Net, r: EventId) {
    r in n.events && r in n.lineage && n.lineage[r] == r
  }

  lemma SplitInBudget(n: Net, e: Event, pieces: seq<U128>, spacing: U64)
    requires e.payload.Value? && IsRoot(n, e.id) && NoPieces(n, e.id)
    requires pieces != [] && SumPieces(pieces) <= e.payload.requested
    ensures var first := e.(payload := e.payload.(delivered := pieces[0], piece := Some(0)));
      InBudget(AddPieces(n, first, pieces, 1, spacing), first)
  {
    hide Family;
    var first := e.(payload := e.payload.(delivered := pieces[0], piece := Some(0)));
    RootAlone(n, first);
    PiecesWithinSum(n, first, pieces, 1, spacing);
  }

  lemma FaultInBudget(identity: Identity, n: Net, e: Event, a: FaultAction)
    requires e.payload.Value? && IsRoot(n, e.id) && Tame(a) && Affordable(a, e.payload.requested)
    requires InBudget(n, e) && (ChangesValue(a) ==> NoPieces(n, e.id))
    ensures var (m, f) := ApplyFault(identity, n, e, a); InBudget(m, f)
  {
    hide Family;
    hide AddPieces;
    match a
    case Partial(amount) => RootAlone(n, WithDelivered(e, amount, false));
    case Split(pieces, spacing) => SplitInBudget(n, e, pieces, spacing);
    case ReplaceDestination(to) => SameFamily(n, e, e.(destination := to));
    case _ =>
  }

  lemma SameFamily(n: Net, e: Event, f: Event)
    requires f.id == e.id && f.payload == e.payload
    ensures Family(n.With(f), e.id) == Family(n.With(e), e.id)
  {
    assert forall id :: InFamily(n.With(f), e.id, id) <==> InFamily(n.With(e), e.id, id);
  }

  lemma RootStays(identity: Identity, n: Net, e: Event, a: FaultAction)
    requires IsRoot(n, e.id) && e.destination in n.endpoints && e.id < n.nextEvent
    requires a.ReplaceDestination? ==> a.endpoint in n.endpoints
    ensures IsRoot(ApplyFault(identity, n, e, a).0, e.id)
  {
    hide ApplyFault;
    FaultEffect(identity, n, e, a);
  }

  lemma {:induction false} BatchInBudget(identity: Identity, n: Net, e: Event, batch: seq<Fault>, v: Verdict)
    requires e.payload.Value? && IsRoot(n, e.id) && InBudget(n, e)
    requires e.destination in n.endpoints && e.id < n.nextEvent && ReroutesKnown(n, batch)
    requires GroupsDiffer(batch)
    requires forall f :: f in batch ==> Tame(f.action) && Affordable(f.action, e.payload.requested)
    requires (exists f :: f in batch && ChangesValue(f.action)) ==> NoPieces(n, e.id)
    ensures var (m, f, _) := ApplyBatch(identity, n, e, batch, v); InBudget(m, f)
    decreases |batch|
  {
    hide ApplyFault;
    hide InBudget;
    hide Grown;
    hide NoPieces;
    if batch != [] {
      var a := batch[0].action;
      var (m, f) := ApplyFault(identity, n, e, a);
      assert batch[0] in batch;
      FaultInBudget(identity, n, e, a);
      TameFault(identity, n, e, a);
      FaultEffect(identity, n, e, a);
      RootStays(identity, n, e, a);
      GrownCounter(n, m, e.id);
      forall g | g in batch[1..] && ChangesValue(g.action)
        ensures !ChangesValue(a) && NoPieces(m, e.id)
      {
        var j :| 0 <= j < |batch| - 1 && batch[1..][j] == g;
        assert batch[j + 1] == g;
        assert a.Group() != g.action.Group();
      }
      assert GroupsDiffer(batch[1..]);
      BatchInBudget(identity, m, f, batch[1..], Marked(v, n.now, batch[0]));
    }
  }

  lemma GrownCounter(n: Net, m: Net, root: EventId)
    requires Grown(n, m, root)
    ensures m.endpoints == n.endpoints && n.nextEvent <= m.nextEvent
  {
  }

  // Deciding the faults of the event in hand.

  /** A fault that reaches a piece without naming it reaches the event the piece was split from. */
  lemma ReachesOrigin(t: FaultTarget, e: Event, piece: Event)
    requires t.Matches(piece) && SameScope(e, piece) && piece.payload.Value? && e.payload.Value?
    requires t.OneEvent? ==> t.event != piece.id
    ensures t.Matches(e)
  {
  }

  lemma SplitExcludesPartial(batch: seq<Fault>, f: Fault, g: Fault)
    requires GroupsDiffer(batch) && f in batch && g in batch && f.action.Split?
    ensures !g.action.Partial?
  {
    var i :| 0 <= i < |batch| && batch[i] == f;
    var j :| 0 <= j < |batch| && batch[j] == g;
    assert i != j ==> f.action.Group() != g.action.Group();
  }

  /** No fault of the plan reaches the pieces just made: it would have conflicted on the original. */
  lemma PiecesOutOfReach(n: Net, e: Event, batch: seq<Fault>, piece: Event)
    requires PlanSound(n.plan) && PlanFixed(n) && !e.fromFault && e.payload.Value? && piece.payload.Value?
    requires batch == InOrder(n.plan, Pending(n.plan, e)) && GroupsDiffer(batch)
    requires exists f :: f in batch && f.action.Split?
    requires SameScope(e, piece) && piece.id !in n.events
    ensures OutOfReach(n.plan, piece)
  {
    var s :| s in batch && s.action.Split?;
    forall g | g in n.plan && n.plan[g].action.Partial?
      ensures !n.plan[g].target.Matches(piece)
    {
      InOrderHolds(n.plan, Pending(n.plan, e), n.plan[g]);
      if n.plan[g] in batch {
        SplitExcludesPartial(batch, s, n.plan[g]);
        assert false;
      } else if n.plan[g].target.Matches(piece) {
        ReachesOrigin(n.plan[g].target, e, piece);
        assert false;
      }
    }
  }

  /** What deciding the faults of the event in hand leaves behind. */
  ghost predicate DecidedWell(n: Net, e: Event, m: Net, f: Event) {
    && Grown(n.(resolved := n.resolved + {e.id}), m, e.id) && SameIdentity(e, f) && SameScope(e, f)
    && PiecesAlike(n, m, e)
    && (e.fromFault || e.payload.Message? ==> m.events == n.events)
    && (e.fromFault && e.payload.Value? ==> f.payload == e.payload)
    && (!e.fromFault ==> InBudget(m, f))
    && (forall id :: id in m.events && id !in n.events ==> OutOfReach(n.plan, m.events[id]))
  }

  /** What one event of the old network is afterwards. */
  lemma OldEvent(n: Net, e: Event, m: Net, f: Event, id: EventId)
    requires Placed(n, Some(e.id)) && DecidedWell(n, e, m, f) && SameContent(n.events[e.id], e) && id in n.events
    ensures var o := m.With(f);
      && id in o.events && id in n.lineage && id in o.lineage && o.lineage[id] == n.lineage[id]
      && SameScope(n.events[id], o.events[id]) && o.events[id].fromFault == n.events[id].fromFault
      && (id != e.id ==> o.events[id] == n.events[id])
  {
    hide InBudget;
    hide OutOfReach;
    hide PiecesAlike;
    assert EventPlaced(n, id, Some(e.id)) && EventPlaced(n, e.id, Some(e.id));
  }

  /** What one event made meanwhile is. */
  lemma NewEvent(n: Net, e: Event, m: Net, f: Event, id: EventId)
    requires Placed(n, Some(e.id)) && DecidedWell(n, e, m, f) && id in m.events && id !in n.events
    ensures var o := m.With(f);
      && e.id in n.events && id != e.id && id in o.lineage && o.lineage[id] == e.id
      && o.events[id] == m.events[id] && o.events[id].fromFault && SameScope(e, o.events[id])
      && !e.fromFault && e.id in o.resolved
  {
    hide InBudget;
    hide OutOfReach;
    assert IsFresh(n.(resolved := n.resolved + {e.id}), m, id, e.id);
  }

  lemma FamilyPoint(n: Net, e: Event, m: Net, f: Event, r: EventId, id: EventId)
    requires Placed(n, Some(e.id)) && Descends(n, e.id) && SameContent(n.events[e.id], e)
    requires DecidedWell(n, e, m, f) && r in n.events && !n.events[r].fromFault && (e.fromFault || r != e.id)
    ensures InFamily(m.With(f), r, id) <==> InFamily(n, r, id)
    ensures InFamily(n, r, id) ==> m.With(f).events[id].payload == n.events[id].payload
  {
    assert f.id == e.id && (e.fromFault && e.payload.Value? ==> f.payload == e.payload);
    hide DecidedWell;
    hide Placed;
    if id in n.events {
      OldEvent(n, e, m, f, id);
    } else if id in m.events {
      NewEvent(n, e, m, f, id);
    }
  }

  /** Families are the same where members and what they carry are. */
  lemma FamiliesAgree(n: Net, m: Net, r: EventId)
    requires forall id :: InFamily(m, r, id) <==> InFamily(n, r, id)
    requires forall id :: InFamily(n, r, id) && InFamily(m, r, id) ==> m.events[id].payload == n.events[id].payload
    ensures Family(m, r) == Family(n, r)
  {
  }

  lemma FamilyElsewhere(n: Net, e: Event, m: Net, f: Event, r: EventId)
    requires Placed(n, Some(e.id)) && Conserving(n) && SameContent(n.events[e.id], e)
    requires DecidedWell(n, e, m, f) && r in n.events && !n.events[r].fromFault && (e.fromFault || r != e.id)
    ensures Family(m.With(f), r) == Family(n, r)
  {
    assert Descends(n, e.id);
    hide Conserving;
    hide Placed;
    hide DecidedWell;
    hide Descends;
    hide Family;
    forall id
      ensures InFamily(m.With(f), r, id) <==> InFamily(n, r, id)
      ensures InFamily(n, r, id) ==> m.With(f).events[id].payload == n.events[id].payload
    {
      FamilyPoint(n, e, m, f, r, id);
    }
    FamiliesAgree(n, m.With(f), r);
  }

  lemma DecidedDescends(n: Net, e: Event, m: Net, f: Event, id: EventId)
    requires Placed(n, Some(e.id)) && Conserving(n) && SameContent(n.events[e.id], e) && e.id == f.id
    requires DecidedWell(n, e, m, f) && id in m.events
    ensures Descends(m.With(f), id)
  {
    assert Descends(n, e.id) && (id in n.events ==> Descends(n, id));
    DecidedResolves(n, e, m, f);
    hide Conserving;
    hide Placed;
    hide DecidedWell;
    OldEvent(n, e, m, f, e.id);
    if id in n.events {
      OldEvent(n, e, m, f, id);
      OldEvent(n, e, m, f, n.lineage[id]);
    } else {
      NewEvent(n, e, m, f, id);
    }
  }

  lemma DecidedResolves(n: Net, e: Event, m: Net, f: Event)
    requires DecidedWell(n, e, m, f)
    ensures n.resolved <= m.With(f).resolved && SameScope(e, f)
  {
  }

  lemma DecidedReach(n: Net, e: Event, m: Net, f: Event, id: EventId)
    requires Conserving(n) && e.id in n.events && SameContent(n.events[e.id], e) && DecidedWell(n, e, m, f)
    requires id in m.events && m.With(f).events[id].fromFault && m.With(f).events[id].payload.Value?
    ensures OutOfReach(n.plan, m.With(f).events[id])
  {
    hide Family;
    hide Descends;
    hide Within;
    hide OutOfReach;
    hide InBudget;
    hide PlanFixed;
    if id == e.id {
      assert OutOfReach(n.plan, n.events[id]);
      SameReach(n.plan, n.events[id], f);
    } else if id in n.events {
      assert OutOfReach(n.plan, n.events[id]);
    }
  }

  lemma DecidedPlan(n: Net, e: Event, m: Net, f: Event)
    requires PlanFixed(n) && e.id in n.events && SameContent(n.events[e.id], e) && DecidedWell(n, e, m, f)
    ensures m.With(f).plan == n.plan && PlanFixed(m.With(f)) && f.id == e.id && f.fromFault == e.fromFault
    ensures f.payload.Value? == e.payload.Value? && (f.payload.Value? ==> f.payload.requested == e.payload.requested)
  {
    hide InBudget;
    hide OutOfReach;
  }

  lemma DecidedWithin(n: Net, e: Event, m: Net, f: Event, r: EventId)
    requires Placed(n, Some(e.id)) && Conserving(n) && SameContent(n.events[e.id], e) && DecidedWell(n, e, m, f)
    requires r in m.events
    ensures Within(m.With(f), r)
  {
    hide Family;
    hide Sum;
    assert (r in n.events ==> Within(n, r)) && (!e.fromFault ==> InBudget(m, f)) && PlanFixed(n);
    hide Conserving;
    DecidedPlan(n, e, m, f);
    if r !in n.events {
      NewEvent(n, e, m, f, r);
    } else {
      OldEvent(n, e, m, f, r);
      if !n.events[r].fromFault && (e.fromFault || r != e.id) {
        FamilyElsewhere(n, e, m, f, r);
        WithinElsewhere(n, e, m, f, r);
      }
    }
  }

  lemma WithinElsewhere(n: Net, e: Event, m: Net, f: Event, r: EventId)
    requires Family(m.With(f), r) == Family(n, r) && r in n.events && r in m.With(f).events
    requires Within(n, r) && !n.events[r].fromFault
    requires SameScope(n.events[r], m.With(f).events[r])
    ensures Within(m.With(f), r)
  {
  }

  /** The parts of conservation, put together. */
  lemma Together(n: Net)
    requires PlanFixed(n) && forall id :: id in n.events ==> Descends(n, id) && Within(n, id)
    requires forall id :: id in n.events && n.events[id].fromFault && n.events[id].payload.Value? ==>
      OutOfReach(n.plan, n.events[id])
    ensures Conserving(n)
  {
    hide Descends;
    hide Within;
    hide OutOfReach;
    hide PlanFixed;
  }

  lemma DecidedConserves(n: Net, e: Event, m: Net, f: Event)
    requires Placed(n, Some(e.id)) && Conserving(n) && SameContent(n.events[e.id], e) && DecidedWell(n, e, m, f)
    ensures Conserving(m.With(f))
  {
    assert PlanFixed(n);
    DecidedPlan(n, e, m, f);
    hide Placed;
    hide Descends;
    hide Within;
    hide OutOfReach;
    hide PlanFixed;
    hide DecidedWell;
    hide Conserving;
    forall id | id in m.With(f).events
      ensures id in m.events && Descends(m.With(f), id) && Within(m.With(f), id)
    {
      DecidedKeys(n, e, m, f, id);
      DecidedDescends(n, e, m, f, id);
      DecidedWithin(n, e, m, f, id);
    }
    forall id | id in m.With(f).events && m.With(f).events[id].fromFault && m.With(f).events[id].payload.Value?
      ensures OutOfReach(m.With(f).plan, m.With(f).events[id])
    {
      DecidedReach(n, e, m, f, id);
    }
    Together(m.With(f));
  }

  lemma DecidedKeys(n: Net, e: Event, m: Net, f: Event, id: EventId)
    requires e.id in n.events && DecidedWell(n, e, m, f) && id in m.With(f).events
    ensures id in m.events
  {
    hide InBudget;
    hide OutOfReach;
  }

  lemma BatchIsTame(n: Net, e: Event, f: Fault)
    requires PlanSound(n.plan) && PlanFixed(n) && f in InOrder(n.plan, Pending(n.plan, e))
    ensures Tame(f.action) && f.id in n.plan && n.plan[f.id] == f && f.target.Matches(e)
    ensures e.fromFault ==> !f.action.CreatesEvents()
  {
    InOrderHolds(n.plan, Pending(n.plan, e), f);
  }

  /** A caller event that is still undecided has no pieces. */
  lemma UndecidedIsAlone(n: Net, id: EventId)
    requires Conserving(n) && id in n.events && id !in n.resolved && !n.events[id].fromFault
    ensures NoPieces(n, id) && IsRoot(n, id)
  {
    assert Descends(n, id);
    forall j | j in n.events && j in n.lineage && n.lineage[j] == id
      ensures j == id
    {
      assert Descends(n, j);
    }
  }

  lemma StartsInBudget(n: Net, e: Event)
    requires Conserving(n) && e.id in n.events && SameContent(n.events[e.id], e) && !e.fromFault
    ensures InBudget(n, e)
  {
    if e.payload.Value? {
      assert Within(n, e.id);
      SameFamily(n, n.events[e.id], e);
      assert n.With(n.events[e.id]).events == n.events;
      assert n.With(n.events[e.id]) == n;
    }
  }

  lemma InBudgetAgrees(n: Net, m: Net, e: Event)
    requires m.events == n.events && m.lineage == n.lineage
    ensures InBudget(m, e) == InBudget(n, e)
  {
    assert Family(m.With(e), e.id) == Family(n.With(e), e.id) by {
      assert forall id :: InFamily(m.With(e), e.id, id) <==> InFamily(n.With(e), e.id, id);
    }
  }

  /** The batch of the event in hand has passed its checks. */
  ghost predicate Accepted(n: Net, e: Event, batch: seq<Fault>) {
    && Placed(n, Some(e.id)) && Conserving(n) && SameContent(n.events[e.id], e)
    && e.destination in n.endpoints && e.id !in n.resolved
    && batch == InOrder(n.plan, Pending(n.plan, e)) && CheckBatch(n.endpoints, batch, e, {}).None?
  }

  lemma AcceptedFaults(n: Net, e: Event, batch: seq<Fault>, g: Fault)
    requires Accepted(n, e, batch) && g in batch
    ensures Tame(g.action) && (e.fromFault ==> !g.action.CreatesEvents())
    ensures e.payload.Value? ==> Affordable(g.action, e.payload.requested)
    ensures e.fromFault && e.payload.Value? ==> !ChangesValue(g.action)
  {
    hide Placed;
    hide Conserving;
    PlacedFacts(n, e.id);
    CheckedBatch(n, batch, e, {});
    var i :| 0 <= i < |batch| && batch[i] == g;
    ConservingFacts(n, e);
    BatchIsTame(n, e, g);
    if e.fromFault && e.payload.Value? {
      NotReached(n, e, g);
    }
  }

  lemma AcceptedInBudget(identity: Identity, n: Net, e: Event, batch: seq<Fault>)
    requires Accepted(n, e, batch) && !e.fromFault
    ensures var (m, f, _) := ApplyBatch(identity, n.(resolved := n.resolved + {e.id}), e, batch, Proceed);
      InBudget(m, f)
  {
    hide Placed;
    hide Conserving;
    hide InBudget;
    hide ApplyBatch;
    var n' := n.(resolved := n.resolved + {e.id});
    PlacedFacts(n, e.id);
    CheckedReroutes(n, batch, e, {});
    CheckedBatch(n, batch, e, {});
    forall g | g in batch
      ensures Tame(g.action) && (e.payload.Value? ==> Affordable(g.action, e.payload.requested))
    {
      AcceptedFaults(n, e, batch, g);
    }
    UndecidedIsAlone(n, e.id);
    StartsInBudget(n, e);
    InBudgetAgrees(n, n', e);
    if e.payload.Value? {
      assert ReroutesKnown(n', batch);
      BatchInBudget(identity, n', e, batch, Proceed);
    } else {
      TameBatch(identity, n', e, batch, Proceed);
      var (m, f, _) := ApplyBatch(identity, n', e, batch, Proceed);
      MessagesHaveNoBudget(m, f);
    }
  }

  lemma AcceptedPieces(identity: Identity, n: Net, e: Event, batch: seq<Fault>, id: EventId)
    requires Accepted(n, e, batch)
    requires id !in n.events
    requires id in ApplyBatch(identity, n.(resolved := n.resolved + {e.id}), e, batch, Proceed).0.events
    ensures OutOfReach(
      n.plan, ApplyBatch(identity, n.(resolved := n.resolved + {e.id}), e, batch, Proceed).0.events[id])
  {
    hide Placed;
    hide Conserving;
    hide Grown;
    hide ApplyBatch;
    hide OutOfReach;
    var n' := n.(resolved := n.resolved + {e.id});
    var m := ApplyBatch(identity, n', e, batch, Proceed).0;
    PlacedFacts(n, e.id);
    CheckedReroutes(n, batch, e, {});
    CheckedBatch(n, batch, e, {});
    forall g | g in batch
      ensures Tame(g.action) && (e.fromFault ==> !g.action.CreatesEvents())
    {
      AcceptedFaults(n, e, batch, g);
    }
    assert ReroutesKnown(n', batch);
    BatchEffect(identity, n', e, batch, Proceed);
    TameBatch(identity, n', e, batch, Proceed);
    ConservingFacts(n, e);
    FreshIsNew(n', m, id, e.id);
    PiecesOutOfReach(n, e, batch, m.events[id]);
  }

  lemma AppliedWell(identity: Identity, n: Net, e: Event, batch: seq<Fault>)
    requires Accepted(n, e, batch)
    ensures var (m, f, _) := ApplyBatch(identity, n.(resolved := n.resolved + {e.id}), e, batch, Proceed);
      DecidedWell(n, e, m, f)
  {
    hide Grown;
    hide InBudget;
    hide ApplyBatch;
    hide OutOfReach;
    hide Placed;
    hide Conserving;
    hide SameScope;
    hide SameIdentity;
    hide InOrder;
    hide CheckBatch;
    var n' := n.(resolved := n.resolved + {e.id});
    var (m, f, v) := ApplyBatch(identity, n', e, batch, Proceed);
    CheckedReroutes(n, batch, e, {});
    forall g | g in batch
      ensures Tame(g.action) && (e.fromFault ==> !g.action.CreatesEvents())
      ensures e.fromFault && e.payload.Value? ==> !ChangesValue(g.action)
    {
      AcceptedFaults(n, e, batch, g);
    }
    hide Accepted;
    assert ReroutesKnown(n', batch);
    BatchEffect(identity, n', e, batch, Proceed);
    TameBatch(identity, n', e, batch, Proceed);
    if !e.fromFault {
      AcceptedInBudget(identity, n, e, batch);
    }
    forall id | id in m.events && id !in n.events
      ensures OutOfReach(n.plan, m.events[id])
    {
      AcceptedPieces(identity, n, e, batch, id);
    }
  }

  lemma PlacedFacts(n: Net, id: EventId)
    requires Placed(n, Some(id))
    ensures id in n.events && PlanSound(n.plan) && n.events[id].id == id && id < n.nextEvent
  {
    assert EventPlaced(n, id, Some(id));
  }

  lemma ConservingFacts(n: Net, e: Event)
    requires Conserving(n) && e.id in n.events && SameContent(n.events[e.id], e)
    ensures PlanFixed(n)
    ensures e.fromFault && e.payload.Value? ==> OutOfReach(n.plan, n.events[e.id])
  {
  }

  lemma NotReached(n: Net, e: Event, g: Fault)
    requires e.id in n.events && SameContent(n.events[e.id], e) && e.payload.Value?
    requires OutOfReach(n.plan, n.events[e.id]) && g.id in n.plan && n.plan[g.id] == g && g.target.Matches(e)
    ensures !g.action.Partial?
  {
    assert g.target.Matches(n.events[e.id]);
  }

  lemma MessagesHaveNoBudget(m: Net, f: Event)
    requires f.payload.Message?
    ensures InBudget(m, f)
  {
  }

  lemma FreshIsNew(n: Net, m: Net, id: EventId, root: EventId)
    requires Grown(n, m, root) && id in m.events && id !in n.events
    ensures m.events[id].id == id && m.events[id].fromFault
  {
    assert IsFresh(n, m, id, root);
  }

  /** Deciding the faults of the event in hand keeps every family within its request. */
  lemma ComposeConserves(identity: Identity, n: Net, e: Event)
    requires Placed(n, Some(e.id)) && Conserving(n) && SameContent(n.events[e.id], e) && e.destination in n.endpoints
    ensures PlanSound(n.plan)
    ensures var (m, f, _) := Compose(identity, n, e); Conserving(m.With(f)) && e.id in m.events && f.id == e.id
  {
    hide Placed;
    hide Conserving;
    hide ApplyBatch;
    PlacedFacts(n, e.id);
    var n' := n.(resolved := n.resolved + {e.id});
    ComposeEffect(identity, n, e);
    var batch := InOrder(n.plan, Pending(n.plan, e));
    if e.id !in n.resolved && CheckBatch(n.endpoints, batch, e, {}).None? {
      AppliedWell(identity, n, e, batch);
      var (m, f, _) := Compose(identity, n, e);
      DecidedConserves(n, e, m, f);
    } else {
      var (m, f, _) := Compose(identity, n, e);
      assert f == e && n.resolved <= m.resolved && m == n.(resolved := m.resolved);
      assert SameContents(n, m.With(f));
      ContentsConserve(n, m.With(f));
    }
  }

  // Every step of a run.

  lemma SettledContents(n: Net, e: Event, v: Verdict)
    requires e.id in n.events
    ensures SameContents(n.With(e), Settled(n, e, v))
  {
    hide Settled;
    SettledMoves(n, e, v);
  }

  lemma DeliverNextConserves(identity: Identity, n: Net)
    requires Valid(n) && Conserving(n) && IsDue(n)
    ensures PlanSound(n.plan) && Conserving(DeliverNext(identity, n))
  {
    hide Placed;
    hide Inboxes;
    hide Conserving;
    hide Compose;
    hide Settled;
    hide SameContents;
    var k := First(n.queue);
    var popped := n.(queue := n.queue - {k});
    PopKeeps(n, k);
    PoppedContents(n, k);
    ContentsConserve(n, popped);
    HandFacts(popped, k.event);
    var e := n.events[k.event].Bumped();
    var (m, f, v) := Compose(identity, popped, e);
    ComposeConserves(identity, popped, e);
    SettledContents(m, f, v);
    ContentsConserve(m.With(f), Settled(m, f, v));
  }

  lemma PoppedContents(n: Net, k: QueueKey)
    ensures SameContents(n, n.(queue := n.queue - {k}))
  {
  }

  lemma {:induction false} DeliverReadyConserves(identity: Identity, n: Net)
    requires Valid(n) && Conserving(n)
    ensures Conserving(DeliverReady(identity, n).0)
    decreases |Callers(n)|, |Made(n)|, |Decided(n)|
  {
    hide Valid;
    hide Conserving;
    hide DeliverNext;
    hide Follows;
    if IsDue(n) {
      DeliverNextConserves(identity, n);
      assert Valid(DeliverNext(identity, n)) && LessWork(DeliverNext(identity, n), n) by {
        FollowsFacts(identity, n);
      }
      DeliverReadyConserves(identity, DeliverNext(identity, n));
    }
  }

  lemma FollowsFacts(identity: Identity, n: Net)
    requires Valid(n) && IsDue(n)
    ensures PlanSound(n.plan) && Valid(DeliverNext(identity, n)) && LessWork(DeliverNext(identity, n), n)
  {
    hide DeliverNext;
    DeliverNextFollows(identity, n);
  }

  lemma {:induction false} DrainConserves(identity: Identity, n: Net, limit: Tick)
    requires Valid(n) && Conserving(n) && n.now <= limit
    ensures Conserving(Drain(identity, n, limit).0)
    decreases |Callers(n)|, |Made(n)|, |Decided(n)|
  {
    hide Valid;
    hide Conserving;
    hide DeliverReady;
    if n.queue != {} && First(n.queue).deliverAt <= limit {
      var moved := n.(now := Later(First(n.queue).deliverAt, n.now));
      ClockKeeps(n, moved.now);
      ClockConserves(n, moved.now);
      DeliverReadyConserves(identity, moved);
      SameWork(n, moved);
      var m := DeliverReady(identity, moved).0;
      assert Follows(moved, m) && LessWork(m, moved);
      DrainConserves(identity, m, limit);
    }
  }

  lemma ClockConserves(n: Net, now: Tick)
    requires Conserving(n)
    ensures Conserving(n.(now := now))
  {
    ContentsConserve(n, n.(now := now));
  }

  lemma AddEndpointConserves(n: Net, id: EndpointId)
    requires Conserving(n) && AddEndpoint(n, id).Ok?
    ensures Conserving(AddEndpoint(n, id).value)
  {
    ContentsConserve(n, AddEndpoint(n, id).value);
  }

  lemma ScheduledDescends(n: Net, e: Event, next: U64, id: EventId)
    requires (forall j :: j in n.events ==> Descends(n, j)) && e.id !in n.events && !e.fromFault
    requires id in n.events || id == e.id
    ensures Descends(n.(nextEvent := next).Queued(e, e.id), id)
  {
    assert id in n.events ==> Descends(n, id);
  }

  lemma ScheduleConserves(n: Net, e: Event, next: U64)
    requires Conserving(n) && e.id !in n.events && !e.fromFault
    requires e.payload.Value? ==> e.payload.delivered == e.payload.requested
    ensures Conserving(n.(nextEvent := next).Queued(e, e.id))
  {
    hide Family;
    hide Descends;
    hide OutOfReach;
    hide Sum;
    var m := n.(nextEvent := next).Queued(e, e.id);
    forall id | id in m.events
      ensures Descends(m, id)
    {
      ScheduledDescends(n, e, next, id);
    }
    forall r | r in m.events
      ensures Within(m, r)
    {
      if r == e.id {
        if e.payload.Value? {
          NewFamily(n, e, next);
        }
      } else {
        assert Within(n, r);
        OldFamily(n, e, next, r);
      }
    }
  }

  lemma NewFamily(n: Net, e: Event, next: U64)
    requires forall id :: id in n.events ==> Descends(n, id)
    requires e.id !in n.events && e.payload.Value?
    ensures Sum(Family(n.(nextEvent := next).Queued(e, e.id), e.id)) == e.payload.delivered
  {
    var m := n.(nextEvent := next).Queued(e, e.id);
    forall id | InFamily(m, e.id, id)
      ensures id == e.id
    {
      assert id in n.events ==> Descends(n, id);
    }
    hide Descends;
    AloneInFamily(m, e.id);
  }

  lemma AloneInFamily(n: Net, r: EventId)
    requires InFamily(n, r, r) && forall id :: InFamily(n, r, id) ==> id == r
    ensures Sum(Family(n, r)) == n.events[r].payload.delivered
  {
    hide Sum;
    var family := Family(n, r);
    assert family - {r} == map[];
    SumRemove(family, r);
    NothingSums();
  }

  lemma NothingSums()
    ensures Sum<EventId>(map[]) == 0
  {
  }

  lemma OldFamily(n: Net, e: Event, next: U64, r: EventId)
    requires e.id !in n.events && r != e.id
    ensures Family(n.(nextEvent := next).Queued(e, e.id), r) == Family(n, r)
  {
    var m := n.(nextEvent := next).Queued(e, e.id);
    assert forall id :: InFamily(m, r, id) <==> InFamily(n, r, id);
  }

  /** The fault reaches nothing that faults have made so far. */
  ghost predicate ReachesNoPiece(n: Net, f: Fault) {
    forall id :: id in n.events && n.events[id].fromFault ==> !f.target.Matches(n.events[id])
  }

  /** Before the first attempt there are no pieces, so every fault qualifies. */
  lemma EarlyFaultsReachNoPiece(n: Net, f: Fault)
    requires Conserving(n) && n.resolved == {}
    ensures ReachesNoPiece(n, f)
  {
    hide Family;
    forall id | id in n.events
      ensures !n.events[id].fromFault
    {
      assert Descends(n, id);
    }
  }

  lemma PlanGrows(n: Net, f: Fault)
    requires Valid(n) && PlanFixed(n) && AddFault(n, f).Ok? && Tame(f.action)
    requires f.action.Partial? ==> ReachesNoPiece(n, f)
    ensures AddFault(n, f).value == n.(plan := n.plan[f.id := f]) && PlanFixed(n.(plan := n.plan[f.id := f]))
  {
    hide Rivals;
    hide CheckShape;
    hide CheckTargetEndpoints;
    PlacedIds(n);
    hide Valid;
  }

  lemma PlanGrowsOutOfReach(n: Net, f: Fault, e: Event)
    requires OutOfReach(n.plan, e) && (f.action.Partial? ==> !f.target.Matches(e))
    ensures OutOfReach(n.plan[f.id := f], e)
  {
  }

  lemma PlanGrowsFamilies(n: Net, plan: FaultPlan, id: EventId)
    requires id in n.events && Descends(n, id) && Within(n, id)
    ensures Descends(n.(plan := plan), id) && Within(n.(plan := plan), id)
  {
    hide Family;
    hide Sum;
    PlanIrrelevant(n, n.(plan := plan), id);
  }

  /** A fault may join the plan at any time unless it cuts the amount of a piece already made. */
  lemma AddFaultConserves(n: Net, f: Fault)
    requires Valid(n) && Conserving(n) && AddFault(n, f).Ok? && Tame(f.action)
    requires f.action.Partial? ==> ReachesNoPiece(n, f)
    ensures Conserving(AddFault(n, f).value)
  {
    PlanGrows(n, f);
    hide AddFault;
    hide Valid;
    hide Descends;
    hide Within;
    hide PlanFixed;
    hide OutOfReach;
    var m := n.(plan := n.plan[f.id := f]);
    forall id | id in m.events
      ensures Descends(m, id) && Within(m, id)
    {
      PlanGrowsFamilies(n, m.plan, id);
    }
    forall id | id in m.events && m.events[id].fromFault && m.events[id].payload.Value?
      ensures OutOfReach(m.plan, m.events[id])
    {
      PlanGrowsOutOfReach(n, f, n.events[id]);
    }
    Together(m);
  }

  lemma PlanIrrelevant(n: Net, m: Net, r: EventId)
    requires m.events == n.events && m.lineage == n.lineage
    ensures Family(m, r) == Family(n, r)
  {
    FamiliesAgree(n, m, r);
  }

  lemma TouchedContents(n: Net, e: Event, queue: set<QueueKey>)
    requires e.id in n.events && SameContent(n.events[e.id], e)
    requires forall id :: id in n.events ==> n.events[id].id == id
    ensures SameContents(n, n.(events := n.events[e.id := e], queue := queue))
  {
  }

  lemma MoveContents(n: Net, key: QueueKey, target: Tick)
    requires forall id :: id in n.events ==> n.events[id].id == id
    ensures SameContents(n, MoveTo(n, key, target))
  {
    if key.deliverAt != target && key.event in n.events {
      var e := n.events[key.event].(deliverAt := target);
      hide SameContents;
      TouchedContents(n, e, n.queue - {key} + {e.Key()});
    }
  }

  /** Every fault accepted into the plan duplicates and over-delivers nothing, and cuts no piece already made. */
  ghost predicate CalmStep(n: Net, op: Operation) {
    op.DoAddFault? && AddFault(n, op.fault).Ok? ==>
      Tame(op.fault.action) && (op.fault.action.Partial? ==> ReachesNoPiece(n, op.fault))
  }

  ghost predicate CalmRun(identity: Identity, n: Net, ops: seq<Operation>)
    requires Valid(n)
    decreases |ops|
  {
    ops == [] ||
    (&& CalmStep(n, ops[0])
     && if Step(identity, n, ops[0]).Err? then CalmRun(identity, n, ops[1..])
        else
          SimRun.StepKeeps(identity, n, ops[0]);
          CalmRun(identity, Step(identity, n, ops[0]).value, ops[1..]))
  }

  lemma ReorderConserves(identity: Identity, n: Net, op: Operation)
    requires Valid(n) && Conserving(n) && Step(identity, n, op).Ok?
    requires op.DoSwapTicks? || op.DoMoveBefore? || op.DoMoveAfter?
    ensures Conserving(Step(identity, n, op).value)
  {
    hide Valid;
    hide Conserving;
    hide MoveTo;
    PlacedIds(n);
    match op
    case DoSwapTicks(left, right) =>
      var l, r := PendingKey(n, left).value, PendingKey(n, right).value;
      var m := MoveTo(n, l, r.deliverAt);
      MoveContents(n, l, r.deliverAt);
      ContentsConserve(n, m);
      assert forall id :: id in m.events ==> m.events[id].id == id;
      MoveContents(m, r, l.deliverAt);
      ContentsConserve(m, MoveTo(m, r, l.deliverAt));
    case DoMoveBefore(event, other) =>
      var key, anchor := PendingKey(n, event).value, PendingKey(n, other).value;
      var target := Later(if anchor.deliverAt == 0 then 0 else anchor.deliverAt - 1, n.now);
      MoveContents(n, key, target);
      ContentsConserve(n, MoveTo(n, key, target));
    case DoMoveAfter(event, other) =>
      var key, anchor := PendingKey(n, event).value, PendingKey(n, other).value;
      var target := AddTicks(anchor.deliverAt, 1).value;
      MoveContents(n, key, target);
      ContentsConserve(n, MoveTo(n, key, target));
  }

  lemma StatesConserve(n: Net, m: Net)
    requires Valid(n) && Conserving(n) && OnlyStates(n, m)
    ensures Conserving(m) && Conserving(ReleaseHeld(m))
  {
    hide Conserving;
    ContentsConserve(n, m);
    ReleasedContents(m);
    ContentsConserve(m, ReleaseHeld(m));
  }

  lemma ReleasedContents(n: Net)
    ensures SameContents(n, ReleaseHeld(n))
  {
  }

  lemma StepConserves(identity: Identity, n: Net, op: Operation)
    requires Valid(n) && Conserving(n) && CalmStep(n, op) && Step(identity, n, op).Ok?
    ensures Conserving(Step(identity, n, op).value)
  {
    hide Valid;
    hide Conserving;
    hide DeliverNext;
    hide DeliverReady;
    hide Drain;
    hide MoveTo;
    hide ReleaseHeld;
    match op
    case DoScheduleControl(r) =>
      var (id, next) := ReserveId(n.events, n.nextEvent, r.id).value;
      ScheduleConserves(n, Event(
        id, r.source, r.destination, r.destination, Message(r.bytes, identity(r.bytes), None),
        r.deliverAt, 0, None, r.expiresAt, false, Scheduled), next);
    case DoScheduleAsset(r) =>
      var (id, next) := ReserveId(n.events, n.nextEvent, r.id).value;
      ScheduleConserves(n, Event(
        id, r.source, r.destination, r.destination, Value(r.transfer, r.amount, r.amount, None, false),
        r.deliverAt, 0, None, r.timeoutAt, false, Scheduled), next);
    case DoAddFault(f) => AddFaultConserves(n, f);
    case DoAdvanceBy(ticks) => ClockConserves(n, AddTicks(n.now, ticks).value);
    case DoAdvanceTo(tick) => ClockConserves(n, tick);
    case DoDeliverNext =>
      if IsDue(n) {
        DeliverNextConserves(identity, n);
      }
    case DoDeliverReady => DeliverReadyConserves(identity, n);
    case DoRunUntilIdle => DrainConserves(identity, n, LAST_TICK);
    case DoRunUntil(tick) =>
      DrainConserves(identity, n, tick);
      ClockConserves(Drain(identity, n, tick).0, tick);
    case DoHaltEndpoint(id) => StatesConserve(n, Step(identity, n, op).value);
    case DoResumeEndpoint(id) => StatesConserve(n, WithEndpointState(n, id, Active).value);
    case DoPauseLane(lane) => StatesConserve(n, Step(identity, n, op).value);
    case DoResumeLane(lane) => StatesConserve(n, n.(lanes := n.lanes[lane := Running]));
    case DoSwapTicks(left, right) => ReorderConserves(identity, n, op);
    case DoMoveBefore(event, other) => ReorderConserves(identity, n, op);
    case DoMoveAfter(event, other) => ReorderConserves(identity, n, op);
  }

  /** Over every calm run, every family stays within its request. */
  lemma {:induction false} CalmRunsConserve(identity: Identity, n: Net, ops: seq<Operation>)
    requires Valid(n) && Conserving(n) && CalmRun(identity, n, ops)
    ensures Conserving(Run(identity, n, ops))
    decreases |ops|
  {
    hide Valid;
    hide Conserving;
    hide Step;
    if ops != [] {
      if Step(identity, n, ops[0]).Ok? {
        StepConserves(identity, n, ops[0]);
        SimRun.StepKeeps(identity, n, ops[0]);
        CalmRunsConserve(identity, Step(identity, n, ops[0]).value, ops[1..]);
      } else {
        CalmRunsConserve(identity, n, ops[1..]);
      }
    }
  }

  /** From a fresh network, no caller event ever delivers more than it requested, whatever it was split into. */
  lemma NothingIsOverDelivered(
    identity: Identity, config: SimConfig, endpoints: set<EndpointId>, ops: seq<Operation>, r: EventId)
    requires CalmRun(identity, Fresh(config, endpoints), ops)
    requires var n := Run(identity, Fresh(config, endpoints), ops);
      r in n.events && n.events[r].payload.Value? && !n.events[r].fromFault
    ensures var n := Run(identity, Fresh(config, endpoints), ops);
      Sum(DeliveredFamily(n, r)) <= n.events[r].payload.requested
  {
    assert Conserving(Fresh(config, endpoints));
    hide Conserving;
    hide Valid;
    hide Run;
    hide CalmRun;
    CalmRunsConserve(identity, Fresh(config, endpoints), ops);
    DeliveredWithinRequest(Run(identity, Fresh(config, endpoints), ops), r);
  }
}
