/** The events faults make: every copy and piece, when it is due and what it carries. */
module SimFanout {
  import opened Results
  import opened Words
  import opened SimTypes
  import opened SimSpec
  import opened SimPlaces
  import opened SimFaults

  /** `m` is `n` with exactly the events of `made` added and queued, each under an id nobody had. */
  ghost predicate Makes(n: Net, m: Net, made: seq<Event>) {
    && m == n.(events := m.events, queue := m.queue, nextEvent := m.nextEvent, lineage := m.lineage)
    && AreNew(n, m, made)
    && (forall id :: id in n.events ==> id in m.events && m.events[id] == n.events[id])
    && (forall id :: id in m.events && id !in n.events ==> IsOneOf(made, id))
    && m.queue == n.queue + KeysOf(made)
  }

  predicate IsOneOf(made: seq<Event>, id: EventId) {
    exists k :: 0 <= k < |made| && made[k].id == id
  }

  function KeysOf(made: seq<Event>): set<QueueKey> {
    set e | e in made :: e.Key()
  }

  lemma KeysAdd(a: seq<Event>, b: seq<Event>)
    ensures KeysOf(a + b) == KeysOf(a) + KeysOf(b)
  {
    forall k | k in KeysOf(a) + KeysOf(b)
      ensures k in KeysOf(a + b)
    {
      var e :| (e in a || e in b) && e.Key() == k;
      assert e in a + b;
    }
  }

  lemma MakesNothing(n: Net)
    ensures Makes(n, n, [])
  {
  }

  /** Every event of `made` is new in `m`. */
  ghost predicate AreNew(n: Net, m: Net, made: seq<Event>) {
    && (forall k :: 0 <= k < |made| ==>
          made[k].id !in n.events && made[k].id in m.events && m.events[made[k].id] == made[k])
    && (forall i, j :: 0 <= i < j < |made| ==> made[i].id != made[j].id)
  }

  lemma NewTogether(n: Net, m: Net, o: Net, a: seq<Event>, b: seq<Event>)
    requires AreNew(n, m, a) && AreNew(m, o, b)
    requires forall id :: id in n.events ==> id in m.events
    requires forall id :: id in m.events ==> id in o.events && o.events[id] == m.events[id]
    ensures AreNew(n, o, a + b)
  {
    var made := a + b;
    forall k | 0 <= k < |made|
      ensures made[k].id !in n.events && made[k].id in o.events && o.events[made[k].id] == made[k]
    {
      assert made[k] == if k < |a| then a[k] else b[k - |a|];
    }
    forall i, j | 0 <= i < j < |made|
      ensures made[i].id != made[j].id
    {
      assert made[i] == if i < |a| then a[i] else b[i - |a|];
      assert made[j] == if j < |a| then a[j] else b[j - |a|];
      assert i < |a| ==> a[i].id in m.events;
    }
  }

  lemma OneOfBoth(a: seq<Event>, b: seq<Event>, id: EventId)
    requires IsOneOf(a, id) || IsOneOf(b, id)
    ensures IsOneOf(a + b, id)
  {
    if IsOneOf(a, id) {
      var k :| 0 <= k < |a| && a[k].id == id;
      assert (a + b)[k].id == id;
    } else {
      var k :| 0 <= k < |b| && b[k].id == id;
      assert (a + b)[k + |a|].id == id;
    }
  }

  lemma MakesMore(n: Net, m: Net, o: Net, a: seq<Event>, b: seq<Event>)
    requires Makes(n, m, a) && Makes(m, o, b)
    ensures Makes(n, o, a + b)
  {
    KeysAdd(a, b);
    NewTogether(n, m, o, a, b);
    hide KeysOf;
    hide IsOneOf;
    hide AreNew;
    forall id | id in o.events && id !in n.events
      ensures IsOneOf(a + b, id)
    {
      OneOfBoth(a, b, id);
    }
  }

  lemma MakesOne(n: Net, e: Event, next: U64, root: EventId)
    requires e.id !in n.events
    ensures Makes(n, n.(nextEvent := next).Queued(e, root), [e])
  {
    assert KeysOf([e]) == {e.Key()} by {
      assert e in [e];
    }
    assert [e][0].id == e.id;
  }

  /** No id is left for another event. */
  predicate OutOfIds(n: Net) {
    forall id: EventId :: n.nextEvent <= id < LIMIT64 - 1 ==> id in n.events
  }

  /** Tick `index` of a fan-out: that many spacings from now, or the last tick there is. */
  function DueAt(now: Tick, spacing: U64, index: nat): Tick {
    Min(now + Times(spacing, Min(index, 0xFFFF)), 0xFFFF_FFFF_FFFF_FFFF)
  }

  /** A copy is the event itself under another id, due later, never attempted, and marked as a copy. */
  function CopyOf(e: Event, id: EventId, due: Tick): Event {
    Event(id, e.source, e.destination, e.intended, e.payload, due, 0, Some(e.id), e.deadline, true, Scheduled)
  }

  /** A piece carries its own amount of the same transfer. */
  function PieceOf(e: Event, id: EventId, due: Tick, amount: U128, index: nat): Event
    requires e.payload.Value?
  {
    Event(
      id, e.source, e.destination, e.intended,
      Value(e.payload.transfer, e.payload.requested, amount, Some(Min(index, 0xFFFF)), e.payload.overDelivered),
      due, 0, e.duplicateOf, e.deadline, true, Scheduled)
  }

  ghost predicate AreCopies(made: seq<Event>, e: Event, now: Tick, copies: nat, first: nat, spacing: U64) {
    && first + |made| <= copies + 1
    && forall k :: 0 <= k < |made| ==> made[k] == CopyOf(e, made[k].id, DueAt(now, spacing, first + k))
  }

  ghost predicate ArePieces(made: seq<Event>, e: Event, now: Tick, pieces: seq<U128>, first: nat, spacing: U64)
    requires e.payload.Value?
  {
    && first + |made| <= |pieces|
    && forall k :: 0 <= k < |made| ==>
         made[k] == PieceOf(e, made[k].id, DueAt(now, spacing, first + k), pieces[first + k], first + k)
  }

  /** All copies from the `i`-th on are made, unless the ids run out. */
  lemma {:induction false} CopiesAreMade(n: Net, origin: Event, copies: U16, i: nat, spacing: U64)
    returns (made: seq<Event>)
    requires 1 <= i <= copies + 1
    ensures Makes(n, AddCopies(n, origin, copies, i, spacing), made)
    ensures AreCopies(made, origin, n.now, copies, i, spacing)
    ensures i + |made| == copies + 1 || OutOfIds(AddCopies(n, origin, copies, i, spacing))
    decreases copies + 1 - i
  {
    hide Makes;
    hide Times;
    made := [];
    MakesNothing(n);
    var free := FreeId(n.events, n.nextEvent);
    if i < copies + 1 && free.Some? {
      var copy := origin.(
        id := free.value, deliverAt := Spaced(n.now, spacing, Narrow16(i)), attempts := 0,
        duplicateOf := Some(origin.id), fromFault := true, status := Scheduled);
      var m := n.(nextEvent := free.value + 1).Queued(copy, origin.id);
      MakesOne(n, copy, free.value + 1, origin.id);
      var rest := CopiesAreMade(m, origin, copies, i + 1, spacing);
      MakesMore(n, m, AddCopies(n, origin, copies, i, spacing), [copy], rest);
      made := [copy] + rest;
      assert forall k :: 0 < k < |made| ==> made[k] == rest[k - 1];
    }
  }

  /** All pieces from the `i`-th on are made, unless the ids run out. */
  lemma {:induction false} PiecesAreMade(n: Net, origin: Event, pieces: seq<U128>, i: nat, spacing: U64)
    returns (made: seq<Event>)
    requires origin.payload.Value? && i <= |pieces|
    ensures Makes(n, AddPieces(n, origin, pieces, i, spacing), made)
    ensures ArePieces(made, origin, n.now, pieces, i, spacing)
    ensures i + |made| == |pieces| || OutOfIds(AddPieces(n, origin, pieces, i, spacing))
    decreases |pieces| - i
  {
    hide Makes;
    hide Times;
    made := [];
    MakesNothing(n);
    var free := FreeId(n.events, n.nextEvent);
    if i < |pieces| && free.Some? {
      var piece := origin.(
        id := free.value, deliverAt := Spaced(n.now, spacing, Narrow16(i)), attempts := 0,
        payload := origin.payload.(delivered := pieces[i], piece := Some(Narrow16(i))),
        fromFault := true, status := Scheduled);
      var m := n.(nextEvent := free.value + 1).Queued(piece, origin.id);
      MakesOne(n, piece, free.value + 1, origin.id);
      var rest := PiecesAreMade(m, origin, pieces, i + 1, spacing);
      MakesMore(n, m, AddPieces(n, origin, pieces, i, spacing), [piece], rest);
      made := [piece] + rest;
      assert forall k :: 0 < k < |made| ==> made[k] == rest[k - 1];
    }
  }

  // The fan-out of a whole batch.

  predicate Sorted(batch: seq<Fault>) {
    forall i, j :: 0 <= i < j < |batch| ==> batch[i].Precedes(batch[j])
  }

  /** What a split among the faults cut off the event. */
  ghost predicate CutBy(batch: seq<Fault>, f: Event, now: Tick, m: Net, cut: seq<Event>) {
    && (forall i :: 0 <= i < |batch| && batch[i].action.Split? && f.payload.Value? && batch[i].action.pieces != [] ==>
          && ArePieces(cut, f, now, batch[i].action.pieces, 1, batch[i].action.spacing)
          && (1 + |cut| == |batch[i].action.pieces| || OutOfIds(m)))
    && ((forall i :: 0 <= i < |batch| ==> !batch[i].action.Split?) ==> cut == [])
  }

  /** What a duplication among the faults made of the event. */
  ghost predicate CopiedBy(batch: seq<Fault>, f: Event, now: Tick, m: Net, copied: seq<Event>) {
    && (forall i :: 0 <= i < |batch| && batch[i].action.Duplicate? ==>
          && AreCopies(copied, f, now, batch[i].action.copies, 1, batch[i].action.spacing)
          && (|copied| == batch[i].action.copies || OutOfIds(m)))
    && ((forall i :: 0 <= i < |batch| ==> !batch[i].action.Duplicate?) ==> copied == [])
  }

  lemma NothingElse(identity: Identity, n: Net, e: Event, batch: seq<Fault>, v: Verdict)
    requires e.destination in n.endpoints && ReroutesKnown(n, batch) && Apart(batch, {})
    requires forall i :: 0 <= i < |batch| ==> !batch[i].action.ReplaceDestination? && !IsContent(batch[i].action)
    ensures ApplyBatch(identity, n, e, batch, v).1 == e
  {
    hide ApplyBatch;
    hide Apart;
    BatchReroutes(identity, n, e, batch, v);
    BatchRewrites(identity, n, e, batch, v);
  }

  /** Nothing rewrites or reroutes an event after it was split or copied. */
  lemma NothingFollows(batch: seq<Fault>)
    requires batch != [] && Sorted(batch) && Apart(batch, {})
    requires batch[0].action.Split? || batch[0].action.Duplicate?
    ensures forall i :: 0 <= i < |batch[1..]| ==>
      !batch[1..][i].action.ReplaceDestination? && !IsContent(batch[1..][i].action)
  {
    forall i | 0 <= i < |batch[1..]|
      ensures !batch[1..][i].action.ReplaceDestination? && !IsContent(batch[1..][i].action)
    {
      assert batch[0].Precedes(batch[i + 1]);
    }
  }

  lemma CopiesEnd(n: Net, origin: Event, copies: U16, i: nat, spacing: U64)
    requires 1 <= i <= copies + 1 && OutOfIds(n)
    ensures AddCopies(n, origin, copies, i, spacing) == n
  {
  }

  lemma RestSorted(batch: seq<Fault>)
    requires batch != [] && Sorted(batch)
    ensures Sorted(batch[1..])
  {
  }

  /** One fault on its own: only a split of value or a duplication makes events. */
  lemma FaultFansOut(identity: Identity, n: Net, e: Event, g: Fault) returns (cut: seq<Event>, copied: seq<Event>)
    ensures var (m, f) := ApplyFault(identity, n, e, g.action);
      && Makes(n, m, cut + copied) && CutBy([g], f, n.now, m, cut) && CopiedBy([g], f, n.now, m, copied)
      && (OutOfIds(n) ==> m == n)
  {
    hide AddPieces;
    hide AddCopies;
    hide Makes;
    hide ArePieces;
    hide AreCopies;
    hide OutOfIds;
    cut, copied := [], [];
    MakesNothing(n);
    assert cut + copied == [];
    assert [g][0] == g;
    match g.action
    case Split(pieces, spacing) =>
      if e.payload.Value? && pieces != [] {
        var first := e.(payload := e.payload.(delivered := pieces[0], piece := Some(0)));
        cut := PiecesAreMade(n, first, pieces, 1, spacing);
        if OutOfIds(n) {
          PiecesEnd(n, first, pieces, 1, spacing);
        }
        PiecesKeepFirst(cut, e, first, n.now, pieces, spacing);
        assert cut + [] == cut;
      }
    case Duplicate(copies, spacing) =>
      copied := CopiesAreMade(n, e, copies, 1, spacing);
      if OutOfIds(n) {
        CopiesEnd(n, e, copies, 1, spacing);
      }
      assert [] + copied == copied;
    case _ =>
  }

  lemma PiecesEnd(n: Net, origin: Event, pieces: seq<U128>, i: nat, spacing: U64)
    requires origin.payload.Value? && i <= |pieces| && OutOfIds(n)
    ensures AddPieces(n, origin, pieces, i, spacing) == n
  {
  }

  lemma PiecesKeepFirst(cut: seq<Event>, e: Event, first: Event, now: Tick, pieces: seq<U128>, spacing: U64)
    requires e.payload.Value? && pieces != []
    requires first == e.(payload := e.payload.(delivered := pieces[0], piece := Some(0)))
    ensures ArePieces(cut, first, now, pieces, 1, spacing) == ArePieces(cut, e, now, pieces, 1, spacing)
  {
  }

  lemma CutExtends(
    n: Net, batch: seq<Fault>, e: Event, f: Event, now: Tick, m: Net, o: Net, first: seq<Event>, rest: seq<Event>)
    requires batch != [] && Apart(batch, {}) && ReroutesKnown(n, batch)
    requires CutBy([batch[0]], e, now, m, first) && CutBy(batch[1..], f, now, o, rest)
    requires batch[0].action.Split? ==> f == e
    requires OutOfIds(m) ==> OutOfIds(o)
    ensures CutBy(batch, f, now, o, first + rest)
    ensures batch[0].action.Split? ==> rest == []
    ensures !batch[0].action.Split? ==> first == []
  {
    hide ArePieces;
    hide OutOfIds;
    RestOf(n, batch);
    hide Apart;
    assert [batch[0]][0] == batch[0];
    assert forall i :: 0 <= i < |batch[1..]| ==> batch[1..][i] == batch[i + 1];
    if batch[0].action.Split? {
      assert first + rest == first;
    } else {
      assert first + rest == rest;
    }
  }

  lemma CopiesExtend(
    n: Net, batch: seq<Fault>, e: Event, f: Event, now: Tick, m: Net, o: Net, first: seq<Event>, rest: seq<Event>)
    requires batch != [] && Apart(batch, {}) && ReroutesKnown(n, batch)
    requires CopiedBy([batch[0]], e, now, m, first) && CopiedBy(batch[1..], f, now, o, rest)
    requires batch[0].action.Duplicate? ==> f == e
    requires OutOfIds(m) ==> OutOfIds(o)
    ensures CopiedBy(batch, f, now, o, first + rest)
    ensures batch[0].action.Duplicate? ==> rest == []
    ensures !batch[0].action.Duplicate? ==> first == []
  {
    hide AreCopies;
    hide OutOfIds;
    RestOf(n, batch);
    hide Apart;
    assert [batch[0]][0] == batch[0];
    assert forall i :: 0 <= i < |batch[1..]| ==> batch[1..][i] == batch[i + 1];
    if batch[0].action.Duplicate? {
      assert first + rest == first;
    } else {
      assert first + rest == rest;
    }
  }

  /** All faults in turn: pieces and copies are of the event as the whole batch leaves it. */
  lemma {:induction false} BatchFansOut(identity: Identity, n: Net, e: Event, batch: seq<Fault>, v: Verdict)
    returns (cut: seq<Event>, copied: seq<Event>)
    requires e.destination in n.endpoints && ReroutesKnown(n, batch) && Apart(batch, {}) && Sorted(batch)
    ensures var (m, f, _) := ApplyBatch(identity, n, e, batch, v);
      && Makes(n, m, cut + copied) && CutBy(batch, f, n.now, m, cut) && CopiedBy(batch, f, n.now, m, copied)
      && (OutOfIds(n) ==> m == n)
    decreases |batch|
  {
    hide ApplyFault;
    hide Apart;
    hide Makes;
    hide CutBy;
    hide CopiedBy;
    hide OutOfIds;
    if batch == [] {
      cut, copied := [], [];
      NothingFans(n, e);
    } else {
      RestOf(n, batch);
      RestSorted(batch);
      var (m, f) := ApplyFault(identity, n, e, batch[0].action);
      FaultFrame(identity, n, e, batch[0].action);
      var c, p := FaultFansOut(identity, n, e, batch[0]);
      var w := Marked(v, n.now, batch[0]);
      var moreC, moreP := BatchFansOut(identity, m, f, batch[1..], w);
      var (o, last, _) := ApplyBatch(identity, m, f, batch[1..], w);
      if batch[0].action.Split? || batch[0].action.Duplicate? {
        NothingFollows(batch);
        NothingElse(identity, m, f, batch[1..], w);
        NothingCut(batch[1..], last, n.now, o, moreC);
      }
      CutExtends(n, batch, f, last, n.now, m, o, c, moreC);
      CopiesExtend(n, batch, f, last, n.now, m, o, p, moreP);
      cut, copied := c + moreC, p + moreP;
      assert (c + p) + (moreC + moreP) == cut + copied by {
        OnlyOne(c, p, moreC, moreP, batch[0].action);
      }
      MakesMore(n, m, o, c + p, moreC + moreP);
    }
  }

  lemma NothingCut(batch: seq<Fault>, f: Event, now: Tick, m: Net, cut: seq<Event>)
    requires CutBy(batch, f, now, m, cut)
    requires forall i :: 0 <= i < |batch| ==> !IsContent(batch[i].action)
    ensures cut == []
  {
    hide ArePieces;
  }

  lemma OnlyOne(c: seq<Event>, p: seq<Event>, moreC: seq<Event>, moreP: seq<Event>, a: FaultAction)
    requires a.Split? ==> moreC == []
    requires !a.Split? ==> c == []
    requires !a.Duplicate? ==> p == []
    requires a.Duplicate? ==> moreP == []
    requires a.Duplicate? ==> moreC == []
    ensures (c + p) + (moreC + moreP) == (c + moreC) + (p + moreP)
  {
  }

  lemma NothingFans(n: Net, e: Event)
    ensures Makes(n, n, [] + []) && CutBy([], e, n.now, n, []) && CopiedBy([], e, n.now, n, [])
  {
    MakesNothing(n);
    var none: seq<Event> := [];
    assert none + none == none;
  }

  /** The pieces and copies the plan asks for. */
  ghost predicate FannedOut(n: Net, e: Event, f: Event, m: Net, cut: seq<Event>, copied: seq<Event>) {
    && (forall i ::
          Hits(n.plan, e, i) && n.plan[i].action.Split? && n.plan[i].action.pieces != [] && f.payload.Value? ==>
          && ArePieces(cut, f, n.now, n.plan[i].action.pieces, 1, n.plan[i].action.spacing)
          && (1 + |cut| == |n.plan[i].action.pieces| || OutOfIds(m)))
    && ((forall i :: Hits(n.plan, e, i) ==> !n.plan[i].action.Split?) ==> cut == [])
    && (forall i :: Hits(n.plan, e, i) && n.plan[i].action.Duplicate? ==>
          && AreCopies(copied, f, n.now, n.plan[i].action.copies, 1, n.plan[i].action.spacing)
          && (|copied| == n.plan[i].action.copies || OutOfIds(m)))
    && ((forall i :: Hits(n.plan, e, i) ==> !n.plan[i].action.Duplicate?) ==> copied == [])
  }

  lemma BatchIsFanOut(n: Net, e: Event, f: Event, m: Net, cut: seq<Event>, copied: seq<Event>)
    requires PlanSound(n.plan)
    requires CutBy(Batch(n, e), f, n.now, m, cut) && CopiedBy(Batch(n, e), f, n.now, m, copied)
    ensures FannedOut(n, e, f, m, cut, copied)
  {
    hide InOrder;
    hide Reaches;
    hide ArePieces;
    hide AreCopies;
    hide OutOfIds;
    var batch := Batch(n, e);
    forall i | Hits(n.plan, e, i)
      ensures exists at :: 0 <= at < |batch| && batch[at] == n.plan[i]
    {
      var at := HitIsInBatch(n, e, i);
      assert batch[at] == n.plan[i];
    }
    forall at | 0 <= at < |batch|
      ensures Hits(n.plan, e, batch[at].id) && n.plan[batch[at].id] == batch[at]
    {
      BatchHolds(n, e, batch[at]);
    }
  }

  /**
   * Deciding an undecided event's compatible faults makes exactly the pieces and copies the plan asks for, as far
   * as there are ids: each of the event as all its faults leave it, and each due a multiple of the spacing later.
   */
  lemma FaultsFanOut(identity: Identity, n: Net, e: Event) returns (cut: seq<Event>, copied: seq<Event>)
    requires PlanSound(n.plan) && e.destination in n.endpoints && e.id !in n.resolved && Compatible(n, e)
    ensures var (m, f, _) := Compose(identity, n, e);
      Makes(n.(resolved := n.resolved + {e.id}), m, cut + copied) && FannedOut(n, e, f, m, cut, copied)
  {
    hide InOrder;
    hide ApplyBatch;
    hide CheckBatch;
    hide Compatible;
    hide Makes;
    hide CutBy;
    hide CopiedBy;
    hide FannedOut;
    var batch := Batch(n, e);
    BatchAcceptedIff(n, e);
    CheckBatchIff(n.endpoints, batch, e, {});
    CheckedReroutes(n, batch, e, {});
    InOrderSorted(n.plan, Pending(n.plan, e));
    hide Applies;
    hide Apart;
    var n' := n.(resolved := n.resolved + {e.id});
    cut, copied := BatchFansOut(identity, n', e, batch, Proceed);
    var (m, f, _) := ApplyBatch(identity, n', e, batch, Proceed);
    BatchIsFanOut(n, e, f, m, cut, copied);
  }
}
