/** Every delivery makes progress, so draining the queue ends although faults add events while it runs. */
module SimProgress {
  import opened Results
  import opened SimTypes
  import opened SimSpec
  import opened SimPlaces

  /** Queued caller events whose faults are still to be decided. */
  ghost function Callers(n: Net): set<QueueKey> {
    set k | k in n.queue && k.event !in n.resolved && k.event in n.events && !n.events[k.event].fromFault
  }

  /** Queued copies and pieces whose faults are still to be decided. */
  ghost function Made(n: Net): set<QueueKey> {
    set k | k in n.queue && k.event !in n.resolved && k.event in n.events && n.events[k.event].fromFault
  }

  /** Queued events whose faults are decided. */
  ghost function Decided(n: Net): set<QueueKey> {
    set k | k in n.queue && k.event in n.resolved
  }

  /** Strictly less work than before, counting undecided caller events first and decided events last. */
  ghost predicate LessWork(m: Net, n: Net) {
    || |Callers(m)| < |Callers(n)|
    || (|Callers(m)| == |Callers(n)| && |Made(m)| < |Made(n)|)
    || (|Callers(m)| == |Callers(n)| && |Made(m)| == |Made(n)| && |Decided(m)| < |Decided(n)|)
  }

  ghost predicate NoMoreWork(m: Net, n: Net) {
    LessWork(m, n) || (|Callers(m)| == |Callers(n)| && |Made(m)| == |Made(n)| && |Decided(m)| == |Decided(n)|)
  }

  lemma {:induction false} SubsetsAreSmaller<T>(a: set<T>, b: set<T>)
    requires a <= b
    ensures |a| <= |b| && (a != b ==> |a| < |b|)
  {
    assert b == a + (b - a);
    if a != b {
      assert b - a != {};
    }
  }

  lemma SmallerThan<T>(a: set<T>, b: set<T>, k: T)
    requires a <= b && k in b && k !in a
    ensures |a| < |b|
  {
    SubsetsAreSmaller(a, b);
  }

  /** How one attempt changes the queue: nothing new but fresh copies of a caller event, or its own later key. */
  ghost predicate AttemptMoves(n: Net, k: QueueKey, m: Net)
    requires k.event in n.events
  {
    && m.resolved == n.resolved + {k.event}
    && (forall id :: id in n.events ==> id in m.events && m.events[id].fromFault == n.events[id].fromFault)
    && (forall j :: j in m.queue ==>
          || (j in n.queue && j != k)
          || (j.event == k.event && k.event !in n.resolved)
          || (j.event !in n.events && j.event in m.events && m.events[j.event].fromFault
              && k.event !in n.resolved && !n.events[k.event].fromFault))
  }

  /** Putting an event down changes its status, the held set and the inboxes, and nothing else. */
  predicate Rests(n: Net, e: Event, m: Net) {
    && e.id in m.events
    && m == n.(
         events := n.events[e.id := e.(status := m.events[e.id].status)], held := m.held, endpoints := m.endpoints)
  }

  lemma WithRests(n: Net, e: Event, status: EventStatus)
    ensures Rests(n, e, n.With(e.(status := status)))
  {
  }

  lemma HandedRests(n: Net, e: Event, late: bool)
    ensures Rests(n, e, Handed(n, e, late))
  {
  }

  lemma BlocksRests(n: Net, e: Event)
    ensures Rests(n, e, Blocks(n, e))
  {
  }

  lemma ProceedsRests(n: Net, e: Event)
    ensures Rests(n, e, Proceeds(n, e))
  {
    hide Rests;
    hide Handed;
    hide Blocks;
    HandedRests(n, e, IsLate(n, e));
    BlocksRests(n, e);
    WithRests(n, e, RejectedBySimulator);
    WithRests(n, e, Expired);
  }

  /** The attempted event as it ends: at rest, held, or queued again at the tick it was delayed to. */
  predicate PutsDown(n: Net, e: Event, v: Verdict, m: Net) {
    && e.id in m.events
    && m.events[e.id] == e.(status := m.events[e.id].status, deliverAt := m.events[e.id].deliverAt)
    && m == n.(
         events := n.events[e.id := m.events[e.id]], held := m.held, endpoints := m.endpoints,
         queue := if v.Delayed? then n.queue + {m.events[e.id].Key()} else n.queue)
  }

  lemma SettledMoves(n: Net, e: Event, v: Verdict)
    ensures PutsDown(n, e, v, Settled(n, e, v))
  {
    hide Proceeds;
    if v.Proceed? {
      ProceedsRests(n, e);
    }
  }

  /** What an attempt adds to the queue are keys of events made meanwhile. */
  lemma GrownKeys(n: Net, m: Net, root: EventId, j: QueueKey)
    requires Grown(n, m, root) && j in m.queue && j !in n.queue
    ensures j.event !in n.events && j.event in m.events && m.events[j.event].fromFault
  {
    assert IsFresh(n, m, j.event, root);
  }

  lemma GrownEvents(n: Net, m: Net, root: EventId)
    requires Grown(n, m, root)
    ensures m.resolved == n.resolved
    ensures forall id :: id in n.events ==> id in m.events && m.events[id] == n.events[id]
  {
  }

  lemma DeliverNextMoves(identity: Identity, n: Net)
    requires Valid(n) && IsDue(n)
    ensures PlanSound(n.plan) && AttemptMoves(n, First(n.queue), DeliverNext(identity, n))
  {
    hide Compose;
    hide Settled;
    hide Grown;
    var k := First(n.queue);
    var popped := n.(queue := n.queue - {k});
    assert KeyPlaced(n, k, None) && EventPlaced(n, k.event, None);
    hide Valid;
    var e := n.events[k.event].Bumped();
    var (m, f, v) := Compose(identity, popped, e);
    ComposeEffect(identity, popped, e);
    var decided := popped.(resolved := n.resolved + {k.event});
    GrownEvents(decided, m, k.event);
    SettledMoves(m, f, v);
    var after := Settled(m, f, v);
    forall j | j in after.queue && !(j in n.queue && j != k)
      ensures (j.event == k.event && k.event !in n.resolved)
           || (j.event !in n.events && j.event in after.events && after.events[j.event].fromFault
               && k.event !in n.resolved && !n.events[k.event].fromFault)
    {
      if j in m.queue {
        GrownKeys(decided, m, k.event, j);
      }
    }
  }

  /** Every attempt leaves less work behind. */
  lemma DeliverNextProgresses(identity: Identity, n: Net)
    requires Valid(n) && IsDue(n)
    ensures PlanSound(n.plan) && LessWork(DeliverNext(identity, n), n)
  {
    hide DeliverNext;
    DeliverNextMoves(identity, n);
    var k := First(n.queue);
    var m := DeliverNext(identity, n);
    assert KeyPlaced(n, k, None);
    KeysAreUnique(n, k);
    assert Callers(m) <= Callers(n);
    if k.event in n.resolved {
      assert Made(m) <= Made(n);
      assert Decided(m) <= Decided(n) && k in Decided(n) && k !in Decided(m);
      SubsetsAreSmaller(Callers(m), Callers(n));
      SubsetsAreSmaller(Made(m), Made(n));
      SmallerThan(Decided(m), Decided(n), k);
    } else if n.events[k.event].fromFault {
      assert Made(m) <= Made(n) && k in Made(n) && k !in Made(m);
      SubsetsAreSmaller(Callers(m), Callers(n));
      SmallerThan(Made(m), Made(n), k);
    } else {
      assert k in Callers(n) && k !in Callers(m);
      SmallerThan(Callers(m), Callers(n), k);
    }
  }

  lemma KeysAreUnique(n: Net, k: QueueKey)
    requires Valid(n) && k in n.queue
    ensures forall j :: j in n.queue && j.event == k.event ==> j == k
  {
    forall j | j in n.queue && j.event == k.event
      ensures j == k
    {
      assert KeyPlaced(n, j, None) && KeyPlaced(n, k, None);
    }
  }
}
