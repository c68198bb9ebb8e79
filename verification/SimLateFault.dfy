/**
 * Why conservation asks that no accepted fault cut a piece already made: a request of ten is split in two, and a
 * later fault on its transfer is accepted and sets the second piece to the whole request. Fifteen is delivered,
 * with nothing duplicated and nothing over-delivered.
 */
module SimLateFault {
  import opened Results
  import opened Words
  import opened Sums
  import opened SimTypes
  import opened SimSpec
  import opened SimPlaces
  import opened SimRun
  import opened SimValue

  const CONFIG := SimConfig(DeliverWithMarker, DeliverWithMarker)

  const IN_TWO := Fault(1, OneEvent(1), Split([5, 5], 1))

  const IN_FULL := Fault(2, OneTransfer(7), Partial(10))

  const SCHEDULE := DoScheduleAsset(AssetRequest(None, 7, 1, 2, 10, 0, None))

  const OPS: seq<Operation> := [
    SCHEDULE, DoAddFault(IN_TWO), DoDeliverNext, DoAddFault(IN_FULL), DoAdvanceTo(1), DoDeliverNext]

  const REQUESTED := Event(1, 1, 2, 2, Value(7, 10, 10, None, false), 0, 0, None, None, false, Scheduled)

  const FIRST_HALF := REQUESTED.(payload := Value(7, 10, 5, Some(0), false), attempts := 1, status := Ready)

  const SECOND_HALF := Event(2, 1, 2, 2, Value(7, 10, 5, Some(1), false), 1, 0, None, None, true, Scheduled)

  const INFLATED := SECOND_HALF.(payload := Value(7, 10, 10, Some(1), false), attempts := 1, status := Ready)

  lemma OneKey(k: QueueKey)
    ensures First({k}) == k
  {
  }

  lemma OneFault(plan: FaultPlan, id: FaultId)
    requires id in plan && PlanSound(plan)
    ensures InOrder(plan, {id}) == [plan[id]]
  {
    HasEarliest(plan, {id});
    assert forall j :: IsEarliest(plan, {id}, j) ==> j == id;
    assert {id} - {id} == {};
  }

  lemma OneApplied(identity: Identity, n: Net, e: Event, f: Fault)
    ensures ApplyBatch(identity, n, e, [f], Proceed)
         == (ApplyFault(identity, n, e, f.action).0, ApplyFault(identity, n, e, f.action).1, Marked(Proceed, n.now, f))
  {
    hide ApplyFault;
    assert [f][1..] == [];
  }

  /** Two running lanes and two active endpoints. */
  predicate Running(n: Net) {
    && !n.LanePaused(Assets) && 1 in n.endpoints && 2 in n.endpoints && n.endpoints[2].state == Active
  }

  /** Before the first attempt. */
  ghost predicate IsScheduled(n: Net) {
    && Running(n) && n.now == 0 && n.plan == map[] && n.resolved == {} && n.nextEvent == 2
    && n.events == map[1 := REQUESTED] && n.queue == {REQUESTED.Key()} && n.lineage == map[1 := 1]
  }

  lemma Schedules(identity: Identity)
    ensures Step(identity, Fresh(CONFIG, {1, 2}), SCHEDULE).Ok?
    ensures IsScheduled(Step(identity, Fresh(CONFIG, {1, 2}), SCHEDULE).value)
  {
    hide Valid;
    var n := Fresh(CONFIG, {1, 2});
    assert n.endpoints.Keys == {1, 2};
    assert ReserveId(n.events, n.nextEvent, None) == Ok((1, 2));
  }

  lemma SplitIsAccepted(n: Net)
    requires IsScheduled(n)
    ensures AddFault(n, IN_TWO) == Ok(n.(plan := map[1 := IN_TWO]))
  {
    assert SumPieces([5, 5][1..]) == 5 && SumPieces([5, 5]) == 10;
    assert CheckNamedEvent(n.events, n.resolved, 1, IN_TWO.action) == Ok(());
    assert Rivals(n.plan, IN_TWO) == {};
  }

  /** After the first piece was delivered. */
  ghost predicate IsHalfway(n: Net) {
    && Running(n) && n.now == 0 && n.plan == map[1 := IN_TWO] && n.resolved == {1} && n.nextEvent == 3
    && n.events == map[1 := FIRST_HALF.(status := Delivered), 2 := SECOND_HALF]
    && n.queue == {SECOND_HALF.Key()} && n.lineage == map[1 := 1, 2 := 1]
  }

  lemma SplitsInTwo(n: Net)
    requires n.now == 0 && n.nextEvent == 2 && n.events == map[1 := REQUESTED] && n.lineage == map[1 := 1]
    ensures AddPieces(n, FIRST_HALF, [5, 5], 1, 1) == n.(nextEvent := 3).Queued(SECOND_HALF, 1)
  {
    assert FreeId(n.events, 2) == Some(2);
    assert Spaced(0, 1, Narrow16(1)) == 1 by { assert Times(1, 1) == 1; }
    var m := n.(nextEvent := 3).Queued(SECOND_HALF, 1);
    assert AddPieces(m, FIRST_HALF, [5, 5], 2, 1) == m;
  }

  lemma SplitComposes(identity: Identity, n: Net)
    requires Running(n) && n.now == 0 && n.plan == map[1 := IN_TWO] && n.resolved == {} && n.nextEvent == 2
    requires n.events == map[1 := REQUESTED] && n.lineage == map[1 := 1]
    ensures PlanSound(n.plan)
    ensures Compose(identity, n, REQUESTED.Bumped())
         == (n.(resolved := {1}, nextEvent := 3).Queued(SECOND_HALF, 1), FIRST_HALF, Proceed)
  {
    hide AddPieces;
    var e, n' := REQUESTED.Bumped(), n.(resolved := {1});
    assert Pending(n.plan, e) == {1};
    OneFault(n.plan, 1);
    assert SumPieces([5, 5][1..]) == 5 && SumPieces([5, 5]) == 10;
    assert [IN_TWO][1..] == [];
    assert CheckBatch(n.endpoints, [IN_TWO], e, {}) == None;
    assert n.resolved + {1} == {1};
    SplitsInTwo(n');
    OneApplied(identity, n', e, IN_TWO);
    assert ApplyFault(identity, n', e, IN_TWO.action) == (n'.(nextEvent := 3).Queued(SECOND_HALF, 1), FIRST_HALF);
  }

  lemma FirstHalfArrives(identity: Identity, n: Net)
    requires Valid(n) && IsScheduled(n.(plan := map[])) && n.plan == map[1 := IN_TWO]
    ensures IsDue(n) && IsHalfway(DeliverNext(identity, n))
  {
    hide Valid;
    hide Compose;
    OneKey(REQUESTED.Key());
    var popped := n.(queue := n.queue - {REQUESTED.Key()});
    assert popped.queue == {};
    SplitComposes(identity, popped);
    var m := popped.(resolved := {1}, nextEvent := 3).Queued(SECOND_HALF, 1);
    assert Attempt(identity, popped, 1) == Settled(m, FIRST_HALF, Proceed);
    assert Settled(m, FIRST_HALF, Proceed) == Handed(m, FIRST_HALF, false);
  }

  lemma LatePartialIsAccepted(n: Net)
    requires IsHalfway(n)
    ensures AddFault(n, IN_FULL) == Ok(n.(plan := map[1 := IN_TWO, 2 := IN_FULL]))
  {
    assert Rivals(n.plan, IN_FULL) == {};
  }

  lemma PartialComposes(identity: Identity, n: Net)
    requires Running(n) && n.plan == map[1 := IN_TWO, 2 := IN_FULL] && n.resolved == {1}
    ensures PlanSound(n.plan)
    ensures Compose(identity, n, SECOND_HALF.Bumped()) == (n.(resolved := {1, 2}), INFLATED, Proceed)
  {
    var e, n' := SECOND_HALF.Bumped(), n.(resolved := {1, 2});
    assert Pending(n.plan, e) == {2};
    OneFault(n.plan, 2);
    assert [IN_FULL][1..] == [];
    assert CheckBatch(n.endpoints, [IN_FULL], e, {}) == None;
    assert n.resolved + {2} == {1, 2};
    OneApplied(identity, n', e, IN_FULL);
    assert ApplyFault(identity, n', e, IN_FULL.action) == (n', INFLATED);
  }

  ghost predicate IsOverDelivered(n: Net) {
    && n.lineage == map[1 := 1, 2 := 1]
    && n.events == map[1 := FIRST_HALF.(status := Delivered), 2 := INFLATED.(status := Delivered)]
  }

  lemma SecondHalfArrives(identity: Identity, n: Net)
    requires Valid(n) && IsHalfway(n.(plan := map[1 := IN_TWO], now := 0))
    requires n.plan == map[1 := IN_TWO, 2 := IN_FULL] && n.now == 1
    ensures IsDue(n) && IsOverDelivered(DeliverNext(identity, n))
  {
    hide Valid;
    hide Compose;
    OneKey(SECOND_HALF.Key());
    var popped := n.(queue := n.queue - {SECOND_HALF.Key()});
    PartialComposes(identity, popped);
    var m := popped.(resolved := {1, 2});
    assert Attempt(identity, popped, 2) == Settled(m, INFLATED, Proceed);
    assert Settled(m, INFLATED, Proceed) == Handed(m, INFLATED, false);
  }

  lemma SumOfTwo(m: map<EventId, nat>, a: EventId, b: EventId)
    requires a != b && m.Keys == {a, b}
    ensures Sum(m) == m[a] + m[b]
  {
    SumRemove(m, a);
    SumRemove(m - {a}, b);
    assert m - {a} - {b} == map[];
  }

  lemma FifteenForTen(n: Net)
    requires IsOverDelivered(n)
    ensures Sum(DeliveredFamily(n, 1)) == 15 && n.events[1] == FIRST_HALF.(status := Delivered)
  {
    hide Sum;
    assert DeliveredFamily(n, 1).Keys == {1, 2};
    SumOfTwo(DeliveredFamily(n, 1), 1, 2);
  }

  /** The first three steps. */
  lemma Halfway(identity: Identity) returns (n1: Net, n2: Net, n3: Net)
    ensures Valid(n1) && Valid(n2) && Valid(n3) && IsHalfway(n3)
    ensures Step(identity, Fresh(CONFIG, {1, 2}), SCHEDULE) == Ok(n1)
    ensures Step(identity, n1, DoAddFault(IN_TWO)) == Ok(n2) && Step(identity, n2, DoDeliverNext) == Ok(n3)
  {
    hide Valid;
    hide AddFault;
    hide DeliverNext;
    hide ScheduleAsset;
    Schedules(identity);
    StepKeeps(identity, Fresh(CONFIG, {1, 2}), SCHEDULE);
    n1 := Step(identity, Fresh(CONFIG, {1, 2}), SCHEDULE).value;
    SplitIsAccepted(n1);
    StepKeeps(identity, n1, DoAddFault(IN_TWO));
    n2 := n1.(plan := map[1 := IN_TWO]);
    FirstHalfArrives(identity, n2);
    StepKeeps(identity, n2, DoDeliverNext);
    n3 := DeliverNext(identity, n2);
  }

  /** The last three. */
  lemma Finish(identity: Identity, n3: Net) returns (n4: Net, n5: Net, n6: Net)
    requires Valid(n3) && IsHalfway(n3)
    ensures Valid(n4) && Valid(n5) && Valid(n6) && IsOverDelivered(n6)
    ensures n6.plan == map[1 := IN_TWO, 2 := IN_FULL]
    ensures Step(identity, n3, DoAddFault(IN_FULL)) == Ok(n4)
    ensures Step(identity, n4, DoAdvanceTo(1)) == Ok(n5) && Step(identity, n5, DoDeliverNext) == Ok(n6)
  {
    hide Valid;
    hide AddFault;
    hide DeliverNext;
    hide IsOverDelivered;
    LatePartialIsAccepted(n3);
    StepKeeps(identity, n3, DoAddFault(IN_FULL));
    n4 := n3.(plan := map[1 := IN_TWO, 2 := IN_FULL]);
    StepKeeps(identity, n4, DoAdvanceTo(1));
    n5 := n4.(now := 1);
    assert n5.(plan := map[1 := IN_TWO], now := 0) == n3;
    SecondHalfArrives(identity, n5);
    StepKeeps(identity, n5, DoDeliverNext);
    DeliverNextFrame(identity, n5);
    n6 := DeliverNext(identity, n5);
  }

  /** Conservation fails on this run: every step is accepted, and fifteen is delivered for a request of ten. */
  lemma LatePartialOverDelivers(identity: Identity)
    ensures var n := Run(identity, Fresh(CONFIG, {1, 2}), OPS);
      && 1 in n.events && n.events[1].payload.Value? && !n.events[1].fromFault
      && n.events[1].payload.requested < Sum(DeliveredFamily(n, 1))
      && forall f :: f in n.plan ==> Tame(n.plan[f].action)
  {
    hide Valid;
    hide Step;
    hide Run;
    hide Sum;
    hide DeliveredFamily;
    var n1, n2, n3 := Halfway(identity);
    var n4, n5, n6 := Finish(identity, n3);
    FifteenForTen(n6);
    SixSteps(identity, Fresh(CONFIG, {1, 2}), n1, n2, n3, n4, n5, n6);
  }

  lemma SixSteps(identity: Identity, n0: Net, n1: Net, n2: Net, n3: Net, n4: Net, n5: Net, n6: Net)
    requires Valid(n0) && Valid(n1) && Valid(n2) && Valid(n3) && Valid(n4) && Valid(n5)
    requires Step(identity, n0, OPS[0]) == Ok(n1) && Step(identity, n1, OPS[1]) == Ok(n2)
    requires Step(identity, n2, OPS[2]) == Ok(n3) && Step(identity, n3, OPS[3]) == Ok(n4)
    requires Step(identity, n4, OPS[4]) == Ok(n5) && Step(identity, n5, OPS[5]) == Ok(n6) && Valid(n6)
    ensures Run(identity, n0, OPS) == n6
  {
    hide Valid;
    hide Step;
    assert OPS[5..][1..] == [] && OPS[4..][1..] == OPS[5..] && OPS[3..][1..] == OPS[4..];
    assert OPS[2..][1..] == OPS[3..] && OPS[1..][1..] == OPS[2..];
    assert Run(identity, n6, []) == n6;
    assert Run(identity, n5, OPS[5..]) == n6;
    assert Run(identity, n4, OPS[4..]) == n6;
    assert Run(identity, n3, OPS[3..]) == n6;
    assert Run(identity, n2, OPS[2..]) == n6;
    assert Run(identity, n1, OPS[1..]) == n6;
  }
}
