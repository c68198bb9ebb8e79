/**
 * The cross-chain cycles over whole runs: notices and assets may arrive in any order, reports during
 * a recall do not change its settlement, and a closing allocation is frozen until it settles.
 */
module VaultTransfers {
  import opened Results
  import opened Words
  import opened Amounts
  import opened VaultState
  import opened VaultSpec
  import opened VaultInvariant
  import opened VaultFrames
  import opened VaultPreservation

  // Arrival order.

  function Total(amounts: seq<U128>): nat {
    if amounts == [] then 0 else amounts[0] + Total(amounts[1..])
  }

  lemma {:induction false} TotalSplits(amounts: seq<U128>, i: nat)
    requires i <= |amounts|
    ensures Total(amounts) == Total(amounts[..i]) + Total(amounts[i..])
  {
    if i > 0 {
      TotalSplits(amounts[1..], i - 1);
      assert amounts[1..][..i - 1] == amounts[..i][1..];
      assert amounts[1..][i - 1..] == amounts[i..];
    } else {
      assert amounts[..0] == [] && amounts[0..] == amounts;
    }
  }

  ghost function Arrivals(amounts: seq<U128>): seq<Operation> {
    seq(|amounts|, i requires 0 <= i < |amounts| => ObserveInbound(amounts[i]))
  }

  predicate AllPositive(amounts: seq<U128>) {
    forall i :: 0 <= i < |amounts| ==> amounts[i] > 0
  }

  /** The places an arriving asset can end up in. */
  datatype Landing = Landing(idle: nat, expected: nat, waiting: nat, foreign: nat, inflow: nat) {
    predicate Fits() {
      idle < LIMIT128 && expected < LIMIT128 && waiting < LIMIT128 && foreign < LIMIT128 && inflow < LIMIT128
    }
  }

  function LandingOf(s: State): Landing {
    Landing(s.buckets.idleBacking, s.buckets.inboundInTransit, s.buckets.unattributedInbound,
            s.buckets.unattributedBalance, s.externalInflow)
  }

  function WithLanding(s: State, x: Landing): State
    requires x.Fits()
  {
    s.(externalInflow := x.inflow,
       buckets := s.buckets.(
         idleBacking := x.idle, inboundInTransit := x.expected,
         unattributedInbound := x.waiting, unattributedBalance := x.foreign))
  }

  /** Expected assets become idle; the surplus waits for a pending recall, or counts as foreign. */
  function Landed(x: Landing, recallPending: bool, total: nat): Landing {
    var attributed := Min(total, x.expected);
    var surplus := total - attributed;
    var y := x.(idle := x.idle + attributed, expected := x.expected - attributed);
    if recallPending then y.(waiting := x.waiting + surplus)
    else y.(foreign := x.foreign + surplus, inflow := x.inflow + surplus)
  }

  /** A recall notice takes what already waits and expects the rest. */
  function Noticed(x: Landing, actual: nat): Landing {
    var found := Min(actual, x.waiting);
    x.(idle := x.idle + found, waiting := x.waiting - found, expected := x.expected + actual - found)
  }

  lemma LandingsCompose(x: Landing, recallPending: bool, a: nat, b: nat)
    ensures Landed(Landed(x, recallPending, a), recallPending, b) == Landed(x, recallPending, a + b)
  {
  }

  /** How much may still arrive before assets become a surplus, once `actual` is announced. */
  function Expected(x: Landing, actual: nat): nat {
    x.expected + actual - Min(actual, x.waiting)
  }

  /**
   * The heart of order independence: `before` arrives ahead of the notice and `after` behind it, against
   * the notice first. Only a surplus can tell the two apart, and only by the bucket that holds it.
   */
  lemma NoticeMayMove(x: Landing, actual: nat, before: nat, after: nat)
    ensures var mixed := Landed(Noticed(Landed(x, true, before), actual), false, after);
      var first := Landed(Noticed(x, actual), false, before + after);
      && mixed.idle == first.idle && mixed.expected == first.expected
      && mixed.waiting + mixed.foreign == first.waiting + first.foreign
      && mixed.foreign - mixed.inflow == first.foreign - first.inflow
      && (before + after <= Expected(x, actual) ==> mixed == first)
  {
  }

  lemma ObserveLands(s: State, amount: U128)
    requires amount > 0 && Landed(LandingOf(s), s.pendingRecallPrincipal != 0, amount).Fits()
    ensures var x := Landed(LandingOf(s), s.pendingRecallPrincipal != 0, amount);
      Step(s, ObserveInbound(amount)) == Ok(WithLanding(s, x)) && Next(s, ObserveInbound(amount)) == WithLanding(s, x)
  {
    var t := Observe(s, amount).value;
    assert Step(s, ObserveInbound(amount)) == Ok(t);
  }

  lemma LandingRoundTrip(s: State, x: Landing)
    requires x.Fits()
    ensures LandingOf(WithLanding(s, x)) == x
    ensures WithLanding(s, x).pendingRecallPrincipal == s.pendingRecallPrincipal
    ensures LandingOf(s).Fits() && WithLanding(s, LandingOf(s)) == s
  {
  }

  lemma LandingOverwrites(s: State, x: Landing, y: Landing)
    requires x.Fits() && y.Fits()
    ensures WithLanding(WithLanding(s, x), y) == WithLanding(s, y)
  {
  }

  /** Enough headroom for `total` more assets wherever they end up. */
  predicate RoomFor(x: Landing, total: nat) {
    && x.idle + x.expected < LIMIT128
    && x.waiting + total < LIMIT128 && x.foreign + total < LIMIT128 && x.inflow + total < LIMIT128
  }

  lemma RoomRemains(x: Landing, recallPending: bool, a: nat, b: nat)
    requires RoomFor(x, a + b)
    ensures Landed(x, recallPending, a).Fits() && RoomFor(Landed(x, recallPending, a), b)
  {
  }

  /** Observations add up: a run of arrivals acts like one arrival of their total. */
  lemma {:induction false} ArrivalsAddUp(s: State, amounts: seq<U128>)
    requires AllPositive(amounts) && RoomFor(LandingOf(s), Total(amounts))
    ensures var x := Landed(LandingOf(s), s.pendingRecallPrincipal != 0, Total(amounts));
      x.Fits() && Run(s, Arrivals(amounts)) == WithLanding(s, x)
    ensures AllAccepted(s, Arrivals(amounts))
    decreases |amounts|
  {
    hide Next;
    hide Step;
    hide Landed;
    hide WithLanding;
    hide LandingOf;
    hide RoomFor;
    var x, pending := LandingOf(s), s.pendingRecallPrincipal != 0;
    if amounts == [] {
      RoomRemains(x, pending, 0, 0);
      NothingLands(x, pending);
      LandingRoundTrip(s, x);
    } else {
      var y, rest := Landed(x, pending, amounts[0]), Total(amounts[1..]);
      RoomRemains(x, pending, amounts[0], rest);
      ObserveLands(s, amounts[0]);
      LandingRoundTrip(s, y);
      assert Arrivals(amounts)[0] == ObserveInbound(amounts[0]);
      assert Arrivals(amounts)[1..] == Arrivals(amounts[1..]);
      ArrivalsAddUp(WithLanding(s, y), amounts[1..]);
      LandingsCompose(x, pending, amounts[0], rest);
      LandingOverwrites(s, y, Landed(y, pending, rest));
    }
  }

  lemma NothingLands(x: Landing, recallPending: bool)
    ensures Landed(x, recallPending, 0) == x
  {
  }

  lemma NoticeLandsSame(s: State, y: Landing, id: TransferId, principal: U128, actual: U128, loss: U128)
    requires AcceptNotice(s, id, principal, actual, loss).Ok? && y.Fits() && Noticed(y, actual).Fits()
    ensures AcceptNotice(WithLanding(s, y), id, principal, actual, loss)
        == Ok(WithLanding(AcceptNotice(s, id, principal, actual, loss).value, Noticed(y, actual)))
  {
  }

  /** What a notice does outside the landing places does not depend on what has landed. */
  lemma NoticeLands(s: State, y: Landing, id: TransferId, principal: U128, actual: U128, loss: U128)
    requires AcceptNotice(s, id, principal, actual, loss).Ok? && y.Fits() && Noticed(y, actual).Fits()
    ensures var op := AcceptRecallSent(id, principal, actual, loss);
      var after := WithLanding(AcceptNotice(s, id, principal, actual, loss).value, Noticed(y, actual));
      Step(WithLanding(s, y), op) == Ok(after) && Next(WithLanding(s, y), op) == after
  {
    hide AcceptNotice;
    NoticeLandsSame(s, y, id, principal, actual, loss);
  }

  /** The first `i` arrivals, then the recall notice, then the rest. */
  ghost function NoticeAt(amounts: seq<U128>, i: nat, notice: Operation): seq<Operation>
    requires i <= |amounts|
  {
    Arrivals(amounts[..i]) + [notice] + Arrivals(amounts[i..])
  }

  lemma {:induction false} RunConcat(s: State, a: seq<Operation>, b: seq<Operation>)
    ensures Run(s, a + b) == Run(Run(s, a), b)
    ensures AllAccepted(s, a + b) <==> AllAccepted(s, a) && AllAccepted(Run(s, a), b)
    decreases |a|
  {
    hide Step;
    if a == [] {
      assert a + b == b;
    } else {
      assert (a + b)[0] == a[0] && (a + b)[1..] == a[1..] + b;
      RunConcat(Next(s, a[0]), a[1..], b);
    }
  }

  /** Room in the whole supply is room in every landing place, before and after the notice. */
  lemma SupplyLeavesRoom(s: State, id: TransferId, principal: U128, actual: U128, loss: U128, before: nat, after: nat)
    requires Inv(s) && AcceptNotice(s, id, principal, actual, loss).Ok?
    requires s.initialAssetSupply + s.externalInflow + s.buckets.unattributedInbound + before + after < LIMIT128
    ensures var x := LandingOf(s);
      && RoomFor(x, before) && Landed(x, true, before).Fits()
      && Noticed(Landed(x, true, before), actual).Fits()
      && RoomFor(Noticed(Landed(x, true, before), actual), after)
      && s.pendingRecallPrincipal != 0
      && AcceptNotice(s, id, principal, actual, loss).value.pendingRecallPrincipal == 0
  {
    hide Inv;
    hide AcceptNotice;
    NoticeWithinSupply(s, id, principal, actual, loss);
    LandingHasRoom(LandingOf(s), actual, before, after);
  }

  lemma NoticeWithinSupply(s: State, id: TransferId, principal: U128, actual: U128, loss: U128)
    requires Inv(s) && AcceptNotice(s, id, principal, actual, loss).Ok?
    ensures s.buckets.idleBacking + s.buckets.inboundInTransit + s.buckets.unattributedBalance + actual
         <= s.initialAssetSupply + s.externalInflow
    ensures s.pendingRecallPrincipal != 0
    ensures AcceptNotice(s, id, principal, actual, loss).value.pendingRecallPrincipal == 0
  {
    hide SideInv;
    hide Held;
    hide EpochsOrdered;
    hide TermsBounded;
    hide BurnedExplained;
    hide SharesConserved;
  }

  lemma LandingHasRoom(x: Landing, actual: nat, before: nat, after: nat)
    requires x.idle + x.expected + x.foreign + actual + x.waiting + before + after < LIMIT128
    requires x.inflow + before + after < LIMIT128
    ensures RoomFor(x, before) && Landed(x, true, before).Fits()
    ensures Noticed(Landed(x, true, before), actual).Fits()
    ensures RoomFor(Noticed(Landed(x, true, before), actual), after)
  {
  }

  /** The outcome of a schedule, computed on the landing places alone. */
  lemma ScheduleLands(s: State, amounts: seq<U128>, i: nat, id: TransferId, principal: U128, actual: U128, loss: U128)
    requires Inv(s) && AcceptNotice(s, id, principal, actual, loss).Ok?
    requires AllPositive(amounts) && i <= |amounts|
    requires s.initialAssetSupply + s.externalInflow + s.buckets.unattributedInbound + Total(amounts) < LIMIT128
    ensures var ops := NoticeAt(amounts, i, AcceptRecallSent(id, principal, actual, loss));
      var x := Landed(Noticed(Landed(LandingOf(s), true, Total(amounts[..i])), actual), false, Total(amounts[i..]));
      && AllAccepted(s, ops) && x.Fits()
      && Run(s, ops) == WithLanding(AcceptNotice(s, id, principal, actual, loss).value, x)
  {
    hide Inv;
    hide Step;
    hide Next;
    hide Landed;
    hide Noticed;
    hide WithLanding;
    hide LandingOf;
    hide RoomFor;
    hide AcceptNotice;
    var notice := AcceptRecallSent(id, principal, actual, loss);
    var early, late := amounts[..i], amounts[i..];
    TotalSplits(amounts, i);
    SupplyLeavesRoom(s, id, principal, actual, loss, Total(early), Total(late));
    ArrivalsAddUp(s, early);
    var y := Landed(LandingOf(s), true, Total(early));
    NoticeLands(s, y, id, principal, actual, loss);
    var n := WithLanding(AcceptNotice(s, id, principal, actual, loss).value, Noticed(y, actual));
    LandingRoundTrip(AcceptNotice(s, id, principal, actual, loss).value, Noticed(y, actual));
    ArrivalsAddUp(n, late);
    LandingOverwrites(AcceptNotice(s, id, principal, actual, loss).value, Noticed(y, actual),
                      Landed(Noticed(y, actual), false, Total(late)));
    RunConcat(s, Arrivals(early) + [notice], Arrivals(late));
    RunConcat(s, Arrivals(early), [notice]);
    assert Run(Run(s, Arrivals(early)), [notice]) == n by {
      assert [notice][1..] == [];
    }
  }

  /**
   * Order independence of a recall: wherever the notice arrives among the assets, every step is accepted
   * and the states agree on everything except where a surplus is booked. Without a surplus they are equal.
   */
  lemma NoticeOrderDoesNotMatter(
    s: State, amounts: seq<U128>, i: nat, j: nat, id: TransferId, principal: U128, actual: U128, loss: U128)
    requires Inv(s) && AcceptNotice(s, id, principal, actual, loss).Ok?
    requires AllPositive(amounts) && i <= |amounts| && j <= |amounts|
    requires s.initialAssetSupply + s.externalInflow + s.buckets.unattributedInbound + Total(amounts) < LIMIT128
    ensures var notice := AcceptRecallSent(id, principal, actual, loss);
      var a, b := Run(s, NoticeAt(amounts, i, notice)), Run(s, NoticeAt(amounts, j, notice));
      && AllAccepted(s, NoticeAt(amounts, i, notice))
      && a.buckets.idleBacking == b.buckets.idleBacking
      && a.buckets.inboundInTransit == b.buckets.inboundInTransit
      && a.ManagedBacking() == b.ManagedBacking()
      && a.buckets.unattributedInbound + a.buckets.unattributedBalance
         == b.buckets.unattributedInbound + b.buckets.unattributedBalance
      && a.buckets.unattributedBalance - a.externalInflow == b.buckets.unattributedBalance - b.externalInflow
      && WithLanding(a, LandingOf(b)) == b
      && (Total(amounts) <= Expected(LandingOf(s), actual) ==> a == b)
  {
    hide Inv;
    hide Step;
    hide Landed;
    hide Noticed;
    hide AcceptNotice;
    hide NoticeAt;
    var x, n := LandingOf(s), AcceptNotice(s, id, principal, actual, loss).value;
    ScheduleLands(s, amounts, i, id, principal, actual, loss);
    ScheduleLands(s, amounts, j, id, principal, actual, loss);
    TotalSplits(amounts, i);
    TotalSplits(amounts, j);
    NoticeMayMove(x, actual, Total(amounts[..i]), Total(amounts[i..]));
    NoticeMayMove(x, actual, Total(amounts[..j]), Total(amounts[j..]));
  }

  // A recall, from its start to its notice.

  /** What a recall settles from. */
  predicate SameRecall(s: State, t: State) {
    && t.activeCycle == s.activeCycle && t.activeTransferId == s.activeTransferId
    && t.activeAmount == s.activeAmount
    && t.recallBaselineValue == s.recallBaselineValue && t.recallBaselineLoss == s.recallBaselineLoss
    && t.remotePrincipalCap == s.remotePrincipalCap && t.recognizedLoss == s.recognizedLoss
  }

  predicate EndsRecall(op: Operation, id: TransferId) {
    op.AcceptRecallSent? && op.transferId == id
  }

  lemma RecallStepKeeps(s: State, op: Operation)
    requires RemoteConsistent(s) && s.activeCycle == Recalling && !EndsRecall(op, s.activeTransferId)
    ensures SameRecall(s, Next(s, op))
  {
    hide OpenNext;
    hide Abort;
    hide Cutoff;
    hide PauseVault;
    hide UnpauseVault;
    hide FreezeVault;
    hide MakeRequest;
    hide CancelRequest;
    hide Claim;
    hide ClaimRefund;
    hide Finalize;
    if IsLocal(op) {
      LocalFrame(s, op);
    }
  }

  lemma {:induction false} RecallRunKeeps(s: State, ops: seq<Operation>)
    requires Inv(s) && s.activeCycle == Recalling
    requires forall op :: op in ops ==> !EndsRecall(op, s.activeTransferId)
    ensures SameRecall(s, Run(s, ops)) && Inv(Run(s, ops))
    decreases |ops|
  {
    hide SideInv;
    hide Step;
    if ops != [] {
      RecallStepKeeps(s, ops[0]);
      if Step(s, ops[0]).Ok? {
        StepKeeps(s, ops[0]);
      }
      RecallRunKeeps(Next(s, ops[0]), ops[1..]);
    }
  }

  /**
   * Whatever happens between the start of a recall and its notice, reports included, the settlement
   * is computed from the value at the start: reports neither deduct a loss twice nor hide one.
   */
  lemma RecallSettlesFromItsStart(
    s: State, actor: AccountId, id: TransferId, amount: U128, ops: seq<Operation>,
    principal: U128, actual: U128, loss: U128)
    requires Inv(s) && StartRecall(s, actor, id, amount).Ok?
    requires forall op :: op in ops ==> !EndsRecall(op, id)
    requires AcceptNotice(Run(StartRecall(s, actor, id, amount).value, ops), id, principal, actual, loss).Ok?
    ensures var t := AcceptNotice(Run(StartRecall(s, actor, id, amount).value, ops), id, principal, actual, loss).value;
      && t.buckets.acceptedRemoteValue
         == s.buckets.acceptedRemoteValue - Min(s.buckets.acceptedRemoteValue, principal)
      && t.remotePrincipalCap == s.remotePrincipalCap - principal
      && t.recognizedLoss == s.recognizedLoss + loss
      && t.recognizedLoss <= t.inboundCumulativeLoss
      && t.inboundCumulativeLoss
         == Max(Run(StartRecall(s, actor, id, amount).value, ops).inboundCumulativeLoss, s.inboundCumulativeLoss + loss)
  {
    hide Inv;
    hide Run;
    var started := StartRecall(s, actor, id, amount).value;
    NextKeeps(s, BeginRecall(actor, id, amount));
    OrderedIn(s);
    RecallRunKeeps(started, ops);
    OrderedIn(Run(started, ops));
  }

  /**
   * A report that comes in while a recall runs, whatever ran since its start, answers with the value at the
   * start less every loss realized since, and never with what it reports.
   */
  lemma ReportDuringRecall(
    s: State, actor: AccountId, id: TransferId, amount: U128, ops: seq<Operation>, value: U128, loss: U128)
    requires Inv(s) && StartRecall(s, actor, id, amount).Ok?
    requires forall op :: op in ops ==> !EndsRecall(op, id)
    requires Revalue(Run(StartRecall(s, actor, id, amount).value, ops), value, loss).Ok?
    ensures var before := Run(StartRecall(s, actor, id, amount).value, ops);
      var t := Revalue(before, value, loss).value;
      && t.inboundCumulativeLoss == before.inboundCumulativeLoss + loss
      && t.buckets.acceptedRemoteValue
         == Max(s.buckets.acceptedRemoteValue - (t.inboundCumulativeLoss - s.inboundCumulativeLoss), 0)
  {
    hide Inv;
    hide Run;
    var started := StartRecall(s, actor, id, amount).value;
    NextKeeps(s, BeginRecall(actor, id, amount));
    OrderedIn(s);
    RecallRunKeeps(started, ops);
    OrderedIn(Run(started, ops));
  }

  /**
   * A recall of `amount` takes exactly the notices that name it and account for at most that much, whatever
   * runs in between.
   */
  lemma RecallTakesItsNotice(
    s: State, actor: AccountId, id: TransferId, amount: U128, ops: seq<Operation>,
    named: TransferId, principal: U128, actual: U128, loss: U128)
    requires Inv(s) && StartRecall(s, actor, id, amount).Ok?
    requires forall op :: op in ops ==> !EndsRecall(op, id)
    requires SupplyFits(Run(StartRecall(s, actor, id, amount).value, ops))
    ensures AcceptNotice(Run(StartRecall(s, actor, id, amount).value, ops), named, principal, actual, loss).Ok? <==>
      && named == id && actual + loss == principal <= amount && s.inboundCumulativeLoss + loss < LIMIT128
  {
    hide Inv;
    hide Run;
    hide AcceptNotice;
    var started := StartRecall(s, actor, id, amount).value;
    NextKeeps(s, BeginRecall(actor, id, amount));
    RecallRunKeeps(started, ops);
    NoticeAcceptedIff(Run(started, ops), named, principal, actual, loss);
  }

  // A closing allocation, from the request to its settlement.

  /** Everything a closing allocation freezes. */
  predicate SameClosing(s: State, t: State) {
    && t.remotePrincipalCap == s.remotePrincipalCap
    && t.buckets.acceptedRemoteValue == s.buckets.acceptedRemoteValue
    && t.buckets.outboundInTransit == s.buckets.outboundInTransit
    && t.impairedTransport == s.impairedTransport && t.cumulativeImpairment == s.cumulativeImpairment
    && t.epochValuationLocked == s.epochValuationLocked
    && t.activeCycle == s.activeCycle && t.activeTransferId == s.activeTransferId
    && t.activeAmount == s.activeAmount && t.closeRequested == s.closeRequested
    && t.recognizedLoss == s.recognizedLoss
  }

  predicate EndsClosing(op: Operation, id: TransferId) {
    op.SettleClose? && op.transferId == id
  }

  lemma ClosingStepKeeps(s: State, op: Operation)
    requires RemoteConsistent(s) && s.closeRequested && !EndsClosing(op, s.activeTransferId)
    ensures SameClosing(s, Next(s, op))
  {
    hide OpenNext;
    hide Abort;
    hide Cutoff;
    hide PauseVault;
    hide UnpauseVault;
    hide FreezeVault;
    hide MakeRequest;
    hide CancelRequest;
    hide Claim;
    hide ClaimRefund;
    hide Finalize;
    if IsLocal(op) {
      LocalFrame(s, op);
    }
  }

  lemma {:induction false} ClosingRunKeeps(s: State, ops: seq<Operation>)
    requires Inv(s) && s.closeRequested
    requires forall op :: op in ops ==> !EndsClosing(op, s.activeTransferId)
    ensures SameClosing(s, Run(s, ops)) && Inv(Run(s, ops))
    decreases |ops|
  {
    hide Inv;
    hide Next;
    if ops != [] {
      OrderedIn(s);
      ClosingStepKeeps(s, ops[0]);
      NextKeeps(s, ops[0]);
      ClosingRunKeeps(Next(s, ops[0]), ops[1..]);
    }
  }

  /**
   * From the close request to its settlement nothing moves the books of the allocation. The settlement
   * then lowers the backing by exactly the shortfall, as impairment and not as recognized loss.
   */
  lemma CloseSettlesExactly(
    s: State, actor: AccountId, id: TransferId, ops: seq<Operation>, credited: U128)
    requires Inv(s) && AskClose(s, actor, id).Ok?
    requires forall op :: op in ops ==> !EndsClosing(op, id)
    requires CloseAllocation(Run(AskClose(s, actor, id).value, ops), id, credited).Ok?
    ensures var asked := AskClose(s, actor, id).value;
      var before := Run(asked, ops);
      var t := CloseAllocation(before, id, credited).value;
      && SameClosing(asked, before)
      && credited <= s.activeAmount
      && t.buckets.Managed() + (s.activeAmount - credited) == before.buckets.Managed()
      && t.impairedTransport == s.impairedTransport + (s.activeAmount - credited)
      && t.cumulativeImpairment == s.cumulativeImpairment + (s.activeAmount - credited)
      && t.remotePrincipalCap == s.remotePrincipalCap + credited
      && t.buckets.acceptedRemoteValue == s.buckets.acceptedRemoteValue + credited
      && t.recognizedLoss == s.recognizedLoss
      && t.activeCycle == NoCycle
  {
    hide Inv;
    hide Run;
    var asked := AskClose(s, actor, id).value;
    NextKeeps(s, RequestClose(actor, id));
    ClosingRunKeeps(asked, ops);
  }

  // When a settlement is accepted.

  lemma CompletionAcceptedIff(s: State, id: TransferId, value: U128)
    requires Inv(s) && SupplyFits(s)
    ensures FinishAllocation(s, id, value).Ok? <==>
      s.closeRequested || (s.activeCycle == Allocating && s.activeTransferId == id)
  {
    hide SideInv;
    hide Held;
  }

  lemma CloseAcceptedIff(s: State, id: TransferId, credited: U128)
    requires Inv(s) && SupplyFits(s)
    ensures CloseAllocation(s, id, credited).Ok? <==>
      && s.activeTransferId == id && s.closeRequested && credited <= s.activeAmount
      && s.cumulativeImpairment + (s.activeAmount - credited) < LIMIT128
  {
    hide SideInv;
    hide Held;
  }

  lemma RecoveryAcceptedIff(s: State, id: TransferId, credited: U128)
    requires Inv(s) && SupplyFits(s)
    ensures FinishRecovery(s, id, credited).Ok? <==>
      && s.activeCycle == Recovering && s.activeTransferId == id && credited <= s.impairedTransport
  {
    hide SideInv;
    hide Held;
  }

  lemma NoticeAcceptedIff(s: State, id: TransferId, principal: U128, actual: U128, loss: U128)
    requires Inv(s) && SupplyFits(s)
    ensures AcceptNotice(s, id, principal, actual, loss).Ok? <==>
      && s.activeCycle == Recalling && s.activeTransferId == id
      && principal <= s.activeAmount && actual + loss == principal
      && s.recallBaselineLoss + loss < LIMIT128
  {
    hide SideInv;
    hide Held;
  }
}
