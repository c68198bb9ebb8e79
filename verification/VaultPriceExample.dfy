/**
 * A run in which a finalized price falls although nothing was lost, recognized or impaired: a report
 * writes the remote value down with no new loss, and the next epoch is settled at that value.
 */
module VaultPriceExample {
  import opened Results
  import opened Words
  import opened Pricing
  import opened VaultState
  import opened VaultSpec
  import opened VaultInvariant
  import opened VaultPreservation
  import opened VaultRefusals
  import opened VaultPrice
  import opened VaultTransfers

  const CONFIG := Config(1, 6, 6, 1, 1, 1)

  const EXAMPLE := Genesis(CONFIG, Authority(1, 2), [(7, 1000)], 0, 0)

  const FIRST_EPOCH: seq<Operation> := [RequestDeposit(7, 1000), CutoffEpoch(1), FinalizeEpoch]

  const WRITE_DOWN: seq<Operation> := [
    OpenNextEpoch(1), BeginAllocate(1, 5, 1000), CompleteAllocation(5, 1000), ApplyRemoteValuation(0, 0),
    CutoffEpoch(2), LockRemoteValuation, FinalizeEpoch]

  lemma FinalizeFrom(s: State, quoted: EpochTerms)
    requires Inv(s) && s.mode == Active && s.epoch.Some? && s.epoch.value.phase == CutOff
    requires Quote(s, s.epoch.value) == Ok(quoted) && Settle(s, quoted).Ok? && s.epoch.value.id + 1 < LIMIT64
    ensures quoted.Basis().Sound() && MeasureDust(s, quoted).Ok?
    ensures var terms := MeasureDust(s, quoted).value;
      && terms.Basis() == quoted.Basis()
      && Next(s, FinalizeEpoch) == Settle(s, quoted).value.(
           epochs := s.epochs[s.epoch.value.id := Finalized(terms)],
           lastCutoffAt := s.epoch.value.cutoffAt, nextEpochId := s.epoch.value.id + 1, epoch := None)
  {
    hide SideInv;
    hide Held;
    hide Quote;
    hide Settle;
    hide MeasureDust;
    hide Pow10;
    DustIsMeasurable(s, s.epoch.value);
    DustMeasured(s, quoted, Deposits);
    assert s.epoch.value.id !in s.epochs;
  }

  const FRESH := State(
    CONFIG, Authority(1, 2), Active, Some(FreshEpoch(CONFIG, 0, 0, 1, 1)), 1, 0,
    map[], map[7 := Account(1000, 0)], map[], map[], EMPTY_BUCKETS,
    0, 0, 0, 0, 1000, 0, 0, 0, 0, 0, 0, 0, NoCycle, 0, 0, false, 0, 0, 0, {}, map[])

  const REQUESTED := FRESH.(
    accounts := map[7 := Account(0, 0)],
    depositRequests := map[RequestKey(0, 7) := Request(1000, 0, false, false)],
    buckets := EMPTY_BUCKETS.(pendingDepositEscrow := 1000),
    epoch := Some(FreshEpoch(CONFIG, 0, 0, 1, 1).(pendingDepositAssets := 1000)))

  const CLOSED_FOR_REQUESTS := REQUESTED.(
    epoch := Some(FreshEpoch(CONFIG, 0, 0, 1, 1).(pendingDepositAssets := 1000, phase := CutOff)))

  lemma FreshIsInitial()
    ensures Initial(EXAMPLE) == Ok(FRESH)
  {
    var book := Ledger(map[], 0);
    assert EXAMPLE.accounts[1..] == [];
    assert Enrol(Ledger(map[7 := Account(1000, 0)], 1000), []) == Ok(Ledger(map[7 := Account(1000, 0)], 1000));
    assert Enrol(book, EXAMPLE.accounts) == Ok(Ledger(map[7 := Account(1000, 0)], 1000));
    assert Pow10(0) == 1;
  }

  lemma DepositIsRequested(s: State)
    requires s == FRESH
    ensures Next(s, RequestDeposit(7, 1000)) == REQUESTED
  {
    var t := MakeRequest(s, Deposits, 7, 1000).value;
    assert t.accounts == map[7 := Account(0, 0)];
    assert t.depositRequests == map[RequestKey(0, 7) := Request(1000, 0, false, false)];
    assert Step(s, RequestDeposit(7, 1000)) == Ok(t);
  }

  lemma RequestsAreCutOff(s: State)
    requires s == REQUESTED
    ensures Next(s, CutoffEpoch(1)) == CLOSED_FOR_REQUESTS
  {
    assert Step(s, CutoffEpoch(1)) == Cutoff(s, 1);
  }

  lemma ConversionAtOne(amount: U128)
    ensures AssetsToShares(amount, PricingBasis(0, 0, 1, 1)) == Ok(amount)
    ensures SharesToAssets(0, PricingBasis(0, 0, 1, 1)) == Ok(0)
  {
    assert Times(amount, 1) == amount && Times(0, 1) == 0;
  }

  /** A settlement with no redemptions at price one mints one share per asset. */
  lemma QuoteAtOne(s: State, epoch: Epoch)
    requires !s.HasRemoteExposure() && s.ManagedBacking() == 0 && s.totalShareSupply == 0
    requires epoch.virtualAssets == 1 && epoch.virtualShares == 1 && epoch.pendingRedeemShares == 0
    ensures Quote(s, epoch) == Ok(EpochTerms(
      epoch.id, epoch.configVersion, epoch.cutoffAt, 0, 0, 1, 1,
      epoch.pendingDepositAssets, epoch.pendingDepositAssets, 0, 0, 0, 0))
  {
    hide AssetsToShares;
    hide SharesToAssets;
    assert SettlementBasis(s, epoch) == Ok(PricingBasis(0, 0, 1, 1));
    ConversionAtOne(epoch.pendingDepositAssets);
  }

  /** The example vault after its first epoch: one deposit of 1000, settled one to one. */
  ghost predicate FirstEpochSettled(s: State) {
    && s.config == CONFIG && s.authority == Authority(1, 2) && s.mode == Active
    && s.epoch == None && s.nextEpochId == 1 && s.lastCutoffAt == 1
    && s.epochs.Keys == {0} && s.epochs[0].Finalized? && s.epochs[0].terms.Basis() == PricingBasis(0, 0, 1, 1)
    && s.totalShareSupply == 1000
    && s.buckets.idleBacking == 1000 && s.buckets.outboundInTransit == 0
    && s.buckets.acceptedRemoteValue == 0 && s.buckets.inboundInTransit == 0
    && s.remotePrincipalCap == 0 && s.pendingRecallPrincipal == 0
    && s.activeCycle == NoCycle && !s.closeRequested && s.usedTransferIds == {} && s.epochValuationLocked == map[]
    && s.recognizedLoss == 0 && s.inboundCumulativeLoss == 0 && s.cumulativeImpairment == 0
    && s.initialAssetSupply == 1000 && s.externalInflow == 0
    && s.claimableDepositShares == 1000 && s.buckets.claimReserve == 0 && s.burnedRedemptionShares == 0
    && s.buckets.pendingDepositEscrow == 0 && s.escrowedRedeemShares == 0
  }

  /** The example vault with its one request locked in. */
  ghost predicate ReadyToSettle(s: State) {
    && s.config == CONFIG && s.authority == Authority(1, 2) && s.mode == Active
    && s.epoch == Some(FreshEpoch(CONFIG, 0, 0, 1, 1).(pendingDepositAssets := 1000, phase := CutOff))
    && s.epochs == map[] && s.buckets == EMPTY_BUCKETS.(pendingDepositEscrow := 1000)
    && s.totalShareSupply == 0 && s.claimableDepositShares == 0 && s.escrowedRedeemShares == 0
    && s.burnedRedemptionShares == 0
    && s.remotePrincipalCap == 0 && s.pendingRecallPrincipal == 0
    && s.activeCycle == NoCycle && !s.closeRequested && s.usedTransferIds == {} && s.epochValuationLocked == map[]
    && s.recognizedLoss == 0 && s.inboundCumulativeLoss == 0 && s.cumulativeImpairment == 0
    && s.initialAssetSupply == 1000 && s.externalInflow == 0
  }

  lemma SettledState(s: State, terms: EpochTerms, t: State)
    requires ReadyToSettle(s) && terms.Basis() == PricingBasis(0, 0, 1, 1)
    requires t == s.(
      buckets := EMPTY_BUCKETS.(idleBacking := 1000), totalShareSupply := 1000, claimableDepositShares := 1000,
      epochs := map[0 := Finalized(terms)], lastCutoffAt := 1, nextEpochId := 1, epoch := None)
    ensures FirstEpochSettled(t)
  {
  }

  const FIRST_QUOTE := EpochTerms(0, 1, 1, 0, 0, 1, 1, 1000, 1000, 0, 0, 0, 0)

  lemma FirstEpochMoves(s: State)
    requires ReadyToSettle(s)
    ensures Quote(s, s.epoch.value) == Ok(FIRST_QUOTE)
    ensures Settle(s, FIRST_QUOTE) == Ok(s.(
      buckets := EMPTY_BUCKETS.(idleBacking := 1000), totalShareSupply := 1000, claimableDepositShares := 1000))
  {
    hide Quote;
    hide Settle;
    QuoteAtOne(s, s.epoch.value);
    DepositSettles(s, FIRST_QUOTE);
  }

  lemma FirstEpochSettles(s: State)
    requires ReadyToSettle(s) && Inv(s)
    ensures FirstEpochSettled(Next(s, FinalizeEpoch))
  {
    hide Inv;
    hide Quote;
    hide Settle;
    hide MeasureDust;
    hide Next;
    hide FirstEpochSettled;
    FirstEpochMoves(s);
    FinalizeFrom(s, FIRST_QUOTE);
    var terms := MeasureDust(s, FIRST_QUOTE).value;
    assert s.epochs[0 := Finalized(terms)] == map[0 := Finalized(terms)];
    SettledState(s, terms, Next(s, FinalizeEpoch));
  }

  /** A pure deposit settlement moves its assets from escrow to backing and its shares to the claims. */
  lemma DepositSettles(s: State, terms: EpochTerms)
    requires terms.redeemShares == 0 && terms.redeemAssets == 0
    requires s.buckets.idleBacking + terms.depositAssets < LIMIT128
    requires terms.depositAssets <= s.buckets.pendingDepositEscrow
    requires s.totalShareSupply + terms.mintedShares < LIMIT128
    requires s.claimableDepositShares + terms.mintedShares < LIMIT128
    ensures Settle(s, terms) == Ok(s.(
      buckets := s.buckets.(
        idleBacking := s.buckets.idleBacking + terms.depositAssets,
        pendingDepositEscrow := s.buckets.pendingDepositEscrow - terms.depositAssets),
      totalShareSupply := s.totalShareSupply + terms.mintedShares,
      claimableDepositShares := s.claimableDepositShares + terms.mintedShares))
  {
  }

  lemma ThreeSteps(s: State, s1: State, s2: State, s3: State)
    requires Next(s, RequestDeposit(7, 1000)) == s1 && Next(s1, CutoffEpoch(1)) == s2
    requires Next(s2, FinalizeEpoch) == s3
    ensures Run(s, FIRST_EPOCH[..2]) == s2 && Run(s, FIRST_EPOCH) == s3
  {
    hide Next;
    assert FIRST_EPOCH[..2][1..] == [CutoffEpoch(1)];
    assert FIRST_EPOCH[1..] == [CutoffEpoch(1), FinalizeEpoch];
    assert FIRST_EPOCH[1..][1..] == [FinalizeEpoch];
    assert Run(s1, [CutoffEpoch(1)]) == s2;
    assert Run(s2, [FinalizeEpoch]) == s3;
    assert Run(s1, FIRST_EPOCH[1..]) == s3;
  }

  lemma FirstEpochRuns()
    ensures Initial(EXAMPLE).Ok?
    ensures var s := Run(Initial(EXAMPLE).value, FIRST_EPOCH); Inv(s) && FirstEpochSettled(s)
  {
    hide Inv;
    hide Next;
    hide Run;
    hide Initial;
    hide FirstEpochSettled;
    FreshIsInitial();
    GenesisEstablishes(EXAMPLE);
    DepositIsRequested(FRESH);
    RequestsAreCutOff(REQUESTED);
    ThreeSteps(FRESH, REQUESTED, CLOSED_FOR_REQUESTS, Next(CLOSED_FOR_REQUESTS, FinalizeEpoch));
    RunKeeps(FRESH, FIRST_EPOCH[..2]);
    RunKeeps(FRESH, FIRST_EPOCH);
    FirstEpochSettles(CLOSED_FOR_REQUESTS);
  }

  /** The example vault once the report wrote the remote value down to nothing and the epoch was cut off. */
  ghost predicate WrittenDown(s: State) {
    && s.config == CONFIG && s.mode == Active
    && s.epoch == Some(FreshEpoch(CONFIG, 1, 1, 2, 1).(phase := CutOff))
    && s.epochs.Keys == {0} && s.epochs[0].Finalized? && s.epochs[0].terms.Basis() == PricingBasis(0, 0, 1, 1)
    && s.totalShareSupply == 1000
    && s.buckets.idleBacking == 0 && s.buckets.outboundInTransit == 0
    && s.buckets.acceptedRemoteValue == 0 && s.buckets.inboundInTransit == 0
    && s.remotePrincipalCap == 1000 && s.epochValuationLocked == map[1 := 0]
    && s.recognizedLoss == 0 && s.inboundCumulativeLoss == 0 && s.cumulativeImpairment == 0
    && s.initialAssetSupply == 1000 && s.externalInflow == 0
    && s.claimableDepositShares == 1000 && s.buckets.claimReserve == 0 && s.burnedRedemptionShares == 0
    && s.buckets.pendingDepositEscrow == 0 && s.escrowedRedeemShares == 0
  }

  lemma AllocationStarts(s: State)
    requires FirstEpochSettled(s)
    ensures var started := s.(epoch := Some(FreshEpoch(CONFIG, 1, 1, 2, 1)));
      var sent := started.(
        buckets := s.buckets.(idleBacking := 0, outboundInTransit := 1000), usedTransferIds := {5},
        activeCycle := Allocating, activeTransferId := 5, activeAmount := 1000);
      Next(s, OpenNextEpoch(1)) == started && Next(started, BeginAllocate(1, 5, 1000)) == sent
  {
    hide MakeRequest;
    hide CancelRequest;
    hide Claim;
    hide ClaimRefund;
    hide Finalize;
    hide Cutoff;
    hide Abort;
    hide OpenNext;
    hide PauseVault;
    hide UnpauseVault;
    hide FreezeVault;
    hide StartAllocation;
    hide FinishAllocation;
    hide StartRecall;
    hide AcceptNotice;
    hide Observe;
    hide Revalue;
    hide LockValuation;
    hide AskClose;
    hide CloseAllocation;
    hide StartRecovery;
    hide FinishRecovery;
    SecondEpochOpens(s);
    AssetsAreSent(s.(epoch := Some(FreshEpoch(CONFIG, 1, 1, 2, 1))));
  }

  lemma SecondEpochOpens(s: State)
    requires FirstEpochSettled(s)
    ensures OpenNext(s, 1) == Ok(s.(epoch := Some(FreshEpoch(CONFIG, 1, 1, 2, 1))))
  {
    assert Pow10(0) == 1;
  }

  lemma AssetsAreSent(started: State)
    requires FirstEpochSettled(started.(epoch := None))
    requires started.epoch == Some(FreshEpoch(CONFIG, 1, 1, 2, 1))
    ensures StartAllocation(started, 1, 5, 1000) == Ok(started.(
      buckets := started.buckets.(idleBacking := 0, outboundInTransit := 1000), usedTransferIds := {5},
      activeCycle := Allocating, activeTransferId := 5, activeAmount := 1000))
  {
    assert started.usedTransferIds + {5} == {5};
  }

  lemma ValueIsWrittenDown(s: State)
    requires FirstEpochSettled(s)
    ensures WrittenDown(Run(s, WRITE_DOWN[..6]))
  {
    hide MakeRequest;
    hide CancelRequest;
    hide Claim;
    hide ClaimRefund;
    hide Finalize;
    hide Abort;
    hide OpenNext;
    hide PauseVault;
    hide UnpauseVault;
    hide FreezeVault;
    hide StartAllocation;
    hide StartRecall;
    hide AcceptNotice;
    hide Observe;
    hide AskClose;
    hide CloseAllocation;
    hide StartRecovery;
    hide FinishRecovery;
    AllocationStarts(s);
    var started := s.(epoch := Some(FreshEpoch(CONFIG, 1, 1, 2, 1)));
    var sent := Next(started, BeginAllocate(1, 5, 1000));
    var held := Cleared(sent.(
      buckets := sent.buckets.(outboundInTransit := 0, acceptedRemoteValue := 1000), remotePrincipalCap := 1000));
    assert Step(sent, CompleteAllocation(5, 1000)) == Ok(held);
    var written := held.(buckets := held.buckets.(acceptedRemoteValue := 0));
    assert Step(held, ApplyRemoteValuation(0, 0)) == Ok(written);
    var cut := written.(epoch := Some(FreshEpoch(CONFIG, 1, 1, 2, 1).(phase := CutOff)));
    assert Step(written, CutoffEpoch(2)) == Ok(cut);
    var locked := cut.(epochValuationLocked := map[1 := 0]);
    assert Step(cut, LockRemoteValuation) == Ok(locked);
    SixSteps(s, started, sent, held, written, cut, locked);
  }

  lemma SixSteps(s: State, s1: State, s2: State, s3: State, s4: State, s5: State, s6: State)
    requires Next(s, OpenNextEpoch(1)) == s1 && Next(s1, BeginAllocate(1, 5, 1000)) == s2
    requires Next(s2, CompleteAllocation(5, 1000)) == s3 && Next(s3, ApplyRemoteValuation(0, 0)) == s4
    requires Next(s4, CutoffEpoch(2)) == s5 && Next(s5, LockRemoteValuation) == s6
    ensures Run(s, WRITE_DOWN[..6]) == s6
  {
    hide Next;
    var ops := WRITE_DOWN[..6];
    assert Run(s6, []) == s6;
    assert ops[5..] == [LockRemoteValuation] && ops[5..][1..] == [];
    assert Run(s5, ops[5..]) == s6;
    assert ops[4..][1..] == ops[5..] && ops[3..][1..] == ops[4..];
    assert ops[2..][1..] == ops[3..] && ops[1..][1..] == ops[2..];
    assert Run(s4, ops[4..]) == s6;
    assert Run(s3, ops[3..]) == s6;
    assert Run(s2, ops[2..]) == s6;
    assert Run(s1, ops[1..]) == s6;
  }

  lemma ConversionOfNothing(basis: PricingBasis)
    requires basis.Sound()
    ensures AssetsToShares(0, basis) == Ok(0) && SharesToAssets(0, basis) == Ok(0)
  {
    hide Floor;
    assert Times(0, basis.Shares()) == 0 && Times(0, basis.Assets()) == 0;
    FloorIsGreatest(0, basis.Assets(), 1);
    FloorIsGreatest(0, basis.Shares(), 1);
  }

  /** A settlement without requests records its basis and nothing else. */
  lemma EmptyQuote(s: State, epoch: Epoch)
    requires s.HasRemoteExposure() && epoch.id in s.epochValuationLocked
    requires epoch.virtualAssets == 1 && epoch.virtualShares == 1
    requires s.epochValuationLocked[epoch.id] + 1 < LIMIT128 && s.totalShareSupply + 1 < LIMIT128
    requires epoch.pendingDepositAssets == 0 && epoch.pendingRedeemShares == 0
    ensures Quote(s, epoch) == Ok(EpochTerms(
      epoch.id, epoch.configVersion, epoch.cutoffAt, s.epochValuationLocked[epoch.id], s.totalShareSupply, 1, 1,
      0, 0, 0, 0, 0, 0))
  {
    hide AssetsToShares;
    hide SharesToAssets;
    ConversionOfNothing(SettlementBasis(s, epoch).value);
  }

  /** Both epochs of the example are settled, the second at a backing of nothing. */
  ghost predicate SecondEpochSettled(s: State, t: State) {
    && t.epochs.Keys == {0, 1} && 0 in s.epochs && t.epochs[0] == s.epochs[0]
    && t.epochs[1].Finalized? && t.epochs[1].terms.Basis() == PricingBasis(0, 1000, 1, 1)
    && t.recognizedLoss == 0 && t.inboundCumulativeLoss == 0 && t.cumulativeImpairment == 0
    && SupplyFits(t)
  }

  lemma SettledAgain(s: State, terms: EpochTerms, t: State)
    requires WrittenDown(s) && terms.Basis() == PricingBasis(0, 1000, 1, 1)
    requires t == s.(epochs := s.epochs[1 := Finalized(terms)], lastCutoffAt := 2, nextEpochId := 2, epoch := None)
    ensures SecondEpochSettled(s, t)
  {
    assert t.epochs.Keys == s.epochs.Keys + {1};
  }

  const SECOND_QUOTE := EpochTerms(1, 1, 2, 0, 1000, 1, 1, 0, 0, 0, 0, 0, 0)

  lemma SecondEpochMoves(s: State)
    requires WrittenDown(s)
    ensures Quote(s, s.epoch.value) == Ok(SECOND_QUOTE) && Settle(s, SECOND_QUOTE) == Ok(s)
  {
    hide Quote;
    hide Settle;
    EmptyQuote(s, s.epoch.value);
    DepositSettles(s, SECOND_QUOTE);
  }

  lemma SecondEpochSettles(s: State)
    requires WrittenDown(s) && Inv(s)
    ensures SecondEpochSettled(s, Next(s, FinalizeEpoch))
  {
    hide Inv;
    hide Quote;
    hide Settle;
    hide MeasureDust;
    hide Next;
    hide SecondEpochSettled;
    SecondEpochMoves(s);
    FinalizeFrom(s, SECOND_QUOTE);
    SettledAgain(s, MeasureDust(s, SECOND_QUOTE).value, Next(s, FinalizeEpoch));
  }

  /**
   * The checker's promise that prices never fall while nothing is lost or impaired does not hold for
   * every run: here it fails with every loss and impairment counter at zero.
   */
  lemma PriceCanFallWithoutLoss()
    ensures Initial(EXAMPLE).Ok?
    ensures var t := Run(Initial(EXAMPLE).value, FIRST_EPOCH + WRITE_DOWN);
      && t.recognizedLoss == 0 && t.inboundCumulativeLoss == 0 && t.cumulativeImpairment == 0
      && SupplyFits(t)
      && !PricesOrdered(t.epochs)
  {
    hide Inv;
    hide Next;
    hide Initial;
    hide FirstEpochSettled;
    hide WrittenDown;
    FirstEpochRuns();
    var g := Initial(EXAMPLE).value;
    var s := Run(g, FIRST_EPOCH);
    ValueIsWrittenDown(s);
    RunKeeps(s, WRITE_DOWN[..6]);
    var w := Run(s, WRITE_DOWN[..6]);
    SecondEpochSettles(w);
    RunConcat(g, FIRST_EPOCH, WRITE_DOWN);
    RunConcat(s, WRITE_DOWN[..6], [FinalizeEpoch]);
    assert WRITE_DOWN == WRITE_DOWN[..6] + [FinalizeEpoch];
    var t := Next(w, FinalizeEpoch);
    assert Run(w, [FinalizeEpoch]) == t;
    FirstEpochPrice(s, w, t);
  }

  lemma FirstEpochPrice(s: State, w: State, t: State)
    requires WrittenDown(w) && 0 in t.epochs && t.epochs[0] == w.epochs[0]
    requires 1 in t.epochs && t.epochs[1].Finalized? && t.epochs[1].terms.Basis() == PricingBasis(0, 1000, 1, 1)
    ensures !PricesOrdered(t.epochs)
  {
    assert !PriceAtMost(t.epochs[0].terms.Basis(), t.epochs[1].terms.Basis());
  }
}
