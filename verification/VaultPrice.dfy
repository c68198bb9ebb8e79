/** When the finalized share price can fall, and that it cannot otherwise. */
module VaultPrice {
  import opened Words
  import opened Amounts
  import opened Pricing
  import opened VaultState
  import opened VaultSpec
  import opened VaultInvariant
  import opened VaultFrames
  import opened VaultPreservation

  /** Later epochs were never settled at a lower price than earlier ones. */
  ghost predicate PricesOrdered(epochs: Outcomes) {
    forall i, j :: i in epochs && j in epochs && epochs[i].Finalized? && epochs[j].Finalized? && i < j ==>
      PriceAtMost(epochs[i].terms.Basis(), epochs[j].terms.Basis())
  }

  /** No settled price exceeds that of `assets` plus the virtual asset over `shares`. */
  ghost predicate PricesBelow(epochs: Outcomes, assets: nat, shares: nat) {
    forall i :: i in epochs && epochs[i].Finalized? ==>
      RatioAtMost(epochs[i].terms.Basis().Assets(), epochs[i].terms.Basis().Shares(), assets + 1, shares)
  }

  /** The share side of the next settlement. */
  ghost function ShareSide(s: State): nat
    requires s.config.Valid()
  {
    s.totalShareSupply + Offset(s.config)
  }

  /** Settled prices are ordered, and neither the current backing nor a locked one is priced below them. */
  ghost predicate PriceInv(s: State)
    requires s.config.Valid()
  {
    && PricesOrdered(s.epochs)
    && PricesBelow(s.epochs, s.buckets.Managed(), ShareSide(s))
    && (s.epoch.Some? && s.epoch.value.id in s.epochValuationLocked ==>
          && s.epochValuationLocked[s.epoch.value.id] <= s.buckets.Managed()
          && PricesBelow(s.epochs, s.epochValuationLocked[s.epoch.value.id], ShareSide(s)))
  }

  /** The caller-visible condition under which an accepted operation lowers the backing. */
  predicate LowersBacking(s: State, op: Operation) {
    match op
    case CompleteAllocation(_, value) =>
      !s.closeRequested
      && Min(value, s.remotePrincipalCap + s.activeAmount) < s.buckets.acceptedRemoteValue + s.activeAmount
    case AcceptRecallSent(_, principal, actual, _) =>
      var value := Min(s.recallBaselineValue, s.remotePrincipalCap);
      value - Min(value, principal) + actual < s.buckets.acceptedRemoteValue
    case ApplyRemoteValuation(value, loss) =>
      && !s.closeRequested && s.inboundCumulativeLoss + loss < LIMIT128
      && var lossSinceStart := s.inboundCumulativeLoss + loss - s.recallBaselineLoss;
      && Min(if s.activeCycle == Recalling then Max(s.recallBaselineValue - lossSinceStart, 0) else value,
             s.remotePrincipalCap) < s.buckets.acceptedRemoteValue
    case SettleClose(_, credited) => credited < s.activeAmount
    case _ => false
  }

  lemma RequestsAndPayoutsKeepBacking(s: State, op: Operation)
    requires Step(s, op).Ok? && IsHolders(op)
    ensures Step(s, op).value.buckets.Managed() == s.buckets.Managed()
  {
    hide Step;
    HolderFrame(s, op);
  }

  lemma CompletionMovesBacking(s: State, id: TransferId, value: U128)
    requires RemoteConsistent(s) && FinishAllocation(s, id, value).Ok?
    ensures FinishAllocation(s, id, value).value.buckets.Managed() < s.buckets.Managed()
       <==> LowersBacking(s, CompleteAllocation(id, value))
  {
  }

  lemma NoticeMovesBacking(s: State, id: TransferId, principal: U128, actual: U128, loss: U128)
    requires RemoteConsistent(s) && AcceptNotice(s, id, principal, actual, loss).Ok?
    ensures AcceptNotice(s, id, principal, actual, loss).value.buckets.Managed() < s.buckets.Managed()
       <==> LowersBacking(s, AcceptRecallSent(id, principal, actual, loss))
  {
  }

  lemma ReportMovesBacking(s: State, value: U128, loss: U128)
    requires RemoteConsistent(s) && Revalue(s, value, loss).Ok?
    ensures Revalue(s, value, loss).value.buckets.Managed() < s.buckets.Managed()
       <==> LowersBacking(s, ApplyRemoteValuation(value, loss))
  {
  }

  lemma CloseMovesBacking(s: State, id: TransferId, credited: U128)
    requires RemoteConsistent(s) && CloseAllocation(s, id, credited).Ok?
    ensures CloseAllocation(s, id, credited).value.buckets.Managed() < s.buckets.Managed()
       <==> LowersBacking(s, SettleClose(id, credited))
  {
  }

  predicate CanLower(op: Operation) {
    op.CompleteAllocation? || op.AcceptRecallSent? || op.ApplyRemoteValuation? || op.SettleClose?
  }

  lemma SettlementsMoveBacking(s: State, op: Operation)
    requires RemoteConsistent(s) && Step(s, op).Ok? && CanLower(op)
    ensures Step(s, op).value.buckets.Managed() < s.buckets.Managed() <==> LowersBacking(s, op)
  {
    hide MakeRequest;
    hide CancelRequest;
    hide Claim;
    hide ClaimRefund;
    hide Finalize;
    hide Cutoff;
    hide Abort;
    hide OpenNext;
    hide PauseVault;
    hide UnpauseVault;
    hide FreezeVault;
    hide StartAllocation;
    hide FinishAllocation;
    hide StartRecall;
    hide AcceptNotice;
    hide Observe;
    hide Revalue;
    hide LockValuation;
    hide AskClose;
    hide CloseAllocation;
    hide StartRecovery;
    hide FinishRecovery;
    hide LowersBacking;
    match op
    case CompleteAllocation(id, value) => CompletionMovesBacking(s, id, value);
    case AcceptRecallSent(id, principal, actual, loss) => NoticeMovesBacking(s, id, principal, actual, loss);
    case ApplyRemoteValuation(value, loss) => ReportMovesBacking(s, value, loss);
    case SettleClose(id, credited) => CloseMovesBacking(s, id, credited);
  }

  lemma StartsKeepBacking(s: State, op: Operation)
    requires Step(s, op).Ok? && !IsLocal(op) && !CanLower(op)
    ensures s.buckets.Managed() <= Step(s, op).value.buckets.Managed()
  {
    hide MakeRequest;
    hide CancelRequest;
    hide Claim;
    hide ClaimRefund;
    hide Finalize;
    hide Cutoff;
    hide Abort;
    hide OpenNext;
    hide PauseVault;
    hide UnpauseVault;
    hide FreezeVault;
    hide FinishAllocation;
    hide AcceptNotice;
    hide Revalue;
    hide CloseAllocation;
  }

  /** Apart from a settlement, an accepted operation lowers the backing exactly when its guard says so. */
  lemma BackingFallsIff(s: State, op: Operation)
    requires RemoteConsistent(s) && Step(s, op).Ok? && !op.FinalizeEpoch?
    ensures Step(s, op).value.buckets.Managed() < s.buckets.Managed() <==> LowersBacking(s, op)
  {
    hide Step;
    hide RemoteConsistent;
    if CanLower(op) {
      SettlementsMoveBacking(s, op);
    } else if IsHolders(op) {
      RequestsAndPayoutsKeepBacking(s, op);
    } else if IsAdmin(op) {
      AdminMoves(s, op);
    } else {
      StartsKeepBacking(s, op);
    }
  }

  lemma BackingIsExact(s: State)
    requires Inv(s) && SupplyFits(s)
    ensures s.ManagedBacking() == s.buckets.Managed()
  {
    hide SideInv;
    hide Held;
  }

  lemma PricesBelowGrows(epochs: Outcomes, assets: nat, more: nat, shares: nat)
    requires PricesBelow(epochs, assets, shares) && assets <= more
    ensures PricesBelow(epochs, more, shares)
  {
    hide RatioAtMost;
    forall i | i in epochs && epochs[i].Finalized?
      ensures RatioAtMost(epochs[i].terms.Basis().Assets(), epochs[i].terms.Basis().Shares(), more + 1, shares)
    {
      RatioGrows(epochs[i].terms.Basis().Assets(), epochs[i].terms.Basis().Shares(), assets + 1, more + 1, shares);
    }
  }

  /** The price books as one operation leaves them: outcomes, supply, the epoch slot and its lock. */
  predicate PriceFrame(s: State, t: State) {
    && t.config == s.config && t.totalShareSupply == s.totalShareSupply
    && t.epochs == s.epochs && t.epochValuationLocked == s.epochValuationLocked
    && t.epoch.Some? == s.epoch.Some?
    && (s.epoch.Some? ==> t.epoch.value.id == s.epoch.value.id)
  }

  predicate TouchesSlot(op: Operation) {
    op.FinalizeEpoch? || op.AbortEpoch? || op.OpenNextEpoch? || op.LockRemoteValuation?
  }

  lemma RequestsAndPayoutsFrame(s: State, op: Operation)
    requires Step(s, op).Ok? && IsHolders(op)
    ensures PriceFrame(s, Step(s, op).value)
  {
    hide Step;
    HolderFrame(s, op);
  }

  lemma OtherOperationsFrame(s: State, op: Operation)
    requires Step(s, op).Ok? && !TouchesSlot(op) && !IsHolders(op)
    ensures PriceFrame(s, Step(s, op).value)
  {
    hide Step;
    if IsLocal(op) {
      AdminMoves(s, op);
      NotAborted(s, op);
    } else {
      RemoteKeepsBooks(s, op);
    }
  }

  lemma NotAborted(s: State, op: Operation)
    requires IsAdmin(op) && !TouchesSlot(op) && Step(s, op).Ok?
    ensures KeepsEpoch(s, Step(s, op).value) && Step(s, op).value.epoch.Some? == s.epoch.Some?
  {
    hide MakeRequest;
    hide CancelRequest;
    hide Claim;
    hide ClaimRefund;
    hide Finalize;
    hide Abort;
    hide OpenNext;
    hide StartAllocation;
    hide FinishAllocation;
    hide StartRecall;
    hide AcceptNotice;
    hide Observe;
    hide Revalue;
    hide LockValuation;
    hide AskClose;
    hide CloseAllocation;
    hide StartRecovery;
    hide FinishRecovery;
  }

  lemma AbortKeepsPrices(epochs: Outcomes, id: EpochId, refunds: AbortedTerms, assets: nat, shares: nat)
    requires id !in epochs && PricesOrdered(epochs) && PricesBelow(epochs, assets, shares)
    ensures PricesOrdered(epochs[id := Aborted(refunds)])
    ensures PricesBelow(epochs[id := Aborted(refunds)], assets, shares)
  {
    hide RatioAtMost;
  }

  lemma AbortStepKeepsPrices(s: State, actor: AccountId)
    requires s.config.Valid() && PriceInv(s) && Abort(s, actor).Ok?
    ensures Abort(s, actor).value.config == s.config
    ensures PriceInv(Abort(s, actor).value)
  {
    hide Pow10;
    hide PricesOrdered;
    hide PricesBelow;
    var t := Abort(s, actor).value;
    AbortKeepsPrices(s.epochs, s.epoch.value.id, t.epochs[s.epoch.value.id].refunds, t.buckets.Managed(), ShareSide(s));
  }

  lemma OpenStepKeepsPrices(s: State, now: Timestamp)
    requires EpochsOrdered(s) && PriceInv(s) && OpenNext(s, now).Ok?
    ensures OpenNext(s, now).value.config == s.config
    ensures PriceInv(OpenNext(s, now).value)
  {
    hide Pow10;
    hide PricesOrdered;
    hide PricesBelow;
  }

  lemma LockStepKeepsPrices(s: State)
    requires s.config.Valid() && PriceInv(s) && LockValuation(s).Ok? && s.ManagedBacking() == s.buckets.Managed()
    ensures LockValuation(s).value.config == s.config
    ensures PriceInv(LockValuation(s).value)
  {
    hide Pow10;
    hide PricesOrdered;
    hide PricesBelow;
  }

  lemma OrdinaryStepKeepsPrices(s: State, op: Operation)
    requires Inv(s) && SupplyFits(s) && PriceInv(s)
    requires Step(s, op).Ok? && !op.FinalizeEpoch? && !LowersBacking(s, op)
    ensures Step(s, op).value.config == s.config
    ensures PriceInv(Step(s, op).value)
  {
    hide MakeRequest;
    hide CancelRequest;
    hide Claim;
    hide ClaimRefund;
    hide Finalize;
    hide Cutoff;
    hide Abort;
    hide OpenNext;
    hide PauseVault;
    hide UnpauseVault;
    hide FreezeVault;
    hide StartAllocation;
    hide FinishAllocation;
    hide StartRecall;
    hide AcceptNotice;
    hide Observe;
    hide Revalue;
    hide LockValuation;
    hide AskClose;
    hide CloseAllocation;
    hide StartRecovery;
    hide FinishRecovery;
    hide Inv;
    hide PriceInv;
    hide LowersBacking;
    OrderedIn(s);
    BackingFallsIff(s, op);
    BackingIsExact(s);
    hide EpochsOrdered;
    hide RemoteConsistent;
    match op
    case AbortEpoch(actor) => AbortStepKeepsPrices(s, actor);
    case OpenNextEpoch(now) => OpenStepKeepsPrices(s, now);
    case LockRemoteValuation => LockStepKeepsPrices(s);
    case _ => FramedStepKeepsPrices(s, op);
  }

  lemma FramedStepKeepsPrices(s: State, op: Operation)
    requires s.config.Valid() && PriceInv(s)
    requires Step(s, op).Ok? && !TouchesSlot(op)
    requires s.buckets.Managed() <= Step(s, op).value.buckets.Managed()
    ensures Step(s, op).value.config == s.config
    ensures PriceInv(Step(s, op).value)
  {
    hide Pow10;
    hide PricesOrdered;
    hide PricesBelow;
    hide Step;
    if IsHolders(op) {
      RequestsAndPayoutsFrame(s, op);
    } else {
      OtherOperationsFrame(s, op);
    }
    PricesBelowGrows(s.epochs, s.buckets.Managed(), Step(s, op).value.buckets.Managed(), ShareSide(s));
  }

  // Settlements.

  ghost predicate PricedAtFloor(terms: EpochTerms, side: Side)
    requires terms.Basis().Sound()
  {
    terms.Aggregate(side) == Floor(Times(terms.Settled(side), terms.Numerator(side)), terms.Denominator(side))
  }

  /** A settlement at or below the backing keeps every later price at or above its own. */
  lemma SettlementRaises(s: State, t: State, terms: EpochTerms)
    requires s.config.Valid() && terms.virtualAssets == 1 && terms.virtualShares == Offset(s.config)
    requires terms.totalAssets <= s.buckets.Managed() && terms.totalSupply == s.totalShareSupply
    requires terms.redeemShares <= terms.totalSupply && terms.Basis().Sound()
    requires terms.redeemAssets <= s.buckets.idleBacking
    requires PricedAtFloor(terms, Deposits) && PricedAtFloor(terms, Redemptions)
    requires t.config == s.config
    requires t.buckets.Managed() == s.buckets.Managed() - terms.redeemAssets + terms.depositAssets
    requires t.totalShareSupply == s.totalShareSupply + terms.mintedShares - terms.redeemShares
    ensures RatioAtMost(terms.Basis().Assets(), terms.Basis().Shares(), t.buckets.Managed() + 1, ShareSide(t))
  {
    hide Floor;
    hide Times;
    hide RatioAtMost;
    Pow10Fits(s.config.shareDecimals - s.config.assetDecimals);
    var assets, shares := terms.Basis().Assets(), terms.Basis().Shares();
    assert terms.Aggregate(Redemptions) == terms.redeemAssets && terms.Aggregate(Deposits) == terms.mintedShares;
    SettlementNeverLowersPrice(
      assets, shares, terms.redeemShares, terms.redeemAssets, terms.depositAssets, terms.mintedShares);
    RatioGrows(
      assets, shares, assets + terms.depositAssets - terms.redeemAssets, t.buckets.Managed() + 1, ShareSide(t));
  }

  /** Appending a settlement priced above all earlier ones, and below what remains, keeps the order. */
  lemma AppendKeepsPrices(epochs: Outcomes, terms: EpochTerms, assets: nat, shares: nat)
    requires PricesOrdered(epochs) && terms.virtualAssets == 1 && terms.Basis().Sound()
    requires forall id :: id in epochs ==> id < terms.id
    requires PricesBelow(epochs, terms.totalAssets, terms.Basis().Shares())
    requires RatioAtMost(terms.Basis().Assets(), terms.Basis().Shares(), assets + 1, shares)
    ensures PricesOrdered(epochs[terms.id := Finalized(terms)])
    ensures PricesBelow(epochs[terms.id := Finalized(terms)], assets, shares)
  {
    hide RatioAtMost;
    forall i | i in epochs && epochs[i].Finalized?
      ensures PriceAtMost(epochs[i].terms.Basis(), terms.Basis())
      ensures RatioAtMost(epochs[i].terms.Basis().Assets(), epochs[i].terms.Basis().Shares(), assets + 1, shares)
    {
      assert terms.Basis().Assets() == terms.totalAssets + 1;
      RatioTransitive(epochs[i].terms.Basis().Assets(), epochs[i].terms.Basis().Shares(),
                      terms.totalAssets + 1, terms.Basis().Shares(), assets + 1, shares);
    }
  }

  lemma SettlementKeepsPrices(s: State)
    requires Inv(s) && SupplyFits(s) && PriceInv(s) && Finalize(s).Ok?
    ensures Finalize(s).value.config == s.config
    ensures PriceInv(Finalize(s).value)
  {
    hide SideInv;
    hide Held;
    hide Quote;
    hide MeasureDust;
    hide Pow10;
    hide PricesOrdered;
    hide PricesBelow;
    hide RatioAtMost;
    var t, epoch := Finalize(s).value, s.epoch.value;
    FinalizeShape(s, Deposits);
    FinalizeBounded(s);
    BackingIsExact(s);
    QuotePrices(s, epoch, Deposits);
    QuotePrices(s, epoch, Redemptions);
    DustMeasured(s, Quote(s, epoch).value, Deposits);
    DustMeasured(s, Quote(s, epoch).value, Redemptions);
    var quoted := Quote(s, epoch).value;
    var terms := MeasureDust(s, quoted).value;
    assert quoted.Basis().totalSupply == s.totalShareSupply;
    SettlementRaises(s, t, quoted);
    AppendKeepsPrices(s.epochs, terms, t.buckets.Managed(), ShareSide(t));
  }

  // Runs.

  /** No step of the run lowers the backing outside a settlement. */
  ghost predicate NeverLowers(s: State, ops: seq<Operation>)
    decreases |ops|
  {
    ops == [] ||
    (!(Step(s, ops[0]).Ok? && LowersBacking(s, ops[0])) && NeverLowers(Next(s, ops[0]), ops[1..]))
  }

  lemma ArrivalGrows(s: State, amount: U128)
    requires Observe(s, amount).Ok?
    ensures Observe(s, amount).value.externalInflow >= s.externalInflow
    ensures Observe(s, amount).value.initialAssetSupply == s.initialAssetSupply
  {
  }

  lemma AllocationsBringNothing(s: State, op: Operation)
    requires IsTransfer(op)
    ensures Next(s, op).externalInflow == s.externalInflow && Next(s, op).initialAssetSupply == s.initialAssetSupply
  {
    hide MakeRequest;
    hide CancelRequest;
    hide Claim;
    hide ClaimRefund;
    hide Finalize;
    hide OpenNext;
    hide Abort;
    hide Cutoff;
    hide PauseVault;
    hide UnpauseVault;
    hide FreezeVault;
    hide AcceptNotice;
    hide Observe;
    hide Revalue;
    hide StartRecall;
    hide LockValuation;
  }

  lemma RecallsBringNothing(s: State, op: Operation)
    requires op.BeginRecall? || op.AcceptRecallSent? || op.ApplyRemoteValuation? || op.LockRemoteValuation?
    ensures Next(s, op).externalInflow == s.externalInflow && Next(s, op).initialAssetSupply == s.initialAssetSupply
  {
    hide MakeRequest;
    hide CancelRequest;
    hide Claim;
    hide ClaimRefund;
    hide Finalize;
    hide OpenNext;
    hide Abort;
    hide Cutoff;
    hide PauseVault;
    hide UnpauseVault;
    hide FreezeVault;
    hide Observe;
    hide StartAllocation;
    hide FinishAllocation;
    hide AskClose;
    hide CloseAllocation;
    hide StartRecovery;
    hide FinishRecovery;
  }

  lemma InflowGrows(s: State, op: Operation)
    ensures Next(s, op).externalInflow >= s.externalInflow
    ensures Next(s, op).initialAssetSupply == s.initialAssetSupply
  {
    if op.ObserveInbound? {
      if Observe(s, op.amount).Ok? {
        ArrivalGrows(s, op.amount);
      }
    } else {
      hide Next;
      if IsLocal(op) {
        LocalFrame(s, op);
      } else if IsTransfer(op) {
        AllocationsBringNothing(s, op);
      } else {
        RecallsBringNothing(s, op);
      }
    }
  }

  lemma {:induction false} InflowGrowsOverRun(s: State, ops: seq<Operation>)
    ensures Run(s, ops).externalInflow >= s.externalInflow
    ensures Run(s, ops).initialAssetSupply == s.initialAssetSupply
    decreases |ops|
  {
    hide Next;
    if ops != [] {
      InflowGrows(s, ops[0]);
      InflowGrowsOverRun(Next(s, ops[0]), ops[1..]);
    }
  }

  lemma {:induction false} RunKeepsPrices(s: State, ops: seq<Operation>)
    requires Inv(s) && PriceInv(s) && SupplyFits(Run(s, ops)) && NeverLowers(s, ops)
    ensures Inv(Run(s, ops)) && PriceInv(Run(s, ops))
    decreases |ops|
  {
    hide SideInv;
    hide Step;
    hide PriceInv;
    hide LowersBacking;
    if ops != [] {
      var op := ops[0];
      InflowGrowsOverRun(s, ops);
      if Step(s, op).Ok? {
        StepKeeps(s, op);
        if op.FinalizeEpoch? {
          FinalizeIsStep(s);
          SettlementKeepsPrices(s);
        } else {
          OrdinaryStepKeepsPrices(s, op);
        }
      }
      RunKeepsPrices(Next(s, op), ops[1..]);
    }
  }

  lemma PriceInvOrders(s: State)
    requires Inv(s) && PriceInv(s)
    ensures PricesOrdered(s.epochs)
  {
  }

  lemma FinalizeIsStep(s: State)
    ensures Step(s, FinalizeEpoch) == Finalize(s)
  {
  }

  lemma GenesisPrices(g: Genesis)
    requires Initial(g).Ok?
    ensures Initial(g).value.config.Valid()
    ensures PriceInv(Initial(g).value) && BaselineAtPar(Initial(g).value)
  {
    hide Enrol;
    hide Pow10;
    hide RatioAtMost;
  }

  /**
   * In every run in which the backing only falls through settlements, finalized prices never decrease,
   * epochs priced from a locked valuation included.
   */
  lemma PricesNeverFall(g: Genesis, ops: seq<Operation>)
    requires Initial(g).Ok?
    requires SupplyFits(Run(Initial(g).value, ops)) && NeverLowers(Initial(g).value, ops)
    ensures PricesOrdered(Run(Initial(g).value, ops).epochs)
  {
    hide Inv;
    hide Initial;
    hide Run;
    hide NeverLowers;
    GenesisEstablishes(g);
    GenesisPrices(g);
    RunKeepsPrices(Initial(g).value, ops);
    RunKeeps(Initial(g).value, ops);
    PriceInvOrders(Run(Initial(g).value, ops));
  }

  /** Remote value at par, nothing lost and nothing impaired. */
  predicate AtPar(s: State) {
    && s.buckets.acceptedRemoteValue == s.remotePrincipalCap
    && s.recognizedLoss == 0 && s.inboundCumulativeLoss == 0 && s.cumulativeImpairment == 0
  }

  ghost predicate StaysAtPar(s: State, ops: seq<Operation>)
    decreases |ops|
  {
    AtPar(s) && (ops == [] || StaysAtPar(Next(s, ops[0]), ops[1..]))
  }

  lemma AtParNeverLowers(s: State, op: Operation)
    requires RemoteConsistent(s) && AtPar(s) && Step(s, op).Ok? && AtPar(Step(s, op).value)
    requires s.activeCycle == Recalling ==> s.recallBaselineValue == s.remotePrincipalCap
    ensures !LowersBacking(s, op)
  {
    hide Finalize;
  }

  /** At par, a recall began at par. */
  ghost predicate BaselineAtPar(s: State) {
    s.activeCycle == Recalling ==> s.recallBaselineValue == s.remotePrincipalCap
  }

  lemma BaselineStaysAtPar(s: State, op: Operation)
    requires RemoteConsistent(s) && AtPar(s) && BaselineAtPar(s)
    ensures BaselineAtPar(Next(s, op))
  {
    hide OpenNext;
    hide Abort;
    hide Cutoff;
    hide PauseVault;
    hide UnpauseVault;
    hide FreezeVault;
    hide MakeRequest;
    hide CancelRequest;
    hide Claim;
    hide ClaimRefund;
    hide Finalize;
    if IsLocal(op) {
      LocalFrame(s, op);
    }
  }

  lemma {:induction false} ParRunsNeverLower(s: State, ops: seq<Operation>)
    requires Inv(s) && BaselineAtPar(s) && StaysAtPar(s, ops)
    ensures NeverLowers(s, ops)
    decreases |ops|
  {
    hide SideInv;
    hide Step;
    hide LowersBacking;
    if ops != [] {
      if Step(s, ops[0]).Ok? {
        AtParNeverLowers(s, ops[0]);
        StepKeeps(s, ops[0]);
      }
      BaselineStaysAtPar(s, ops[0]);
      ParRunsNeverLower(Next(s, ops[0]), ops[1..]);
    }
  }

  /** In every run that stays at par, finalized prices never decrease. */
  lemma ParRunsKeepPrices(g: Genesis, ops: seq<Operation>)
    requires Initial(g).Ok?
    requires SupplyFits(Run(Initial(g).value, ops)) && StaysAtPar(Initial(g).value, ops)
    ensures PricesOrdered(Run(Initial(g).value, ops).epochs)
  {
    hide Inv;
    hide Initial;
    hide Run;
    hide NeverLowers;
    hide StaysAtPar;
    GenesisEstablishes(g);
    GenesisPrices(g);
    ParRunsNeverLower(Initial(g).value, ops);
    PricesNeverFall(g, ops);
  }

  // Where the price can fall.

  /** A settlement keeps finalized prices in order exactly when its basis is priced at or above all of them. */
  lemma SettlementKeepsOrderIff(s: State)
    requires Inv(s) && PricesOrdered(s.epochs) && Finalize(s).Ok?
    ensures s.epoch.Some? && SettlementBasis(s, s.epoch.value).Ok?
    ensures PricesOrdered(Finalize(s).value.epochs) <==>
      PricesBelow(s.epochs, SettlementBasis(s, s.epoch.value).value.totalAssets, ShareSide(s))
  {
    hide SideInv;
    hide Held;
    hide Quote;
    hide MeasureDust;
    hide Settle;
    hide RatioAtMost;
    hide Pow10;
    var epoch := s.epoch.value;
    FinalizeShape(s, Deposits);
    QuotePrices(s, epoch, Deposits);
    DustMeasured(s, Quote(s, epoch).value, Deposits);
    var terms := MeasureDust(s, Quote(s, epoch).value).value;
    var t := Finalize(s).value;
    assert t.epochs == s.epochs[epoch.id := Finalized(terms)];
    assert terms.Basis().Assets() == SettlementBasis(s, epoch).value.totalAssets + 1;
    assert terms.Basis().Shares() == ShareSide(s);
    if PricesOrdered(t.epochs) {
      forall i | i in s.epochs && s.epochs[i].Finalized?
        ensures RatioAtMost(s.epochs[i].terms.Basis().Assets(), s.epochs[i].terms.Basis().Shares(),
                            SettlementBasis(s, epoch).value.totalAssets + 1, ShareSide(s))
      {
        assert t.epochs[i] == s.epochs[i] && i < epoch.id && t.epochs[epoch.id].terms == terms;
        assert PriceAtMost(t.epochs[i].terms.Basis(), t.epochs[epoch.id].terms.Basis());
      }
    }
  }
}
