/** Refusals that no reachable state can produce. */
module VaultRefusals {
  import opened Results
  import opened Words
  import opened Amounts
  import opened Pricing
  import opened Sums
  import opened VaultState
  import opened VaultSpec
  import opened VaultInvariant
  import opened VaultFrames
  import opened VaultPreservation
  import opened VaultPayouts

  /** Reasons that would mean the books contradict each other. */
  predicate IsInternal(r: Rejection) {
    r == ArithmeticUnderflow || r == DivisionByZero || r == EpochAlreadyFinalized || r == InvalidConfiguration
  }

  lemma PendingCovers(b: SideBooks, side: Side, key: RequestKey)
    requires SideInv(b, side) && b.current == Some(key.epoch)
    requires key in b.book && b.book[key].IsActive()
    ensures b.book[key].amount <= b.pending <= b.escrow
  {
    hide ClaimsExplained;
    assert key in ActiveAmounts(b.book, key.epoch);
    SumBounds(ActiveAmounts(b.book, key.epoch), key);
  }

  lemma PendingWithinEscrow(b: SideBooks, side: Side)
    requires SideInv(b, side)
    ensures b.pending <= b.escrow
  {
    hide ClaimsExplained;
  }

  lemma CancelIsClean(s: State, side: Side, account: AccountId)
    requires Inv(s) && CancelRequest(s, side, account).Err?
    ensures !IsInternal(CancelRequest(s, side, account).error)
  {
    hide SideInv;
    hide AssetsConserved;
    hide SharesConserved;
    hide BurnedExplained;
    hide TermsBounded;
    hide RemoteConsistent;
    hide EpochsOrdered;
    if s.epoch.Some? {
      var key := RequestKey(s.epoch.value.id, account);
      if key in s.Requests(side) && s.Requests(side)[key].IsActive() {
        PendingCovers(Books(s, side), side, key);
      }
    }
  }

  lemma ClaimIsClean(s: State, side: Side, account: AccountId, epoch: EpochId)
    requires Inv(s) && Claim(s, side, account, epoch).Err?
    ensures !IsInternal(Claim(s, side, account, epoch).error)
  {
    hide SideInv;
    hide AssetsConserved;
    hide SharesConserved;
    hide BurnedExplained;
    hide TermsBounded;
    hide RemoteConsistent;
    hide Floor;
    hide Times;
    var p := Payout(side, RequestKey(epoch, account));
    if Payable(s, p) && !IsRefund(s, p) {
      PoolCovers(s, p);
      OwedIsFloor(s.epochs[epoch].terms, side, s.Requests(side)[p.key].amount);
    }
  }

  lemma RefundIsClean(s: State, side: Side, account: AccountId, epoch: EpochId)
    requires Inv(s) && ClaimRefund(s, side, account, epoch).Err?
    ensures !IsInternal(ClaimRefund(s, side, account, epoch).error)
  {
    hide SideInv;
    hide AssetsConserved;
    hide SharesConserved;
    hide BurnedExplained;
    hide TermsBounded;
    hide RemoteConsistent;
    var p := Payout(side, RequestKey(epoch, account));
    if Payable(s, p) && IsRefund(s, p) {
      PoolCovers(s, p);
    }
  }

  lemma BasisIsClean(s: State, epoch: Epoch)
    requires s.config.Valid() && epoch.virtualAssets == 1 && epoch.virtualShares == Offset(s.config)
    ensures SettlementBasis(s, epoch).Ok? ==>
      SettlementBasis(s, epoch).value.Assets() > 0 && SettlementBasis(s, epoch).value.Shares() > 0
    ensures SettlementBasis(s, epoch).Err? ==> SettlementBasis(s, epoch).error == RemoteValuationRequired
  {
    hide Pow10;
    Pow10Fits(s.config.shareDecimals - s.config.assetDecimals);
  }

  /** The basis of a settlement has no zero side, so a quote can only overflow. */
  lemma QuoteIsClean(s: State, epoch: Epoch)
    requires s.config.Valid() && epoch.virtualAssets == 1 && epoch.virtualShares == Offset(s.config)
    requires Quote(s, epoch).Err?
    ensures Quote(s, epoch).error == RemoteValuationRequired || Quote(s, epoch).error == ArithmeticOverflow
  {
    hide Floor;
    hide Times;
    BasisIsClean(s, epoch);
    hide SettlementBasis;
  }

  /** Entitlements never exceed what the epoch set aside, so measuring dust never underflows. */
  lemma DustIsMeasurable(s: State, epoch: Epoch)
    requires Inv(s) && s.epoch == Some(epoch) && Quote(s, epoch).Ok?
    ensures Quote(s, epoch).value.Basis().Sound()
    ensures MeasureDust(s, Quote(s, epoch).value).Ok?
  {
    hide Floor;
    hide Times;
    hide PricedEach;
    hide Quote;
    hide ClaimsExplained;
    var terms := Quote(s, epoch).value;
    QuotePrices(s, epoch, Deposits);
    QuotePrices(s, epoch, Redemptions);
    FreshTermsExplained(Books(s, Deposits), Deposits, terms);
    FreshTermsExplained(Books(s, Redemptions), Redemptions, terms);
  }

  lemma SettleIsClean(s: State, terms: EpochTerms)
    requires Settle(s, terms).Err?
    requires SharesConserved(s)
    requires terms.depositAssets <= s.buckets.pendingDepositEscrow && terms.redeemShares <= s.escrowedRedeemShares
    ensures Settle(s, terms).error == InsufficientRedemptionLiquidity || Settle(s, terms).error == ArithmeticOverflow
  {
    hide Held;
  }

  /** A settlement is refused only for the vault's mode, its epoch, a missing report, liquidity or width. */
  lemma FinalizeRefusals(s: State)
    requires Inv(s) && Finalize(s).Err?
    ensures Finalize(s).error in {
      InvalidVaultState, EpochNotOpen, EpochNotCutOff, RemoteValuationRequired,
      InsufficientRedemptionLiquidity, ArithmeticOverflow }
  {
    hide SideInv;
    hide AssetsConserved;
    hide SharesConserved;
    hide BurnedExplained;
    hide TermsBounded;
    hide RemoteConsistent;
    hide Settle;
    hide Quote;
    hide MeasureDust;
    hide Pow10;
    if s.epoch.Some? {
      var epoch := s.epoch.value;
      PendingWithinEscrow(Books(s, Deposits), Deposits);
      PendingWithinEscrow(Books(s, Redemptions), Redemptions);
      if Quote(s, epoch).Err? {
        QuoteIsClean(s, epoch);
      } else {
        DustIsMeasurable(s, epoch);
        QuotePrices(s, epoch, Deposits);
        QuotePrices(s, epoch, Redemptions);
        assert Quote(s, epoch).value.Settled(Deposits) == epoch.pendingDepositAssets;
        assert Quote(s, epoch).value.Settled(Redemptions) == epoch.pendingRedeemShares;
        if Settle(s, Quote(s, epoch).value).Err? {
          SettleIsClean(s, Quote(s, epoch).value);
        }
      }
    }
  }

  lemma FinalizeIsClean(s: State)
    requires Inv(s) && Finalize(s).Err?
    ensures !IsInternal(Finalize(s).error)
  {
    hide Inv;
    hide Finalize;
    FinalizeRefusals(s);
  }

  lemma OpenIsClean(s: State, now: Timestamp)
    requires Inv(s) && OpenNext(s, now).Err?
    ensures !IsInternal(OpenNext(s, now).error)
  {
    hide SideInv;
    hide AssetsConserved;
    hide SharesConserved;
    hide BurnedExplained;
    hide TermsBounded;
    hide RemoteConsistent;
    hide Pow10;
    Pow10Fits(s.config.shareDecimals - s.config.assetDecimals);
  }

  lemma RequestIsClean(s: State, side: Side, account: AccountId, amount: U128)
    requires MakeRequest(s, side, account, amount).Err?
    ensures !IsInternal(MakeRequest(s, side, account, amount).error)
  {
  }

  lemma AdminIsClean(s: State, op: Operation)
    requires EpochsOrdered(s) && IsAdmin(op) && !op.OpenNextEpoch? && Step(s, op).Err?
    ensures !IsInternal(Step(s, op).error)
  {
    hide MakeRequest;
    hide CancelRequest;
    hide Claim;
    hide ClaimRefund;
    hide Finalize;
    hide OpenNext;
    hide StartAllocation;
    hide FinishAllocation;
    hide StartRecall;
    hide AcceptNotice;
    hide Observe;
    hide Revalue;
    hide LockValuation;
    hide AskClose;
    hide CloseAllocation;
    hide StartRecovery;
    hide FinishRecovery;
    hide Pow10;
  }

  lemma TransferIsClean(s: State, op: Operation)
    requires RemoteConsistent(s) && IsTransfer(op) && Step(s, op).Err?
    ensures !IsInternal(Step(s, op).error)
  {
    hide MakeRequest;
    hide CancelRequest;
    hide Claim;
    hide ClaimRefund;
    hide Finalize;
    hide Cutoff;
    hide Abort;
    hide OpenNext;
    hide PauseVault;
    hide UnpauseVault;
    hide FreezeVault;
    hide StartRecall;
    hide AcceptNotice;
    hide Observe;
    hide Revalue;
    hide LockValuation;
  }

  lemma RecallIsClean(s: State, op: Operation)
    requires RemoteConsistent(s) && !IsLocal(op) && !IsTransfer(op) && Step(s, op).Err?
    ensures !IsInternal(Step(s, op).error)
  {
    hide MakeRequest;
    hide CancelRequest;
    hide Claim;
    hide ClaimRefund;
    hide Finalize;
    hide Cutoff;
    hide Abort;
    hide OpenNext;
    hide PauseVault;
    hide UnpauseVault;
    hide FreezeVault;
    hide StartAllocation;
    hide FinishAllocation;
    hide AskClose;
    hide CloseAllocation;
    hide StartRecovery;
    hide FinishRecovery;
  }

  /** In a reachable state no operation ever underflows, divides by zero or meets a settled current epoch. */
  lemma NoInternalRefusals(s: State, op: Operation)
    requires Inv(s) && Step(s, op).Err?
    ensures !IsInternal(Step(s, op).error)
  {
    hide MakeRequest;
    hide CancelRequest;
    hide Claim;
    hide ClaimRefund;
    hide Finalize;
    hide Cutoff;
    hide Abort;
    hide OpenNext;
    hide PauseVault;
    hide UnpauseVault;
    hide FreezeVault;
    hide StartAllocation;
    hide FinishAllocation;
    hide StartRecall;
    hide AcceptNotice;
    hide Observe;
    hide Revalue;
    hide LockValuation;
    hide AskClose;
    hide CloseAllocation;
    hide StartRecovery;
    hide FinishRecovery;
    hide Inv;
    hide EpochsOrdered;
    hide RemoteConsistent;
    hide IsInternal;
    OrderedIn(s);
    match op
    case RequestDeposit(account, amount) => RequestIsClean(s, Deposits, account, amount);
    case RequestRedeem(account, amount) => RequestIsClean(s, Redemptions, account, amount);
    case CancelDeposit(account) => CancelIsClean(s, Deposits, account);
    case CancelRedeem(account) => CancelIsClean(s, Redemptions, account);
    case FinalizeEpoch => FinalizeIsClean(s);
    case ClaimDeposit(account, epoch) => ClaimIsClean(s, Deposits, account, epoch);
    case ClaimRedeem(account, epoch) => ClaimIsClean(s, Redemptions, account, epoch);
    case ClaimAbortedDeposit(account, epoch) => RefundIsClean(s, Deposits, account, epoch);
    case ClaimAbortedRedeem(account, epoch) => RefundIsClean(s, Redemptions, account, epoch);
    case OpenNextEpoch(now) => OpenIsClean(s, now);
    case _ =>
      if IsAdmin(op) {
        AdminIsClean(s, op);
      } else if IsTransfer(op) {
        TransferIsClean(s, op);
      } else {
        RecallIsClean(s, op);
      }
  }
}
