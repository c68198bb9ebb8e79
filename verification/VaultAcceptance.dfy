/** Exactly when each of the 26 operations is accepted, as a condition on the state before it. */
module VaultAcceptance {
  import opened Words
  import opened Amounts
  import opened Pricing
  import opened VaultState
  import opened VaultSpec
  import opened VaultInvariant
  import opened VaultFrames
  import opened VaultPreservation
  import opened VaultPayouts
  import opened VaultTransfers
  import opened VaultSettlement
  import opened VaultRequests

  /** A key holds a request of an epoch with the given outcome that was not paid out yet. */
  predicate IsOwed(s: State, side: Side, account: AccountId, epoch: EpochId, finalized: bool) {
    && epoch in s.epochs && s.epochs[epoch].Finalized? == finalized
    && var key := RequestKey(epoch, account);
    && key in s.Requests(side) && s.Requests(side)[key].amount > 0 && !s.Requests(side)[key].claimed
  }

  /** No cycle is running, and the id was never used. */
  predicate CanStart(s: State, actor: AccountId, id: TransferId) {
    actor == s.authority.admin && s.activeCycle == NoCycle && id != 0 && id !in s.usedTransferIds
  }

  predicate CanStop(s: State, actor: AccountId) {
    actor == s.authority.admin || actor == s.authority.guardian
  }

  /** Room for an arrival: the part nobody expected goes to the pending recall, or counts as external. */
  predicate HasRoom(s: State, amount: U128) {
    var surplus := Max(amount - s.buckets.inboundInTransit, 0);
    if s.pendingRecallPrincipal > 0 then s.buckets.unattributedInbound + surplus < LIMIT128
    else s.externalInflow + surplus < LIMIT128 && s.buckets.unattributedBalance + surplus < LIMIT128
  }

  ghost predicate Acceptable(s: State, op: Operation)
    requires s.config.Valid()
  {
    match op
    case RequestDeposit(account, assets) => CanRequest(s, Deposits, account, assets)
    case RequestRedeem(account, shares) => CanRequest(s, Redemptions, account, shares)
    case CancelDeposit(account) => CanCancel(s, Deposits, account)
    case CancelRedeem(account) => CanCancel(s, Redemptions, account)
    case CutoffEpoch(now) =>
      s.mode == Active && s.epoch.Some? && s.epoch.value.phase == Open && s.epoch.value.cutoffAt <= now
    case FinalizeEpoch => CanFinalize(s)
    case AbortEpoch(actor) =>
      CanStop(s, actor) && s.mode == Frozen && s.epoch.Some? && s.epoch.value.id + 1 < LIMIT64
    case ClaimDeposit(account, epoch) => IsOwed(s, Deposits, account, epoch, true)
    case ClaimRedeem(account, epoch) => IsOwed(s, Redemptions, account, epoch, true)
    case ClaimAbortedDeposit(account, epoch) => IsOwed(s, Deposits, account, epoch, false)
    case ClaimAbortedRedeem(account, epoch) => IsOwed(s, Redemptions, account, epoch, false)
    case OpenNextEpoch(now) =>
      s.mode == Active && s.epoch.None? && s.lastCutoffAt <= now && now + s.config.epochDuration < LIMIT64
    case Pause(actor) => CanStop(s, actor) && s.mode == Active
    case Unpause(actor) => actor == s.authority.admin && s.mode == Paused
    case Freeze(actor) => CanStop(s, actor) && s.mode != Frozen
    case BeginAllocate(actor, id, amount) =>
      && CanStart(s, actor, id) && s.mode == Active && s.epoch.Some? && s.epoch.value.phase == Open
      && 0 < amount <= s.buckets.idleBacking
    case CompleteAllocation(id, _) =>
      s.closeRequested || (s.activeCycle == Allocating && s.activeTransferId == id)
    case BeginRecall(actor, id, amount) => CanStart(s, actor, id) && 0 < amount <= s.remotePrincipalCap
    case AcceptRecallSent(id, principal, actual, loss) =>
      && s.activeCycle == Recalling && s.activeTransferId == id
      && actual + loss == principal <= s.activeAmount && s.recallBaselineLoss + loss < LIMIT128
    case ObserveInbound(amount) => amount > 0 && HasRoom(s, amount)
    case ApplyRemoteValuation(_, loss) => s.inboundCumulativeLoss + loss < LIMIT128
    case LockRemoteValuation =>
      s.closeRequested
      || (s.epoch.Some? && s.epoch.value.phase == CutOff && s.epoch.value.id !in s.epochValuationLocked)
    case RequestClose(actor, id) =>
      && actor == s.authority.admin && s.activeCycle == Allocating && s.activeTransferId == id
      && !s.closeRequested
    case SettleClose(id, credited) =>
      && s.closeRequested && s.activeTransferId == id && credited <= s.activeAmount
      && s.cumulativeImpairment + (s.activeAmount - credited) < LIMIT128
    case BeginRecover(actor, id) => CanStart(s, actor, id) && s.impairedTransport > 0
    case SettleRecover(id, credited) =>
      s.activeCycle == Recovering && s.activeTransferId == id && credited <= s.impairedTransport
  }

  // Payouts.

  lemma PayoutAcceptedIff(s: State, side: Side, account: AccountId, epoch: EpochId)
    requires Inv(s) && SupplyFits(s)
    ensures Claim(s, side, account, epoch).Ok? <==> IsOwed(s, side, account, epoch, true)
    ensures ClaimRefund(s, side, account, epoch).Ok? <==> IsOwed(s, side, account, epoch, false)
  {
    hide Inv;
    hide SideInv;
    SidesOf(s, side);
    var p := Payout(side, RequestKey(epoch, account));
    if p.key in s.Requests(side) {
      EntryAgrees(Books(s, side), side, p.key);
    }
    if Payable(s, p) {
      PayoutIsStep(s, p);
    }
  }

  lemma PayoutIsStep(s: State, p: Payout)
    requires Inv(s) && SupplyFits(s) && Payable(s, p)
    ensures if s.epochs[p.key.epoch].Finalized? then Claim(s, p.side, p.key.account, p.key.epoch).Ok?
            else ClaimRefund(s, p.side, p.key.account, p.key.epoch).Ok?
  {
    hide Inv;
    hide Value;
    hide Paid;
    hide Claim;
    hide ClaimRefund;
    PayoutSucceeds(s, p);
  }

  // Epochs and modes.

  lemma EpochAcceptedIff(s: State, actor: AccountId, now: Timestamp)
    requires EpochsOrdered(s)
    ensures Cutoff(s, now).Ok? <==> Acceptable(s, CutoffEpoch(now))
    ensures Abort(s, actor).Ok? <==> Acceptable(s, AbortEpoch(actor))
    ensures OpenNext(s, now).Ok? <==> Acceptable(s, OpenNextEpoch(now))
  {
    Pow10Fits(s.config.shareDecimals - s.config.assetDecimals);
    hide Pow10;
  }

  lemma ModeAcceptedIff(s: State, actor: AccountId)
    requires s.config.Valid()
    ensures PauseVault(s, actor).Ok? <==> Acceptable(s, Pause(actor))
    ensures UnpauseVault(s, actor).Ok? <==> Acceptable(s, Unpause(actor))
    ensures FreezeVault(s, actor).Ok? <==> Acceptable(s, Freeze(actor))
  {
  }

  // Cross-chain cycles.

  lemma AllocationAcceptedIff(s: State, actor: AccountId, id: TransferId, amount: U128)
    requires Inv(s) && SupplyFits(s) && s.config.Valid()
    ensures StartAllocation(s, actor, id, amount).Ok? <==> Acceptable(s, BeginAllocate(actor, id, amount))
  {
    TransitHasRoom(s);
    hide Inv;
  }

  lemma TransitHasRoom(s: State)
    requires Inv(s) && SupplyFits(s)
    ensures s.buckets.idleBacking + s.buckets.outboundInTransit < LIMIT128
    ensures s.buckets.idleBacking + s.buckets.inboundInTransit < LIMIT128
  {
    hide SideInv;
    hide Held;
    hide EpochsOrdered;
    hide SharesConserved;
    hide BurnedExplained;
    hide TermsBounded;
    hide RemoteConsistent;
  }

  /** A recall, a close and a recovery need the administrator, and something to recall, close or recover. */
  lemma StartAcceptedIff(s: State, actor: AccountId, id: TransferId, amount: U128)
    requires s.config.Valid()
    ensures StartRecall(s, actor, id, amount).Ok? <==> Acceptable(s, BeginRecall(actor, id, amount))
    ensures AskClose(s, actor, id).Ok? <==> Acceptable(s, RequestClose(actor, id))
    ensures StartRecovery(s, actor, id).Ok? <==> Acceptable(s, BeginRecover(actor, id))
  {
  }

  lemma ReportAcceptedIff(s: State, value: U128, loss: U128)
    requires s.config.Valid()
    ensures Revalue(s, value, loss).Ok? <==> Acceptable(s, ApplyRemoteValuation(value, loss))
    ensures LockValuation(s).Ok? <==> Acceptable(s, LockRemoteValuation)
  {
  }

  lemma ArrivalAcceptedIff(s: State, amount: U128)
    requires Inv(s) && SupplyFits(s) && s.config.Valid()
    ensures Observe(s, amount).Ok? <==> Acceptable(s, ObserveInbound(amount))
  {
    TransitHasRoom(s);
    hide Inv;
  }

  lemma HolderAcceptedIff(s: State, op: Operation)
    requires Inv(s) && SupplyFits(s) && s.config.Valid() && IsHolders(op)
    ensures Step(s, op).Ok? <==> Acceptable(s, op)
  {
    hide MakeRequest;
    hide CancelRequest;
    hide Claim;
    hide ClaimRefund;
    hide Finalize;
    hide Cutoff;
    hide Abort;
    hide OpenNext;
    hide PauseVault;
    hide UnpauseVault;
    hide FreezeVault;
    hide StartAllocation;
    hide FinishAllocation;
    hide StartRecall;
    hide AcceptNotice;
    hide Observe;
    hide Revalue;
    hide LockValuation;
    hide AskClose;
    hide CloseAllocation;
    hide StartRecovery;
    hide FinishRecovery;
    hide CanRequest;
    hide CanCancel;
    hide CanFinalize;
    hide CanStart;
    hide CanStop;
    hide IsOwed;
    hide HasRoom;
    hide Inv;
    match op
    case RequestDeposit(account, amount) => RequestAcceptedIff(s, Deposits, account, amount);
    case RequestRedeem(account, amount) => RequestAcceptedIff(s, Redemptions, account, amount);
    case CancelDeposit(account) => CancelAcceptedIff(s, Deposits, account);
    case CancelRedeem(account) => CancelAcceptedIff(s, Redemptions, account);
    case ClaimDeposit(account, epoch) => PayoutAcceptedIff(s, Deposits, account, epoch);
    case ClaimRedeem(account, epoch) => PayoutAcceptedIff(s, Redemptions, account, epoch);
    case ClaimAbortedDeposit(account, epoch) => PayoutAcceptedIff(s, Deposits, account, epoch);
    case ClaimAbortedRedeem(account, epoch) => PayoutAcceptedIff(s, Redemptions, account, epoch);
  }

  lemma LocalAcceptedIff(s: State, op: Operation)
    requires Inv(s) && SupplyFits(s) && s.config.Valid() && IsLocal(op) && !IsHolders(op)
    ensures Step(s, op).Ok? <==> Acceptable(s, op)
  {
    hide MakeRequest;
    hide CancelRequest;
    hide Claim;
    hide ClaimRefund;
    hide Finalize;
    hide Cutoff;
    hide Abort;
    hide OpenNext;
    hide PauseVault;
    hide UnpauseVault;
    hide FreezeVault;
    hide StartAllocation;
    hide FinishAllocation;
    hide StartRecall;
    hide AcceptNotice;
    hide Observe;
    hide Revalue;
    hide LockValuation;
    hide AskClose;
    hide CloseAllocation;
    hide StartRecovery;
    hide FinishRecovery;
    hide CanRequest;
    hide CanCancel;
    hide CanFinalize;
    hide CanStart;
    hide CanStop;
    hide IsOwed;
    hide HasRoom;
    hide Inv;
    OrderedIn(s);
    hide EpochsOrdered;
    hide RemoteConsistent;
    match op
    case CutoffEpoch(now) => EpochAcceptedIff(s, 0, now);
    case FinalizeEpoch => FinalizeAcceptedIff(s);
    case AbortEpoch(actor) => EpochAcceptedIff(s, actor, 0);
    case OpenNextEpoch(now) => EpochAcceptedIff(s, 0, now);
    case Pause(actor) => ModeAcceptedIff(s, actor);
    case Unpause(actor) => ModeAcceptedIff(s, actor);
    case Freeze(actor) => ModeAcceptedIff(s, actor);
  }

  lemma RemoteAcceptedIff(s: State, op: Operation)
    requires Inv(s) && SupplyFits(s) && s.config.Valid() && !IsLocal(op)
    ensures Step(s, op).Ok? <==> Acceptable(s, op)
  {
    hide MakeRequest;
    hide CancelRequest;
    hide Claim;
    hide ClaimRefund;
    hide Finalize;
    hide Cutoff;
    hide Abort;
    hide OpenNext;
    hide PauseVault;
    hide UnpauseVault;
    hide FreezeVault;
    hide StartAllocation;
    hide FinishAllocation;
    hide StartRecall;
    hide AcceptNotice;
    hide Observe;
    hide Revalue;
    hide LockValuation;
    hide AskClose;
    hide CloseAllocation;
    hide StartRecovery;
    hide FinishRecovery;
    hide CanRequest;
    hide CanCancel;
    hide CanFinalize;
    hide CanStart;
    hide CanStop;
    hide IsOwed;
    hide HasRoom;
    hide Inv;
    match op
    case BeginAllocate(actor, id, amount) => AllocationAcceptedIff(s, actor, id, amount);
    case CompleteAllocation(id, value) => CompletionAcceptedIff(s, id, value);
    case BeginRecall(actor, id, amount) => StartAcceptedIff(s, actor, id, amount);
    case AcceptRecallSent(id, principal, actual, loss) => NoticeAcceptedIff(s, id, principal, actual, loss);
    case ObserveInbound(amount) => ArrivalAcceptedIff(s, amount);
    case ApplyRemoteValuation(value, loss) => ReportAcceptedIff(s, value, loss);
    case LockRemoteValuation => ReportAcceptedIff(s, 0, 0);
    case RequestClose(actor, id) => StartAcceptedIff(s, actor, id, 0);
    case SettleClose(id, credited) => CloseAcceptedIff(s, id, credited);
    case BeginRecover(actor, id) => StartAcceptedIff(s, actor, id, 0);
    case SettleRecover(id, credited) => RecoveryAcceptedIff(s, id, credited);
  }

  /** Every operation is accepted in a reachable state if and only if its plain condition holds. */
  lemma AcceptedIff(s: State, op: Operation)
    requires Inv(s) && SupplyFits(s)
    ensures s.config.Valid()
    ensures Step(s, op).Ok? <==> Acceptable(s, op)
  {
    hide Inv;
    OrderedIn(s);
    hide Step;
    hide Acceptable;
    if IsHolders(op) {
      HolderAcceptedIff(s, op);
    } else if IsLocal(op) {
      LocalAcceptedIff(s, op);
    } else {
      RemoteAcceptedIff(s, op);
    }
  }
}
