/** What the operations that never touch the remote side leave alone. */
module VaultFrames {
  import opened Words
  import opened Amounts
  import opened VaultState
  import opened VaultSpec
  import opened VaultInvariant

  /** The cross-chain books and what was ever issued or received. */
  predicate SameRemote(s: State, t: State) {
    && t.config == s.config
    && t.buckets.outboundInTransit == s.buckets.outboundInTransit
    && t.buckets.acceptedRemoteValue == s.buckets.acceptedRemoteValue
    && t.buckets.inboundInTransit == s.buckets.inboundInTransit
    && t.initialAssetSupply == s.initialAssetSupply && t.externalInflow == s.externalInflow
    && t.remotePrincipalCap == s.remotePrincipalCap && t.recognizedLoss == s.recognizedLoss
    && t.impairedTransport == s.impairedTransport && t.cumulativeImpairment == s.cumulativeImpairment
    && t.pendingRecallId == s.pendingRecallId && t.pendingRecallPrincipal == s.pendingRecallPrincipal
    && t.activeCycle == s.activeCycle && t.activeTransferId == s.activeTransferId && t.activeAmount == s.activeAmount
    && t.closeRequested == s.closeRequested && t.inboundCumulativeLoss == s.inboundCumulativeLoss
    && t.recallBaselineValue == s.recallBaselineValue && t.recallBaselineLoss == s.recallBaselineLoss
    && t.usedTransferIds == s.usedTransferIds && t.epochValuationLocked == s.epochValuationLocked
  }

  /** The price books: authority, mode, outcomes, supply, backing and which epoch is current. */
  predicate SamePrices(s: State, t: State) {
    && t.authority == s.authority && t.mode == s.mode && t.nextEpochId == s.nextEpochId
    && t.epochs == s.epochs && t.totalShareSupply == s.totalShareSupply
    && t.buckets.idleBacking == s.buckets.idleBacking
    && t.epoch.Some? == s.epoch.Some?
    && (s.epoch.Some? ==>
          && t.epoch.value.id == s.epoch.value.id && t.epoch.value.phase == s.epoch.value.phase
          && t.epoch.value.cutoffAt == s.epoch.value.cutoffAt)
  }

  lemma RequestFrame(s: State, side: Side, account: AccountId, amount: U128)
    requires MakeRequest(s, side, account, amount).Ok?
    ensures SameRemote(s, MakeRequest(s, side, account, amount).value)
    ensures SamePrices(s, MakeRequest(s, side, account, amount).value)
  {
  }

  lemma CancelFrame(s: State, side: Side, account: AccountId)
    requires CancelRequest(s, side, account).Ok?
    ensures SameRemote(s, CancelRequest(s, side, account).value)
    ensures SamePrices(s, CancelRequest(s, side, account).value)
  {
  }

  lemma ClaimFrame(s: State, side: Side, account: AccountId, epoch: EpochId)
    requires Claim(s, side, account, epoch).Ok?
    ensures SameRemote(s, Claim(s, side, account, epoch).value)
    ensures SamePrices(s, Claim(s, side, account, epoch).value)
  {
  }

  lemma RefundFrame(s: State, side: Side, account: AccountId, epoch: EpochId)
    requires ClaimRefund(s, side, account, epoch).Ok?
    ensures SameRemote(s, ClaimRefund(s, side, account, epoch).value)
    ensures SamePrices(s, ClaimRefund(s, side, account, epoch).value)
  {
  }

  lemma SettleFrame(s: State, terms: EpochTerms)
    requires Settle(s, terms).Ok?
    ensures SameRemote(s, Settle(s, terms).value)
  {
  }

  lemma FinalizeFrame(s: State)
    requires Finalize(s).Ok?
    ensures SameRemote(s, Finalize(s).value)
  {
    hide Quote;
    hide Settle;
    hide MeasureDust;
    SettleFrame(s, Quote(s, s.epoch.value).value);
  }

  /** Operations that deal with holders, epochs or the vault's mode only. */
  predicate IsLocal(op: Operation) {
    || op.RequestDeposit? || op.CancelDeposit? || op.RequestRedeem? || op.CancelRedeem?
    || op.CutoffEpoch? || op.FinalizeEpoch? || op.AbortEpoch?
    || op.ClaimDeposit? || op.ClaimRedeem? || op.ClaimAbortedDeposit? || op.ClaimAbortedRedeem?
    || op.OpenNextEpoch? || op.Pause? || op.Unpause? || op.Freeze?
  }

  /** Operations on the current epoch as a whole and on the mode, other than its settlement. */
  predicate IsAdmin(op: Operation) {
    op.CutoffEpoch? || op.AbortEpoch? || op.OpenNextEpoch? || op.Pause? || op.Unpause? || op.Freeze?
  }

  /** The current epoch gets an aborted outcome for exactly its pending amounts. */
  predicate Aborts(s: State, t: State) {
    && s.mode == Frozen && s.epoch.Some? && s.epoch.value.id !in s.epochs
    && var e := s.epoch.value;
    && t.epochs == s.epochs[e.id := Aborted(AbortedTerms(
         e.id, e.configVersion, e.cutoffAt, e.pendingDepositAssets, e.pendingRedeemShares))]
    && t.epoch.None? && t.nextEpochId == e.id + 1 && t.lastCutoffAt == e.cutoffAt
  }

  /** No outcome is added; the current epoch stays, cut off at most, or a next one opens. */
  predicate KeepsEpoch(s: State, t: State) {
    && t.epochs == s.epochs && t.nextEpochId == s.nextEpochId && t.lastCutoffAt == s.lastCutoffAt
    && (s.epoch.Some? ==> t.epoch.Some? && t.epoch.value == s.epoch.value.(phase := t.epoch.value.phase))
    && (s.epoch.Some? && s.epoch.value.phase == CutOff ==> t.epoch == s.epoch)
    && (s.epoch.None? && t.epoch.Some? ==> t.epoch.value.id == s.nextEpochId)
  }

  predicate AdminEffect(s: State, t: State) {
    && t == s.(mode := t.mode, epoch := t.epoch, epochs := t.epochs, nextEpochId := t.nextEpochId,
               lastCutoffAt := t.lastCutoffAt)
    && (s.mode == Frozen ==> t.mode == Frozen)
    && (Aborts(s, t) || KeepsEpoch(s, t))
  }

  lemma CutoffEffect(s: State, now: Timestamp)
    requires Cutoff(s, now).Ok?
    ensures AdminEffect(s, Cutoff(s, now).value)
  {
  }

  lemma AbortEffect(s: State, actor: AccountId)
    requires Abort(s, actor).Ok?
    ensures AdminEffect(s, Abort(s, actor).value) && Aborts(s, Abort(s, actor).value)
  {
  }

  lemma OpenEffect(s: State, now: Timestamp)
    requires OpenNext(s, now).Ok?
    ensures AdminEffect(s, OpenNext(s, now).value)
  {
    hide Pow10;
  }

  lemma ModeEffect(s: State, actor: AccountId)
    ensures PauseVault(s, actor).Ok? ==> AdminEffect(s, PauseVault(s, actor).value)
    ensures UnpauseVault(s, actor).Ok? ==> AdminEffect(s, UnpauseVault(s, actor).value)
    ensures FreezeVault(s, actor).Ok? ==> AdminEffect(s, FreezeVault(s, actor).value)
  {
  }

  lemma AdminMoves(s: State, op: Operation)
    requires IsAdmin(op) && Step(s, op).Ok?
    ensures AdminEffect(s, Step(s, op).value)
  {
    hide MakeRequest;
    hide CancelRequest;
    hide Claim;
    hide ClaimRefund;
    hide Finalize;
    hide Cutoff;
    hide Abort;
    hide OpenNext;
    hide PauseVault;
    hide UnpauseVault;
    hide FreezeVault;
    hide StartAllocation;
    hide FinishAllocation;
    hide StartRecall;
    hide AcceptNotice;
    hide Observe;
    hide Revalue;
    hide LockValuation;
    hide AskClose;
    hide CloseAllocation;
    hide StartRecovery;
    hide FinishRecovery;
    hide AdminEffect;
    match op
    case CutoffEpoch(now) => CutoffEffect(s, now);
    case AbortEpoch(actor) => AbortEffect(s, actor);
    case OpenNextEpoch(now) => OpenEffect(s, now);
    case Pause(actor) => ModeEffect(s, actor);
    case Unpause(actor) => ModeEffect(s, actor);
    case Freeze(actor) => ModeEffect(s, actor);
  }

  /** Operations of one holder: requests, cancellations and payouts. */
  predicate IsHolders(op: Operation) {
    || op.RequestDeposit? || op.CancelDeposit? || op.RequestRedeem? || op.CancelRedeem?
    || op.ClaimDeposit? || op.ClaimRedeem? || op.ClaimAbortedDeposit? || op.ClaimAbortedRedeem?
  }

  lemma HolderFrame(s: State, op: Operation)
    requires IsHolders(op) && Step(s, op).Ok?
    ensures SameRemote(s, Step(s, op).value) && SamePrices(s, Step(s, op).value)
  {
    hide StartAllocation;
    hide FinishAllocation;
    hide StartRecall;
    hide Revalue;
    hide LockValuation;
    hide AskClose;
    hide CloseAllocation;
    hide StartRecovery;
    hide FinishRecovery;
    hide Finalize;
    hide AcceptNotice;
    hide Observe;
    hide OpenNext;
    hide Abort;
    hide Cutoff;
    hide PauseVault;
    hide UnpauseVault;
    hide FreezeVault;
    hide MakeRequest;
    hide CancelRequest;
    hide Claim;
    hide ClaimRefund;
    hide SameRemote;
    hide SamePrices;
    match op
    case RequestDeposit(account, amount) => RequestFrame(s, Deposits, account, amount);
    case RequestRedeem(account, amount) => RequestFrame(s, Redemptions, account, amount);
    case CancelDeposit(account) => CancelFrame(s, Deposits, account);
    case CancelRedeem(account) => CancelFrame(s, Redemptions, account);
    case ClaimDeposit(account, epoch) => ClaimFrame(s, Deposits, account, epoch);
    case ClaimRedeem(account, epoch) => ClaimFrame(s, Redemptions, account, epoch);
    case ClaimAbortedDeposit(account, epoch) => RefundFrame(s, Deposits, account, epoch);
    case ClaimAbortedRedeem(account, epoch) => RefundFrame(s, Redemptions, account, epoch);
  }

  lemma LocalFrame(s: State, op: Operation)
    requires IsLocal(op)
    ensures SameRemote(s, Next(s, op))
  {
    assert SameRemote(s, s);
    hide MakeRequest;
    hide CancelRequest;
    hide Claim;
    hide ClaimRefund;
    hide Finalize;
    hide Cutoff;
    hide Abort;
    hide OpenNext;
    hide PauseVault;
    hide UnpauseVault;
    hide FreezeVault;
    hide StartAllocation;
    hide FinishAllocation;
    hide StartRecall;
    hide AcceptNotice;
    hide Observe;
    hide Revalue;
    hide LockValuation;
    hide AskClose;
    hide CloseAllocation;
    hide StartRecovery;
    hide FinishRecovery;
    hide SameRemote;
    hide AdminEffect;
    if Step(s, op).Ok? {
      if IsHolders(op) {
        HolderFrame(s, op);
      } else if IsAdmin(op) {
        AdminMoves(s, op);
        AdminFrame(s, Step(s, op).value);
      } else {
        FinalizeFrame(s);
      }
    }
  }

  lemma AdminFrame(s: State, t: State)
    requires AdminEffect(s, t)
    ensures SameRemote(s, t)
  {
  }

  // What the cross-chain operations leave alone.

  /** The mode, the epochs, the requests, the holders and the shares. */
  predicate SameBooks(s: State, t: State) {
    && t.config == s.config && t.authority == s.authority
    && t.mode == s.mode && t.epoch == s.epoch && t.epochs == s.epochs
    && t.nextEpochId == s.nextEpochId && t.accounts == s.accounts
    && t.depositRequests == s.depositRequests && t.redeemRequests == s.redeemRequests
    && t.totalShareSupply == s.totalShareSupply && t.escrowedRedeemShares == s.escrowedRedeemShares
    && t.claimableDepositShares == s.claimableDepositShares
    && t.burnedRedemptionShares == s.burnedRedemptionShares
    && t.buckets.pendingDepositEscrow == s.buckets.pendingDepositEscrow
    && t.buckets.claimReserve == s.buckets.claimReserve
  }

  predicate SameBooksAndLocks(s: State, t: State) {
    SameBooks(s, t) && t.epochValuationLocked == s.epochValuationLocked
  }

  lemma StartKeepsBooks(s: State, actor: AccountId, id: TransferId, amount: U128)
    requires StartAllocation(s, actor, id, amount).Ok?
    ensures SameBooksAndLocks(s, StartAllocation(s, actor, id, amount).value)
  {
  }

  lemma FinishKeepsBooks(s: State, id: TransferId, value: U128)
    requires FinishAllocation(s, id, value).Ok?
    ensures SameBooksAndLocks(s, FinishAllocation(s, id, value).value)
  {
  }

  lemma RecallKeepsBooks(s: State, actor: AccountId, id: TransferId, amount: U128)
    requires StartRecall(s, actor, id, amount).Ok?
    ensures SameBooksAndLocks(s, StartRecall(s, actor, id, amount).value)
  {
  }

  lemma NoticeKeepsBooks(s: State, id: TransferId, principal: U128, actual: U128, loss: U128)
    requires AcceptNotice(s, id, principal, actual, loss).Ok?
    ensures SameBooksAndLocks(s, AcceptNotice(s, id, principal, actual, loss).value)
  {
  }

  lemma ArrivalKeepsBooks(s: State, amount: U128)
    requires Observe(s, amount).Ok?
    ensures SameBooksAndLocks(s, Observe(s, amount).value)
  {
  }

  lemma ReportKeepsBooks(s: State, value: U128, loss: U128)
    requires Revalue(s, value, loss).Ok?
    ensures SameBooksAndLocks(s, Revalue(s, value, loss).value)
  {
  }

  lemma LockKeepsBooks(s: State)
    requires LockValuation(s).Ok?
    ensures SameBooks(s, LockValuation(s).value)
  {
  }

  lemma AskKeepsBooks(s: State, actor: AccountId, id: TransferId)
    requires AskClose(s, actor, id).Ok?
    ensures SameBooksAndLocks(s, AskClose(s, actor, id).value)
  {
  }

  lemma CloseKeepsBooks(s: State, id: TransferId, credited: U128)
    requires CloseAllocation(s, id, credited).Ok?
    ensures SameBooksAndLocks(s, CloseAllocation(s, id, credited).value)
  {
  }

  lemma RecoverKeepsBooks(s: State, actor: AccountId, id: TransferId)
    requires StartRecovery(s, actor, id).Ok?
    ensures SameBooksAndLocks(s, StartRecovery(s, actor, id).value)
  {
  }

  lemma RecoveredKeepsBooks(s: State, id: TransferId, credited: U128)
    requires FinishRecovery(s, id, credited).Ok?
    ensures SameBooksAndLocks(s, FinishRecovery(s, id, credited).value)
  {
  }

  /** Cross-chain operations never touch them, and only the lock of a valuation adds a lock. */
  lemma RemoteKeepsBooks(s: State, op: Operation)
    requires !IsLocal(op)
    ensures SameBooks(s, Next(s, op))
    ensures !op.LockRemoteValuation? ==> SameBooksAndLocks(s, Next(s, op))
  {
    hide MakeRequest;
    hide CancelRequest;
    hide Claim;
    hide ClaimRefund;
    hide Finalize;
    hide Cutoff;
    hide Abort;
    hide OpenNext;
    hide PauseVault;
    hide UnpauseVault;
    hide FreezeVault;
    hide StartAllocation;
    hide FinishAllocation;
    hide StartRecall;
    hide AcceptNotice;
    hide Observe;
    hide Revalue;
    hide LockValuation;
    hide AskClose;
    hide CloseAllocation;
    hide StartRecovery;
    hide FinishRecovery;
    if Step(s, op).Ok? {
      match op
      case BeginAllocate(actor, id, amount) => StartKeepsBooks(s, actor, id, amount);
      case CompleteAllocation(id, value) => FinishKeepsBooks(s, id, value);
      case BeginRecall(actor, id, amount) => RecallKeepsBooks(s, actor, id, amount);
      case AcceptRecallSent(id, principal, actual, loss) => NoticeKeepsBooks(s, id, principal, actual, loss);
      case ObserveInbound(amount) => ArrivalKeepsBooks(s, amount);
      case ApplyRemoteValuation(value, loss) => ReportKeepsBooks(s, value, loss);
      case LockRemoteValuation => LockKeepsBooks(s);
      case RequestClose(actor, id) => AskKeepsBooks(s, actor, id);
      case SettleClose(id, credited) => CloseKeepsBooks(s, id, credited);
      case BeginRecover(actor, id) => RecoverKeepsBooks(s, actor, id);
      case SettleRecover(id, credited) => RecoveredKeepsBooks(s, id, credited);
    }
  }

  /** Allocations and recoveries, from their start to their settlement. */
  predicate IsTransfer(op: Operation) {
    || op.BeginAllocate? || op.CompleteAllocation? || op.RequestClose? || op.SettleClose?
    || op.BeginRecover? || op.SettleRecover?
  }

  lemma RemoteAgrees(s: State, t: State)
    requires SameRemote(s, t)
    ensures RemoteConsistent(s) == RemoteConsistent(t)
  {
  }
}
