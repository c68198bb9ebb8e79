/** Every refusal names a reason that really holds. */
module VaultReasons {
  import opened Results
  import opened Words
  import opened Amounts
  import opened Pricing
  import opened VaultState
  import opened VaultSpec
  import opened VaultInvariant
  import opened VaultFrames
  import opened VaultPreservation
  import opened VaultRefusals
  import opened VaultSettlement

  predicate IsCutOff(s: State) {
    s.epoch.Some? && s.epoch.value.phase == CutOff
  }

  predicate IsStranger(s: State, actor: AccountId) {
    actor != s.authority.admin && actor != s.authority.guardian
  }

  /** Why one side's request is refused. */
  predicate ExplainsRequest(s: State, side: Side, account: AccountId, amount: U128, r: Rejection) {
    match r
    case InvalidVaultState => s.mode != Active
    case EpochNotOpen => s.epoch.None?
    case EpochAlreadyCutOff => IsCutOff(s)
    case ZeroAmount => amount == 0
    case AmountBelowMinimum =>
      if side == Deposits then amount < s.config.minDepositAssets else amount < s.config.minRedeemShares
    case InsufficientAssetBalance => side == Deposits && s.Balance(account, side) < amount
    case InsufficientShareBalance => side == Redemptions && s.Balance(account, side) < amount
    case RequestAlreadySettled => s.epoch.Some? && IsPaid(s, side, RequestKey(s.epoch.value.id, account))
    case _ => false
  }

  predicate IsPaid(s: State, side: Side, key: RequestKey) {
    key in s.Requests(side) && s.Requests(side)[key].claimed
  }

  predicate IsCancelled(s: State, side: Side, key: RequestKey) {
    key in s.Requests(side) && (s.Requests(side)[key].cancelled || s.Requests(side)[key].amount == 0)
  }

  predicate ExplainsCancel(s: State, side: Side, account: AccountId, r: Rejection) {
    match r
    case InvalidVaultState => s.mode == Frozen
    case EpochNotOpen => s.epoch.None?
    case CancellationAfterCutoff => IsCutOff(s)
    case RequestNotFound => s.epoch.Some? && RequestKey(s.epoch.value.id, account) !in s.Requests(side)
    case RequestAlreadySettled => s.epoch.Some? && IsPaid(s, side, RequestKey(s.epoch.value.id, account))
    case RequestAlreadyCancelled => s.epoch.Some? && IsCancelled(s, side, RequestKey(s.epoch.value.id, account))
    case _ => false
  }

  /** Why a claim, or with `aborted` a refund, is refused. */
  predicate ExplainsPayout(s: State, side: Side, key: RequestKey, aborted: bool, r: Rejection) {
    match r
    case EpochNotFinalized => !aborted && !(key.epoch in s.epochs && s.epochs[key.epoch].Finalized?)
    case EpochNotAborted => aborted && !(key.epoch in s.epochs && s.epochs[key.epoch].Aborted?)
    case RequestNotFound => key !in s.Requests(side)
    case RequestAlreadyCancelled => IsCancelled(s, side, key)
    case ClaimNotFound => IsCancelled(s, side, key)
    case ClaimAlreadyConsumed => IsPaid(s, side, key)
    case _ => false
  }

  /** Why a transfer cannot start. */
  predicate ExplainsStart(s: State, actor: AccountId, id: TransferId, r: Rejection) {
    match r
    case UnauthorizedActor => actor != s.authority.admin
    case ActiveTransferExists => s.activeCycle != NoCycle
    case ZeroAmount => id == 0
    case TransferIdReused => id in s.usedTransferIds
    case _ => false
  }

  predicate ExplainsAllocation(s: State, actor: AccountId, id: TransferId, amount: U128, r: Rejection) {
    || ExplainsStart(s, actor, id, r)
    || (r == InvalidVaultState && s.mode != Active)
    || (r == EpochNotOpen && s.epoch.None?)
    || (r == EpochAlreadyCutOff && IsCutOff(s))
    || (r == ZeroAmount && amount == 0)
    || (r == InsufficientRedemptionLiquidity && s.buckets.idleBacking < amount)
  }

  ghost predicate ExplainsFinalize(s: State, r: Rejection)
    requires s.config.Valid()
  {
    match r
    case InvalidVaultState => s.mode != Active
    case EpochNotOpen => s.epoch.None?
    case EpochNotCutOff => s.epoch.Some? && s.epoch.value.phase == Open
    case RemoteValuationRequired => Exposed(s) && s.epoch.Some? && s.epoch.value.id !in s.epochValuationLocked
    case InsufficientRedemptionLiquidity => s.epoch.Some? && s.buckets.idleBacking < Redeemed(s, s.epoch.value)
    case _ => false
  }

  ghost predicate Explains(s: State, op: Operation, r: Rejection)
    requires s.config.Valid()
  {
    match op
    case RequestDeposit(account, amount) => ExplainsRequest(s, Deposits, account, amount, r)
    case RequestRedeem(account, amount) => ExplainsRequest(s, Redemptions, account, amount, r)
    case CancelDeposit(account) => ExplainsCancel(s, Deposits, account, r)
    case CancelRedeem(account) => ExplainsCancel(s, Redemptions, account, r)
    case ClaimDeposit(account, epoch) => ExplainsPayout(s, Deposits, RequestKey(epoch, account), false, r)
    case ClaimRedeem(account, epoch) => ExplainsPayout(s, Redemptions, RequestKey(epoch, account), false, r)
    case ClaimAbortedDeposit(account, epoch) => ExplainsPayout(s, Deposits, RequestKey(epoch, account), true, r)
    case ClaimAbortedRedeem(account, epoch) => ExplainsPayout(s, Redemptions, RequestKey(epoch, account), true, r)
    case CutoffEpoch(now) =>
      || (r == InvalidVaultState && s.mode != Active)
      || (r == EpochNotOpen && s.epoch.None?)
      || (r == EpochAlreadyCutOff && IsCutOff(s))
      || (r == CutoffNotReached && s.epoch.Some? && now < s.epoch.value.cutoffAt)
    case FinalizeEpoch => ExplainsFinalize(s, r)
    case AbortEpoch(actor) =>
      || (r == UnauthorizedActor && IsStranger(s, actor))
      || (r == InvalidVaultState && s.mode != Frozen)
      || (r == EpochNotOpen && s.epoch.None?)
    case OpenNextEpoch(now) =>
      || (r == InvalidVaultState && s.mode != Active)
      || (r == EpochAlreadyOpen && s.epoch.Some?)
      || (r == TimestampNotMonotonic && now < s.lastCutoffAt)
    case Pause(actor) =>
      (r == UnauthorizedActor && IsStranger(s, actor)) || (r == InvalidVaultState && s.mode != Active)
    case Unpause(actor) =>
      (r == UnauthorizedActor && actor != s.authority.admin) || (r == InvalidVaultState && s.mode != Paused)
    case Freeze(actor) =>
      (r == UnauthorizedActor && IsStranger(s, actor)) || (r == InvalidVaultState && s.mode == Frozen)
    case BeginAllocate(actor, id, amount) => ExplainsAllocation(s, actor, id, amount, r)
    case BeginRecall(actor, id, amount) =>
      || ExplainsStart(s, actor, id, r)
      || (r == ZeroAmount && amount == 0)
      || (r == InsufficientRemotePrincipal && s.remotePrincipalCap < amount)
    case BeginRecover(actor, id) =>
      ExplainsStart(s, actor, id, r) || (r == NothingToRecover && s.impairedTransport == 0)
    case CompleteAllocation(id, _) =>
      r == NoActiveTransfer && (s.activeCycle != Allocating || s.activeTransferId != id)
    case AcceptRecallSent(id, principal, actual, loss) =>
      || (r == NoActiveTransfer && (s.activeCycle != Recalling || s.activeTransferId != id))
      || (r == InvalidRecallSentAmounts && (s.activeAmount < principal || actual + loss != principal))
      || (r == InsufficientRemotePrincipal && s.remotePrincipalCap < principal)
    case ObserveInbound(amount) => r == ZeroAmount && amount == 0
    case ApplyRemoteValuation(_, _) => false
    case LockRemoteValuation =>
      || (r == EpochNotOpen && s.epoch.None?)
      || (r == EpochNotCutOff && s.epoch.Some? && s.epoch.value.phase == Open)
      || (r == ValuationAlreadyFixed && s.epoch.Some? && s.epoch.value.id in s.epochValuationLocked)
    case RequestClose(actor, id) =>
      || (r == UnauthorizedActor && actor != s.authority.admin)
      || (r == NoActiveTransfer && (s.activeCycle != Allocating || s.activeTransferId != id))
      || (r == CloseAlreadyRequested && s.closeRequested)
    case SettleClose(id, credited) =>
      || (r == NoActiveTransfer && s.activeTransferId != id)
      || (r == NoPendingSettlement && (s.activeCycle != Allocating || !s.closeRequested))
      || (r == SettlementMismatch && s.activeAmount < credited)
    case SettleRecover(id, credited) =>
      || (r == NoActiveTransfer && s.activeTransferId != id)
      || (r == NoPendingSettlement && s.activeCycle != Recovering)
      || (r == SettlementMismatch && s.impairedTransport < credited)
  }

  /** The reason holds, or it is about a width or the books themselves. */
  ghost predicate IsReal(s: State, op: Operation, r: Rejection)
    requires s.config.Valid()
  {
    Explains(s, op, r) || r == ArithmeticOverflow || IsInternal(r)
  }

  /** The guards of a request, in front of its sums. */
  predicate RequestGuards(s: State, side: Side, account: AccountId, amount: U128) {
    && s.mode == Active && s.epoch.Some? && s.epoch.value.phase == Open
    && amount != 0 && s.config.Minimum(side) <= amount
    && !IsPaid(s, side, RequestKey(s.epoch.value.id, account))
  }

  lemma RequestGuarded(s: State, side: Side, account: AccountId, amount: U128)
    requires MakeRequest(s, side, account, amount).Err? && !RequestGuards(s, side, account, amount)
    ensures ExplainsRequest(s, side, account, amount, MakeRequest(s, side, account, amount).error)
  {
    hide Fit;
    hide CheckedSub;
    hide State.WithBalance;
    hide State.WithEscrow;
    hide State.WithRequest;
    hide Epoch.WithPending;
  }

  lemma RequestSums(s: State, side: Side, account: AccountId, amount: U128)
    requires MakeRequest(s, side, account, amount).Err? && RequestGuards(s, side, account, amount)
    ensures var r := MakeRequest(s, side, account, amount).error;
      || r == ArithmeticOverflow
      || (s.Balance(account, side) < amount && r == side.ShortBalance())
  {
    hide State.WithBalance;
    hide State.WithEscrow;
    hide State.WithRequest;
    hide Epoch.WithPending;
  }

  lemma RequestIsReal(s: State, side: Side, account: AccountId, amount: U128)
    requires MakeRequest(s, side, account, amount).Err?
    ensures var r := MakeRequest(s, side, account, amount).error;
      ExplainsRequest(s, side, account, amount, r) || r == ArithmeticOverflow
  {
    hide MakeRequest;
    if RequestGuards(s, side, account, amount) {
      RequestSums(s, side, account, amount);
    } else {
      RequestGuarded(s, side, account, amount);
    }
  }

  predicate CancelGuards(s: State, side: Side, account: AccountId) {
    && s.mode != Frozen && s.epoch.Some? && s.epoch.value.phase == Open
    && var key := RequestKey(s.epoch.value.id, account);
    && key in s.Requests(side) && !s.Requests(side)[key].claimed && s.Requests(side)[key].IsActive()
  }

  lemma CancelGuarded(s: State, side: Side, account: AccountId)
    requires CancelRequest(s, side, account).Err? && !CancelGuards(s, side, account)
    ensures ExplainsCancel(s, side, account, CancelRequest(s, side, account).error)
  {
    hide Fit;
    hide CheckedSub;
    hide State.WithBalance;
    hide State.WithEscrow;
    hide State.WithRequest;
    hide Epoch.WithPending;
  }

  lemma CancelSums(s: State, side: Side, account: AccountId)
    requires CancelRequest(s, side, account).Err? && CancelGuards(s, side, account)
    ensures var r := CancelRequest(s, side, account).error; r == ArithmeticOverflow || r == ArithmeticUnderflow
  {
    hide State.WithBalance;
    hide State.WithEscrow;
    hide State.WithRequest;
    hide Epoch.WithPending;
  }

  lemma CancelIsReal(s: State, side: Side, account: AccountId)
    requires CancelRequest(s, side, account).Err?
    ensures var r := CancelRequest(s, side, account).error;
      ExplainsCancel(s, side, account, r) || r == ArithmeticOverflow || r == ArithmeticUnderflow
  {
    hide CancelRequest;
    if CancelGuards(s, side, account) {
      CancelSums(s, side, account);
    } else {
      CancelGuarded(s, side, account);
    }
  }

  /** What checked sums fail with. */
  lemma SumsFail()
    ensures forall x: U128, y: U128 :: CheckedAdd(x, y).Err? ==> CheckedAdd(x, y).error == ArithmeticOverflow
    ensures forall x: U128, y: U128 :: CheckedSub(x, y).Err? ==> CheckedSub(x, y).error == ArithmeticUnderflow
  {
  }

  lemma OwedFails(terms: EpochTerms, side: Side, amount: U128)
    requires terms.Owed(side, amount).Err?
    ensures terms.Owed(side, amount).error == ArithmeticOverflow || terms.Owed(side, amount).error == DivisionByZero
  {
    hide Floor;
    hide Times;
  }

  lemma ClaimantIsReal(s: State, side: Side, key: RequestKey, aborted: bool)
    requires Claimant(s, side, key).Err?
    ensures ExplainsPayout(s, side, key, aborted, Claimant(s, side, key).error)
  {
  }

  lemma ClaimIsReal(s: State, side: Side, account: AccountId, epoch: EpochId)
    requires Claim(s, side, account, epoch).Err?
    ensures var r := Claim(s, side, account, epoch).error;
      ExplainsPayout(s, side, RequestKey(epoch, account), false, r) || r == ArithmeticOverflow || IsInternal(r)
  {
    hide AssetsToShares;
    hide SharesToAssets;
    hide Claimant;
    hide Fit;
    var key := RequestKey(epoch, account);
    SumsFail();
    if Claimant(s, side, key).Err? {
      ClaimantIsReal(s, side, key, false);
    } else if epoch in s.epochs && s.epochs[epoch].Finalized? {
      var terms, amount := s.epochs[epoch].terms, Claimant(s, side, key).value.amount;
      if terms.Owed(side, amount).Err? {
        OwedFails(terms, side, amount);
      }
    }
  }

  lemma RefundIsReal(s: State, side: Side, account: AccountId, epoch: EpochId)
    requires ClaimRefund(s, side, account, epoch).Err?
    ensures var r := ClaimRefund(s, side, account, epoch).error;
      ExplainsPayout(s, side, RequestKey(epoch, account), true, r) || r == ArithmeticOverflow || IsInternal(r)
  {
    hide Claimant;
    hide Fit;
    var key := RequestKey(epoch, account);
    SumsFail();
    if Claimant(s, side, key).Err? {
      ClaimantIsReal(s, side, key, true);
    }
  }

  lemma HolderIsReal(s: State, op: Operation)
    requires IsHolders(op) && Step(s, op).Err? && s.config.Valid()
    ensures IsReal(s, op, Step(s, op).error)
  {
    hide MakeRequest;
    hide CancelRequest;
    hide Claim;
    hide ClaimRefund;
    hide Finalize;
    hide Cutoff;
    hide Abort;
    hide OpenNext;
    hide PauseVault;
    hide UnpauseVault;
    hide FreezeVault;
    hide StartAllocation;
    hide FinishAllocation;
    hide StartRecall;
    hide AcceptNotice;
    hide Observe;
    hide Revalue;
    hide LockValuation;
    hide AskClose;
    hide CloseAllocation;
    hide StartRecovery;
    hide FinishRecovery;
    hide ExplainsRequest;
    hide ExplainsCancel;
    hide ExplainsPayout;
    match op
    case RequestDeposit(account, amount) => RequestIsReal(s, Deposits, account, amount);
    case RequestRedeem(account, amount) => RequestIsReal(s, Redemptions, account, amount);
    case CancelDeposit(account) => CancelIsReal(s, Deposits, account);
    case CancelRedeem(account) => CancelIsReal(s, Redemptions, account);
    case ClaimDeposit(account, epoch) => ClaimIsReal(s, Deposits, account, epoch);
    case ClaimRedeem(account, epoch) => ClaimIsReal(s, Redemptions, account, epoch);
    case ClaimAbortedDeposit(account, epoch) => RefundIsReal(s, Deposits, account, epoch);
    case ClaimAbortedRedeem(account, epoch) => RefundIsReal(s, Redemptions, account, epoch);
  }

  lemma EpochIsReal(s: State, actor: AccountId, now: Timestamp)
    requires s.config.Valid()
    ensures Cutoff(s, now).Err? ==> Explains(s, CutoffEpoch(now), Cutoff(s, now).error)
    ensures Abort(s, actor).Err? ==>
      Explains(s, AbortEpoch(actor), Abort(s, actor).error)
      || Abort(s, actor).error == ArithmeticOverflow || Abort(s, actor).error == EpochAlreadyFinalized
  {
  }

  lemma OpenIsReal(s: State, now: Timestamp)
    requires s.config.Valid() && OpenNext(s, now).Err?
    ensures Explains(s, OpenNextEpoch(now), OpenNext(s, now).error)
         || OpenNext(s, now).error == ArithmeticOverflow || OpenNext(s, now).error == InvalidConfiguration
  {
    hide Pow10;
  }

  lemma ModeIsReal(s: State, actor: AccountId)
    requires s.config.Valid()
    ensures PauseVault(s, actor).Err? ==> Explains(s, Pause(actor), PauseVault(s, actor).error)
    ensures UnpauseVault(s, actor).Err? ==> Explains(s, Unpause(actor), UnpauseVault(s, actor).error)
    ensures FreezeVault(s, actor).Err? ==> Explains(s, Freeze(actor), FreezeVault(s, actor).error)
  {
  }

  lemma AdminIsReal(s: State, op: Operation)
    requires IsAdmin(op) && Step(s, op).Err? && s.config.Valid()
    ensures IsReal(s, op, Step(s, op).error)
  {
    hide MakeRequest;
    hide CancelRequest;
    hide Claim;
    hide ClaimRefund;
    hide Finalize;
    hide Cutoff;
    hide Abort;
    hide OpenNext;
    hide PauseVault;
    hide UnpauseVault;
    hide FreezeVault;
    hide StartAllocation;
    hide FinishAllocation;
    hide StartRecall;
    hide AcceptNotice;
    hide Observe;
    hide Revalue;
    hide LockValuation;
    hide AskClose;
    hide CloseAllocation;
    hide StartRecovery;
    hide FinishRecovery;
    hide Explains;
    match op
    case CutoffEpoch(now) => EpochIsReal(s, 0, now);
    case AbortEpoch(actor) => EpochIsReal(s, actor, 0);
    case OpenNextEpoch(now) => OpenIsReal(s, now);
    case Pause(actor) => ModeIsReal(s, actor);
    case Unpause(actor) => ModeIsReal(s, actor);
    case Freeze(actor) => ModeIsReal(s, actor);
  }

  predicate AllocationGuards(s: State, actor: AccountId, id: TransferId) {
    && actor == s.authority.admin && s.mode == Active && s.epoch.Some? && s.epoch.value.phase == Open
    && s.activeCycle == NoCycle && id != 0 && id !in s.usedTransferIds
  }

  lemma AllocationGuarded(s: State, actor: AccountId, id: TransferId, amount: U128)
    requires StartAllocation(s, actor, id, amount).Err? && !AllocationGuards(s, actor, id)
    ensures ExplainsAllocation(s, actor, id, amount, StartAllocation(s, actor, id, amount).error)
  {
    hide Fit;
    hide CheckedSub;
  }

  lemma AllocationSums(s: State, actor: AccountId, id: TransferId, amount: U128)
    requires StartAllocation(s, actor, id, amount).Err? && AllocationGuards(s, actor, id)
    ensures var r := StartAllocation(s, actor, id, amount).error;
      || r == ArithmeticOverflow || (r == ZeroAmount && amount == 0)
      || (r == InsufficientRedemptionLiquidity && s.buckets.idleBacking < amount)
  {
  }

  lemma AllocationIsReal(s: State, actor: AccountId, id: TransferId, amount: U128)
    requires StartAllocation(s, actor, id, amount).Err?
    ensures var r := StartAllocation(s, actor, id, amount).error;
      ExplainsAllocation(s, actor, id, amount, r) || r == ArithmeticOverflow
  {
    hide StartAllocation;
    if AllocationGuards(s, actor, id) {
      AllocationSums(s, actor, id, amount);
    } else {
      AllocationGuarded(s, actor, id, amount);
    }
  }

  lemma RecoveryIsReal(s: State, actor: AccountId, id: TransferId)
    requires StartRecovery(s, actor, id).Err? && s.config.Valid()
    ensures Explains(s, BeginRecover(actor, id), StartRecovery(s, actor, id).error)
  {
  }

  lemma StartIsReal(s: State, op: Operation)
    requires (op.BeginAllocate? || op.BeginRecover?) && Step(s, op).Err? && s.config.Valid()
    ensures IsReal(s, op, Step(s, op).error)
  {
    hide MakeRequest;
    hide CancelRequest;
    hide Claim;
    hide ClaimRefund;
    hide Finalize;
    hide Cutoff;
    hide Abort;
    hide OpenNext;
    hide PauseVault;
    hide UnpauseVault;
    hide FreezeVault;
    hide StartAllocation;
    hide FinishAllocation;
    hide StartRecall;
    hide AcceptNotice;
    hide Observe;
    hide Revalue;
    hide LockValuation;
    hide AskClose;
    hide CloseAllocation;
    hide StartRecovery;
    hide FinishRecovery;
    hide ExplainsAllocation;
    hide ExplainsStart;
    match op
    case BeginAllocate(actor, id, amount) => AllocationIsReal(s, actor, id, amount);
    case BeginRecover(actor, id) => RecoveryIsReal(s, actor, id);
  }

  lemma TransferIsReal(s: State, op: Operation)
    requires IsTransfer(op) && !op.BeginAllocate? && !op.BeginRecover? && Step(s, op).Err? && s.config.Valid()
    ensures IsReal(s, op, Step(s, op).error)
  {
    hide MakeRequest;
    hide CancelRequest;
    hide Claim;
    hide ClaimRefund;
    hide Finalize;
    hide Cutoff;
    hide Abort;
    hide OpenNext;
    hide PauseVault;
    hide UnpauseVault;
    hide FreezeVault;
    hide StartAllocation;
    hide StartRecall;
    hide AcceptNotice;
    hide Observe;
    hide Revalue;
    hide LockValuation;
    hide StartRecovery;
    hide Fit;
    hide CheckedSub;
    SumsFail();
  }

  lemma StartRecallIsReal(s: State, actor: AccountId, id: TransferId, amount: U128)
    requires StartRecall(s, actor, id, amount).Err? && s.config.Valid()
    ensures Explains(s, BeginRecall(actor, id, amount), StartRecall(s, actor, id, amount).error)
  {
  }

  lemma NoticeIsReal(s: State, id: TransferId, principal: U128, actual: U128, loss: U128)
    requires AcceptNotice(s, id, principal, actual, loss).Err? && s.config.Valid()
    ensures var r := AcceptNotice(s, id, principal, actual, loss).error;
      Explains(s, AcceptRecallSent(id, principal, actual, loss), r) || r == ArithmeticOverflow
  {
  }

  lemma ArrivalIsReal(s: State, amount: U128)
    requires Observe(s, amount).Err?
    ensures Observe(s, amount).error == ArithmeticOverflow || (Observe(s, amount).error == ZeroAmount && amount == 0)
  {
  }

  lemma ReportIsReal(s: State, value: U128, loss: U128)
    requires Revalue(s, value, loss).Err?
    ensures Revalue(s, value, loss).error == ArithmeticOverflow
  {
  }

  lemma LockIsReal(s: State)
    requires LockValuation(s).Err? && s.config.Valid()
    ensures Explains(s, LockRemoteValuation, LockValuation(s).error)
  {
  }

  lemma RecallIsReal(s: State, op: Operation)
    requires !IsLocal(op) && !IsTransfer(op) && Step(s, op).Err? && s.config.Valid()
    ensures IsReal(s, op, Step(s, op).error)
  {
    hide MakeRequest;
    hide CancelRequest;
    hide Claim;
    hide ClaimRefund;
    hide Finalize;
    hide Cutoff;
    hide Abort;
    hide OpenNext;
    hide PauseVault;
    hide UnpauseVault;
    hide FreezeVault;
    hide StartAllocation;
    hide FinishAllocation;
    hide StartRecall;
    hide AcceptNotice;
    hide Observe;
    hide Revalue;
    hide LockValuation;
    hide AskClose;
    hide CloseAllocation;
    hide StartRecovery;
    hide FinishRecovery;
    match op
    case BeginRecall(actor, id, amount) => StartRecallIsReal(s, actor, id, amount);
    case AcceptRecallSent(id, principal, actual, loss) => NoticeIsReal(s, id, principal, actual, loss);
    case ObserveInbound(amount) => ArrivalIsReal(s, amount);
    case ApplyRemoteValuation(value, loss) => ReportIsReal(s, value, loss);
    case LockRemoteValuation => LockIsReal(s);
  }

  /** The guard or the part of the settlement a refusal comes from. */
  lemma FinalizeFails(s: State)
    requires Finalize(s).Err?
    ensures var r := Finalize(s).error;
      || (r == InvalidVaultState && s.mode != Active)
      || (r == EpochNotOpen && s.epoch.None?)
      || (s.epoch.Some? && (
            || (r == EpochNotCutOff && s.epoch.value.phase == Open)
            || r == EpochAlreadyFinalized || r == ArithmeticOverflow
            || Quote(s, s.epoch.value) == Err(r)
            || (Quote(s, s.epoch.value).Ok? && Settle(s, Quote(s, s.epoch.value).value) == Err(r))
            || (Quote(s, s.epoch.value).Ok? && Quote(s, s.epoch.value).value.Basis().Sound()
                && MeasureDust(s, Quote(s, s.epoch.value).value) == Err(r))))
  {
    hide Quote;
    hide Settle;
    hide MeasureDust;
    if s.epoch.Some? && Quote(s, s.epoch.value).Ok? {
      QuoteIsSound(s, s.epoch.value);
    }
  }

  lemma FinalizeIsReal(s: State)
    requires Inv(s) && SupplyFits(s) && Finalize(s).Err? && s.config.Valid()
    ensures ExplainsFinalize(s, Finalize(s).error) || Finalize(s).error == ArithmeticOverflow
  {
    hide Inv;
    hide Finalize;
    hide Redeemed;
    hide Minted;
    hide Backing;
    hide Shares;
    hide Exposed;
    hide Quote;
    hide Settle;
    hide MeasureDust;
    FinalizeFails(s);
    FinalizeIsClean(s);
    if s.epoch.Some? {
      var e := s.epoch.value;
      QuoteIs(s, e);
      BasisIs(s, e);
      if Quote(s, e).Err? {
        OrderedIn(s);
        QuoteIsReal(s, e);
      } else {
        var q := Quote(s, e).value;
        DustIsMeasurable(s, e);
        PendingBounds(s, e);
        if Settle(s, q).Err? {
          SettleFails(s, q);
        }
      }
    }
  }

  lemma SettleFails(s: State, q: EpochTerms)
    requires Settle(s, q).Err?
    ensures Settle(s, q).error == InsufficientRedemptionLiquidity ==> s.buckets.idleBacking < q.redeemAssets
    ensures Settle(s, q).error in {InsufficientRedemptionLiquidity, ArithmeticOverflow, ArithmeticUnderflow}
  {
    hide Fit;
    SumsFail();
  }

  lemma QuoteIsReal(s: State, e: Epoch)
    requires Quote(s, e).Err? && s.config.Valid() && e.virtualAssets == 1 && e.virtualShares == Offset(s.config)
    ensures Quote(s, e).error == RemoteValuationRequired ==> SettlementBasis(s, e).Err?
    ensures Quote(s, e).error == RemoteValuationRequired || Quote(s, e).error == ArithmeticOverflow
  {
    QuoteIsClean(s, e);
    hide SettlementBasis;
    hide Floor;
    hide Times;
  }

  /** In a reachable state an operation is refused for a reason that holds, or because a number would not fit. */
  lemma RefusalIsReal(s: State, op: Operation)
    requires Inv(s) && SupplyFits(s) && Step(s, op).Err?
    ensures s.config.Valid()
    ensures Explains(s, op, Step(s, op).error) || Step(s, op).error == ArithmeticOverflow
  {
    hide Inv;
    hide Step;
    hide Explains;
    OrderedIn(s);
    NoInternalRefusals(s, op);
    hide IsInternal;
    if IsHolders(op) {
      HolderIsReal(s, op);
    } else if IsAdmin(op) {
      AdminIsReal(s, op);
    } else if op.BeginAllocate? || op.BeginRecover? {
      StartIsReal(s, op);
    } else if IsTransfer(op) {
      TransferIsReal(s, op);
    } else if !IsLocal(op) {
      RecallIsReal(s, op);
    } else {
      SettlementIsReal(s, op);
    }
  }

  lemma SettlementIsReal(s: State, op: Operation)
    requires Inv(s) && SupplyFits(s) && op.FinalizeEpoch? && Step(s, op).Err? && s.config.Valid()
    ensures IsReal(s, op, Step(s, op).error)
  {
    hide Inv;
    hide Finalize;
    hide ExplainsFinalize;
    FinalizeIsReal(s);
  }
}
