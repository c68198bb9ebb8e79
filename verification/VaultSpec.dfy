/** What every vault operation does, as a function from state to state. */
module VaultSpec {
  import opened Results
  import opened Words
  import opened Amounts
  import opened Pricing
  import opened Sums
  import opened VaultState

  datatype Operation =
    | RequestDeposit(account: AccountId, assets: U128)
    | CancelDeposit(account: AccountId)
    | RequestRedeem(account: AccountId, shares: U128)
    | CancelRedeem(account: AccountId)
    | CutoffEpoch(now: Timestamp)
    | FinalizeEpoch
    | AbortEpoch(actor: AccountId)
    | ClaimDeposit(account: AccountId, epoch: EpochId)
    | ClaimRedeem(account: AccountId, epoch: EpochId)
    | ClaimAbortedDeposit(account: AccountId, epoch: EpochId)
    | ClaimAbortedRedeem(account: AccountId, epoch: EpochId)
    | OpenNextEpoch(now: Timestamp)
    | Pause(actor: AccountId)
    | Unpause(actor: AccountId)
    | Freeze(actor: AccountId)
    | BeginAllocate(actor: AccountId, transferId: TransferId, amount: U128)
    | CompleteAllocation(transferId: TransferId, reportedValue: U128)
    | BeginRecall(actor: AccountId, transferId: TransferId, amount: U128)
    | AcceptRecallSent(transferId: TransferId, principal: U128, actual: U128, loss: U128)
    | ObserveInbound(amount: U128)
    | ApplyRemoteValuation(reportedValue: U128, newlyRealizedLoss: U128)
    | LockRemoteValuation
    | RequestClose(actor: AccountId, transferId: TransferId)
    | SettleClose(transferId: TransferId, credited: U128)
    | BeginRecover(actor: AccountId, transferId: TransferId)
    | SettleRecover(transferId: TransferId, credited: U128)

  ghost function Step(s: State, op: Operation): Refusable<State> {
    match op
    case RequestDeposit(account, assets) => MakeRequest(s, Deposits, account, assets)
    case CancelDeposit(account) => CancelRequest(s, Deposits, account)
    case RequestRedeem(account, shares) => MakeRequest(s, Redemptions, account, shares)
    case CancelRedeem(account) => CancelRequest(s, Redemptions, account)
    case CutoffEpoch(now) => Cutoff(s, now)
    case FinalizeEpoch => Finalize(s)
    case AbortEpoch(actor) => Abort(s, actor)
    case ClaimDeposit(account, epoch) => Claim(s, Deposits, account, epoch)
    case ClaimRedeem(account, epoch) => Claim(s, Redemptions, account, epoch)
    case ClaimAbortedDeposit(account, epoch) => ClaimRefund(s, Deposits, account, epoch)
    case ClaimAbortedRedeem(account, epoch) => ClaimRefund(s, Redemptions, account, epoch)
    case OpenNextEpoch(now) => OpenNext(s, now)
    case Pause(actor) => PauseVault(s, actor)
    case Unpause(actor) => UnpauseVault(s, actor)
    case Freeze(actor) => FreezeVault(s, actor)
    case BeginAllocate(actor, id, amount) => StartAllocation(s, actor, id, amount)
    case CompleteAllocation(id, value) => FinishAllocation(s, id, value)
    case BeginRecall(actor, id, amount) => StartRecall(s, actor, id, amount)
    case AcceptRecallSent(id, principal, actual, loss) => AcceptNotice(s, id, principal, actual, loss)
    case ObserveInbound(amount) => Observe(s, amount)
    case ApplyRemoteValuation(value, loss) => Revalue(s, value, loss)
    case LockRemoteValuation => LockValuation(s)
    case RequestClose(actor, id) => AskClose(s, actor, id)
    case SettleClose(id, credited) => CloseAllocation(s, id, credited)
    case BeginRecover(actor, id) => StartRecovery(s, actor, id)
    case SettleRecover(id, credited) => FinishRecovery(s, id, credited)
  }

  /** The state after one attempt; a refused attempt changes nothing. */
  ghost function Next(s: State, op: Operation): State {
    match Step(s, op)
    case Ok(t) => t
    case Err(_) => s
  }

  ghost function Run(s: State, ops: seq<Operation>): State
    decreases |ops|
  {
    if ops == [] then s else Run(Next(s, ops[0]), ops[1..])
  }

  /** No step of the run is refused. */
  ghost predicate AllAccepted(s: State, ops: seq<Operation>)
    decreases |ops|
  {
    ops == [] || (Step(s, ops[0]).Ok? && AllAccepted(Next(s, ops[0]), ops[1..]))
  }

  // Guards.

  function RequireActive(s: State): Check<Rejection> {
    Need(s.mode == Active, InvalidVaultState)
  }

  function RequireOpenEpoch(s: State): Refusable<Epoch> {
    if s.epoch.None? then Err(EpochNotOpen)
    else if s.epoch.value.phase == CutOff then Err(EpochAlreadyCutOff)
    else Ok(s.epoch.value)
  }

  function CurrentEpoch(s: State): Refusable<Epoch> {
    if s.epoch.None? then Err(EpochNotOpen) else Ok(s.epoch.value)
  }

  function RequireAdmin(s: State, actor: AccountId): Check<Rejection> {
    Need(actor == s.authority.admin, UnauthorizedActor)
  }

  function RequireGuardianOrAdmin(s: State, actor: AccountId): Check<Rejection> {
    Need(actor == s.authority.admin || actor == s.authority.guardian, UnauthorizedActor)
  }

  function RequireFreshTransfer(s: State, id: TransferId): Check<Rejection> {
    if id == 0 then Err(ZeroAmount)
    else if id in s.usedTransferIds then Err(TransferIdReused)
    else Ok(())
  }

  function RequireNoCycle(s: State): Check<Rejection> {
    Need(s.activeCycle == NoCycle, ActiveTransferExists)
  }

  // Genesis.

  datatype Genesis = Genesis(
    config: Config, authority: Authority, accounts: seq<(AccountId, U128)>,
    unattributedBalance: U128, openedAt: Timestamp)

  datatype Ledger = Ledger(accounts: map<AccountId, Account>, supply: U128)

  /** Records genesis accounts one by one on top of what is already recorded. */
  function Enrol(book: Ledger, entries: seq<(AccountId, U128)>): Refusable<Ledger>
    decreases |entries|
  {
    if entries == [] then Ok(book) else
      var _ :- Need(entries[0].0 !in book.accounts, DuplicateAccount);
      var supply :- CheckedAdd(book.supply, entries[0].1);
      Enrol(Ledger(book.accounts[entries[0].0 := Account(entries[0].1, 0)], supply), entries[1..])
  }

  function FreshEpoch(config: Config, id: EpochId, now: Timestamp, cutoffAt: Timestamp, virtualShares: U128): Epoch {
    Epoch(id, now, cutoffAt, config.version, config.assetDecimals, config.shareDecimals,
          1, virtualShares, Open, 0, 0)
  }

  function AddSeconds(t: Timestamp, seconds: U64): Refusable<Timestamp> {
    if t + seconds < LIMIT64 then Ok(t + seconds) else Err(ArithmeticOverflow)
  }

  function NextId(id: EpochId): Refusable<EpochId> {
    if id + 1 < LIMIT64 then Ok(id + 1) else Err(ArithmeticOverflow)
  }

  function Initial(g: Genesis): Refusable<State> {
    var _ :- Need(g.config.Valid(), InvalidConfiguration);
    var virtualShares :- VirtualSharesFor(g.config.assetDecimals, g.config.shareDecimals);
    var book :- Enrol(Ledger(map[], g.unattributedBalance), g.accounts);
    var cutoffAt :- AddSeconds(g.openedAt, g.config.epochDuration);
    Ok(State(
         g.config, g.authority, Active,
         Some(FreshEpoch(g.config, 0, g.openedAt, cutoffAt, virtualShares)), 1, g.openedAt,
         map[], book.accounts, map[], map[],
         EMPTY_BUCKETS.(unattributedBalance := g.unattributedBalance),
         0, 0, 0, 0, book.supply, 0, 0, 0, 0, 0,
         0, 0, NoCycle, 0, 0, false, 0, 0, 0, {}, map[]))
  }

  // Requests.

  function MakeRequest(s: State, side: Side, account: AccountId, amount: U128): Refusable<State> {
    var _ :- RequireActive(s);
    var epoch :- RequireOpenEpoch(s);
    var _ :- Need(amount != 0, ZeroAmount);
    var _ :- Need(s.config.Minimum(side) <= amount, AmountBelowMinimum);
    var key := RequestKey(epoch.id, account);
    var entry := if key in s.Requests(side) then s.Requests(side)[key] else NO_REQUEST;
    var _ :- Need(!entry.claimed, RequestAlreadySettled);
    var remaining :- CheckedSub(s.Balance(account, side), amount).OrElse(side.ShortBalance());
    var escrow :- CheckedAdd(s.Escrow(side), amount);
    var pending :- CheckedAdd(epoch.Pending(side), amount);
    var total :- CheckedAdd(entry.amount, amount);
    Ok(s.WithBalance(account, side, remaining)
        .WithEscrow(side, escrow)
        .WithRequest(side, key, entry.(amount := total, cancelled := false))
        .(epoch := Some(epoch.WithPending(side, pending))))
  }

  function CancelRequest(s: State, side: Side, account: AccountId): Refusable<State> {
    var _ :- Need(s.mode != Frozen, InvalidVaultState);
    var epoch :- CurrentEpoch(s);
    var _ :- Need(epoch.phase == Open, CancellationAfterCutoff);
    var key := RequestKey(epoch.id, account);
    if key !in s.Requests(side) then Err(RequestNotFound) else
      var request := s.Requests(side)[key];
      var _ :- Need(!request.claimed, RequestAlreadySettled);
      var _ :- Need(request.IsActive(), RequestAlreadyCancelled);
      var escrow :- CheckedSub(s.Escrow(side), request.amount);
      var pending :- CheckedSub(epoch.Pending(side), request.amount);
      var returned :- CheckedAdd(s.Balance(account, side), request.amount);
      var cancelledTotal :- CheckedAdd(request.cancelledAmount, request.amount);
      Ok(s.WithBalance(account, side, returned)
          .WithEscrow(side, escrow)
          .WithRequest(side, key, request.(amount := 0, cancelledAmount := cancelledTotal, cancelled := true))
          .(epoch := Some(epoch.WithPending(side, pending))))
  }

  // Settlement.

  function Cutoff(s: State, now: Timestamp): Refusable<State> {
    var _ :- RequireActive(s);
    var epoch :- RequireOpenEpoch(s);
    var _ :- Need(epoch.cutoffAt <= now, CutoffNotReached);
    Ok(s.(epoch := Some(epoch.(phase := CutOff))))
  }

  /** The price basis of a settlement: current backing, or the locked valuation under remote exposure. */
  function SettlementBasis(s: State, epoch: Epoch): Refusable<PricingBasis> {
    if !s.HasRemoteExposure() then
      Ok(PricingBasis(s.ManagedBacking(), s.totalShareSupply, epoch.virtualAssets, epoch.virtualShares))
    else if epoch.id in s.epochValuationLocked then
      Ok(PricingBasis(s.epochValuationLocked[epoch.id], s.totalShareSupply, epoch.virtualAssets, epoch.virtualShares))
    else
      Err(RemoteValuationRequired)
  }

  /** Prices the pending requests of an epoch. Dust is measured later. */
  function Quote(s: State, epoch: Epoch): Refusable<EpochTerms> {
    var basis :- SettlementBasis(s, epoch);
    var paid :- SharesToAssets(epoch.pendingRedeemShares, basis);
    var minted :- AssetsToShares(epoch.pendingDepositAssets, basis);
    Ok(EpochTerms(
         epoch.id, epoch.configVersion, epoch.cutoffAt,
         basis.totalAssets, basis.totalSupply, basis.virtualAssets, basis.virtualShares,
         epoch.pendingDepositAssets, minted, epoch.pendingRedeemShares, paid, 0, 0))
  }

  /** Moves assets and shares as the terms say. Redemptions draw on liquidity from before the epoch. */
  function Settle(s: State, terms: EpochTerms): Refusable<State> {
    var idleLeft :- CheckedSub(s.buckets.idleBacking, terms.redeemAssets).OrElse(InsufficientRedemptionLiquidity);
    var idle :- CheckedAdd(idleLeft, terms.depositAssets);
    var escrow :- CheckedSub(s.buckets.pendingDepositEscrow, terms.depositAssets);
    var reserve :- CheckedAdd(s.buckets.claimReserve, terms.redeemAssets);
    var raised :- CheckedAdd(s.totalShareSupply, terms.mintedShares);
    var supply :- CheckedSub(raised, terms.redeemShares);
    var claimable :- CheckedAdd(s.claimableDepositShares, terms.mintedShares);
    var escrowed :- CheckedSub(s.escrowedRedeemShares, terms.redeemShares);
    var burned :- CheckedAdd(s.burnedRedemptionShares, terms.redeemShares);
    Ok(s.(buckets := s.buckets.(idleBacking := idle, pendingDepositEscrow := escrow, claimReserve := reserve),
       totalShareSupply := supply, claimableDepositShares := claimable,
       escrowedRedeemShares := escrowed, burnedRedemptionShares := burned))
  }

  /** Records what the aggregates keep after every single claim is rounded down. */
  ghost function MeasureDust(s: State, terms: EpochTerms): Refusable<EpochTerms>
    requires terms.Basis().Sound()
  {
    var owedShares :- Fit(Sum(Entitled(s.depositRequests, terms, Deposits)));
    var owedAssets :- Fit(Sum(Entitled(s.redeemRequests, terms, Redemptions)));
    var depositDust :- CheckedSub(terms.mintedShares, owedShares);
    var redeemDust :- CheckedSub(terms.redeemAssets, owedAssets);
    Ok(terms.(depositDust := depositDust, redeemDust := redeemDust))
  }

  lemma QuoteIsSound(s: State, epoch: Epoch)
    requires Quote(s, epoch).Ok?
    ensures Quote(s, epoch).value.Basis() == SettlementBasis(s, epoch).value
    ensures Quote(s, epoch).value.Basis().Sound()
  {
  }

  ghost function Finalize(s: State): Refusable<State> {
    var _ :- RequireActive(s);
    var epoch :- CurrentEpoch(s);
    var _ :- Need(epoch.phase == CutOff, EpochNotCutOff);
    var _ :- Need(epoch.id !in s.epochs, EpochAlreadyFinalized);
    var quoted :- Quote(s, epoch);
    var moved :- Settle(s, quoted);
    var nextId :- NextId(epoch.id);
    QuoteIsSound(s, epoch);
    var terms :- MeasureDust(s, quoted);
    Ok(moved.(epochs := s.epochs[epoch.id := Finalized(terms)],
       lastCutoffAt := epoch.cutoffAt, nextEpochId := nextId, epoch := None))
  }

  function Abort(s: State, actor: AccountId): Refusable<State> {
    var _ :- RequireGuardianOrAdmin(s, actor);
    var _ :- Need(s.mode == Frozen, InvalidVaultState);
    var epoch :- CurrentEpoch(s);
    var _ :- Need(epoch.id !in s.epochs, EpochAlreadyFinalized);
    var nextId :- NextId(epoch.id);
    var refunds := AbortedTerms(
      epoch.id, epoch.configVersion, epoch.cutoffAt, epoch.pendingDepositAssets, epoch.pendingRedeemShares);
    Ok(s.(epochs := s.epochs[epoch.id := Aborted(refunds)],
       lastCutoffAt := epoch.cutoffAt, nextEpochId := nextId, epoch := None))
  }

  /** The request behind a claim, provided it is still outstanding. */
  function Claimant(s: State, side: Side, key: RequestKey): Refusable<Request> {
    if key !in s.Requests(side) then Err(RequestNotFound) else
      var request := s.Requests(side)[key];
      var _ :- Need(!request.cancelled, RequestAlreadyCancelled);
      var _ :- Need(!request.claimed, ClaimAlreadyConsumed);
      var _ :- Need(request.amount != 0, ClaimNotFound);
      Ok(request)
  }

  /** Pays a finalized request in the opposite kind: shares for a deposit, assets for a redemption. */
  function Claim(s: State, side: Side, account: AccountId, epoch: EpochId): Refusable<State> {
    if epoch !in s.epochs || !s.epochs[epoch].Finalized? then Err(EpochNotFinalized) else
      var key := RequestKey(epoch, account);
      var request :- Claimant(s, side, key);
      var owed :- s.epochs[epoch].terms.Owed(side, request.amount);
      var reserve :- CheckedSub(s.Reserve(side), owed);
      var credited :- CheckedAdd(s.Balance(account, side.Opposite()), owed);
      Ok(s.WithReserve(side, reserve)
          .WithBalance(account, side.Opposite(), credited)
          .WithRequest(side, key, request.(claimed := true)))
  }

  /** Returns the exact amount of a request whose epoch was aborted. */
  function ClaimRefund(s: State, side: Side, account: AccountId, epoch: EpochId): Refusable<State> {
    if epoch !in s.epochs || !s.epochs[epoch].Aborted? then Err(EpochNotAborted) else
      var key := RequestKey(epoch, account);
      var request :- Claimant(s, side, key);
      var escrow :- CheckedSub(s.Escrow(side), request.amount);
      var returned :- CheckedAdd(s.Balance(account, side), request.amount);
      Ok(s.WithEscrow(side, escrow)
          .WithBalance(account, side, returned)
          .WithRequest(side, key, request.(claimed := true)))
  }

  function OpenNext(s: State, now: Timestamp): Refusable<State> {
    var _ :- RequireActive(s);
    var _ :- Need(s.epoch.None?, EpochAlreadyOpen);
    var _ :- Need(s.lastCutoffAt <= now, TimestampNotMonotonic);
    var virtualShares :- VirtualSharesFor(s.config.assetDecimals, s.config.shareDecimals);
    var cutoffAt :- AddSeconds(now, s.config.epochDuration);
    Ok(s.(epoch := Some(FreshEpoch(s.config, s.nextEpochId, now, cutoffAt, virtualShares))))
  }

  // Administration.

  function PauseVault(s: State, actor: AccountId): Refusable<State> {
    var _ :- RequireGuardianOrAdmin(s, actor);
    var _ :- Need(s.mode == Active, InvalidVaultState);
    Ok(s.(mode := Paused))
  }

  function UnpauseVault(s: State, actor: AccountId): Refusable<State> {
    var _ :- RequireAdmin(s, actor);
    var _ :- Need(s.mode == Paused, InvalidVaultState);
    Ok(s.(mode := Active))
  }

  function FreezeVault(s: State, actor: AccountId): Refusable<State> {
    var _ :- RequireGuardianOrAdmin(s, actor);
    var _ :- Need(s.mode != Frozen, InvalidVaultState);
    Ok(s.(mode := Frozen))
  }

  // The cross-chain cycles.

  function Cleared(s: State): State {
    s.(activeCycle := NoCycle, activeTransferId := 0, activeAmount := 0, closeRequested := false)
  }

  function StartAllocation(s: State, actor: AccountId, id: TransferId, amount: U128): Refusable<State> {
    var _ :- RequireAdmin(s, actor);
    var _ :- RequireActive(s);
    var _ :- RequireOpenEpoch(s);
    var _ :- RequireNoCycle(s);
    var _ :- RequireFreshTransfer(s, id);
    var _ :- Need(amount != 0, ZeroAmount);
    var idle :- CheckedSub(s.buckets.idleBacking, amount).OrElse(InsufficientRedemptionLiquidity);
    var outbound :- CheckedAdd(s.buckets.outboundInTransit, amount);
    Ok(s.(buckets := s.buckets.(idleBacking := idle, outboundInTransit := outbound),
       usedTransferIds := s.usedTransferIds + {id},
       activeCycle := Allocating, activeTransferId := id, activeAmount := amount))
  }

  function FinishAllocation(s: State, id: TransferId, reportedValue: U128): Refusable<State> {
    if s.closeRequested then Ok(s) else
      var _ :- Need(s.activeCycle == Allocating && s.activeTransferId == id, NoActiveTransfer);
      var outbound :- CheckedSub(s.buckets.outboundInTransit, s.activeAmount);
      var cap :- CheckedAdd(s.remotePrincipalCap, s.activeAmount);
      Ok(Cleared(s.(
         buckets := s.buckets.(outboundInTransit := outbound, acceptedRemoteValue := Min(reportedValue, cap)),
         remotePrincipalCap := cap)))
  }

  function StartRecall(s: State, actor: AccountId, id: TransferId, amount: U128): Refusable<State> {
    var _ :- RequireAdmin(s, actor);
    var _ :- RequireNoCycle(s);
    var _ :- RequireFreshTransfer(s, id);
    var _ :- Need(amount != 0, ZeroAmount);
    var _ :- Need(amount <= s.remotePrincipalCap, InsufficientRemotePrincipal);
    Ok(s.(recallBaselineValue := s.buckets.acceptedRemoteValue,
       recallBaselineLoss := s.inboundCumulativeLoss,
       pendingRecallId := id, pendingRecallPrincipal := amount,
       usedTransferIds := s.usedTransferIds + {id},
       activeCycle := Recalling, activeTransferId := id, activeAmount := amount))
  }

  function AcceptNotice(s: State, id: TransferId, principal: U128, actual: U128, loss: U128): Refusable<State> {
    var _ :- Need(s.activeCycle == Recalling && s.activeTransferId == id, NoActiveTransfer);
    var _ :- Need(principal <= s.activeAmount, InvalidRecallSentAmounts);
    var sent :- CheckedAdd(actual, loss);
    var _ :- Need(sent == principal, InvalidRecallSentAmounts);
    var _ :- Need(principal <= s.remotePrincipalCap, InsufficientRemotePrincipal);
    var value := Min(s.recallBaselineValue, s.remotePrincipalCap);
    var settledLoss :- CheckedAdd(s.recallBaselineLoss, loss);
    var recognized :- CheckedAdd(s.recognizedLoss, loss);
    var waiting := Min(actual, s.buckets.unattributedInbound);
    var idle :- CheckedAdd(s.buckets.idleBacking, waiting);
    var inbound :- CheckedAdd(s.buckets.inboundInTransit, actual - waiting);
    Ok(Cleared(s.(
       buckets := s.buckets.(
         acceptedRemoteValue := value - Min(value, principal),
         unattributedInbound := s.buckets.unattributedInbound - waiting,
         idleBacking := idle,
         inboundInTransit := inbound),
       remotePrincipalCap := s.remotePrincipalCap - principal,
       recognizedLoss := recognized,
       inboundCumulativeLoss := Max(s.inboundCumulativeLoss, settledLoss),
       recallBaselineValue := 0, recallBaselineLoss := 0,
       pendingRecallId := 0, pendingRecallPrincipal := 0)))
  }

  /** Expected assets become idle; a surplus waits for a pending recall, or counts as external inflow. */
  function Observe(s: State, amount: U128): Refusable<State> {
    var _ :- Need(amount != 0, ZeroAmount);
    var attributed := Min(amount, s.buckets.inboundInTransit);
    var surplus := amount - attributed;
    var early := if s.pendingRecallPrincipal != 0 then surplus else 0;
    var foreign := surplus - early;
    var idle :- CheckedAdd(s.buckets.idleBacking, attributed);
    var waiting :- CheckedAdd(s.buckets.unattributedInbound, early);
    var inflow :- CheckedAdd(s.externalInflow, foreign);
    var balance :- CheckedAdd(s.buckets.unattributedBalance, foreign);
    Ok(s.(externalInflow := inflow,
       buckets := s.buckets.(
         idleBacking := idle,
         inboundInTransit := s.buckets.inboundInTransit - attributed,
         unattributedInbound := waiting,
         unattributedBalance := balance)))
  }

  /** During a recall only the loss realized since it began moves the value it began with. */
  function ValueDuringRecall(s: State, cumulativeLoss: U128): U128 {
    SaturatingSub(s.recallBaselineValue, SaturatingSub(cumulativeLoss, s.recallBaselineLoss))
  }

  function Revalue(s: State, reportedValue: U128, newLoss: U128): Refusable<State> {
    var cumulative :- CheckedAdd(s.inboundCumulativeLoss, newLoss);
    if s.closeRequested then Ok(s.(inboundCumulativeLoss := cumulative)) else
      var value := if s.activeCycle == Recalling then ValueDuringRecall(s, cumulative) else reportedValue;
      Ok(s.(buckets := s.buckets.(acceptedRemoteValue := Min(value, s.remotePrincipalCap)),
         inboundCumulativeLoss := cumulative))
  }

  function LockValuation(s: State): Refusable<State> {
    if s.closeRequested then Ok(s) else
      var epoch :- CurrentEpoch(s);
      var _ :- Need(epoch.phase == CutOff, EpochNotCutOff);
      var _ :- Need(epoch.id !in s.epochValuationLocked, ValuationAlreadyFixed);
      Ok(s.(epochValuationLocked := s.epochValuationLocked[epoch.id := s.ManagedBacking()]))
  }

  function AskClose(s: State, actor: AccountId, id: TransferId): Refusable<State> {
    var _ :- RequireAdmin(s, actor);
    var _ :- Need(s.activeCycle == Allocating && s.activeTransferId == id, NoActiveTransfer);
    var _ :- Need(!s.closeRequested, CloseAlreadyRequested);
    Ok(s.(closeRequested := true))
  }

  function CloseAllocation(s: State, id: TransferId, credited: U128): Refusable<State> {
    var _ :- Need(s.activeTransferId == id, NoActiveTransfer);
    var _ :- Need(s.activeCycle == Allocating && s.closeRequested, NoPendingSettlement);
    var _ :- Need(credited <= s.activeAmount, SettlementMismatch);
    var shortfall := s.activeAmount - credited;
    var outbound :- CheckedSub(s.buckets.outboundInTransit, s.activeAmount);
    var cap :- CheckedAdd(s.remotePrincipalCap, credited);
    var accepted :- CheckedAdd(s.buckets.acceptedRemoteValue, credited);
    var impaired :- CheckedAdd(s.impairedTransport, shortfall);
    var cumulative :- CheckedAdd(s.cumulativeImpairment, shortfall);
    Ok(Cleared(s.(
       buckets := s.buckets.(outboundInTransit := outbound, acceptedRemoteValue := accepted),
       remotePrincipalCap := cap, impairedTransport := impaired, cumulativeImpairment := cumulative)))
  }

  function StartRecovery(s: State, actor: AccountId, id: TransferId): Refusable<State> {
    var _ :- RequireAdmin(s, actor);
    var _ :- RequireNoCycle(s);
    var _ :- RequireFreshTransfer(s, id);
    var _ :- Need(s.impairedTransport != 0, NothingToRecover);
    Ok(s.(usedTransferIds := s.usedTransferIds + {id},
       activeCycle := Recovering, activeTransferId := id, activeAmount := 0))
  }

  function FinishRecovery(s: State, id: TransferId, credited: U128): Refusable<State> {
    var _ :- Need(s.activeTransferId == id, NoActiveTransfer);
    var _ :- Need(s.activeCycle == Recovering, NoPendingSettlement);
    var _ :- Need(credited <= s.impairedTransport, SettlementMismatch);
    var cap :- CheckedAdd(s.remotePrincipalCap, credited);
    var accepted :- CheckedAdd(s.buckets.acceptedRemoteValue, credited);
    Ok(Cleared(s.(
       buckets := s.buckets.(acceptedRemoteValue := accepted),
       remotePrincipalCap := cap, impairedTransport := s.impairedTransport - credited)))
  }
}
