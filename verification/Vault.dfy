/** The vault as it runs: one object whose operations update its fields step by step. */
module VaultMachine {
  import opened Results
  import opened Words
  import opened Amounts
  import opened Pricing
  import opened VaultState
  import opened VaultSpec
  import opened VaultInvariant
  import opened VaultFrames
  import opened VaultPreservation
  import opened VaultRefusals
  import opened VaultTally

  /** The outcome of a mutating operation agrees with its specification. */
  ghost predicate Agrees(r: Refusable<()>, expected: Refusable<State>, after: State) {
    match r
    case Ok(_) => expected == Ok(after)
    case Err(reason) => expected == Err(reason)
  }

  class Vault {
    var state: State

    constructor (s: State)
      ensures state == s
    {
      state := s;
    }

    /** Builds a vault from genesis inputs. */
    static method Open(g: Genesis) returns (r: Refusable<Vault>)
      ensures r.Ok? ==> fresh(r.value) && Initial(g) == Ok(r.value.state) && Inv(r.value.state)
      ensures r.Err? ==> Initial(g) == Err(r.error)
    {
      hide Inv;
      if Initial(g).Ok? {
        GenesisEstablishes(g);
      }
      var _ :- Need(g.config.Valid(), InvalidConfiguration);
      var virtualShares :- VirtualSharesFor(g.config.assetDecimals, g.config.shareDecimals);
      var accounts: map<AccountId, Account> := map[];
      var supply := g.unattributedBalance;
      var i := 0;
      while i < |g.accounts|
        invariant 0 <= i <= |g.accounts|
        invariant Enrol(Ledger(map[], g.unattributedBalance), g.accounts)
               == Enrol(Ledger(accounts, supply), g.accounts[i..])
      {
        var (id, assets) := g.accounts[i];
        assert g.accounts[i..][1..] == g.accounts[i + 1..];
        if id in accounts {
          return Err(DuplicateAccount);
        }
        accounts := accounts[id := Account(assets, 0)];
        supply :- CheckedAdd(supply, assets);
        i := i + 1;
      }
      var cutoffAt :- AddSeconds(g.openedAt, g.config.epochDuration);
      var vault := new Vault(State(
        g.config, g.authority, Active,
        Some(FreshEpoch(g.config, 0, g.openedAt, cutoffAt, virtualShares)), 1, g.openedAt,
        map[], accounts, map[], map[],
        EMPTY_BUCKETS.(unattributedBalance := g.unattributedBalance),
        0, 0, 0, 0, supply, 0, 0, 0, 0, 0,
        0, 0, NoCycle, 0, 0, false, 0, 0, 0, {}, map[]));
      return Ok(vault);
    }

    /**
     * Applies one operation to a copy and returns it. The receiver is never written, so a refusal
     * changes nothing. A vault in order stays in order, and is never refused for an internal reason.
     */
    method Apply(op: Operation) returns (r: Refusable<Vault>)
      ensures r.Ok? ==> fresh(r.value) && Step(state, op) == Ok(r.value.state)
      ensures r.Err? ==> Step(state, op) == Err(r.error)
      ensures Inv(state) ==> if r.Ok? then Inv(r.value.state) else !IsInternal(r.error)
    {
      hide Inv;
      hide Step;
      if Inv(state) {
        if Step(state, op).Ok? {
          StepKeeps(state, op);
        } else {
          NoInternalRefusals(state, op);
        }
      }
      var next := new Vault(state);
      var done := next.Perform(op);
      if done.Err? {
        return Err(done.error);
      }
      return Ok(next);
    }

    method Perform(op: Operation) returns (r: Refusable<()>)
      modifies this
      ensures Agrees(r, Step(old(state), op), state)
    {
      hide Agrees;
      hide MakeRequest;
      hide CancelRequest;
      hide Finalize;
      hide Claim;
      hide ClaimRefund;
      hide AcceptNotice;
      hide Observe;
      hide Cutoff;
      hide Abort;
      hide OpenNext;
      hide PauseVault;
      hide UnpauseVault;
      hide FreezeVault;
      hide StartAllocation;
      hide FinishAllocation;
      hide StartRecall;
      hide Revalue;
      hide LockValuation;
      hide AskClose;
      hide CloseAllocation;
      hide StartRecovery;
      hide FinishRecovery;
      match op
      case RequestDeposit(account, assets) => r := RequestDeposit(account, assets);
      case CancelDeposit(account) => r := CancelDeposit(account);
      case RequestRedeem(account, shares) => r := RequestRedeem(account, shares);
      case CancelRedeem(account) => r := CancelRedeem(account);
      case CutoffEpoch(now) => r := Commit(Cutoff(state, now));
      case FinalizeEpoch => r := FinalizeEpoch();
      case AbortEpoch(actor) => r := Commit(Abort(state, actor));
      case ClaimDeposit(account, id) => r := ClaimDeposit(account, id);
      case ClaimRedeem(account, id) => r := ClaimRedeem(account, id);
      case ClaimAbortedDeposit(account, id) => r := ClaimAbortedDeposit(account, id);
      case ClaimAbortedRedeem(account, id) => r := ClaimAbortedRedeem(account, id);
      case OpenNextEpoch(now) => r := Commit(OpenNext(state, now));
      case Pause(actor) => r := Commit(PauseVault(state, actor));
      case Unpause(actor) => r := Commit(UnpauseVault(state, actor));
      case Freeze(actor) => r := Commit(FreezeVault(state, actor));
      case _ => r := PerformRemote(op);
    }

    method PerformRemote(op: Operation) returns (r: Refusable<()>)
      requires !IsLocal(op)
      modifies this
      ensures Agrees(r, Step(old(state), op), state)
    {
      hide Agrees;
      hide MakeRequest;
      hide CancelRequest;
      hide Finalize;
      hide Claim;
      hide ClaimRefund;
      hide AcceptNotice;
      hide Observe;
      hide Cutoff;
      hide Abort;
      hide OpenNext;
      hide PauseVault;
      hide UnpauseVault;
      hide FreezeVault;
      hide StartAllocation;
      hide FinishAllocation;
      hide StartRecall;
      hide Revalue;
      hide LockValuation;
      hide AskClose;
      hide CloseAllocation;
      hide StartRecovery;
      hide FinishRecovery;
      match op
      case BeginAllocate(actor, id, amount) => r := Commit(StartAllocation(state, actor, id, amount));
      case CompleteAllocation(id, value) => r := Commit(FinishAllocation(state, id, value));
      case BeginRecall(actor, id, amount) => r := Commit(StartRecall(state, actor, id, amount));
      case AcceptRecallSent(id, principal, actual, loss) => r := AcceptRecallSent(id, principal, actual, loss);
      case ObserveInbound(amount) => r := ObserveInbound(amount);
      case ApplyRemoteValuation(value, loss) => r := Commit(Revalue(state, value, loss));
      case LockRemoteValuation => r := Commit(LockValuation(state));
      case RequestClose(actor, id) => r := Commit(AskClose(state, actor, id));
      case SettleClose(id, credited) => r := Commit(CloseAllocation(state, id, credited));
      case BeginRecover(actor, id) => r := Commit(StartRecovery(state, actor, id));
      case SettleRecover(id, credited) => r := Commit(FinishRecovery(state, id, credited));
    }

    /** Takes over the outcome of an operation that writes all of its fields at once. */
    method Commit(outcome: Refusable<State>) returns (r: Refusable<()>)
      modifies this
      ensures Agrees(r, outcome, state)
    {
      var next :- outcome;
      state := next;
      return Ok(());
    }

    // Requests.

    method RequestDeposit(account: AccountId, assets: U128) returns (r: Refusable<()>)
      modifies this
      ensures Agrees(r, MakeRequest(old(state), Deposits, account, assets), state)
    {
      var _ :- RequireActive(state);
      var current :- RequireOpenEpoch(state);
      var _ :- Need(assets != 0, ZeroAmount);
      var _ :- Need(state.config.minDepositAssets <= assets, AmountBelowMinimum);
      var key := RequestKey(current.id, account);
      if key in state.depositRequests && state.depositRequests[key].claimed {
        return Err(RequestAlreadySettled);
      }
      var holder := state.AccountOf(account);
      var remaining :- CheckedSub(holder.assets, assets).OrElse(InsufficientAssetBalance);
      var escrow :- CheckedAdd(state.buckets.pendingDepositEscrow, assets);
      var epochTotal :- CheckedAdd(current.pendingDepositAssets, assets);

      state := state.(accounts := state.accounts[account := holder.(assets := remaining)]);
      state := state.(buckets := state.buckets.(pendingDepositEscrow := escrow));
      state := state.(epoch := Some(current.(pendingDepositAssets := epochTotal)));
      var entry := if key in state.depositRequests then state.depositRequests[key] else NO_REQUEST;
      var total :- CheckedAdd(entry.amount, assets);
      state := state.(depositRequests := state.depositRequests[key := entry.(amount := total, cancelled := false)]);
      return Ok(());
    }

    method CancelDeposit(account: AccountId) returns (r: Refusable<()>)
      modifies this
      ensures Agrees(r, CancelRequest(old(state), Deposits, account), state)
    {
      var _ :- Need(state.mode != Frozen, InvalidVaultState);
      var current :- CurrentEpoch(state);
      if current.phase == CutOff {
        return Err(CancellationAfterCutoff);
      }
      var key := RequestKey(current.id, account);
      if key !in state.depositRequests {
        return Err(RequestNotFound);
      }
      var request := state.depositRequests[key];
      var _ :- Need(!request.claimed, RequestAlreadySettled);
      if request.cancelled || request.amount == 0 {
        return Err(RequestAlreadyCancelled);
      }
      var escrow :- CheckedSub(state.buckets.pendingDepositEscrow, request.amount);
      var epochTotal :- CheckedSub(current.pendingDepositAssets, request.amount);
      var holder := state.AccountOf(account);
      var returned :- CheckedAdd(holder.assets, request.amount);
      var cancelledTotal :- CheckedAdd(request.cancelledAmount, request.amount);

      state := state.(buckets := state.buckets.(pendingDepositEscrow := escrow));
      state := state.(epoch := Some(current.(pendingDepositAssets := epochTotal)));
      state := state.(accounts := state.accounts[account := holder.(assets := returned)]);
      state := state.(depositRequests := state.depositRequests[key :=
        request.(amount := 0, cancelledAmount := cancelledTotal, cancelled := true)]);
      return Ok(());
    }

    method RequestRedeem(account: AccountId, shares: U128) returns (r: Refusable<()>)
      modifies this
      ensures Agrees(r, MakeRequest(old(state), Redemptions, account, shares), state)
    {
      var _ :- RequireActive(state);
      var current :- RequireOpenEpoch(state);
      var _ :- Need(shares != 0, ZeroAmount);
      var _ :- Need(state.config.minRedeemShares <= shares, AmountBelowMinimum);
      var key := RequestKey(current.id, account);
      if key in state.redeemRequests && state.redeemRequests[key].claimed {
        return Err(RequestAlreadySettled);
      }
      var holder := state.AccountOf(account);
      var remaining :- CheckedSub(holder.shares, shares).OrElse(InsufficientShareBalance);
      var escrowed :- CheckedAdd(state.escrowedRedeemShares, shares);
      var epochTotal :- CheckedAdd(current.pendingRedeemShares, shares);

      state := state.(accounts := state.accounts[account := holder.(shares := remaining)]);
      state := state.(escrowedRedeemShares := escrowed);
      state := state.(epoch := Some(current.(pendingRedeemShares := epochTotal)));
      var entry := if key in state.redeemRequests then state.redeemRequests[key] else NO_REQUEST;
      var total :- CheckedAdd(entry.amount, shares);
      state := state.(redeemRequests := state.redeemRequests[key := entry.(amount := total, cancelled := false)]);
      return Ok(());
    }

    method CancelRedeem(account: AccountId) returns (r: Refusable<()>)
      modifies this
      ensures Agrees(r, CancelRequest(old(state), Redemptions, account), state)
    {
      var _ :- Need(state.mode != Frozen, InvalidVaultState);
      var current :- CurrentEpoch(state);
      if current.phase == CutOff {
        return Err(CancellationAfterCutoff);
      }
      var key := RequestKey(current.id, account);
      if key !in state.redeemRequests {
        return Err(RequestNotFound);
      }
      var request := state.redeemRequests[key];
      var _ :- Need(!request.claimed, RequestAlreadySettled);
      if request.cancelled || request.amount == 0 {
        return Err(RequestAlreadyCancelled);
      }
      var escrowed :- CheckedSub(state.escrowedRedeemShares, request.amount);
      var epochTotal :- CheckedSub(current.pendingRedeemShares, request.amount);
      var holder := state.AccountOf(account);
      var returned :- CheckedAdd(holder.shares, request.amount);
      var cancelledTotal :- CheckedAdd(request.cancelledAmount, request.amount);

      state := state.(escrowedRedeemShares := escrowed);
      state := state.(epoch := Some(current.(pendingRedeemShares := epochTotal)));
      state := state.(accounts := state.accounts[account := holder.(shares := returned)]);
      state := state.(redeemRequests := state.redeemRequests[key :=
        request.(amount := 0, cancelledAmount := cancelledTotal, cancelled := true)]);
      return Ok(());
    }

    // Settlement.

    method FinalizeEpoch() returns (r: Refusable<()>)
      modifies this
      ensures Agrees(r, Finalize(old(state)), state)
    {
      var _ :- RequireActive(state);
      var current :- CurrentEpoch(state);
      var _ :- Need(current.phase == CutOff, EpochNotCutOff);
      var _ :- Need(current.id !in state.epochs, EpochAlreadyFinalized);

      var basis := PricingBasis(
        state.ManagedBacking(), state.totalShareSupply, current.virtualAssets, current.virtualShares);
      if state.HasRemoteExposure() {
        if current.id !in state.epochValuationLocked {
          return Err(RemoteValuationRequired);
        }
        basis := basis.(totalAssets := state.epochValuationLocked[current.id]);
      }
      var depositAssets, redeemShares := current.pendingDepositAssets, current.pendingRedeemShares;
      var redeemAssets :- SharesToAssets(redeemShares, basis);
      var mintedShares :- AssetsToShares(depositAssets, basis);
      var terms := EpochTerms(
        current.id, current.configVersion, current.cutoffAt,
        basis.totalAssets, basis.totalSupply, basis.virtualAssets, basis.virtualShares,
        depositAssets, mintedShares, redeemShares, redeemAssets, 0, 0);
      assert Quote(state, current) == Ok(terms);
      QuoteIsSound(state, current);

      var idleLeft :- CheckedSub(state.buckets.idleBacking, redeemAssets).OrElse(InsufficientRedemptionLiquidity);
      var idle :- CheckedAdd(idleLeft, depositAssets);
      var escrow :- CheckedSub(state.buckets.pendingDepositEscrow, depositAssets);
      var reserve :- CheckedAdd(state.buckets.claimReserve, redeemAssets);
      var raised :- CheckedAdd(state.totalShareSupply, mintedShares);
      var supply :- CheckedSub(raised, redeemShares);
      var claimable :- CheckedAdd(state.claimableDepositShares, mintedShares);
      var escrowed :- CheckedSub(state.escrowedRedeemShares, redeemShares);
      var burned :- CheckedAdd(state.burnedRedemptionShares, redeemShares);
      var nextId :- NextId(current.id);

      var owed := Entitlements(state, current.id, terms);
      EntitlementsAreSums(state, terms);
      var found :- owed;
      var depositDust :- CheckedSub(mintedShares, found.depositShares);
      var redeemDust :- CheckedSub(redeemAssets, found.redeemAssets);

      state := state.(buckets := state.buckets.(idleBacking := idle));
      state := state.(buckets := state.buckets.(pendingDepositEscrow := escrow));
      state := state.(buckets := state.buckets.(claimReserve := reserve));
      state := state.(totalShareSupply := supply);
      state := state.(claimableDepositShares := claimable);
      state := state.(escrowedRedeemShares := escrowed);
      state := state.(burnedRedemptionShares := burned);
      var outcome := Finalized(terms.(depositDust := depositDust, redeemDust := redeemDust));
      state := state.(epochs := state.epochs[current.id := outcome]);
      state := state.(lastCutoffAt := current.cutoffAt);
      state := state.(nextEpochId := nextId);
      state := state.(epoch := None);
      return Ok(());
    }

    // Payouts.

    method ClaimDeposit(account: AccountId, id: EpochId) returns (r: Refusable<()>)
      modifies this
      ensures Agrees(r, Claim(old(state), Deposits, account, id), state)
    {
      if id !in state.epochs || !state.epochs[id].Finalized? {
        return Err(EpochNotFinalized);
      }
      var key := RequestKey(id, account);
      if key !in state.depositRequests {
        return Err(RequestNotFound);
      }
      var request := state.depositRequests[key];
      var _ :- Need(!request.cancelled, RequestAlreadyCancelled);
      var _ :- Need(!request.claimed, ClaimAlreadyConsumed);
      var _ :- Need(request.amount != 0, ClaimNotFound);
      var shares :- AssetsToShares(request.amount, state.epochs[id].terms.Basis());
      var claimable :- CheckedSub(state.claimableDepositShares, shares);
      var holder := state.AccountOf(account);
      var credited :- CheckedAdd(holder.shares, shares);

      state := state.(claimableDepositShares := claimable);
      state := state.(accounts := state.accounts[account := holder.(shares := credited)]);
      state := state.(depositRequests := state.depositRequests[key := request.(claimed := true)]);
      return Ok(());
    }

    method ClaimRedeem(account: AccountId, id: EpochId) returns (r: Refusable<()>)
      modifies this
      ensures Agrees(r, Claim(old(state), Redemptions, account, id), state)
    {
      if id !in state.epochs || !state.epochs[id].Finalized? {
        return Err(EpochNotFinalized);
      }
      var key := RequestKey(id, account);
      if key !in state.redeemRequests {
        return Err(RequestNotFound);
      }
      var request := state.redeemRequests[key];
      var _ :- Need(!request.cancelled, RequestAlreadyCancelled);
      var _ :- Need(!request.claimed, ClaimAlreadyConsumed);
      var _ :- Need(request.amount != 0, ClaimNotFound);
      var assets :- SharesToAssets(request.amount, state.epochs[id].terms.Basis());
      var reserve :- CheckedSub(state.buckets.claimReserve, assets);
      var holder := state.AccountOf(account);
      var credited :- CheckedAdd(holder.assets, assets);

      state := state.(buckets := state.buckets.(claimReserve := reserve));
      state := state.(accounts := state.accounts[account := holder.(assets := credited)]);
      state := state.(redeemRequests := state.redeemRequests[key := request.(claimed := true)]);
      return Ok(());
    }

    method ClaimAbortedDeposit(account: AccountId, id: EpochId) returns (r: Refusable<()>)
      modifies this
      ensures Agrees(r, ClaimRefund(old(state), Deposits, account, id), state)
    {
      if id !in state.epochs || !state.epochs[id].Aborted? {
        return Err(EpochNotAborted);
      }
      var key := RequestKey(id, account);
      if key !in state.depositRequests {
        return Err(RequestNotFound);
      }
      var request := state.depositRequests[key];
      var _ :- Need(!request.cancelled, RequestAlreadyCancelled);
      var _ :- Need(!request.claimed, ClaimAlreadyConsumed);
      var _ :- Need(request.amount != 0, ClaimNotFound);
      var escrow :- CheckedSub(state.buckets.pendingDepositEscrow, request.amount);
      var holder := state.AccountOf(account);
      var returned :- CheckedAdd(holder.assets, request.amount);

      state := state.(buckets := state.buckets.(pendingDepositEscrow := escrow));
      state := state.(accounts := state.accounts[account := holder.(assets := returned)]);
      state := state.(depositRequests := state.depositRequests[key := request.(claimed := true)]);
      return Ok(());
    }

    method ClaimAbortedRedeem(account: AccountId, id: EpochId) returns (r: Refusable<()>)
      modifies this
      ensures Agrees(r, ClaimRefund(old(state), Redemptions, account, id), state)
    {
      if id !in state.epochs || !state.epochs[id].Aborted? {
        return Err(EpochNotAborted);
      }
      var key := RequestKey(id, account);
      if key !in state.redeemRequests {
        return Err(RequestNotFound);
      }
      var request := state.redeemRequests[key];
      var _ :- Need(!request.cancelled, RequestAlreadyCancelled);
      var _ :- Need(!request.claimed, ClaimAlreadyConsumed);
      var _ :- Need(request.amount != 0, ClaimNotFound);
      var escrowed :- CheckedSub(state.escrowedRedeemShares, request.amount);
      var holder := state.AccountOf(account);
      var returned :- CheckedAdd(holder.shares, request.amount);

      state := state.(escrowedRedeemShares := escrowed);
      state := state.(accounts := state.accounts[account := holder.(shares := returned)]);
      state := state.(redeemRequests := state.redeemRequests[key := request.(claimed := true)]);
      return Ok(());
    }

    // The cross-chain cycles.

    method ClearCycle()
      modifies this
      ensures state == Cleared(old(state))
    {
      state := state.(activeCycle := NoCycle);
      state := state.(activeTransferId := 0);
      state := state.(activeAmount := 0);
      state := state.(closeRequested := false);
    }

    method SetAccepted(reportedValue: U128)
      modifies this
      ensures state == old(state).(buckets :=
        old(state).buckets.(acceptedRemoteValue := Min(reportedValue, old(state).remotePrincipalCap)))
    {
      state := state.(buckets := state.buckets.(acceptedRemoteValue :=
        if reportedValue < state.remotePrincipalCap then reportedValue else state.remotePrincipalCap));
    }

    /** Takes what already waits for a recall into idle backing and expects the rest. */
    method AttributeWaiting(actual: U128) returns (r: Refusable<()>)
      modifies this
      ensures var b := old(state).buckets;
        var waiting := Min(actual, b.unattributedInbound);
        && (r.Ok? <==> b.idleBacking + waiting < LIMIT128 && b.inboundInTransit + actual - waiting < LIMIT128)
        && (r.Err? ==> r.error == ArithmeticOverflow)
        && (r.Ok? ==> state == old(state).(buckets := b.(
              unattributedInbound := b.unattributedInbound - waiting,
              idleBacking := b.idleBacking + waiting,
              inboundInTransit := b.inboundInTransit + actual - waiting)))
    {
      var waiting := state.buckets.unattributedInbound;
      var fromUnattributed := if actual < waiting then actual else waiting;
      state := state.(buckets := state.buckets.(unattributedInbound := waiting - fromUnattributed));
      var idle :- CheckedAdd(state.buckets.idleBacking, fromUnattributed);
      state := state.(buckets := state.buckets.(idleBacking := idle));
      var inbound :- CheckedAdd(state.buckets.inboundInTransit, actual - fromUnattributed);
      state := state.(buckets := state.buckets.(inboundInTransit := inbound));
      return Ok(());
    }

    /** Settles principal and loss from the value the recall began with. */
    method SettleRecall(principal: U128, loss: U128) returns (r: Refusable<()>)
      requires principal <= state.remotePrincipalCap
      modifies this
      ensures var s := old(state);
        var value := Min(s.recallBaselineValue, s.remotePrincipalCap);
        && (r.Ok? <==> s.recallBaselineLoss + loss < LIMIT128 && s.recognizedLoss + loss < LIMIT128)
        && (r.Err? ==> r.error == ArithmeticOverflow)
        && (r.Ok? ==> state == s.(
              buckets := s.buckets.(acceptedRemoteValue := value - Min(value, principal)),
              remotePrincipalCap := s.remotePrincipalCap - principal,
              recognizedLoss := s.recognizedLoss + loss,
              inboundCumulativeLoss := Max(s.inboundCumulativeLoss, s.recallBaselineLoss + loss),
              recallBaselineValue := 0, recallBaselineLoss := 0))
    {
      var settledLoss :- CheckedAdd(state.recallBaselineLoss, loss);
      var recognized :- CheckedAdd(state.recognizedLoss, loss);
      SetAccepted(state.recallBaselineValue);
      var accepted := state.buckets.acceptedRemoteValue;
      var decrease := if accepted < principal then accepted else principal;
      state := state.(
        buckets := state.buckets.(acceptedRemoteValue := accepted - decrease),
        remotePrincipalCap := state.remotePrincipalCap - principal,
        recognizedLoss := recognized,
        inboundCumulativeLoss :=
          if settledLoss > state.inboundCumulativeLoss then settledLoss else state.inboundCumulativeLoss,
        recallBaselineValue := 0, recallBaselineLoss := 0);
      return Ok(());
    }

    method AcceptRecallSent(id: TransferId, principal: U128, actual: U128, loss: U128) returns (r: Refusable<()>)
      modifies this
      ensures Agrees(r, AcceptNotice(old(state), id, principal, actual, loss), state)
    {
      if state.activeCycle != Recalling {
        return Err(NoActiveTransfer);
      }
      if state.activeTransferId != id {
        return Err(NoActiveTransfer);
      }
      var _ :- Need(principal <= state.activeAmount, InvalidRecallSentAmounts);
      var sent :- CheckedAdd(actual, loss);
      var _ :- Need(sent == principal, InvalidRecallSentAmounts);
      var _ :- Need(principal <= state.remotePrincipalCap, InsufficientRemotePrincipal);
      var _ :- SettleRecall(principal, loss);
      var _ :- AttributeWaiting(actual);
      state := state.(pendingRecallId := 0);
      state := state.(pendingRecallPrincipal := 0);
      ClearCycle();
      return Ok(());
    }

    method ObserveInbound(amount: U128) returns (r: Refusable<()>)
      modifies this
      ensures Agrees(r, Observe(old(state), amount), state)
    {
      var _ :- Need(amount != 0, ZeroAmount);
      var remaining := amount;
      if state.buckets.inboundInTransit != 0 {
        var attributed :=
          if remaining < state.buckets.inboundInTransit then remaining else state.buckets.inboundInTransit;
        state := state.(buckets := state.buckets.(inboundInTransit := state.buckets.inboundInTransit - attributed));
        var idle :- CheckedAdd(state.buckets.idleBacking, attributed);
        state := state.(buckets := state.buckets.(idleBacking := idle));
        remaining := remaining - attributed;
      }
      if remaining == 0 {
        return Ok(());
      }
      if state.pendingRecallPrincipal != 0 {
        var waiting :- CheckedAdd(state.buckets.unattributedInbound, remaining);
        state := state.(buckets := state.buckets.(unattributedInbound := waiting));
      } else {
        var externalInflowAfter :- CheckedAdd(state.externalInflow, remaining);
        state := state.(externalInflow := externalInflowAfter);
        var balance :- CheckedAdd(state.buckets.unattributedBalance, remaining);
        state := state.(buckets := state.buckets.(unattributedBalance := balance));
      }
      return Ok(());
    }

  }
}
