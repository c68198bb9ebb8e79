/**
 * What no run undoes: outcomes, locked valuations, a frozen mode, the requests of an epoch after its cutoff,
 * and the amounts of an allocation or a recovery until it settles.
 */
module VaultHistory {
  import opened Results
  import opened Words
  import opened Amounts
  import opened Pricing
  import opened VaultState
  import opened VaultSpec
  import opened VaultInvariant
  import opened VaultFrames
  import opened VaultPreservation

  /** A settlement records one outcome, for what the current epoch has pending, and opens nothing. */
  ghost predicate Settles(s: State, t: State) {
    && s.epoch.Some? && s.epoch.value.id !in s.epochs && s.mode == Active && s.epoch.value.phase == CutOff
    && var id := s.epoch.value.id;
    && id in t.epochs && t.epochs[id].Finalized? && t.epochs == s.epochs[id := t.epochs[id]]
    && t.epochs[id].terms.depositAssets == s.epoch.value.pendingDepositAssets
    && t.epochs[id].terms.redeemShares == s.epoch.value.pendingRedeemShares
    && SettlementBasis(s, s.epoch.value) == Ok(t.epochs[id].terms.Basis())
    && t.epoch.None? && t.nextEpochId == id + 1 && t.mode == s.mode && t.config == s.config
    && t.depositRequests == s.depositRequests && t.redeemRequests == s.redeemRequests
  }

  lemma FinalizeSettles(s: State)
    requires Finalize(s).Ok?
    ensures Settles(s, Finalize(s).value)
  {
    hide Settle;
    hide AssetsToShares;
    hide SharesToAssets;
    hide MeasureDust;
    QuoteIsSound(s, s.epoch.value);
    SettlesNoRequests(s, Quote(s, s.epoch.value).value);
    DustKeepsTerms(s, Quote(s, s.epoch.value).value);
  }

  lemma SettlementSettles(s: State, op: Operation)
    requires op.FinalizeEpoch? && Step(s, op).Ok?
    ensures Settles(s, Step(s, op).value)
  {
    hide MakeRequest;
    hide CancelRequest;
    hide Claim;
    hide ClaimRefund;
    hide Finalize;
    hide Cutoff;
    hide Abort;
    hide OpenNext;
    hide PauseVault;
    hide UnpauseVault;
    hide FreezeVault;
    hide StartAllocation;
    hide FinishAllocation;
    hide StartRecall;
    hide AcceptNotice;
    hide Observe;
    hide Revalue;
    hide LockValuation;
    hide AskClose;
    hide CloseAllocation;
    hide StartRecovery;
    hide FinishRecovery;
    hide Settles;
    FinalizeSettles(s);
  }

  lemma SettlesNoRequests(s: State, terms: EpochTerms)
    requires Settle(s, terms).Ok?
    ensures var t := Settle(s, terms).value;
      && t.mode == s.mode && t.config == s.config
      && t.depositRequests == s.depositRequests && t.redeemRequests == s.redeemRequests
  {
  }

  // Outcomes are final.

  /** Outcomes that were there are still there, and new ones are for the frontier or later. */
  ghost predicate OutcomesKept(s: State, t: State) {
    && Frontier(s) <= Frontier(t)
    && (forall id :: id in s.epochs ==> id in t.epochs && t.epochs[id] == s.epochs[id])
    && (forall id :: id in t.epochs && id !in s.epochs ==> Frontier(s) <= id)
  }

  lemma HoldersKeepOutcomes(s: State, op: Operation)
    requires IsHolders(op) && Step(s, op).Ok?
    ensures Step(s, op).value.epochs == s.epochs && Step(s, op).value.mode == s.mode
    ensures Frontier(Step(s, op).value) == Frontier(s)
  {
    hide Step;
    HolderFrame(s, op);
  }

  lemma OutcomeStep(s: State, op: Operation)
    requires EpochsOrdered(s)
    ensures OutcomesKept(s, Next(s, op))
  {
    hide Step;
    if !IsLocal(op) {
      RemoteKeepsBooks(s, op);
    } else if Step(s, op).Ok? {
      if IsHolders(op) {
        HoldersKeepOutcomes(s, op);
      } else if IsAdmin(op) {
        AdminMoves(s, op);
      } else {
        SettlementSettles(s, op);
      }
    }
  }

  /** Once an epoch has an outcome, no run changes it, and no later epoch gets an earlier id. */
  lemma {:induction false} OutcomesAreFinal(s: State, ops: seq<Operation>)
    requires Inv(s)
    ensures OutcomesKept(s, Run(s, ops))
    decreases |ops|
  {
    hide Inv;
    hide Next;
    if ops != [] {
      OrderedIn(s);
      OutcomeStep(s, ops[0]);
      NextKeeps(s, ops[0]);
      OutcomesAreFinal(Next(s, ops[0]), ops[1..]);
    }
  }

  /** A new epoch gets an id no outcome has, and the window the configuration says. */
  lemma NextEpochIsNew(s: State, now: Timestamp)
    requires Inv(s) && OpenNext(s, now).Ok?
    ensures var t := OpenNext(s, now).value;
      && t.epoch.Some? && t.epoch.value.id !in t.epochs && forall id :: id in t.epochs ==> id < t.epoch.value.id
    ensures var e := OpenNext(s, now).value.epoch.value;
      && s.lastCutoffAt <= e.openedAt == now < e.cutoffAt == now + s.config.epochDuration && e.phase == Open
      && e.configVersion == s.config.version
      && e.assetDecimals == s.config.assetDecimals && e.shareDecimals == s.config.shareDecimals
      && e.pendingDepositAssets == 0 && e.pendingRedeemShares == 0
      && forall k: RequestKey :: k.epoch == e.id ==> k !in s.depositRequests && k !in s.redeemRequests
  {
    hide EscrowExplained;
    hide ClaimsExplained;
    hide Held;
    hide Pow10;
  }

  // A frozen vault.

  /** Frozen: no epoch settles and no share is minted or burned. */
  ghost predicate StaysFrozen(s: State, t: State) {
    && t.mode == Frozen && t.totalShareSupply == s.totalShareSupply
    && (forall id :: id in t.epochs && t.epochs[id].Finalized? ==> id in s.epochs && s.epochs[id] == t.epochs[id])
  }

  lemma FrozenStep(s: State, op: Operation)
    requires s.mode == Frozen
    ensures StaysFrozen(s, Next(s, op))
  {
    hide Step;
    if !IsLocal(op) {
      RemoteKeepsBooks(s, op);
    } else if Step(s, op).Ok? {
      if IsHolders(op) {
        HolderFrame(s, op);
      } else if IsAdmin(op) {
        AdminMoves(s, op);
      } else {
        SettlementSettles(s, op);
        assert false;
      }
    }
  }

  /** Freezing cannot be undone, and stops settlement for good. */
  lemma {:induction false} FrozenForever(s: State, ops: seq<Operation>)
    requires s.mode == Frozen
    ensures StaysFrozen(s, Run(s, ops))
    decreases |ops|
  {
    hide Next;
    if ops != [] {
      FrozenStep(s, ops[0]);
      FrozenForever(Next(s, ops[0]), ops[1..]);
    }
  }

  /** So a freeze is for good, whoever asks for what afterwards. */
  lemma FreezeHolds(s: State, actor: AccountId, ops: seq<Operation>)
    requires FreezeVault(s, actor).Ok?
    ensures StaysFrozen(s, Run(FreezeVault(s, actor).value, ops))
    ensures FreezeVault(s, actor).value == s.(mode := Frozen)
  {
    FrozenForever(FreezeVault(s, actor).value, ops);
  }

  // A paused vault.

  /** Paused: no epoch opens, is cut off or ends, no request is taken, no share is minted or burned. */
  ghost predicate StaysPaused(s: State, t: State) {
    && t.mode == Paused && t.authority == s.authority
    && t.epochs == s.epochs && t.nextEpochId == s.nextEpochId && t.totalShareSupply == s.totalShareSupply
    && t.depositRequests.Keys == s.depositRequests.Keys && t.redeemRequests.Keys == s.redeemRequests.Keys
    && t.epoch.Some? == s.epoch.Some?
    && (s.epoch.Some? ==>
          && t.epoch.value == s.epoch.value.(
               pendingDepositAssets := t.epoch.value.pendingDepositAssets,
               pendingRedeemShares := t.epoch.value.pendingRedeemShares)
          && t.epoch.value.pendingDepositAssets <= s.epoch.value.pendingDepositAssets
          && t.epoch.value.pendingRedeemShares <= s.epoch.value.pendingRedeemShares)
  }

  lemma CancelWhilePaused(s: State, side: Side, account: AccountId)
    requires s.mode == Paused && CancelRequest(s, side, account).Ok?
    ensures StaysPaused(s, CancelRequest(s, side, account).value)
  {
  }

  lemma ClaimWhilePaused(s: State, side: Side, account: AccountId, epoch: EpochId)
    requires s.mode == Paused && Claim(s, side, account, epoch).Ok?
    ensures StaysPaused(s, Claim(s, side, account, epoch).value)
  {
    hide AssetsToShares;
    hide SharesToAssets;
  }

  lemma RefundWhilePaused(s: State, side: Side, account: AccountId, epoch: EpochId)
    requires s.mode == Paused && ClaimRefund(s, side, account, epoch).Ok?
    ensures StaysPaused(s, ClaimRefund(s, side, account, epoch).value)
  {
  }

  lemma HoldersWhilePaused(s: State, op: Operation)
    requires s.mode == Paused && IsHolders(op) && Step(s, op).Ok?
    ensures StaysPaused(s, Step(s, op).value)
  {
    hide CancelRequest;
    hide Claim;
    hide ClaimRefund;
    hide Finalize;
    hide Cutoff;
    hide Abort;
    hide OpenNext;
    hide PauseVault;
    hide UnpauseVault;
    hide FreezeVault;
    hide StartAllocation;
    hide FinishAllocation;
    hide StartRecall;
    hide AcceptNotice;
    hide Observe;
    hide Revalue;
    hide LockValuation;
    hide AskClose;
    hide CloseAllocation;
    hide StartRecovery;
    hide FinishRecovery;
    hide StaysPaused;
    match op
    case CancelDeposit(account) => CancelWhilePaused(s, Deposits, account);
    case CancelRedeem(account) => CancelWhilePaused(s, Redemptions, account);
    case ClaimDeposit(account, epoch) => ClaimWhilePaused(s, Deposits, account, epoch);
    case ClaimRedeem(account, epoch) => ClaimWhilePaused(s, Redemptions, account, epoch);
    case ClaimAbortedDeposit(account, epoch) => RefundWhilePaused(s, Deposits, account, epoch);
    case ClaimAbortedRedeem(account, epoch) => RefundWhilePaused(s, Redemptions, account, epoch);
  }

  lemma AdminWhilePaused(s: State, op: Operation)
    requires s.mode == Paused && IsAdmin(op) && !op.Unpause? && !op.Freeze?
    ensures Step(s, op).Err?
  {
    hide MakeRequest;
    hide CancelRequest;
    hide Claim;
    hide ClaimRefund;
    hide Finalize;
    hide UnpauseVault;
    hide FreezeVault;
    hide StartAllocation;
    hide FinishAllocation;
    hide StartRecall;
    hide AcceptNotice;
    hide Observe;
    hide Revalue;
    hide LockValuation;
    hide AskClose;
    hide CloseAllocation;
    hide StartRecovery;
    hide FinishRecovery;
  }

  lemma PausedStep(s: State, op: Operation)
    requires s.mode == Paused && !op.Unpause? && !op.Freeze?
    ensures StaysPaused(s, Next(s, op))
  {
    hide Step;
    if !IsLocal(op) {
      RemoteKeepsBooks(s, op);
    } else if IsAdmin(op) {
      AdminWhilePaused(s, op);
    } else if Step(s, op).Ok? {
      if IsHolders(op) {
        HoldersWhilePaused(s, op);
      } else {
        SettlementSettles(s, op);
        assert false;
      }
    }
  }

  lemma {:induction false} PausedRuns(s: State, ops: seq<Operation>)
    requires s.mode == Paused && forall op :: op in ops ==> !op.Unpause? && !op.Freeze?
    ensures StaysPaused(s, Run(s, ops))
    decreases |ops|
  {
    hide Next;
    if ops != [] {
      PausedStep(s, ops[0]);
      PausedRuns(Next(s, ops[0]), ops[1..]);
    }
  }

  /**
   * From a pause until it is lifted or the vault is frozen, every run keeps the epochs, takes no request and
   * leaves the supply alone. Only the administrator can lift it, at any time, and lifting it at once restores
   * the very state before the pause.
   */
  lemma PauseHolds(s: State, guardian: AccountId, ops: seq<Operation>, actor: AccountId)
    requires PauseVault(s, guardian).Ok?
    requires forall op :: op in ops ==> !op.Unpause? && !op.Freeze?
    ensures var paused := PauseVault(s, guardian).value;
      var t := Run(paused, ops);
      && StaysPaused(paused, t)
      && UnpauseVault(t, actor)
         == (if actor == s.authority.admin then Ok(t.(mode := Active)) else Err(UnauthorizedActor))
      && (ops == [] ==> t.(mode := Active) == s)
  {
    PausedRuns(PauseVault(s, guardian).value, ops);
  }

  // Locked valuations.

  ghost predicate LocksKept(s: State, t: State) {
    forall id :: id in s.epochValuationLocked ==>
      id in t.epochValuationLocked && t.epochValuationLocked[id] == s.epochValuationLocked[id]
  }

  lemma LockAdds(s: State)
    ensures LocksKept(s, Next(s, LockRemoteValuation))
  {
    hide MakeRequest;
    hide CancelRequest;
    hide Claim;
    hide ClaimRefund;
    hide Finalize;
    hide Cutoff;
    hide Abort;
    hide OpenNext;
    hide PauseVault;
    hide UnpauseVault;
    hide FreezeVault;
    hide StartAllocation;
    hide FinishAllocation;
    hide StartRecall;
    hide AcceptNotice;
    hide Observe;
    hide Revalue;
    hide AskClose;
    hide CloseAllocation;
    hide StartRecovery;
    hide FinishRecovery;
  }

  lemma LockStep(s: State, op: Operation)
    ensures LocksKept(s, Next(s, op))
  {
    hide Step;
    if IsLocal(op) {
      LocalFrame(s, op);
    } else {
      RemoteKeepsBooks(s, op);
      if op.LockRemoteValuation? {
        LockAdds(s);
      }
    }
  }

  lemma {:induction false} LocksAreFinal(s: State, ops: seq<Operation>)
    ensures LocksKept(s, Run(s, ops))
    decreases |ops|
  {
    hide Next;
    if ops != [] {
      LockStep(s, ops[0]);
      LocksAreFinal(Next(s, ops[0]), ops[1..]);
    }
  }

  /** Under remote exposure an epoch settles at the backing it was locked at, whatever ran in between. */
  lemma LockedPriceHolds(s: State, ops: seq<Operation>)
    requires LockValuation(s).Ok? && !s.closeRequested
    requires var u := Run(LockValuation(s).value, ops);
      u.epoch.Some? && u.epoch.value.id == s.epoch.value.id && u.HasRemoteExposure() && Finalize(u).Ok?
    ensures var u, id := Run(LockValuation(s).value, ops), s.epoch.value.id;
      id in Finalize(u).value.epochs && Finalize(u).value.epochs[id].Finalized?
      && Finalize(u).value.epochs[id].terms.totalAssets == s.ManagedBacking()
  {
    hide Finalize;
    LocksAreFinal(LockValuation(s).value, ops);
    FinalizeSettles(Run(LockValuation(s).value, ops));
  }

  // After the cutoff.

  /** Epoch `id` is still cut off with the same requests, or has its outcome for exactly its pending amounts. */
  ghost predicate CutoffHolds(s: State, t: State)
    requires s.epoch.Some?
  {
    var e := s.epoch.value;
    if e.id in t.epochs then
      match t.epochs[e.id]
      case Finalized(terms) =>
        terms.depositAssets == e.pendingDepositAssets && terms.redeemShares == e.pendingRedeemShares
      case Aborted(refunds) =>
        refunds.refundAssets == e.pendingDepositAssets && refunds.refundShares == e.pendingRedeemShares
    else
      && t.epoch == s.epoch
      && (forall k: RequestKey :: k.epoch == e.id ==>
            && (k in t.depositRequests <==> k in s.depositRequests)
            && (k in s.depositRequests ==> t.depositRequests[k] == s.depositRequests[k])
            && (k in t.redeemRequests <==> k in s.redeemRequests)
            && (k in s.redeemRequests ==> t.redeemRequests[k] == s.redeemRequests[k]))
  }

  lemma ClaimAfterCutoff(s: State, side: Side, account: AccountId, epoch: EpochId)
    requires s.epoch.Some? && s.epoch.value.id !in s.epochs && Claim(s, side, account, epoch).Ok?
    ensures CutoffHolds(s, Claim(s, side, account, epoch).value)
  {
    hide AssetsToShares;
    hide SharesToAssets;
  }

  lemma RefundAfterCutoff(s: State, side: Side, account: AccountId, epoch: EpochId)
    requires s.epoch.Some? && s.epoch.value.id !in s.epochs && ClaimRefund(s, side, account, epoch).Ok?
    ensures CutoffHolds(s, ClaimRefund(s, side, account, epoch).value)
  {
  }

  lemma NoRequestsAfterCutoff(s: State, side: Side, account: AccountId, amount: U128)
    requires s.epoch.Some? && s.epoch.value.phase == CutOff
    ensures MakeRequest(s, side, account, amount).Err? && CancelRequest(s, side, account).Err?
  {
  }

  lemma HoldersAfterCutoff(s: State, op: Operation)
    requires IsHolders(op) && Step(s, op).Ok? && s.epoch.Some? && s.epoch.value.phase == CutOff
    requires s.epoch.value.id !in s.epochs
    ensures CutoffHolds(s, Step(s, op).value)
  {
    hide MakeRequest;
    hide CancelRequest;
    hide Claim;
    hide ClaimRefund;
    hide Finalize;
    hide AcceptNotice;
    hide Observe;
    hide Revalue;
    hide Abort;
    hide OpenNext;
    hide CutoffHolds;
    match op
    case ClaimDeposit(account, epoch) => ClaimAfterCutoff(s, Deposits, account, epoch);
    case ClaimRedeem(account, epoch) => ClaimAfterCutoff(s, Redemptions, account, epoch);
    case ClaimAbortedDeposit(account, epoch) => RefundAfterCutoff(s, Deposits, account, epoch);
    case ClaimAbortedRedeem(account, epoch) => RefundAfterCutoff(s, Redemptions, account, epoch);
    case RequestDeposit(account, amount) => NoRequestsAfterCutoff(s, Deposits, account, amount);
    case RequestRedeem(account, amount) => NoRequestsAfterCutoff(s, Redemptions, account, amount);
    case CancelDeposit(account) => NoRequestsAfterCutoff(s, Deposits, account, 0);
    case CancelRedeem(account) => NoRequestsAfterCutoff(s, Redemptions, account, 0);
  }

  /** Nothing else touches the requests of an epoch that is cut off. */
  lemma OthersAfterCutoff(s: State, t: State)
    requires s.epoch.Some? && s.epoch.value.phase == CutOff && s.epoch.value.id !in s.epochs
    requires t == s || SameBooks(s, t) || AdminEffect(s, t) || Settles(s, t)
    ensures CutoffHolds(s, t)
  {
    hide SettlementBasis;
  }

  lemma CutoffStep(s: State, op: Operation)
    requires s.epoch.Some? && s.epoch.value.phase == CutOff && s.epoch.value.id !in s.epochs
    ensures CutoffHolds(s, Next(s, op))
  {
    hide Step;
    hide CutoffHolds;
    hide SameBooks;
    hide AdminEffect;
    hide Settles;
    if IsHolders(op) && Step(s, op).Ok? {
      HoldersAfterCutoff(s, op);
    } else {
      if !IsLocal(op) {
        RemoteKeepsBooks(s, op);
      } else if Step(s, op).Ok? && IsAdmin(op) {
        AdminMoves(s, op);
      } else if Step(s, op).Ok? {
        SettlementSettles(s, op);
      }
      OthersAfterCutoff(s, Next(s, op));
    }
  }

  /** After the cutoff no run changes the epoch's requests, and its outcome is for exactly what was pending. */
  lemma {:induction false} CutoffIsFinal(s: State, ops: seq<Operation>)
    requires Inv(s) && s.epoch.Some? && s.epoch.value.phase == CutOff && s.epoch.value.id !in s.epochs
    ensures CutoffHolds(s, Run(s, ops))
    decreases |ops|
  {
    hide Inv;
    hide Next;
    if ops != [] {
      var t := Next(s, ops[0]);
      CutoffStep(s, ops[0]);
      NextKeeps(s, ops[0]);
      if s.epoch.value.id in t.epochs {
        OutcomesAreFinal(t, ops[1..]);
      } else {
        CutoffIsFinal(t, ops[1..]);
      }
    }
  }

  /** So from the moment it is cut off, an epoch ends with exactly the requests it has. */
  lemma CutoffCloses(s: State, now: Timestamp, ops: seq<Operation>)
    requires Inv(s) && Cutoff(s, now).Ok?
    ensures var t := Cutoff(s, now).value;
      && s.epoch.Some? && t == s.(epoch := Some(s.epoch.value.(phase := CutOff)))
      && CutoffHolds(t, Run(t, ops))
  {
    hide Inv;
    hide CutoffHolds;
    NextKeeps(s, CutoffEpoch(now));
    OrderedIn(s);
    CutoffIsFinal(Cutoff(s, now).value, ops);
  }

  // Before the cutoff.

  /** Epoch `e` still takes requests, or it was aborted. */
  ghost predicate NotCutOff(e: Epoch, t: State) {
    || (&& t.epoch.Some? && t.epoch.value.id == e.id
        && t.epoch.value.phase == Open && t.epoch.value.cutoffAt == e.cutoffAt)
    || (e.id in t.epochs && t.epochs[e.id].Aborted?)
  }

  lemma OnlyCutoffCuts(s: State, op: Operation)
    requires IsAdmin(op) && Step(s, op).Ok? && s.epoch.Some?
    requires op.CutoffEpoch? ==> op.now < s.epoch.value.cutoffAt
    ensures Step(s, op).value.epoch == s.epoch || Aborts(s, Step(s, op).value)
  {
    hide MakeRequest;
    hide CancelRequest;
    hide Claim;
    hide ClaimRefund;
    hide Finalize;
    hide StartAllocation;
    hide FinishAllocation;
    hide StartRecall;
    hide AcceptNotice;
    hide Observe;
    hide Revalue;
    hide LockValuation;
    hide AskClose;
    hide CloseAllocation;
    hide StartRecovery;
    hide FinishRecovery;
    hide Pow10;
  }

  lemma EarlyStep(s: State, op: Operation)
    requires s.epoch.Some? && s.epoch.value.phase == Open
    requires op.CutoffEpoch? ==> op.now < s.epoch.value.cutoffAt
    ensures NotCutOff(s.epoch.value, Next(s, op))
  {
    hide Step;
    if !IsLocal(op) {
      RemoteKeepsBooks(s, op);
    } else if Step(s, op).Ok? {
      if IsHolders(op) {
        HolderFrame(s, op);
      } else if IsAdmin(op) {
        OnlyCutoffCuts(s, op);
      } else {
        SettlementSettles(s, op);
        assert false;
      }
    }
  }

  /**
   * An epoch takes requests until its announced cutoff: no run without a cutoff at that time or later cuts it
   * off or settles it.
   */
  lemma {:induction false} NoEarlyCutoff(s: State, ops: seq<Operation>)
    requires Inv(s) && s.epoch.Some? && s.epoch.value.phase == Open
    requires forall op :: op in ops ==> op.CutoffEpoch? ==> op.now < s.epoch.value.cutoffAt
    ensures NotCutOff(s.epoch.value, Run(s, ops))
    decreases |ops|
  {
    hide Inv;
    hide Next;
    if ops != [] {
      var t := Next(s, ops[0]);
      EarlyStep(s, ops[0]);
      NextKeeps(s, ops[0]);
      if s.epoch.value.id in t.epochs && t.epochs[s.epoch.value.id].Aborted? {
        OutcomesAreFinal(t, ops[1..]);
      } else {
        NoEarlyCutoff(t, ops[1..]);
      }
    }
  }

  // Allocations and recoveries, from their start to their settlement.

  /** Sending assets out keeps the backing. */
  lemma AllocationKeepsBacking(s: State, actor: AccountId, id: TransferId, amount: U128)
    requires StartAllocation(s, actor, id, amount).Ok?
    ensures StartAllocation(s, actor, id, amount).value.buckets.Managed() == s.buckets.Managed()
  {
  }

  predicate SameAllocation(s: State, t: State) {
    && t.activeCycle == s.activeCycle && t.activeTransferId == s.activeTransferId
    && t.activeAmount == s.activeAmount && t.closeRequested == s.closeRequested
    && t.remotePrincipalCap == s.remotePrincipalCap
    && t.buckets.outboundInTransit == s.buckets.outboundInTransit
  }

  predicate EndsAllocation(op: Operation, id: TransferId) {
    (op.CompleteAllocation? && op.transferId == id) || (op.RequestClose? && op.transferId == id)
  }

  lemma AllocationStep(s: State, op: Operation)
    requires RemoteConsistent(s) && s.activeCycle == Allocating && !s.closeRequested
    requires !EndsAllocation(op, s.activeTransferId)
    ensures SameAllocation(s, Next(s, op))
  {
    hide MakeRequest;
    hide CancelRequest;
    hide Claim;
    hide ClaimRefund;
    hide Finalize;
    hide OpenNext;
    hide Abort;
    hide Cutoff;
    hide PauseVault;
    hide UnpauseVault;
    hide FreezeVault;
    if IsLocal(op) {
      LocalFrame(s, op);
    }
  }

  lemma {:induction false} AllocationRuns(s: State, ops: seq<Operation>)
    requires Inv(s) && s.activeCycle == Allocating && !s.closeRequested
    requires forall op :: op in ops ==> !EndsAllocation(op, s.activeTransferId)
    ensures SameAllocation(s, Run(s, ops)) && Inv(Run(s, ops))
    decreases |ops|
  {
    hide Inv;
    hide Next;
    if ops != [] {
      OrderedIn(s);
      AllocationStep(s, ops[0]);
      NextKeeps(s, ops[0]);
      AllocationRuns(Next(s, ops[0]), ops[1..]);
    }
  }

  /**
   * Whatever runs between the start of an allocation and its completion, the completion raises the principal
   * cap by exactly the amount sent and replaces transit and accepted value by the report, capped. The start
   * itself keeps the backing.
   */
  lemma AllocationSettlesExactly(
    s: State, actor: AccountId, id: TransferId, amount: U128, ops: seq<Operation>, value: U128)
    requires Inv(s) && StartAllocation(s, actor, id, amount).Ok?
    requires forall op :: op in ops ==> !EndsAllocation(op, id)
    requires FinishAllocation(Run(StartAllocation(s, actor, id, amount).value, ops), id, value).Ok?
    ensures var before := Run(StartAllocation(s, actor, id, amount).value, ops);
      var t := FinishAllocation(before, id, value).value;
      && t.remotePrincipalCap == s.remotePrincipalCap + amount
      && t.buckets.outboundInTransit == 0 && t.activeCycle == NoCycle
      && t.buckets.acceptedRemoteValue == Min(value, s.remotePrincipalCap + amount)
      && t.buckets.Managed() + before.buckets.acceptedRemoteValue + amount
         == before.buckets.Managed() + t.buckets.acceptedRemoteValue
      && StartAllocation(s, actor, id, amount).value.buckets.Managed() == s.buckets.Managed()
  {
    hide Inv;
    hide Run;
    var started := StartAllocation(s, actor, id, amount).value;
    AllocationKeepsBacking(s, actor, id, amount);
    NextKeeps(s, BeginAllocate(actor, id, amount));
    OrderedIn(s);
    AllocationRuns(started, ops);
    OrderedIn(Run(started, ops));
  }

  // Reports.

  /** A report: the remote value, and the loss realized since the last one. */
  datatype Report = Report(value: U128, loss: U128)

  function TotalLoss(reports: seq<Report>): nat {
    if reports == [] then 0 else reports[0].loss + TotalLoss(reports[1..])
  }

  function Reports(reports: seq<Report>): seq<Operation> {
    if reports == [] then []
    else [ApplyRemoteValuation(reports[0].value, reports[0].loss)] + Reports(reports[1..])
  }

  lemma ReportOverwrites(s: State, a: Report, value: U128, loss: U128)
    requires s.inboundCumulativeLoss + a.loss + loss < LIMIT128
    ensures Revalue(s, a.value, a.loss).Ok?
    ensures var t := Revalue(s, a.value, a.loss).value;
      && t.inboundCumulativeLoss == s.inboundCumulativeLoss + a.loss
      && Revalue(t, value, loss) == Revalue(s, value, a.loss + loss)
  {
  }

  lemma ReportIsStep(s: State, a: Report)
    ensures Step(s, ApplyRemoteValuation(a.value, a.loss)) == Revalue(s, a.value, a.loss)
  {
  }

  /** What one report answers with: nothing moves in a closing, a recall counts losses only, otherwise the report. */
  ghost predicate Answers(s: State, t: State, value: nat, loss: nat) {
    && t == s.(buckets := s.buckets.(acceptedRemoteValue := t.buckets.acceptedRemoteValue),
               inboundCumulativeLoss := t.inboundCumulativeLoss)
    && t.inboundCumulativeLoss == s.inboundCumulativeLoss + loss
    && t.buckets.acceptedRemoteValue ==
         (if s.closeRequested then s.buckets.acceptedRemoteValue
          else if s.activeCycle != Recalling then Min(value, s.remotePrincipalCap)
          else Min(Max(s.recallBaselineValue - (s.inboundCumulativeLoss + loss - s.recallBaselineLoss), 0),
                   s.remotePrincipalCap))
  }

  lemma ReportAnswers(s: State, value: U128, loss: nat)
    requires RemoteConsistent(s) && s.inboundCumulativeLoss + loss < LIMIT128
    ensures Revalue(s, value, loss).Ok? && Answers(s, Revalue(s, value, loss).value, value, loss)
  {
  }

  /**
   * A list of reports amounts to its last one with the losses added up: earlier values leave no trace, and
   * repeating a report without a loss changes nothing.
   */
  lemma {:induction false} ReportsAddUp(s: State, reports: seq<Report>)
    requires reports != [] && s.inboundCumulativeLoss + TotalLoss(reports) < LIMIT128
    ensures AllAccepted(s, Reports(reports))
    ensures Ok(Run(s, Reports(reports))) == Revalue(s, reports[|reports| - 1].value, TotalLoss(reports))
    ensures RemoteConsistent(s) ==>
      Answers(s, Run(s, Reports(reports)), reports[|reports| - 1].value, TotalLoss(reports))
    decreases |reports|
  {
    hide Step;
    hide Revalue;
    hide RemoteConsistent;
    hide Answers;
    var a, rest := reports[0], reports[1..];
    ReportIsStep(s, a);
    if rest == [] {
      assert reports == [a];
      ReportOverwrites(s, a, a.value, 0);
      OneReport(s, a);
    } else {
      ReportOverwrites(s, a, reports[|reports| - 1].value, TotalLoss(rest));
      ReportsAddUp(Revalue(s, a.value, a.loss).value, rest);
      assert rest[|rest| - 1] == reports[|reports| - 1];
    }
    if RemoteConsistent(s) {
      ReportAnswers(s, reports[|reports| - 1].value, TotalLoss(reports));
    }
  }

  /** After a recall began, any list of reports leaves the value at its start less all their losses. */
  lemma ReportsDuringRecall(s: State, actor: AccountId, id: TransferId, amount: U128, reports: seq<Report>)
    requires Inv(s) && StartRecall(s, actor, id, amount).Ok?
    requires s.inboundCumulativeLoss + TotalLoss(reports) < LIMIT128
    ensures Run(StartRecall(s, actor, id, amount).value, Reports(reports)).buckets.acceptedRemoteValue
         == Max(s.buckets.acceptedRemoteValue - TotalLoss(reports), 0)
  {
    hide Inv;
    hide Next;
    OrderedIn(s);
    NextKeeps(s, BeginRecall(actor, id, amount));
    var started := StartRecall(s, actor, id, amount).value;
    StartIsNext(s, actor, id, amount);
    OrderedIn(started);
    if reports != [] {
      ReportsAddUp(started, reports);
    }
  }

  lemma StartIsNext(s: State, actor: AccountId, id: TransferId, amount: U128)
    requires StartRecall(s, actor, id, amount).Ok?
    ensures Next(s, BeginRecall(actor, id, amount)) == StartRecall(s, actor, id, amount).value
  {
    hide StartRecall;
  }

  lemma OneReport(s: State, a: Report)
    requires Revalue(s, a.value, a.loss).Ok?
    ensures Run(s, Reports([a])) == Revalue(s, a.value, a.loss).value && AllAccepted(s, Reports([a]))
  {
    hide Revalue;
    hide Step;
    ReportIsStep(s, a);
    assert [a][1..] == [];
    assert Reports([a]) == [ApplyRemoteValuation(a.value, a.loss)];
    var t := Revalue(s, a.value, a.loss).value;
    assert Run(t, []) == t && AllAccepted(t, []);
  }

  // Transfer ids.

  /** An operation that starts a transfer, under a new id. */
  predicate Starts(op: Operation, id: TransferId) {
    (op.BeginAllocate? || op.BeginRecall? || op.BeginRecover?) && op.transferId == id
  }

  lemma StartUses(s: State, op: Operation, id: TransferId)
    requires Starts(op, id) && Step(s, op).Ok?
    ensures id !in s.usedTransferIds && Step(s, op).value.usedTransferIds == s.usedTransferIds + {id}
  {
    hide MakeRequest;
    hide CancelRequest;
    hide Claim;
    hide ClaimRefund;
    hide Finalize;
    hide Cutoff;
    hide Abort;
    hide OpenNext;
    hide PauseVault;
    hide UnpauseVault;
    hide FreezeVault;
    hide FinishAllocation;
    hide AcceptNotice;
    hide Observe;
    hide Revalue;
    hide LockValuation;
    hide AskClose;
    hide CloseAllocation;
    hide FinishRecovery;
  }

  lemma OthersUseNothing(s: State, op: Operation)
    requires !IsLocal(op) && !op.BeginAllocate? && !op.BeginRecall? && !op.BeginRecover? && Step(s, op).Ok?
    ensures Step(s, op).value.usedTransferIds == s.usedTransferIds
  {
    hide MakeRequest;
    hide CancelRequest;
    hide Claim;
    hide ClaimRefund;
    hide Finalize;
    hide Cutoff;
    hide Abort;
    hide OpenNext;
    hide PauseVault;
    hide UnpauseVault;
    hide FreezeVault;
    hide StartAllocation;
    hide StartRecall;
    hide StartRecovery;
  }

  lemma UsedStep(s: State, op: Operation)
    ensures s.usedTransferIds <= Next(s, op).usedTransferIds
  {
    if IsLocal(op) {
      hide Next;
      LocalFrame(s, op);
    } else if Step(s, op).Ok? {
      hide Step;
      if op.BeginAllocate? || op.BeginRecall? || op.BeginRecover? {
        StartUses(s, op, op.transferId);
      } else {
        OthersUseNothing(s, op);
      }
    }
  }

  lemma {:induction false} UsedStays(s: State, ops: seq<Operation>)
    ensures s.usedTransferIds <= Run(s, ops).usedTransferIds
    decreases |ops|
  {
    hide Next;
    if ops != [] {
      UsedStep(s, ops[0]);
      UsedStays(Next(s, ops[0]), ops[1..]);
    }
  }

  /** A transfer id starts one transfer in the whole history of the vault. */
  lemma IdsAreUsedOnce(s: State, first: Operation, ops: seq<Operation>, second: Operation, id: TransferId)
    requires Starts(first, id) && Step(s, first).Ok? && Starts(second, id)
    ensures Step(Run(Step(s, first).value, ops), second).Err?
  {
    hide Step;
    StartUses(s, first, id);
    UsedStays(Step(s, first).value, ops);
    var t := Run(Step(s, first).value, ops);
    if Step(t, second).Ok? {
      StartUses(t, second, id);
    }
  }

  predicate SameRecovery(s: State, t: State) {
    && t.activeCycle == s.activeCycle && t.activeTransferId == s.activeTransferId
    && t.remotePrincipalCap == s.remotePrincipalCap
    && t.impairedTransport == s.impairedTransport && t.cumulativeImpairment == s.cumulativeImpairment
    && t.recognizedLoss == s.recognizedLoss
  }

  lemma RecoveryStep(s: State, op: Operation)
    requires RemoteConsistent(s) && s.activeCycle == Recovering
    requires !(op.SettleRecover? && op.transferId == s.activeTransferId)
    ensures SameRecovery(s, Next(s, op))
  {
    hide MakeRequest;
    hide CancelRequest;
    hide Claim;
    hide ClaimRefund;
    hide Finalize;
    hide OpenNext;
    hide Abort;
    hide Cutoff;
    hide PauseVault;
    hide UnpauseVault;
    hide FreezeVault;
    if IsLocal(op) {
      LocalFrame(s, op);
    }
  }

  lemma {:induction false} RecoveryRuns(s: State, ops: seq<Operation>)
    requires Inv(s) && s.activeCycle == Recovering
    requires forall op :: op in ops ==> !(op.SettleRecover? && op.transferId == s.activeTransferId)
    ensures SameRecovery(s, Run(s, ops)) && Inv(Run(s, ops))
    decreases |ops|
  {
    hide Inv;
    hide Next;
    if ops != [] {
      OrderedIn(s);
      RecoveryStep(s, ops[0]);
      NextKeeps(s, ops[0]);
      RecoveryRuns(Next(s, ops[0]), ops[1..]);
    }
  }

  /**
   * Whatever runs between the start of a recovery and its settlement, exactly the credited part of the
   * impairment known at the start returns to principal and to the backing, at par and as no gain or loss.
   */
  lemma RecoverySettlesExactly(
    s: State, actor: AccountId, id: TransferId, ops: seq<Operation>, credited: U128)
    requires Inv(s) && StartRecovery(s, actor, id).Ok?
    requires forall op :: op in ops ==> !(op.SettleRecover? && op.transferId == id)
    requires FinishRecovery(Run(StartRecovery(s, actor, id).value, ops), id, credited).Ok?
    ensures var before := Run(StartRecovery(s, actor, id).value, ops);
      var t := FinishRecovery(before, id, credited).value;
      && credited <= s.impairedTransport
      && t.impairedTransport == s.impairedTransport - credited
      && t.remotePrincipalCap == s.remotePrincipalCap + credited
      && t.buckets.Managed() == before.buckets.Managed() + credited
      && t.cumulativeImpairment == s.cumulativeImpairment && t.recognizedLoss == s.recognizedLoss
      && t.activeCycle == NoCycle
  {
    hide Inv;
    hide Run;
    var started := StartRecovery(s, actor, id).value;
    NextKeeps(s, BeginRecover(actor, id));
    RecoveryRuns(started, ops);
    OrderedIn(Run(started, ops));
  }
}
