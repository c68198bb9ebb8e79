/** When a settlement is accepted and what it moves, in plain arithmetic on the state before it. */
module VaultSettlement {
  import opened Results
  import opened Words
  import opened Amounts
  import opened Pricing
  import opened VaultState
  import opened VaultSpec
  import opened VaultInvariant
  import opened VaultFrames
  import opened VaultPreservation
  import opened VaultPrice
  import opened VaultRefusals

  /** Something of the vault is, or is on its way to or from, the remote side. */
  predicate Exposed(s: State) {
    s.buckets.outboundInTransit + s.buckets.inboundInTransit + s.remotePrincipalCap > 0
  }

  /** The assets an epoch is priced at: the locked value under exposure, otherwise what is idle. */
  function Backing(s: State, id: EpochId): nat {
    if !Exposed(s) then s.buckets.idleBacking
    else if id in s.epochValuationLocked then s.epochValuationLocked[id] else 0
  }

  /** The shares an epoch is priced at. */
  ghost function Shares(s: State): (r: nat)
    requires s.config.Valid()
    ensures r > 0
  {
    Pow10Fits(s.config.shareDecimals - s.config.assetDecimals);
    s.totalShareSupply + Pow10(s.config.shareDecimals - s.config.assetDecimals)
  }

  function MulDiv(a: nat, b: nat, d: nat): nat
    requires d > 0
  {
    a * b / d
  }

  /** Assets paid for the shares waiting for redemption. */
  ghost function Redeemed(s: State, e: Epoch): nat
    requires s.config.Valid()
  {
    MulDiv(e.pendingRedeemShares, Backing(s, e.id) + 1, Shares(s))
  }

  /** Shares minted for the assets waiting for deposit. */
  ghost function Minted(s: State, e: Epoch): nat
    requires s.config.Valid()
  {
    MulDiv(e.pendingDepositAssets, Shares(s), Backing(s, e.id) + 1)
  }

  lemma BasisIs(s: State, e: Epoch)
    requires Inv(s) && SupplyFits(s) && s.epoch == Some(e)
    ensures SettlementBasis(s, e).Ok? <==> (Exposed(s) ==> e.id in s.epochValuationLocked)
    ensures SettlementBasis(s, e).Ok? ==> var b := SettlementBasis(s, e).value;
      && b.Assets() == Backing(s, e.id) + 1 && b.Shares() == Shares(s)
      && b.totalAssets == Backing(s, e.id) && b.totalSupply == s.totalShareSupply
  {
    hide SideInv;
    hide Held;
    hide Pow10;
    hide SharesConserved;
    hide BurnedExplained;
    hide TermsBounded;
    BackingIsExact(s);
  }

  lemma FloorOf(a: nat, b: nat, d: nat)
    requires d > 0
    ensures Floor(Times(a, b), d) == MulDiv(a, b, d)
  {
  }

  predicate Fits(assets: nat, shares: nat, result: nat) {
    assets < LIMIT128 && shares < LIMIT128 && result < LIMIT128
  }

  /** A conversion at a basis of known sides fails only for their width or its own. */
  lemma ConversionIs(amount: U128, basis: PricingBasis, assets: nat, shares: nat)
    requires basis.Assets() == assets > 0 && basis.Shares() == shares > 0
    ensures var paid, minted := MulDiv(amount, assets, shares), MulDiv(amount, shares, assets);
      && SharesToAssets(amount, basis) == (if Fits(assets, shares, paid) then Ok(paid) else Err(ArithmeticOverflow))
      && AssetsToShares(amount, basis) == (if Fits(assets, shares, minted) then Ok(minted) else Err(ArithmeticOverflow))
  {
    FloorOf(amount, assets, shares);
    FloorOf(amount, shares, assets);
    hide Floor;
    hide Times;
    hide MulDiv;
  }

  lemma QuoteIs(s: State, e: Epoch)
    requires Inv(s) && SupplyFits(s) && s.epoch == Some(e)
    ensures Quote(s, e).Ok? <==>
      && (Exposed(s) ==> e.id in s.epochValuationLocked)
      && Backing(s, e.id) + 1 < LIMIT128 && Shares(s) < LIMIT128
      && Redeemed(s, e) < LIMIT128 && Minted(s, e) < LIMIT128
    ensures Quote(s, e).Ok? ==> var q := Quote(s, e).value;
      && q.id == e.id && q.depositAssets == e.pendingDepositAssets && q.redeemShares == e.pendingRedeemShares
      && q.redeemAssets == Redeemed(s, e) && q.mintedShares == Minted(s, e)
      && q.totalAssets == Backing(s, e.id) && q.totalSupply == s.totalShareSupply
  {
    hide Inv;
    OrderedIn(s);
    BasisIs(s, e);
    hide SettlementBasis;
    hide Shares;
    hide Backing;
    hide AssetsToShares;
    hide SharesToAssets;
    hide MulDiv;
    if SettlementBasis(s, e).Ok? {
      var b := SettlementBasis(s, e).value;
      ConversionIs(e.pendingRedeemShares, b, Backing(s, e.id) + 1, Shares(s));
      ConversionIs(e.pendingDepositAssets, b, Backing(s, e.id) + 1, Shares(s));
    }
  }

  /** Redeemed shares are part of the supply, so they never take the whole backing. */
  lemma RedeemedBounded(s: State, e: Epoch)
    requires s.config.Valid() && e.pendingRedeemShares <= s.totalShareSupply
    ensures Redeemed(s, e) <= Backing(s, e.id)
  {
    hide MulDiv;
    hide Backing;
    var assets, shares, burned := Backing(s, e.id) + 1, Shares(s), e.pendingRedeemShares;
    Pow10Fits(s.config.shareDecimals - s.config.assetDecimals);
    hide Pow10;
    FloorOf(burned, assets, shares);
    hide Floor;
    hide Times;
    hide RatioAtMost;
    SettlementNeverLowersPrice(
      assets, shares, burned, Floor(Times(burned, assets), shares), 0, Floor(Times(0, shares), assets));
  }

  /** Pending amounts are escrowed, and what is escrowed is part of the supply. */
  lemma PendingBounds(s: State, e: Epoch)
    requires Inv(s) && s.epoch == Some(e)
    ensures e.pendingDepositAssets <= s.buckets.pendingDepositEscrow
    ensures e.pendingRedeemShares <= s.escrowedRedeemShares
    ensures s.escrowedRedeemShares + s.claimableDepositShares <= s.totalShareSupply
    ensures s.buckets.idleBacking + s.buckets.pendingDepositEscrow + s.buckets.claimReserve
         <= s.initialAssetSupply + s.externalInflow
    ensures e.id !in s.epochs
  {
    hide SideInv;
    hide Held;
    hide Pow10;
    hide BurnedExplained;
    hide TermsBounded;
    hide RemoteConsistent;
    PendingWithinEscrow(Books(s, Deposits), Deposits);
    PendingWithinEscrow(Books(s, Redemptions), Redemptions);
  }

  /** Moving assets and shares needs idle assets for the redemptions, and room in the share counters. */
  lemma SettleIs(s: State, q: EpochTerms)
    requires q.depositAssets <= s.buckets.pendingDepositEscrow && q.redeemShares <= s.escrowedRedeemShares
    requires s.escrowedRedeemShares + s.claimableDepositShares <= s.totalShareSupply
    requires s.buckets.idleBacking + s.buckets.pendingDepositEscrow + s.buckets.claimReserve < LIMIT128
    ensures Settle(s, q).Ok? <==>
      && q.redeemAssets <= s.buckets.idleBacking && s.totalShareSupply + q.mintedShares < LIMIT128
      && s.burnedRedemptionShares + q.redeemShares < LIMIT128
    ensures Settle(s, q).Ok? ==>
      Moved(s, Settle(s, q).value, q.depositAssets, q.mintedShares, q.redeemShares, q.redeemAssets)
  {
  }

  /** What one settlement moves: deposits in for `minted` shares, `burned` shares out for `paid` assets. */
  predicate Moved(s: State, t: State, deposited: nat, minted: nat, burned: nat, paid: nat) {
    && t.buckets.idleBacking == s.buckets.idleBacking - paid + deposited
    && t.buckets.claimReserve == s.buckets.claimReserve + paid
    && t.buckets.pendingDepositEscrow == s.buckets.pendingDepositEscrow - deposited
    && t.escrowedRedeemShares == s.escrowedRedeemShares - burned
    && t.claimableDepositShares == s.claimableDepositShares + minted
    && t.totalShareSupply == s.totalShareSupply + minted - burned
    && t.burnedRedemptionShares == s.burnedRedemptionShares + burned
    && t.accounts == s.accounts && t.depositRequests == s.depositRequests && t.redeemRequests == s.redeemRequests
  }

  /** A settlement is accepted exactly when idle assets from before the epoch cover every redemption. */
  ghost predicate CanFinalize(s: State)
    requires s.config.Valid()
  {
    && s.mode == Active && s.epoch.Some? && s.epoch.value.phase == CutOff
    && var e := s.epoch.value;
    && (Exposed(s) ==> e.id in s.epochValuationLocked)
    && Redeemed(s, e) <= s.buckets.idleBacking
    && Backing(s, e.id) + 1 < LIMIT128 && Shares(s) < LIMIT128
    && s.totalShareSupply + Minted(s, e) < LIMIT128
    && s.burnedRedemptionShares + e.pendingRedeemShares < LIMIT128
    && e.id + 1 < LIMIT64
  }

  lemma FinalizeAcceptedIff(s: State)
    requires Inv(s) && SupplyFits(s)
    ensures s.config.Valid()
    ensures Finalize(s).Ok? <==> CanFinalize(s)
  {
    hide Inv;
    OrderedIn(s);
    hide EpochsOrdered;
    hide RemoteConsistent;
    hide Quote;
    hide Settle;
    hide MeasureDust;
    hide Redeemed;
    hide Minted;
    hide Shares;
    hide Backing;
    hide Exposed;
    hide Moved;
    if s.epoch.Some? {
      var e := s.epoch.value;
      PendingBounds(s, e);
      QuoteIs(s, e);
      RedeemedBounded(s, e);
      if Quote(s, e).Ok? {
        SettleIs(s, Quote(s, e).value);
        DustIsMeasurable(s, e);
      }
    }
  }

  /** An accepted settlement pays redemptions out of idle assets, takes the deposits in, and records both. */
  lemma FinalizeMoves(s: State)
    requires Inv(s) && SupplyFits(s) && Finalize(s).Ok?
    ensures s.config.Valid() && s.epoch.Some?
    ensures var t, e := Finalize(s).value, s.epoch.value;
      && Moved(s, t, e.pendingDepositAssets, Minted(s, e), e.pendingRedeemShares, Redeemed(s, e))
      && SameRemote(s, t) && t.epoch.None? && t.nextEpochId == e.id + 1 && t.lastCutoffAt == e.cutoffAt
      && e.id in t.epochs && t.epochs[e.id].Finalized? && t.epochs == s.epochs[e.id := t.epochs[e.id]]
      && var terms := t.epochs[e.id].terms;
      && terms.totalAssets == Backing(s, e.id) && terms.totalSupply == s.totalShareSupply
      && terms.depositAssets == e.pendingDepositAssets && terms.mintedShares == Minted(s, e)
      && terms.redeemShares == e.pendingRedeemShares && terms.redeemAssets == Redeemed(s, e)
  {
    hide Inv;
    OrderedIn(s);
    hide EpochsOrdered;
    hide RemoteConsistent;
    hide Quote;
    hide Settle;
    hide MeasureDust;
    hide Redeemed;
    hide Minted;
    hide Shares;
    hide Backing;
    hide Exposed;
    hide SameRemote;
    FinalizeShape(s, Deposits);
    FinalizeRecords(s);
    FinalizeFrame(s);
    hide Finalize;
    var e := s.epoch.value;
    PendingBounds(s, e);
    QuoteIs(s, e);
    SettleIs(s, Quote(s, e).value);
    DustKeepsTerms(s, Quote(s, e).value);
  }
}
