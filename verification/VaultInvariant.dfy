/** What every reachable vault state satisfies, over unbounded numbers. */
module VaultInvariant {
  import opened Results
  import opened Words
  import opened Amounts
  import opened Pricing
  import opened Sums
  import opened VaultState
  import opened VaultSpec

  /** Every asset ever issued is in exactly one place. */
  ghost predicate AssetsConserved(s: State) {
    Held(s.accounts, Deposits)
    + s.buckets.pendingDepositEscrow + s.buckets.idleBacking + s.buckets.claimReserve
    + s.buckets.unattributedBalance
    + s.buckets.outboundInTransit + s.buckets.inboundInTransit
    + s.remotePrincipalCap + s.recognizedLoss + s.impairedTransport
    == s.initialAssetSupply + s.externalInflow
  }

  /** Every share is held, escrowed for redemption, or waiting to be claimed. */
  ghost predicate SharesConserved(s: State) {
    Held(s.accounts, Redemptions) + s.escrowedRedeemShares + s.claimableDepositShares == s.totalShareSupply
  }

  ghost predicate BurnedExplained(s: State) {
    s.burnedRedemptionShares == Sum(BurnedPerEpoch(s.epochs))
  }

  /** The id that no settled epoch has reached yet. */
  function Frontier(s: State): EpochId {
    if s.epoch.Some? then s.epoch.value.id else s.nextEpochId
  }

  /** The virtual share offset every epoch of this vault is priced with. */
  function Offset(config: Config): nat
    requires config.Valid()
  {
    Pow10(config.shareDecimals - config.assetDecimals)
  }

  /** An epoch settles once, ids only grow, and a valuation is locked only after cutoff. */
  ghost predicate EpochsOrdered(s: State) {
    && s.config.Valid()
    && OutcomesSound(s.epochs)
    && (forall id :: id in s.epochs ==> id < Frontier(s))
    && (s.epoch.Some? ==>
          && s.epoch.value.virtualAssets == 1
          && s.epoch.value.virtualShares == Offset(s.config))
    && (forall id :: id in s.epochValuationLocked ==>
          id in s.epochs || (s.epoch.Some? && s.epoch.value.id == id && s.epoch.value.phase == CutOff))
  }

  /** The books of one side, taken out of the state. */
  datatype SideBooks = SideBooks(
    book: RequestBook, epochs: Outcomes, current: Option<EpochId>, pending: nat, escrow: nat, reserve: nat)

  function Books(s: State, side: Side): SideBooks {
    SideBooks(
      s.Requests(side), s.epochs,
      if s.epoch.Some? then Some(s.epoch.value.id) else None,
      if s.epoch.Some? then s.epoch.value.Pending(side) else 0,
      s.Escrow(side), s.Reserve(side))
  }

  /** Requests belong to a known epoch, agree with their flags, and are paid only after an outcome. */
  ghost predicate RequestsTied(b: SideBooks) {
    forall k :: k in b.book ==>
      && b.book[k].FlagsAgree()
      && (k.epoch in b.epochs || b.current == Some(k.epoch))
      && (k.epoch !in b.epochs ==> !b.book[k].claimed)
  }

  /** Escrow is the current epoch's requests plus every refund an aborted epoch still owes. */
  ghost predicate EscrowExplained(b: SideBooks, side: Side) {
    && (b.current.Some? ==> b.pending == Sum(ActiveAmounts(b.book, b.current.value)))
    && (forall id :: id in b.epochs && b.epochs[id].Aborted? ==>
          b.epochs[id].refunds.Refund(side) == Sum(ActiveAmounts(b.book, id)))
    && b.escrow == b.pending + Sum(RefundsPerEpoch(b.book, b.epochs))
  }

  /** The terms of one finalized epoch agree with its requests, its price and its dust. */
  ghost predicate TermsExplained(book: RequestBook, terms: EpochTerms, side: Side)
    requires terms.Basis().Sound()
  {
    && terms.Settled(side) == Sum(ActiveAmounts(book, terms.id))
    && terms.Aggregate(side) ==
         Floor(Times(terms.Settled(side), terms.Numerator(side)), terms.Denominator(side))
    && terms.Aggregate(side) == Sum(Entitled(book, terms, side)) + terms.Dust(side)
    && terms.Dust(side) <= Max(|ActiveAmounts(book, terms.id)| - 1, 0)
  }

  /** Reserves are exactly the unclaimed entitlements plus the measured dust of finalized epochs. */
  ghost predicate ClaimsExplained(b: SideBooks, side: Side) {
    && OutcomesSound(b.epochs)
    && (forall id :: id in b.epochs && b.epochs[id].Finalized? ==>
          TermsExplained(b.book, b.epochs[id].terms, side))
    && b.reserve == Sum(ReservePerEpoch(b.book, b.epochs, side))
  }

  ghost predicate SideInv(b: SideBooks, side: Side) {
    RequestsTied(b) && EscrowExplained(b, side) && ClaimsExplained(b, side)
  }

  /** A finalized epoch was priced with this vault's offset and never paid out its whole backing. */
  ghost predicate TermsBounded(s: State) {
    && s.config.Valid()
    && (forall id :: id in s.epochs && s.epochs[id].Finalized? ==>
          && s.epochs[id].terms.virtualAssets == 1
          && s.epochs[id].terms.virtualShares == Offset(s.config)
          && s.epochs[id].terms.redeemAssets <= s.epochs[id].terms.totalAssets)
  }

  /** The cross-chain books: transit, principal, recall baselines, losses and impairment. */
  ghost predicate RemoteConsistent(s: State) {
    && s.buckets.acceptedRemoteValue <= s.remotePrincipalCap
    && s.buckets.outboundInTransit == (if s.activeCycle == Allocating then s.activeAmount else 0)
    && s.pendingRecallPrincipal == (if s.activeCycle == Recalling then s.activeAmount else 0)
    && s.pendingRecallId == (if s.activeCycle == Recalling then s.activeTransferId else 0)
    && (s.activeCycle == Recalling ==>
          && 0 < s.activeAmount <= s.remotePrincipalCap
          && s.recallBaselineValue <= s.remotePrincipalCap
          && s.recognizedLoss <= s.recallBaselineLoss <= s.inboundCumulativeLoss)
    && (s.activeCycle == Allocating ==> 0 < s.activeAmount)
    && (s.activeCycle != Recalling ==> s.recallBaselineValue == 0 && s.recallBaselineLoss == 0)
    && (s.closeRequested ==> s.activeCycle == Allocating)
    && (s.activeCycle == NoCycle ==> s.activeTransferId == 0)
    && (s.activeCycle != NoCycle ==> s.activeTransferId != 0 && s.activeTransferId in s.usedTransferIds)
    && s.recognizedLoss <= s.inboundCumulativeLoss
    && s.impairedTransport <= s.cumulativeImpairment
  }

  ghost predicate Inv(s: State) {
    && EpochsOrdered(s)
    && AssetsConserved(s)
    && SharesConserved(s)
    && BurnedExplained(s)
    && SideInv(Books(s, Deposits), Deposits)
    && SideInv(Books(s, Redemptions), Redemptions)
    && TermsBounded(s)
    && RemoteConsistent(s)
  }

  /** All assets ever issued or received fit in 128 bits. */
  predicate SupplyFits(s: State) {
    s.initialAssetSupply + s.externalInflow < LIMIT128
  }

  // How the sums move when one record changes.

  lemma HeldMoves(accounts: map<AccountId, Account>, id: AccountId, account: Account, side: Side)
    ensures Held(accounts[id := account], side)
         == Held(accounts, side) + account.Of(side) - (if id in accounts then accounts[id].Of(side) else 0)
  {
    var a, b := AmountsOf(accounts, side), AmountsOf(accounts[id := account], side);
    assert b == a[id := account.Of(side)];
    SumUpdate(a, id, account.Of(side));
  }

  function ActiveAt(book: RequestBook, key: RequestKey): nat {
    if key in book && book[key].IsActive() then book[key].amount else 0
  }

  function OutstandingAt(book: RequestBook, key: RequestKey): nat {
    if key in book && book[key].IsOutstanding() then book[key].amount else 0
  }

  lemma OtherEpochsKeep(book: RequestBook, key: RequestKey, request: Request, id: EpochId)
    requires id != key.epoch
    ensures ActiveAmounts(book[key := request], id) == ActiveAmounts(book, id)
    ensures OutstandingAmounts(book[key := request], id) == OutstandingAmounts(book, id)
  {
  }

  lemma ActiveMoves(book: RequestBook, key: RequestKey, request: Request)
    ensures Sum(ActiveAmounts(book[key := request], key.epoch)) + ActiveAt(book, key)
         == Sum(ActiveAmounts(book, key.epoch)) + ActiveAt(book[key := request], key)
  {
    var a, b := ActiveAmounts(book, key.epoch), ActiveAmounts(book[key := request], key.epoch);
    assert a - {key} == b - {key};
    SumDiffersAt(a, b, key);
  }

  /** Both books describe the same requests of epoch `id`. */
  ghost predicate SameEpoch(a: RequestBook, b: RequestBook, id: EpochId) {
    && ActiveAmounts(a, id) == ActiveAmounts(b, id)
    && OutstandingAmounts(a, id) == OutstandingAmounts(b, id)
  }

  lemma UnclaimedAgrees(a: RequestBook, b: RequestBook, terms: EpochTerms, side: Side)
    requires terms.Basis().Sound() && SameEpoch(a, b, terms.id)
    ensures UnclaimedEntitled(a, terms, side) == UnclaimedEntitled(b, terms, side)
  {
    hide PricedEach;
    hide ActiveAmounts;
    hide OutstandingAmounts;
  }

  lemma ReservesAgree(a: RequestBook, b: RequestBook, epochs: Outcomes, side: Side)
    requires OutcomesSound(epochs)
    requires forall id :: id in epochs && epochs[id].Finalized? ==> SameEpoch(a, b, id)
    ensures ReservePerEpoch(a, epochs, side) == ReservePerEpoch(b, epochs, side)
  {
    hide UnclaimedEntitled;
    hide SameEpoch;
    hide Sum;
    forall id | id in epochs && epochs[id].Finalized?
      ensures UnclaimedEntitled(a, epochs[id].terms, side) == UnclaimedEntitled(b, epochs[id].terms, side)
    {
      UnclaimedAgrees(a, b, epochs[id].terms, side);
    }
  }

  lemma RefundsAgree(a: RequestBook, b: RequestBook, epochs: Outcomes)
    requires forall id :: id in epochs && epochs[id].Aborted? ==> SameEpoch(a, b, id)
    ensures RefundsPerEpoch(a, epochs) == RefundsPerEpoch(b, epochs)
  {
    hide Sum;
    hide ActiveAmounts;
    hide OutstandingAmounts;
  }

  lemma TermsAgree(a: RequestBook, b: RequestBook, terms: EpochTerms, side: Side)
    requires terms.Basis().Sound()
    requires SameEpoch(a, b, terms.id)
    ensures TermsExplained(a, terms, side) == TermsExplained(b, terms, side)
  {
    hide PricedEach;
    hide Floor;
    hide Times;
  }

  /** Touching a request of an unsettled epoch leaves every settled epoch's books alone. */
  lemma SettledEpochsKeep(book: RequestBook, key: RequestKey, request: Request, epochs: Outcomes, side: Side)
    requires OutcomesSound(epochs) && key.epoch !in epochs
    ensures RefundsPerEpoch(book[key := request], epochs) == RefundsPerEpoch(book, epochs)
    ensures ReservePerEpoch(book[key := request], epochs, side) == ReservePerEpoch(book, epochs, side)
    ensures forall id :: id in epochs ==> SameEpoch(book, book[key := request], id)
  {
    forall id | id in epochs
      ensures SameEpoch(book, book[key := request], id)
    {
      OtherEpochsKeep(book, key, request, id);
    }
    ReservesAgree(book, book[key := request], epochs, side);
    RefundsAgree(book, book[key := request], epochs);
  }

  // Genesis.

  lemma {:induction false} EnrolConserves(book: Ledger, entries: seq<(AccountId, U128)>)
    requires Enrol(book, entries).Ok?
    requires forall a :: a in book.accounts ==> book.accounts[a].shares == 0
    ensures var after := Enrol(book, entries).value;
      && Held(after.accounts, Deposits) + book.supply == Held(book.accounts, Deposits) + after.supply
      && (forall a :: a in after.accounts ==> after.accounts[a].shares == 0)
    decreases |entries|
  {
    if entries != [] {
      var (id, assets) := entries[0];
      HeldMoves(book.accounts, id, Account(assets, 0), Deposits);
      EnrolConserves(Ledger(book.accounts[id := Account(assets, 0)], book.supply + assets), entries[1..]);
    }
  }

  lemma EmptyBooksAgree(b: SideBooks, side: Side)
    requires b.book == map[] && b.epochs == map[]
    requires b.pending == 0 && b.escrow == 0 && b.reserve == 0
    ensures SideInv(b, side)
  {
    assert RefundsPerEpoch(b.book, b.epochs) == map[];
    assert ReservePerEpoch(b.book, b.epochs, side) == map[];
    if b.current.Some? {
      assert ActiveAmounts(b.book, b.current.value) == map[];
    }
  }

  lemma GenesisEstablishes(g: Genesis)
    requires Initial(g).Ok?
    ensures Inv(Initial(g).value)
  {
    hide SideInv;
    hide Pow10;
    hide Enrol;
    var s := Initial(g).value;
    EnrolConserves(Ledger(map[], g.unattributedBalance), g.accounts);
    SumOfZeros(AmountsOf(s.accounts, Redemptions));
    EmptyBooksAgree(Books(s, Deposits), Deposits);
    EmptyBooksAgree(Books(s, Redemptions), Redemptions);
    assert BurnedPerEpoch(s.epochs) == map[];
  }
}
