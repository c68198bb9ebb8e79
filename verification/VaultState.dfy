/**
 * The canonical accounting state of the vault, as values.
 *
 * Deposits and redemptions follow one life cycle with assets and shares exchanged,
 * so everything that exists once per direction is indexed by `Side`.
 */
module VaultState {
  import opened Results
  import opened Words
  import opened Amounts
  import opened Pricing
  import opened Sums

  datatype VaultMode = Active | Paused | Frozen

  datatype EpochPhase = Open | CutOff

  datatype CycleKind = NoCycle | Allocating | Recalling | Recovering

  /** Which way a request goes: assets in for shares, or shares in for assets. */
  datatype Side = Deposits | Redemptions {
    function Opposite(): Side {
      if this == Deposits then Redemptions else Deposits
    }

    function ShortBalance(): Rejection {
      if this == Deposits then InsufficientAssetBalance else InsufficientShareBalance
    }
  }

  datatype Config = Config(
    version: U32, assetDecimals: U8, shareDecimals: U8,
    minDepositAssets: U128, minRedeemShares: U128, epochDuration: U64)
  {
    function Minimum(side: Side): U128 {
      if side == Deposits then minDepositAssets else minRedeemShares
    }

    predicate Valid() {
      && assetDecimals <= shareDecimals <= 38
      && epochDuration != 0
      && minDepositAssets != 0 && minRedeemShares != 0
    }
  }

  datatype Authority = Authority(admin: AccountId, guardian: AccountId)

  /** What one holder owns: the deposit side is assets, the redemption side shares. */
  datatype Account = Account(assets: U128, shares: U128) {
    function Of(side: Side): U128 {
      if side == Deposits then assets else shares
    }

    function With(side: Side, amount: U128): Account {
      if side == Deposits then this.(assets := amount) else this.(shares := amount)
    }
  }

  const NO_HOLDINGS := Account(0, 0)

  datatype Buckets = Buckets(
    pendingDepositEscrow: U128,
    idleBacking: U128,
    claimReserve: U128,
    unattributedBalance: U128,
    unattributedInbound: U128,
    outboundInTransit: U128,
    acceptedRemoteValue: U128,
    inboundInTransit: U128)
  {
    /** Assets behind the share price, without any width limit. */
    function Managed(): nat {
      idleBacking + outboundInTransit + acceptedRemoteValue + inboundInTransit
    }

    function Excluded(): nat {
      pendingDepositEscrow + claimReserve + unattributedBalance + unattributedInbound
    }
  }

  const EMPTY_BUCKETS := Buckets(0, 0, 0, 0, 0, 0, 0, 0)

  datatype Epoch = Epoch(
    id: EpochId, openedAt: Timestamp, cutoffAt: Timestamp, configVersion: U32,
    assetDecimals: U8, shareDecimals: U8, virtualAssets: U128, virtualShares: U128,
    phase: EpochPhase, pendingDepositAssets: U128, pendingRedeemShares: U128)
  {
    function Pending(side: Side): U128 {
      if side == Deposits then pendingDepositAssets else pendingRedeemShares
    }

    function WithPending(side: Side, amount: U128): Epoch {
      if side == Deposits then this.(pendingDepositAssets := amount) else this.(pendingRedeemShares := amount)
    }
  }

  /** Immutable settlement terms of a finalized epoch. */
  datatype EpochTerms = EpochTerms(
    id: EpochId, configVersion: U32, cutoffAt: Timestamp,
    totalAssets: U128, totalSupply: U128, virtualAssets: U128, virtualShares: U128,
    depositAssets: U128, mintedShares: U128, redeemShares: U128, redeemAssets: U128,
    depositDust: U128, redeemDust: U128)
  {
    function Basis(): PricingBasis {
      PricingBasis(totalAssets, totalSupply, virtualAssets, virtualShares)
    }

    /** The amount requested on one side. */
    function Settled(side: Side): U128 {
      if side == Deposits then depositAssets else redeemShares
    }

    /** What the epoch set aside for that side's claims. */
    function Aggregate(side: Side): U128 {
      if side == Deposits then mintedShares else redeemAssets
    }

    function Dust(side: Side): U128 {
      if side == Deposits then depositDust else redeemDust
    }

    /** What one request of `amount` is entitled to. */
    function Owed(side: Side, amount: U128): Refusable<U128> {
      if side == Deposits then AssetsToShares(amount, Basis()) else SharesToAssets(amount, Basis())
    }

    /** The exchange rate of a side is `Numerator / Denominator`. */
    function Numerator(side: Side): nat {
      if side == Deposits then Basis().Shares() else Basis().Assets()
    }

    function Denominator(side: Side): nat {
      if side == Deposits then Basis().Assets() else Basis().Shares()
    }
  }

  datatype AbortedTerms = AbortedTerms(
    id: EpochId, configVersion: U32, cutoffAt: Timestamp, refundAssets: U128, refundShares: U128)
  {
    function Refund(side: Side): U128 {
      if side == Deposits then refundAssets else refundShares
    }
  }

  datatype EpochOutcome = Finalized(terms: EpochTerms) | Aborted(refunds: AbortedTerms)

  type Outcomes = map<EpochId, EpochOutcome>

  datatype RequestKey = RequestKey(epoch: EpochId, account: AccountId)

  /** A deposit or redemption request; `amount` is in assets or shares accordingly. */
  datatype Request = Request(amount: U128, cancelledAmount: U128, cancelled: bool, claimed: bool) {
    predicate IsOutstanding() {
      !cancelled && !claimed && amount != 0
    }

    predicate IsActive() {
      !cancelled && amount != 0
    }

    predicate FlagsAgree() {
      cancelled == (amount == 0) && !(cancelled && claimed)
    }
  }

  const NO_REQUEST := Request(0, 0, false, false)

  type RequestBook = map<RequestKey, Request>

  /** Observable position of a request in its life. */
  datatype RequestState = Pending | Locked | Claimable | Claimed | Refundable | Refunded | Cancelled

  datatype State = State(
    config: Config,
    authority: Authority,
    mode: VaultMode,
    epoch: Option<Epoch>,
    nextEpochId: EpochId,
    lastCutoffAt: Timestamp,
    epochs: Outcomes,
    accounts: map<AccountId, Account>,
    depositRequests: RequestBook,
    redeemRequests: RequestBook,
    buckets: Buckets,
    totalShareSupply: U128,
    escrowedRedeemShares: U128,
    claimableDepositShares: U128,
    burnedRedemptionShares: U128,
    initialAssetSupply: U128,
    remotePrincipalCap: U128,
    recognizedLoss: U128,
    impairedTransport: U128,
    cumulativeImpairment: U128,
    externalInflow: U128,
    pendingRecallId: TransferId,
    pendingRecallPrincipal: U128,
    activeCycle: CycleKind,
    activeTransferId: TransferId,
    activeAmount: U128,
    closeRequested: bool,
    inboundCumulativeLoss: U128,
    recallBaselineValue: U128,
    recallBaselineLoss: U128,
    usedTransferIds: set<TransferId>,
    epochValuationLocked: map<EpochId, U128>)
  {
    function AccountOf(id: AccountId): Account {
      if id in accounts then accounts[id] else NO_HOLDINGS
    }

    function Balance(id: AccountId, side: Side): U128 {
      AccountOf(id).Of(side)
    }

    function Requests(side: Side): RequestBook {
      if side == Deposits then depositRequests else redeemRequests
    }

    /** What is held for requests that have no outcome yet, or only a refund. */
    function Escrow(side: Side): U128 {
      if side == Deposits then buckets.pendingDepositEscrow else escrowedRedeemShares
    }

    /** What is held for the claims of finalized epochs. */
    function Reserve(side: Side): U128 {
      if side == Deposits then claimableDepositShares else buckets.claimReserve
    }

    function WithBalance(id: AccountId, side: Side, amount: U128): State {
      this.(accounts := accounts[id := AccountOf(id).With(side, amount)])
    }

    function WithRequest(side: Side, key: RequestKey, request: Request): State {
      if side == Deposits then this.(depositRequests := depositRequests[key := request])
      else this.(redeemRequests := redeemRequests[key := request])
    }

    function WithEscrow(side: Side, amount: U128): State {
      if side == Deposits then this.(buckets := buckets.(pendingDepositEscrow := amount))
      else this.(escrowedRedeemShares := amount)
    }

    function WithReserve(side: Side, amount: U128): State {
      if side == Deposits then this.(claimableDepositShares := amount)
      else this.(buckets := buckets.(claimReserve := amount))
    }

    /** Net asset value. The additions saturate. */
    function ManagedBacking(): U128 {
      SaturatingAdd(
        SaturatingAdd(
          SaturatingAdd(buckets.idleBacking, buckets.outboundInTransit),
          buckets.acceptedRemoteValue),
        buckets.inboundInTransit)
    }

    predicate HasRemoteExposure() {
      || buckets.outboundInTransit != 0
      || buckets.acceptedRemoteValue != 0
      || buckets.inboundInTransit != 0
      || remotePrincipalCap != 0
      || pendingRecallPrincipal != 0
    }

    function Lifecycle(side: Side, key: RequestKey): Option<RequestState> {
      if key !in Requests(side) then None else
        var request := Requests(side)[key];
        if request.cancelled then Some(Cancelled)
        else if key.epoch in epochs then
          match epochs[key.epoch]
          case Finalized(_) => Some(if request.claimed then Claimed else Claimable)
          case Aborted(_) => Some(if request.claimed then Refunded else Refundable)
        else if epoch.Some? && epoch.value.id == key.epoch && epoch.value.phase == CutOff then Some(Locked)
        else Some(Pending)
    }
  }

  // Sums over the records. The value of every comprehension is zero off its own domain,
  // so equal maps are equal as total functions too.

  ghost function AmountsOf(accounts: map<AccountId, Account>, side: Side): map<AccountId, nat> {
    map a | a in accounts :: if a in accounts then accounts[a].Of(side) else 0
  }

  /** Everything held by accounts on one side. */
  ghost function Held(accounts: map<AccountId, Account>, side: Side): nat {
    Sum(AmountsOf(accounts, side))
  }

  /** The requests of one epoch that carry an amount into its aggregate. */
  ghost function ActiveAmounts(book: RequestBook, epoch: EpochId): map<RequestKey, nat> {
    map k | k in book && k.epoch == epoch && book[k].IsActive() ::
      if k in book && k.epoch == epoch && book[k].IsActive() then book[k].amount else 0
  }

  /** The active requests of one epoch that were not paid out yet. */
  ghost function OutstandingAmounts(book: RequestBook, epoch: EpochId): map<RequestKey, nat> {
    map k | k in book && k.epoch == epoch && book[k].IsOutstanding() ::
      if k in book && k.epoch == epoch && book[k].IsOutstanding() then book[k].amount else 0
  }

  /** Entitlements of every active request of a finalized epoch. */
  ghost function Entitled(book: RequestBook, terms: EpochTerms, side: Side): map<RequestKey, nat>
    requires terms.Basis().Sound()
  {
    PricedEach(ActiveAmounts(book, terms.id), terms.Numerator(side), terms.Denominator(side))
  }

  ghost function UnclaimedEntitled(book: RequestBook, terms: EpochTerms, side: Side): map<RequestKey, nat>
    requires terms.Basis().Sound()
  {
    PricedEach(OutstandingAmounts(book, terms.id), terms.Numerator(side), terms.Denominator(side))
  }

  /** Every settled epoch is recorded under its own id at a usable price. */
  ghost predicate OutcomesSound(epochs: Outcomes) {
    forall id :: id in epochs && epochs[id].Finalized? ==>
      epochs[id].terms.id == id && epochs[id].terms.Basis().Sound()
  }

  /** What each finalized epoch still ties up on one side: unclaimed entitlements and dust. */
  ghost function ReservePerEpoch(book: RequestBook, epochs: Outcomes, side: Side): map<EpochId, nat>
    requires OutcomesSound(epochs)
  {
    map id | id in epochs && epochs[id].Finalized? ::
      if id in epochs && epochs[id].Finalized?
      then Sum(UnclaimedEntitled(book, epochs[id].terms, side)) + epochs[id].terms.Dust(side) else 0
  }

  /** What each aborted epoch still has to refund on one side. */
  ghost function RefundsPerEpoch(book: RequestBook, epochs: Outcomes): map<EpochId, nat> {
    map id | id in epochs && epochs[id].Aborted? ::
      if id in epochs && epochs[id].Aborted? then Sum(OutstandingAmounts(book, id)) else 0
  }

  ghost function BurnedPerEpoch(epochs: Outcomes): map<EpochId, nat> {
    map id | id in epochs && epochs[id].Finalized? ::
      if id in epochs && epochs[id].Finalized? then epochs[id].terms.redeemShares else 0
  }

  /** With a sound basis an entitlement is the exact floor, narrowed to 128 bits. */
  lemma OwedIsFloor(terms: EpochTerms, side: Side, amount: U128)
    requires terms.Basis().Sound()
    ensures terms.Owed(side, amount) ==
      Fit(Floor(Times(amount, terms.Numerator(side)), terms.Denominator(side)))
  {
  }
}
