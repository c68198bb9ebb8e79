/** The executable invariant checks, and exactly when they pass. */
module VaultChecks {
  import opened Results
  import opened Words
  import opened Amounts
  import opened Pricing
  import opened Sums
  import opened VaultState
  import opened VaultSpec
  import opened VaultInvariant
  import opened VaultPreservation
  import opened VaultPrice
  import opened VaultPriceRuns
  import opened VaultTally

  datatype Violation =
    | AssetConservation
    | ShareConservation
    | NavCompositionMismatch
    | EscrowAggregateMismatch
    | BurnedSharesMismatch
    | ClaimReserveNotExplained
    | ClaimableSharesNotExplained
    | RequestLifecycleInvalid
    | EpochAggregateMismatch
    | EpochTermsInconsistent
    | SettledEpochStillCurrent
    | AbortedRefundMismatch
    | DustOutOfBounds
    | PriceDecreased
    | ArithmeticFailure(reason: Rejection)

  type Verdict = Check<Violation>

  /** A checked sum inside a check: its overflow is a violation too. */
  function Sized<T>(r: Refusable<T>): Result<T, Violation> {
    match r
    case Ok(v) => Ok(v)
    case Err(e) => Err(ArithmeticFailure(e))
  }

  predicate EscrowFault(v: Violation) {
    || v == SettledEpochStillCurrent || v == EpochAggregateMismatch || v == AbortedRefundMismatch
    || v == EscrowAggregateMismatch || v.ArithmeticFailure?
  }

  predicate ClaimFault(v: Violation) {
    || v == DustOutOfBounds || v == ClaimableSharesNotExplained || v == ClaimReserveNotExplained
    || v.ArithmeticFailure?
  }

  predicate TermsFault(v: Violation) {
    v == EpochTermsInconsistent || v == EpochAggregateMismatch || v.ArithmeticFailure?
  }

  // Running sums: `left` holds the keys a loop has not visited yet.

  lemma SumTakes<K(!new)>(m: map<K, nat>, left: set<K>, k: K)
    requires k in left
    ensures Sum(m - (left - {k})) == Sum(m - left) + At(m, k)
  {
    if k in m {
      assert m - (left - {k}) == (m - left)[k := m[k]];
      SumUpdate(m - left, k, m[k]);
    } else {
      assert m - (left - {k}) == m - left;
    }
  }

  lemma PartBounds<K(!new)>(m: map<K, nat>, left: set<K>)
    ensures Sum(m - left) <= Sum(m)
  {
    SumMonotone(m - left, m);
  }

  lemma NothingTaken<K(!new)>(m: map<K, nat>, left: set<K>)
    requires m.Keys <= left
    ensures Sum(m - left) == 0
  {
    assert m - left == map[];
  }

  // Balances.

  method TotalHeld(accounts: map<AccountId, Account>, side: Side) returns (r: Refusable<U128>)
    ensures r == Fit(Held(accounts, side))
  {
    ghost var amounts := AmountsOf(accounts, side);
    var left, total: U128 := accounts.Keys, 0;
    NothingTaken(amounts, left);
    while left != {}
      invariant left <= accounts.Keys
      invariant total == Sum(amounts - left)
      decreases left
    {
      var a :| a in left;
      SumTakes(amounts, left, a);
      left := left - {a};
      PartBounds(amounts, left);
      total :- CheckedAdd(total, accounts[a].Of(side));
    }
    assert amounts - {} == amounts;
    return Ok(total);
  }

  method CheckAssetConservation(s: State) returns (r: Verdict)
    ensures r.Ok? <==> AssetsConserved(s) && SupplyFits(s)
    ensures r.Err? ==> r.error == AssetConservation || r.error.ArithmeticFailure?
  {
    hide Held;
    var b := s.buckets;
    var total := TotalHeld(s.accounts, Deposits);
    var held :- Sized(total);
    var p1 :- Sized(CheckedAdd(b.pendingDepositEscrow, b.idleBacking));
    var p2 :- Sized(CheckedAdd(p1, b.claimReserve));
    var physical :- Sized(CheckedAdd(p2, b.unattributedBalance));
    var o1 :- Sized(CheckedAdd(b.outboundInTransit, b.inboundInTransit));
    var o2 :- Sized(CheckedAdd(o1, s.remotePrincipalCap));
    var o3 :- Sized(CheckedAdd(o2, s.recognizedLoss));
    var remote :- Sized(CheckedAdd(o3, s.impairedTransport));
    var local :- Sized(CheckedAdd(held, physical));
    var accounted :- Sized(CheckedAdd(local, remote));
    var issued :- Sized(CheckedAdd(s.initialAssetSupply, s.externalInflow));
    return Need(accounted == issued, AssetConservation);
  }

  /** Every bucket together fits in 128 bits. */
  predicate BucketsFit(s: State) {
    s.buckets.Managed() + s.buckets.Excluded() < LIMIT128
  }

  method CheckNavComposition(s: State) returns (r: Verdict)
    ensures r.Ok? <==> BucketsFit(s)
    ensures r.Err? ==> r.error.ArithmeticFailure?
  {
    var b := s.buckets;
    var e1 :- Sized(CheckedAdd(b.pendingDepositEscrow, b.claimReserve));
    var e2 :- Sized(CheckedAdd(e1, b.unattributedBalance));
    var excluded :- Sized(CheckedAdd(e2, b.unattributedInbound));
    var composed :- Sized(CheckedAdd(s.ManagedBacking(), excluded));
    var t1 :- Sized(CheckedAdd(b.pendingDepositEscrow, b.idleBacking));
    var t2 :- Sized(CheckedAdd(t1, b.claimReserve));
    var t3 :- Sized(CheckedAdd(t2, b.unattributedBalance));
    var physical :- Sized(CheckedAdd(t3, b.unattributedInbound));
    var t4 :- Sized(CheckedAdd(physical, b.outboundInTransit));
    var t5 :- Sized(CheckedAdd(t4, b.acceptedRemoteValue));
    var total :- Sized(CheckedAdd(t5, b.inboundInTransit));
    return Need(composed == total, NavCompositionMismatch);
  }

  method CheckShareConservation(s: State) returns (r: Verdict)
    ensures r.Ok? <==> SharesConserved(s)
    ensures r.Err? ==> r.error == ShareConservation || r.error.ArithmeticFailure?
  {
    hide Held;
    var total := TotalHeld(s.accounts, Redemptions);
    var held :- Sized(total);
    var h1 :- Sized(CheckedAdd(held, s.escrowedRedeemShares));
    var accounted :- Sized(CheckedAdd(h1, s.claimableDepositShares));
    return Need(accounted == s.totalShareSupply, ShareConservation);
  }

  method CheckBurnedShares(s: State) returns (r: Verdict)
    ensures r.Ok? <==> BurnedExplained(s)
    ensures r.Err? ==> r.error == BurnedSharesMismatch || r.error.ArithmeticFailure?
  {
    ghost var amounts := BurnedPerEpoch(s.epochs);
    var left, burned: U128 := s.epochs.Keys, 0;
    NothingTaken(amounts, left);
    while left != {}
      invariant left <= s.epochs.Keys
      invariant burned == Sum(amounts - left)
      decreases left
    {
      var id :| id in left;
      SumTakes(amounts, left, id);
      left := left - {id};
      PartBounds(amounts, left);
      if s.epochs[id].Finalized? {
        burned :- Sized(CheckedAdd(burned, s.epochs[id].terms.redeemShares));
      }
    }
    assert amounts - {} == amounts;
    return Need(burned == s.burnedRedemptionShares, BurnedSharesMismatch);
  }

  // Requests.

  ghost predicate AllFlagsAgree(book: RequestBook) {
    forall k :: k in book ==> book[k].FlagsAgree()
  }

  method FlagsHold(book: RequestBook) returns (ok: bool)
    ensures ok <==> AllFlagsAgree(book)
  {
    var left := book.Keys;
    while left != {}
      invariant left <= book.Keys
      invariant forall k :: k in book && k !in left ==> book[k].FlagsAgree()
      decreases left
    {
      var k :| k in left;
      if !book[k].FlagsAgree() {
        return false;
      }
      left := left - {k};
    }
    return true;
  }

  method CheckRequestLifecycle(s: State) returns (r: Verdict)
    ensures r.Ok? <==> AllFlagsAgree(s.depositRequests) && AllFlagsAgree(s.redeemRequests)
    ensures r.Err? ==> r.error == RequestLifecycleInvalid
  {
    var deposits := FlagsHold(s.depositRequests);
    if !deposits {
      return Err(RequestLifecycleInvalid);
    }
    var redemptions := FlagsHold(s.redeemRequests);
    return Need(redemptions, RequestLifecycleInvalid);
  }

  /** The active requests of one side of an epoch: their amounts, those unpaid, and how many. */
  datatype Totals = Totals(all: U128, unclaimed: U128, count: U128)

  ghost function TotalsOf(book: RequestBook, epoch: EpochId): Refusable<Totals>
  {
    var active, unpaid := ActiveAmounts(book, epoch), OutstandingAmounts(book, epoch);
    if Sum(active) < LIMIT128 && Sum(unpaid) < LIMIT128
    then Ok(Totals(Sum(active), Sum(unpaid), Min(|active|, LIMIT128 - 1)))
    else Err(ArithmeticOverflow)
  }

  lemma UnpaidIsPart(book: RequestBook, epoch: EpochId)
    ensures Sum(OutstandingAmounts(book, epoch)) <= Sum(ActiveAmounts(book, epoch))
  {
    SumMonotone(OutstandingAmounts(book, epoch), ActiveAmounts(book, epoch));
  }

  lemma SizeTakes<K(!new)>(m: map<K, nat>, left: set<K>, k: K)
    requires k in left
    ensures |m - (left - {k})| == |m - left| + if k in m then 1 else 0
  {
    if k in m {
      assert m - (left - {k}) == (m - left)[k := m[k]];
    } else {
      assert m - (left - {k}) == m - left;
    }
  }

  lemma AmountsAt(book: RequestBook, k: RequestKey)
    ensures At(ActiveAmounts(book, k.epoch), k) == ActiveAt(book, k)
    ensures At(OutstandingAmounts(book, k.epoch), k) == OutstandingAt(book, k)
    ensures k in ActiveAmounts(book, k.epoch) <==> k in book && book[k].IsActive()
  {
  }

  /** Visiting one more request of the epoch. */
  lemma TotalsStep(book: RequestBook, left: set<RequestKey>, k: RequestKey, epoch: EpochId)
    requires k in left && k in book && k.epoch == epoch
    ensures var active, unpaid := ActiveAmounts(book, epoch), OutstandingAmounts(book, epoch);
      && Sum(active - (left - {k})) == Sum(active - left) + ActiveAt(book, k) <= Sum(active)
      && Sum(unpaid - (left - {k})) == Sum(unpaid - left) + OutstandingAt(book, k) <= Sum(unpaid) <= Sum(active)
      && |active - (left - {k})| == |active - left| + if book[k].IsActive() then 1 else 0
  {
    hide Sum;
    hide ActiveAmounts;
    hide OutstandingAmounts;
    var active, unpaid := ActiveAmounts(book, epoch), OutstandingAmounts(book, epoch);
    AmountsAt(book, k);
    SumTakes(active, left, k);
    SumTakes(unpaid, left, k);
    SizeTakes(active, left, k);
    PartBounds(active, left - {k});
    PartBounds(unpaid, left - {k});
    UnpaidIsPart(book, epoch);
  }

  /** What the loop has added up when `left` are still to be visited. */
  ghost predicate Reached(book: RequestBook, epoch: EpochId, left: set<RequestKey>, totals: Totals) {
    && totals.all == Sum(ActiveAmounts(book, epoch) - left)
    && totals.unclaimed == Sum(OutstandingAmounts(book, epoch) - left)
    && totals.count == Min(|ActiveAmounts(book, epoch) - left|, LIMIT128 - 1)
  }

  lemma TotalsStart(book: RequestBook, left: set<RequestKey>, epoch: EpochId)
    requires forall k :: k in book && k.epoch == epoch ==> k in left
    ensures Reached(book, epoch, left, Totals(0, 0, 0))
  {
    assert ActiveAmounts(book, epoch) - left == map[];
    assert OutstandingAmounts(book, epoch) - left == map[];
  }

  lemma TotalsEnd(book: RequestBook, epoch: EpochId, totals: Totals)
    requires Reached(book, epoch, {}, totals)
    ensures TotalsOf(book, epoch) == Ok(totals)
  {
    assert ActiveAmounts(book, epoch) - {} == ActiveAmounts(book, epoch);
    assert OutstandingAmounts(book, epoch) - {} == OutstandingAmounts(book, epoch);
  }

  function Added(totals: Totals, request: Request): Refusable<Totals> {
    if !request.IsActive() then Ok(totals) else
      var all :- CheckedAdd(totals.all, request.amount);
      var unclaimed :- if request.claimed then Ok(totals.unclaimed) else CheckedAdd(totals.unclaimed, request.amount);
      Ok(Totals(all, unclaimed, SaturatingAdd(totals.count, 1)))
  }

  lemma TotalsAdd(book: RequestBook, left: set<RequestKey>, k: RequestKey, epoch: EpochId, totals: Totals)
    requires k in left && k in book && k.epoch == epoch && Reached(book, epoch, left, totals)
    ensures Added(totals, book[k]).Ok? ==> Reached(book, epoch, left - {k}, Added(totals, book[k]).value)
    ensures Added(totals, book[k]).Err? ==> TotalsOf(book, epoch) == Added(totals, book[k])
  {
    hide Sum;
    hide ActiveAmounts;
    hide OutstandingAmounts;
    TotalsStep(book, left, k, epoch);
  }

  method RequestTotals(book: RequestBook, epoch: EpochId) returns (r: Refusable<Totals>)
    ensures r == TotalsOf(book, epoch)
  {
    hide Reached;
    hide TotalsOf;
    var left := set k | k in book && k.epoch == epoch;
    var totals := Totals(0, 0, 0);
    TotalsStart(book, left, epoch);
    while left != {}
      invariant forall k :: k in left ==> k in book && k.epoch == epoch
      invariant Reached(book, epoch, left, totals)
      decreases left
    {
      var k :| k in left;
      TotalsAdd(book, left, k, epoch, totals);
      left := left - {k};
      if !book[k].IsActive() {
        continue;
      }
      var all :- CheckedAdd(totals.all, book[k].amount);
      totals := totals.(all := all, count := SaturatingAdd(totals.count, 1));
      if !book[k].claimed {
        var unclaimed :- CheckedAdd(totals.unclaimed, book[k].amount);
        totals := totals.(unclaimed := unclaimed);
      }
    }
    TotalsEnd(book, epoch, totals);
    return Ok(totals);
  }

  // Escrow.

  /** The current epoch is not settled, and both escrows are explained by the requests behind them. */
  ghost predicate EscrowBacked(s: State) {
    && (s.epoch.Some? ==> s.epoch.value.id !in s.epochs)
    && EscrowExplained(Books(s, Deposits), Deposits)
    && EscrowExplained(Books(s, Redemptions), Redemptions)
  }

  /** The part of `EscrowExplained` a loop has established when `left` are still to be visited. */
  ghost predicate EscrowReached(b: SideBooks, side: Side, left: set<EpochId>, total: nat) {
    && (b.current.Some? ==> b.pending == Sum(ActiveAmounts(b.book, b.current.value)))
    && (forall id :: id in b.epochs && id !in left && b.epochs[id].Aborted? ==>
          b.epochs[id].refunds.Refund(side) == Sum(ActiveAmounts(b.book, id)))
    && total == b.pending + Sum(RefundsPerEpoch(b.book, b.epochs) - left)
  }

  lemma EscrowStart(b: SideBooks, side: Side)
    requires b.current.Some? ==> b.pending == Sum(ActiveAmounts(b.book, b.current.value))
    ensures EscrowReached(b, side, b.epochs.Keys, b.pending)
  {
    NothingTaken(RefundsPerEpoch(b.book, b.epochs), b.epochs.Keys);
  }

  /** Visiting one outcome: what an aborted epoch still owes is added, and every failure is a real one. */
  lemma EscrowVisit(b: SideBooks, side: Side, left: set<EpochId>, id: EpochId, total: nat)
    requires EscrowReached(b, side, left, total) && id in left && left <= b.epochs.Keys && b.escrow < LIMIT128
    ensures !b.epochs[id].Aborted? ==> EscrowReached(b, side, left - {id}, total)
    ensures b.epochs[id].Aborted? ==>
      var totals := TotalsOf(b.book, id);
      if totals.Err? || totals.value.all != b.epochs[id].refunds.Refund(side)
        || LIMIT128 <= total + totals.value.unclaimed
      then !EscrowExplained(b, side)
      else EscrowReached(b, side, left - {id}, total + totals.value.unclaimed)
  {
    hide ActiveAmounts;
    hide OutstandingAmounts;
    hide Sum;
    var refunds := RefundsPerEpoch(b.book, b.epochs);
    SumTakes(refunds, left, id);
    PartBounds(refunds, left - {id});
    UnpaidIsPart(b.book, id);
  }

  lemma EscrowEnd(b: SideBooks, side: Side, total: nat)
    requires EscrowReached(b, side, {}, total)
    ensures EscrowExplained(b, side) <==> total == b.escrow
  {
    assert RefundsPerEpoch(b.book, b.epochs) - {} == RefundsPerEpoch(b.book, b.epochs);
  }

  lemma PendingDecides(b: SideBooks, side: Side)
    requires b.current.Some? && b.pending < LIMIT128
    ensures b.pending == Sum(ActiveAmounts(b.book, b.current.value)) <==>
      TotalsOf(b.book, b.current.value).Ok? && TotalsOf(b.book, b.current.value).value.all == b.pending
    ensures b.pending != Sum(ActiveAmounts(b.book, b.current.value)) ==> !EscrowExplained(b, side)
  {
    UnpaidIsPart(b.book, b.current.value);
  }

  method CheckEscrowBacking(s: State) returns (r: Verdict)
    ensures r.Ok? <==> EscrowBacked(s)
    ensures r.Err? ==> EscrowFault(r.error)
  {
    hide EscrowExplained;
    hide EscrowReached;
    hide TotalsOf;
    hide ActiveAmounts;
    ghost var d, e := Books(s, Deposits), Books(s, Redemptions);
    var assets: U128, shares: U128 := 0, 0;
    if s.epoch.Some? {
      var epoch := s.epoch.value;
      if epoch.id in s.epochs {
        return Err(SettledEpochStillCurrent);
      }
      PendingDecides(d, Deposits);
      PendingDecides(e, Redemptions);
      var deposits := RequestTotals(s.depositRequests, epoch.id);
      var deposited :- Sized(deposits);
      var redemptions := RequestTotals(s.redeemRequests, epoch.id);
      var redeemed :- Sized(redemptions);
      if deposited.all != epoch.pendingDepositAssets || redeemed.all != epoch.pendingRedeemShares {
        return Err(EpochAggregateMismatch);
      }
      assets, shares := deposited.all, redeemed.all;
    }
    EscrowStart(d, Deposits);
    EscrowStart(e, Redemptions);
    var left := s.epochs.Keys;
    while left != {}
      invariant left <= s.epochs.Keys
      invariant EscrowReached(d, Deposits, left, assets) && EscrowReached(e, Redemptions, left, shares)
      decreases left
    {
      var id :| id in left;
      EscrowVisit(d, Deposits, left, id, assets);
      EscrowVisit(e, Redemptions, left, id, shares);
      left := left - {id};
      if s.epochs[id].Finalized? {
        continue;
      }
      var aborted := s.epochs[id].refunds;
      var deposits := RequestTotals(s.depositRequests, id);
      var deposited :- Sized(deposits);
      var redemptions := RequestTotals(s.redeemRequests, id);
      var redeemed :- Sized(redemptions);
      if deposited.all != aborted.refundAssets || redeemed.all != aborted.refundShares {
        return Err(AbortedRefundMismatch);
      }
      assets :- Sized(CheckedAdd(assets, deposited.unclaimed));
      shares :- Sized(CheckedAdd(shares, redeemed.unclaimed));
    }
    EscrowEnd(d, Deposits, assets);
    EscrowEnd(e, Redemptions, shares);
    return Need(assets == s.buckets.pendingDepositEscrow && shares == s.escrowedRedeemShares, EscrowAggregateMismatch);
  }

  // Claims.

  /** The dust recorded for one side of an epoch is the measured one, and at most one unit per claim but the last. */
  ghost predicate DustHolds(book: RequestBook, id: EpochId, terms: EpochTerms, side: Side) {
    && OwedOnSide(book, id, terms, side).Ok?
    && TotalsOf(book, id).Ok?
    && terms.Aggregate(side) == OwedOnSide(book, id, terms, side).value.all + terms.Dust(side)
    && terms.Dust(side) <= SaturatingSub(TotalsOf(book, id).value.count, 1)
  }

  ghost function BackingPerEpoch(book: RequestBook, epochs: Outcomes, side: Side): map<EpochId, nat> {
    map id | id in epochs && epochs[id].Finalized? ::
      if id in epochs && epochs[id].Finalized? && OwedOnSide(book, id, epochs[id].terms, side).Ok?
      then OwedOnSide(book, id, epochs[id].terms, side).value.unclaimed + epochs[id].terms.Dust(side) else 0
  }

  ghost predicate ClaimsReached(b: SideBooks, side: Side, left: set<EpochId>, total: nat) {
    && (forall id :: id in b.epochs && id !in left && b.epochs[id].Finalized? ==>
          DustHolds(b.book, id, b.epochs[id].terms, side))
    && total == Sum(BackingPerEpoch(b.book, b.epochs, side) - left)
  }

  /** Every finalized epoch's dust holds, and the reserve is what they still owe plus that dust. */
  ghost predicate ClaimsBacked(b: SideBooks, side: Side) {
    && (forall id :: id in b.epochs && b.epochs[id].Finalized? ==> DustHolds(b.book, id, b.epochs[id].terms, side))
    && b.reserve == Sum(BackingPerEpoch(b.book, b.epochs, side))
  }

  lemma ClaimsStart(b: SideBooks, side: Side)
    ensures ClaimsReached(b, side, b.epochs.Keys, 0)
  {
    NothingTaken(BackingPerEpoch(b.book, b.epochs, side), b.epochs.Keys);
  }

  lemma ClaimsVisit(b: SideBooks, side: Side, left: set<EpochId>, id: EpochId, total: nat)
    requires ClaimsReached(b, side, left, total) && id in left && left <= b.epochs.Keys && b.reserve < LIMIT128
    ensures !b.epochs[id].Finalized? ==> ClaimsReached(b, side, left - {id}, total)
    ensures b.epochs[id].Finalized? ==>
      var terms := b.epochs[id].terms;
      if !DustHolds(b.book, id, terms, side) then !ClaimsBacked(b, side)
      else
        var sum := total + OwedOnSide(b.book, id, terms, side).value.unclaimed + terms.Dust(side);
        if LIMIT128 <= sum then !ClaimsBacked(b, side) else ClaimsReached(b, side, left - {id}, sum)
  {
    hide OwedOnSide;
    hide Sum;
    var backing := BackingPerEpoch(b.book, b.epochs, side);
    SumTakes(backing, left, id);
    PartBounds(backing, left - {id});
  }

  lemma ClaimsEnd(b: SideBooks, side: Side, total: nat)
    requires ClaimsReached(b, side, {}, total)
    ensures ClaimsBacked(b, side) <==> total == b.reserve
  {
    assert BackingPerEpoch(b.book, b.epochs, side) - {} == BackingPerEpoch(b.book, b.epochs, side);
  }

  function CheckDust(aggregate: U128, parts: U128, recorded: U128, count: U128): Verdict {
    if aggregate < parts then Err(DustOutOfBounds)
    else Need(aggregate - parts == recorded && aggregate - parts <= SaturatingSub(count, 1), DustOutOfBounds)
  }

  method CheckClaimBacking(s: State) returns (r: Verdict)
    ensures r.Ok? <==> ClaimsBacked(Books(s, Deposits), Deposits) && ClaimsBacked(Books(s, Redemptions), Redemptions)
    ensures r.Err? ==> ClaimFault(r.error)
  {
    hide ClaimsBacked;
    hide ClaimsReached;
    hide TotalsOf;
    hide OwedOnSide;
    ghost var d, e := Books(s, Deposits), Books(s, Redemptions);
    var shares: U128, assets: U128 := 0, 0;
    ClaimsStart(d, Deposits);
    ClaimsStart(e, Redemptions);
    var left := s.epochs.Keys;
    while left != {}
      invariant left <= s.epochs.Keys
      invariant ClaimsReached(d, Deposits, left, shares) && ClaimsReached(e, Redemptions, left, assets)
      decreases left
    {
      var id :| id in left;
      ClaimsVisit(d, Deposits, left, id, shares);
      ClaimsVisit(e, Redemptions, left, id, assets);
      left := left - {id};
      if s.epochs[id].Aborted? {
        continue;
      }
      var terms := s.epochs[id].terms;
      var entitlement := Entitlements(s, id, terms);
      var owed :- Sized(entitlement);
      var deposits := RequestTotals(s.depositRequests, id);
      var deposited :- Sized(deposits);
      var redemptions := RequestTotals(s.redeemRequests, id);
      var redeemed :- Sized(redemptions);
      var _ :- CheckDust(terms.mintedShares, owed.depositShares, terms.depositDust, deposited.count);
      var _ :- CheckDust(terms.redeemAssets, owed.redeemAssets, terms.redeemDust, redeemed.count);
      shares :- Sized(CheckedAdd(shares, owed.unclaimedDepositShares));
      shares :- Sized(CheckedAdd(shares, terms.depositDust));
      assets :- Sized(CheckedAdd(assets, owed.unclaimedRedeemAssets));
      assets :- Sized(CheckedAdd(assets, terms.redeemDust));
    }
    ClaimsEnd(d, Deposits, shares);
    ClaimsEnd(e, Redemptions, assets);
    if shares != s.claimableDepositShares {
      return Err(ClaimableSharesNotExplained);
    }
    return Need(assets == s.buckets.claimReserve, ClaimReserveNotExplained);
  }

  // Settlement terms.

  /** One finalized epoch is recorded under its own id, at its own price, for its own requests. */
  ghost predicate TermsHold(s: State, id: EpochId, terms: EpochTerms) {
    && terms.id == id
    && terms.Owed(Deposits, terms.depositAssets) == Ok(terms.mintedShares)
    && terms.Owed(Redemptions, terms.redeemShares) == Ok(terms.redeemAssets)
    && terms.redeemAssets <= terms.totalAssets
    && Sum(ActiveAmounts(s.depositRequests, id)) == terms.depositAssets
    && Sum(ActiveAmounts(s.redeemRequests, id)) == terms.redeemShares
  }

  ghost predicate AllTermsHold(s: State) {
    forall id :: id in s.epochs && s.epochs[id].Finalized? ==> TermsHold(s, id, s.epochs[id].terms)
  }

  lemma TotalsDecide(book: RequestBook, id: EpochId, amount: U128)
    ensures Sum(ActiveAmounts(book, id)) == amount <==>
      TotalsOf(book, id).Ok? && TotalsOf(book, id).value.all == amount
  {
    UnpaidIsPart(book, id);
  }

  method CheckFinalizedTerms(s: State) returns (r: Verdict)
    ensures r.Ok? <==> AllTermsHold(s)
    ensures r.Err? ==> TermsFault(r.error)
  {
    hide ActiveAmounts;
    hide TotalsOf;
    hide AssetsToShares;
    hide SharesToAssets;
    hide Sum;
    var left := s.epochs.Keys;
    while left != {}
      invariant left <= s.epochs.Keys
      invariant forall id :: id in s.epochs && id !in left && s.epochs[id].Finalized? ==>
        TermsHold(s, id, s.epochs[id].terms)
      decreases left
    {
      var id :| id in left;
      left := left - {id};
      if s.epochs[id].Aborted? {
        continue;
      }
      var terms := s.epochs[id].terms;
      TotalsDecide(s.depositRequests, id, terms.depositAssets);
      TotalsDecide(s.redeemRequests, id, terms.redeemShares);
      if id != terms.id {
        return Err(EpochTermsInconsistent);
      }
      var minted :- Sized(terms.Owed(Deposits, terms.depositAssets));
      if minted != terms.mintedShares {
        return Err(EpochTermsInconsistent);
      }
      var paid :- Sized(terms.Owed(Redemptions, terms.redeemShares));
      if paid != terms.redeemAssets || terms.totalAssets < terms.redeemAssets {
        return Err(EpochTermsInconsistent);
      }
      var deposits := RequestTotals(s.depositRequests, id);
      var deposited :- Sized(deposits);
      var redemptions := RequestTotals(s.redeemRequests, id);
      var redeemed :- Sized(redemptions);
      if deposited.all != terms.depositAssets || redeemed.all != terms.redeemShares {
        return Err(EpochAggregateMismatch);
      }
    }
    return Ok(());
  }

  /** Terms that pass both checks have a usable price. */
  lemma TermsSound(s: State, id: EpochId, terms: EpochTerms)
    requires TermsHold(s, id, terms)
    ensures terms.Basis().Sound()
  {
    OwedByFault(terms, Deposits, terms.depositAssets);
    OwedByFault(terms, Redemptions, terms.redeemShares);
  }

  lemma {:induction false} SizeBelowSum<K(!new)>(m: map<K, nat>)
    requires forall k :: k in m ==> 0 < m[k]
    ensures |m| <= Sum(m)
    decreases |m|
  {
    if m != map[] {
      var k :| k in m;
      SumRemove(m, k);
      SizeBelowSum(m - {k});
    }
  }

  /** For sound terms under their own id, the two checks on one side together are `TermsExplained`. */
  lemma TermsExplainedIff(book: RequestBook, terms: EpochTerms, side: Side)
    requires terms.Basis().Sound()
    ensures TermsExplained(book, terms, side) <==>
      && DustHolds(book, terms.id, terms, side)
      && terms.Owed(side, terms.Settled(side)) == Ok(terms.Aggregate(side))
      && Sum(ActiveAmounts(book, terms.id)) == terms.Settled(side)
  {
    hide PricedEach;
    hide Floor;
    hide Times;
    var active := ActiveAmounts(book, terms.id);
    OwedIsEntitled(book, terms, side);
    OwedIsFloor(terms, side, terms.Settled(side));
    TotalsDecide(book, terms.id, terms.Settled(side));
    SizeBelowSum(active);
  }

  lemma BackingIsReserve(book: RequestBook, epochs: Outcomes, side: Side)
    requires OutcomesSound(epochs)
    requires forall id :: id in epochs && epochs[id].Finalized? ==> DustHolds(book, id, epochs[id].terms, side)
    ensures BackingPerEpoch(book, epochs, side) == ReservePerEpoch(book, epochs, side)
  {
    hide TotalsOf;
    hide OwedOnSide;
    hide UnclaimedEntitled;
    hide Sum;
    forall id | id in epochs && epochs[id].Finalized?
      ensures OwedOnSide(book, id, epochs[id].terms, side).value.unclaimed
           == Sum(UnclaimedEntitled(book, epochs[id].terms, side))
    {
      UnclaimedIsEntitled(book, epochs[id].terms, side);
    }
  }

  lemma UnclaimedIsEntitled(book: RequestBook, terms: EpochTerms, side: Side)
    requires terms.Basis().Sound() && OwedOnSide(book, terms.id, terms, side).Ok?
    ensures OwedOnSide(book, terms.id, terms, side).value.unclaimed == Sum(UnclaimedEntitled(book, terms, side))
  {
    hide Floor;
    hide Times;
    EmptyPricesNothing(terms.Numerator(side), terms.Denominator(side));
    if ActiveAmounts(book, terms.id) == map[] {
      SeenOutstandingIsActive(book, terms.id);
      assert OutstandingAmounts(book, terms.id) == map[];
    }
  }

  /** Claims and terms checked together are the claim part of the invariant. */
  lemma ClaimsCheckedIff(s: State)
    ensures
      (&& ClaimsBacked(Books(s, Deposits), Deposits) && ClaimsBacked(Books(s, Redemptions), Redemptions)
       && AllTermsHold(s)) <==>
      (&& ClaimsExplained(Books(s, Deposits), Deposits) && ClaimsExplained(Books(s, Redemptions), Redemptions)
       && NeverOverpaid(s.epochs))
  {
    hide DustHolds;
    hide BackingPerEpoch;
    hide ReservePerEpoch;
    hide TermsExplained;
    hide ActiveAmounts;
    hide AssetsToShares;
    hide SharesToAssets;
    hide Sum;
    if AllTermsHold(s) {
      forall id | id in s.epochs && s.epochs[id].Finalized?
        ensures s.epochs[id].terms.Basis().Sound()
      {
        TermsSound(s, id, s.epochs[id].terms);
      }
    }
    if OutcomesSound(s.epochs) {
      forall id, side | id in s.epochs && s.epochs[id].Finalized?
        ensures TermsExplained(s.Requests(side), s.epochs[id].terms, side) <==>
          && DustHolds(s.Requests(side), id, s.epochs[id].terms, side)
          && s.epochs[id].terms.Owed(side, s.epochs[id].terms.Settled(side)) == Ok(s.epochs[id].terms.Aggregate(side))
          && Sum(ActiveAmounts(s.Requests(side), id)) == s.epochs[id].terms.Settled(side)
      {
        TermsExplainedIff(s.Requests(side), s.epochs[id].terms, side);
      }
      forall side: Side
        ensures (forall id :: id in s.epochs && s.epochs[id].Finalized? ==>
                   DustHolds(s.Requests(side), id, s.epochs[id].terms, side)) ==>
          BackingPerEpoch(s.Requests(side), s.epochs, side) == ReservePerEpoch(s.Requests(side), s.epochs, side)
      {
        if forall id :: id in s.epochs && s.epochs[id].Finalized? ==>
                   DustHolds(s.Requests(side), id, s.epochs[id].terms, side) {
          BackingIsReserve(s.Requests(side), s.epochs, side);
        }
      }
    }
  }

  ghost predicate NeverOverpaid(epochs: Outcomes) {
    forall id :: id in epochs && epochs[id].Finalized? ==> epochs[id].terms.redeemAssets <= epochs[id].terms.totalAssets
  }

  // Prices.

  /** Some loss or impairment was ever recorded, so the price check does not apply. */
  predicate LossSeen(s: State) {
    s.recognizedLoss != 0 || s.inboundCumulativeLoss != 0 || s.cumulativeImpairment != 0
  }

  method Least(ids: set<EpochId>) returns (least: EpochId)
    requires ids != {}
    ensures least in ids && forall id :: id in ids ==> least <= id
  {
    least :| least in ids;
    var left := ids - {least};
    while left != {}
      invariant left <= ids && least in ids
      invariant forall id :: id in ids && id !in left ==> least <= id
      decreases left
    {
      var id :| id in left;
      if id < least {
        least := id;
      }
      left := left - {id};
    }
  }

  /** The settled price of `i` is at most that of `j`. */
  ghost predicate InOrder(epochs: Outcomes, i: EpochId, j: EpochId)
    requires i in epochs && j in epochs && epochs[i].Finalized? && epochs[j].Finalized?
  {
    PriceAtMost(epochs[i].terms.Basis(), epochs[j].terms.Basis())
  }

  /** Both were settled, and no epoch between them was. */
  ghost predicate Neighbours(epochs: Outcomes, i: EpochId, j: EpochId) {
    && i in epochs && j in epochs && epochs[i].Finalized? && epochs[j].Finalized? && i < j
    && forall k :: k in epochs && epochs[k].Finalized? ==> k <= i || j <= k
  }

  ghost predicate NeighboursInOrder(epochs: Outcomes) {
    forall i, j :: Neighbours(epochs, i, j) ==> InOrder(epochs, i, j)
  }

  lemma {:induction false} OrderedBetween(epochs: Outcomes, i: EpochId, j: EpochId)
    requires OutcomesSound(epochs) && NeighboursInOrder(epochs)
    requires i in epochs && j in epochs && epochs[i].Finalized? && epochs[j].Finalized? && i < j
    ensures InOrder(epochs, i, j)
    decreases j
  {
    hide RatioAtMost;
    var earlier := set k | k in epochs && epochs[k].Finalized? && k < j;
    assert i in earlier;
    HasGreatest(earlier);
    var k :| k in earlier && forall l :: l in earlier ==> l <= k;
    assert forall l :: l in epochs && epochs[l].Finalized? ==> l <= k || j <= l by {
      forall l | l in epochs && epochs[l].Finalized?
        ensures l <= k || j <= l
      {
        assert l < j ==> l in earlier;
      }
    }
    assert Neighbours(epochs, k, j);
    if i != k {
      OrderedBetween(epochs, i, k);
      var a, b, c := epochs[i].terms.Basis(), epochs[k].terms.Basis(), epochs[j].terms.Basis();
      RatioTransitive(a.Assets(), a.Shares(), b.Assets(), b.Shares(), c.Assets(), c.Shares());
    }
  }

  /** For usable prices, neighbours in order put every pair in order. */
  lemma NeighboursDecide(epochs: Outcomes)
    requires OutcomesSound(epochs)
    ensures NeighboursInOrder(epochs) <==> PricesOrdered(epochs)
  {
    hide RatioAtMost;
    if NeighboursInOrder(epochs) {
      forall i, j | i in epochs && j in epochs && epochs[i].Finalized? && epochs[j].Finalized? && i < j
        ensures PriceAtMost(epochs[i].terms.Basis(), epochs[j].terms.Basis())
      {
        OrderedBetween(epochs, i, j);
      }
    }
  }

  /** `last` is the latest visited settled epoch, and visited neighbours are in order. */
  ghost predicate PricesReached(epochs: Outcomes, left: set<EpochId>, last: Option<EpochId>) {
    && (forall i, j :: i in epochs && i !in left && j in left ==> i < j)
    && (last.None? ==> forall i :: i in epochs && i !in left ==> epochs[i].Aborted?)
    && (last.Some? ==>
          && last.value in epochs && last.value !in left && epochs[last.value].Finalized?
          && forall i :: i in epochs && i !in left && epochs[i].Finalized? ==> i <= last.value)
    && (forall i, j :: Neighbours(epochs, i, j) && j !in left ==> InOrder(epochs, i, j))
  }

  /** The next settled epoch has at most one neighbour before it: the last one visited. */
  lemma PricesVisit(epochs: Outcomes, left: set<EpochId>, last: Option<EpochId>, id: EpochId)
    requires PricesReached(epochs, left, last) && left <= epochs.Keys
    requires id in left && forall j :: j in left ==> id <= j
    ensures epochs[id].Aborted? ==> PricesReached(epochs, left - {id}, last)
    ensures epochs[id].Finalized? && (last.Some? ==> InOrder(epochs, last.value, id)) ==>
      PricesReached(epochs, left - {id}, Some(id))
    ensures epochs[id].Finalized? && last.Some? ==> Neighbours(epochs, last.value, id)
  {
    hide RatioAtMost;
    if epochs[id].Finalized? {
      forall i: EpochId | Neighbours(epochs, i, id)
        ensures last == Some(i)
      {
        assert i !in left;
      }
    }
  }

  method CheckPriceNeverFalls(s: State) returns (r: Verdict)
    ensures r == Need(LossSeen(s) || NeighboursInOrder(s.epochs), PriceDecreased)
  {
    hide RatioAtMost;
    if LossSeen(s) {
      return Ok(());
    }
    var earlier: Option<EpochTerms> := None;
    ghost var last: Option<EpochId> := None;
    var left := s.epochs.Keys;
    while left != {}
      invariant left <= s.epochs.Keys
      invariant last.Some? <==> earlier.Some?
      invariant last.Some? ==>
        last.value in s.epochs && last.value !in left && s.epochs[last.value] == Finalized(earlier.value)
      invariant PricesReached(s.epochs, left, last)
      decreases left
    {
      var id := Least(left);
      PricesVisit(s.epochs, left, last, id);
      left := left - {id};
      if s.epochs[id].Aborted? {
        continue;
      }
      var terms := s.epochs[id].terms;
      if earlier.Some? && !PriceAtMost(earlier.value.Basis(), terms.Basis()) {
        assert !InOrder(s.epochs, last.value, id);
        return Err(PriceDecreased);
      }
      earlier, last := Some(terms), Some(id);
    }
    return Ok(());
  }

  // All of them.

  /** What passing every check means. */
  ghost predicate Passes(s: State) {
    && AssetsConserved(s) && SupplyFits(s)
    && BucketsFit(s)
    && SharesConserved(s)
    && BurnedExplained(s)
    && AllFlagsAgree(s.depositRequests) && AllFlagsAgree(s.redeemRequests)
    && EscrowBacked(s)
    && ClaimsExplained(Books(s, Deposits), Deposits) && ClaimsExplained(Books(s, Redemptions), Redemptions)
    && NeverOverpaid(s.epochs)
    && (LossSeen(s) || PricesOrdered(s.epochs))
  }

  ghost predicate BothClaimsBacked(s: State) {
    ClaimsBacked(Books(s, Deposits), Deposits) && ClaimsBacked(Books(s, Redemptions), Redemptions)
  }

  /** A refused state is blamed for the first thing that does not hold. */
  ghost predicate Blames(s: State, v: Violation) {
    if !(AssetsConserved(s) && SupplyFits(s)) then v == AssetConservation || v.ArithmeticFailure?
    else if !BucketsFit(s) then v.ArithmeticFailure?
    else if !SharesConserved(s) then v == ShareConservation || v.ArithmeticFailure?
    else if !BurnedExplained(s) then v == BurnedSharesMismatch || v.ArithmeticFailure?
    else if !(AllFlagsAgree(s.depositRequests) && AllFlagsAgree(s.redeemRequests)) then v == RequestLifecycleInvalid
    else if !EscrowBacked(s) then EscrowFault(v)
    else if !BothClaimsBacked(s) then ClaimFault(v)
    else if !AllTermsHold(s) then TermsFault(v)
    else v == PriceDecreased
  }

  /** Accepts a state exactly when its books, escrows, reserves, terms, dust and prices are all explained. */
  method CheckInvariants(s: State) returns (r: Verdict)
    ensures r.Ok? <==> Passes(s)
    ensures r.Err? ==> Blames(s, r.error)
  {
    hide AssetsConserved;
    hide SharesConserved;
    hide BurnedExplained;
    hide AllFlagsAgree;
    hide EscrowBacked;
    hide ClaimsBacked;
    hide AllTermsHold;
    hide PricesOrdered;
    hide NeverOverpaid;
    hide TermsExplained;
    hide NeighboursInOrder;
    ClaimsCheckedIff(s);
    if OutcomesSound(s.epochs) {
      NeighboursDecide(s.epochs);
    }
    var assets := CheckAssetConservation(s);
    var _ :- assets;
    var nav := CheckNavComposition(s);
    var _ :- nav;
    var shares := CheckShareConservation(s);
    var _ :- shares;
    var burned := CheckBurnedShares(s);
    var _ :- burned;
    var lifecycle := CheckRequestLifecycle(s);
    var _ :- lifecycle;
    var escrow := CheckEscrowBacking(s);
    var _ :- escrow;
    var claims := CheckClaimBacking(s);
    var _ :- claims;
    var terms := CheckFinalizedTerms(s);
    var _ :- terms;
    var prices := CheckPriceNeverFalls(s);
    var _ :- prices;
    return Ok(());
  }

  /** On states the machine can reach, only the width of the totals and the price order are left to check. */
  lemma InvPassesIff(s: State)
    requires Inv(s)
    ensures Passes(s) <==> SupplyFits(s) && BucketsFit(s) && (LossSeen(s) || PricesOrdered(s.epochs))
  {
    hide AssetsConserved;
    hide SharesConserved;
    hide EscrowExplained;
    hide ClaimsExplained;
    hide PricesOrdered;
    hide Pow10;
  }

  /** The checks accept the end of a run exactly when the totals fit and each settlement rose, or a loss was seen. */
  lemma ReachableStatesPassIff(g: Genesis, ops: seq<Operation>)
    requires Initial(g).Ok?
    ensures var s := Run(Initial(g).value, ops);
      Passes(s) <==> SupplyFits(s) && BucketsFit(s) && (LossSeen(s) || Rising(Initial(g).value, ops))
  {
    hide Inv;
    hide Passes;
    hide Initial;
    hide Run;
    hide Rising;
    hide PricesOrdered;
    ReachableStatesSatisfyInv(g, ops);
    InvPassesIff(Run(Initial(g).value, ops));
    PricesRiseIff(g, ops);
  }

  /** Every run that stays at par and within 128 bits passes all of them. */
  lemma ParRunsPass(g: Genesis, ops: seq<Operation>)
    requires Initial(g).Ok?
    requires SupplyFits(Run(Initial(g).value, ops)) && BucketsFit(Run(Initial(g).value, ops))
    requires StaysAtPar(Initial(g).value, ops)
    ensures Passes(Run(Initial(g).value, ops))
  {
    hide Passes;
    hide Initial;
    hide Run;
    hide StaysAtPar;
    hide Rising;
    hide PricesOrdered;
    ReachableStatesPassIff(g, ops);
    PricesRiseIff(g, ops);
    ParRunsKeepPrices(g, ops);
  }
}
