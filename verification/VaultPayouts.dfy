/**
 * Paying out settled epochs: every outstanding claim or refund can be taken, in any order,
 * for its exact value, and taking all of them leaves only rounding dust behind.
 */
module VaultPayouts {
  import opened Results
  import opened Words
  import opened Amounts
  import opened Pricing
  import opened Sums
  import opened VaultState
  import opened VaultSpec
  import opened VaultInvariant
  import opened VaultFrames
  import opened VaultPreservation

  /** One claim or refund: a side and the request it pays. */
  datatype Payout = Payout(side: Side, key: RequestKey)

  predicate Payable(s: State, p: Payout) {
    p.key.epoch in s.epochs && p.key in s.Requests(p.side) && s.Requests(p.side)[p.key].IsOutstanding()
  }

  predicate IsRefund(s: State, p: Payout)
    requires Payable(s, p)
  {
    s.epochs[p.key.epoch].Aborted?
  }

  function PayoutOp(s: State, p: Payout): Operation
    requires Payable(s, p)
  {
    match (p.side, IsRefund(s, p))
    case (Deposits, false) => ClaimDeposit(p.key.account, p.key.epoch)
    case (Redemptions, false) => ClaimRedeem(p.key.account, p.key.epoch)
    case (Deposits, true) => ClaimAbortedDeposit(p.key.account, p.key.epoch)
    case (Redemptions, true) => ClaimAbortedRedeem(p.key.account, p.key.epoch)
  }

  /** What a payout is worth: the requested amount back, or its floor at the epoch's price. */
  ghost function Value(s: State, p: Payout): nat
    requires Payable(s, p) && OutcomesSound(s.epochs)
  {
    var amount := s.Requests(p.side)[p.key].amount;
    match s.epochs[p.key.epoch]
    case Aborted(_) => amount
    case Finalized(terms) => Floor(Times(amount, terms.Numerator(p.side)), terms.Denominator(p.side))
  }

  /** Which kind of balance a payout credits: a refund its own side, a claim the opposite one. */
  function CreditedSide(s: State, p: Payout): Side
    requires Payable(s, p)
  {
    if IsRefund(s, p) then p.side else p.side.Opposite()
  }

  /** Where a payout is drawn from. */
  function Pool(s: State, p: Payout): U128
    requires Payable(s, p)
  {
    if IsRefund(s, p) then s.Escrow(p.side) else s.Reserve(p.side)
  }

  // The pools cover every payout.

  lemma ReserveCovers(b: SideBooks, side: Side, key: RequestKey)
    requires SideInv(b, side)
    requires key.epoch in b.epochs && b.epochs[key.epoch].Finalized?
    requires key in b.book && b.book[key].IsOutstanding()
    ensures var terms := b.epochs[key.epoch].terms;
      && terms.Basis().Sound()
      && Floor(Times(b.book[key].amount, terms.Numerator(side)), terms.Denominator(side)) <= b.reserve
  {
    hide Floor;
    hide Times;
    hide EscrowExplained;
    hide RequestsTied;
    hide ReservePerEpoch;
    ReservesDrop(b, side, key);
  }

  lemma EscrowCovers(b: SideBooks, side: Side, key: RequestKey)
    requires SideInv(b, side)
    requires key.epoch in b.epochs && b.epochs[key.epoch].Aborted?
    requires key in b.book && b.book[key].IsOutstanding()
    ensures b.book[key].amount <= b.escrow
  {
    hide ClaimsExplained;
    hide RefundsPerEpoch;
    RefundsDrop(b, key);
  }

  lemma BalanceIsHeld(s: State, account: AccountId, side: Side)
    ensures s.Balance(account, side) <= Held(s.accounts, side)
  {
    if account in s.accounts {
      SumBounds(AmountsOf(s.accounts, side), account);
    }
  }

  lemma PoolCovers(s: State, p: Payout)
    requires Inv(s) && Payable(s, p)
    ensures Value(s, p) <= Pool(s, p)
  {
    hide SideInv;
    hide Floor;
    hide Times;
    var b := Books(s, p.side);
    if IsRefund(s, p) {
      EscrowCovers(b, p.side, p.key);
    } else {
      ReserveCovers(b, p.side, p.key);
    }
  }

  /** Crediting a payout cannot overflow: shares never can, assets stay within the supply. */
  lemma CreditFits(s: State, p: Payout)
    requires Inv(s) && Payable(s, p)
    requires CreditedSide(s, p) == Deposits ==> SupplyFits(s)
    ensures s.Balance(p.key.account, CreditedSide(s, p)) + Value(s, p) < LIMIT128
  {
    hide SideInv;
    hide Held;
    hide Value;
    PoolCovers(s, p);
    BalanceIsHeld(s, p.key.account, CreditedSide(s, p));
  }

  /** A request book after a payout. */
  function BookAfter(s: State, p: Payout, side: Side): RequestBook
    requires Payable(s, p)
  {
    if side == p.side then s.Requests(side)[p.key := s.Requests(side)[p.key].(claimed := true)]
    else s.Requests(side)
  }

  /** A pool after `value` was drawn from it, or after another pool was used. */
  function Drawn(pool: U128, used: bool, value: nat): U128
    requires used ==> value <= pool
  {
    if used then pool - value else pool
  }

  function HoldingsOf(accounts: map<AccountId, Account>, id: AccountId): Account {
    if id in accounts then accounts[id] else NO_HOLDINGS
  }

  /** The accounts after a credit. */
  function Credited(accounts: map<AccountId, Account>, id: AccountId, kind: Side, value: nat): map<AccountId, Account>
    requires HoldingsOf(accounts, id).Of(kind) + value < LIMIT128
  {
    var account := HoldingsOf(accounts, id);
    accounts[id := account.With(kind, account.Of(kind) + value)]
  }

  lemma CreditsCommute(
    accounts: map<AccountId, Account>, a: AccountId, ka: Side, v: nat, b: AccountId, kb: Side, w: nat)
    requires HoldingsOf(accounts, a).Of(ka) + v < LIMIT128
    requires HoldingsOf(accounts, b).Of(kb) + w < LIMIT128
    requires HoldingsOf(Credited(accounts, a, ka, v), b).Of(kb) + w < LIMIT128
    ensures HoldingsOf(Credited(accounts, b, kb, w), a).Of(ka) + v < LIMIT128
    ensures Credited(Credited(accounts, a, ka, v), b, kb, w) == Credited(Credited(accounts, b, kb, w), a, ka, v)
  {
    if a != b {
      assert HoldingsOf(Credited(accounts, a, ka, v), b) == HoldingsOf(accounts, b);
      assert HoldingsOf(Credited(accounts, b, kb, w), a) == HoldingsOf(accounts, a);
    }
  }

  /** The state after one payout. */
  ghost function Paid(s: State, p: Payout): State
    requires Payable(s, p) && OutcomesSound(s.epochs)
    requires Value(s, p) <= Pool(s, p)
    requires s.Balance(p.key.account, CreditedSide(s, p)) + Value(s, p) < LIMIT128
  {
    var v, refund, kind := Value(s, p), IsRefund(s, p), CreditedSide(s, p);
    s.(accounts := Credited(s.accounts, p.key.account, kind, v),
       depositRequests := BookAfter(s, p, Deposits),
       redeemRequests := BookAfter(s, p, Redemptions),
       buckets := s.buckets.(
         pendingDepositEscrow := Drawn(s.buckets.pendingDepositEscrow, refund && p.side == Deposits, v),
         claimReserve := Drawn(s.buckets.claimReserve, !refund && p.side == Redemptions, v)),
       escrowedRedeemShares := Drawn(s.escrowedRedeemShares, refund && p.side == Redemptions, v),
       claimableDepositShares := Drawn(s.claimableDepositShares, !refund && p.side == Deposits, v))
  }

  ghost predicate CanPay(s: State, p: Payout) {
    && Payable(s, p) && OutcomesSound(s.epochs)
    && Value(s, p) <= Pool(s, p)
    && s.Balance(p.key.account, CreditedSide(s, p)) + Value(s, p) < LIMIT128
  }

  lemma RefundIsPaid(s: State, p: Payout)
    requires CanPay(s, p) && IsRefund(s, p)
    ensures ClaimRefund(s, p.side, p.key.account, p.key.epoch) == Ok(Paid(s, p))
  {
    assert p.key == RequestKey(p.key.epoch, p.key.account);
    match p.side
    case Deposits =>
    case Redemptions =>
  }

  lemma ClaimIsPaid(s: State, p: Payout)
    requires CanPay(s, p) && !IsRefund(s, p)
    ensures Claim(s, p.side, p.key.account, p.key.epoch) == Ok(Paid(s, p))
  {
    hide Floor;
    hide Times;
    hide AssetsToShares;
    hide SharesToAssets;
    assert p.key == RequestKey(p.key.epoch, p.key.account);
    OwedIsFloor(s.epochs[p.key.epoch].terms, p.side, s.Requests(p.side)[p.key].amount);
    hide OutcomesSound;
    match p.side
    case Deposits =>
    case Redemptions =>
  }

  /** Every outstanding claim or refund is accepted and pays exactly its value. */
  lemma PayoutSucceeds(s: State, p: Payout)
    requires Inv(s) && Payable(s, p)
    requires CreditedSide(s, p) == Deposits ==> SupplyFits(s)
    ensures CanPay(s, p)
    ensures Step(s, PayoutOp(s, p)) == Ok(Paid(s, p))
  {
    hide SideInv;
    hide Value;
    hide Paid;
    hide Claim;
    hide ClaimRefund;
    PoolCovers(s, p);
    CreditFits(s, p);
    if IsRefund(s, p) {
      RefundIsPaid(s, p);
    } else {
      ClaimIsPaid(s, p);
    }
  }

  lemma SoundPrices(s: State)
    requires Inv(s)
    ensures OutcomesSound(s.epochs)
  {
  }

  lemma PaidFrame(s: State, p: Payout, q: Payout)
    requires Payable(s, p) && OutcomesSound(s.epochs) && Value(s, p) <= Pool(s, p)
    requires s.Balance(p.key.account, CreditedSide(s, p)) + Value(s, p) < LIMIT128
    ensures var t := Paid(s, p);
      && t.epochs == s.epochs && t.epoch == s.epoch
      && t.initialAssetSupply == s.initialAssetSupply && t.externalInflow == s.externalInflow
      && (Payable(t, q) <==> Payable(s, q) && q != p)
      && (Payable(t, q) ==> t.Requests(q.side)[q.key] == s.Requests(q.side)[q.key])
  {
    hide Value;
    assert Paid(s, p).Requests(q.side) == BookAfter(s, p, q.side);
  }

  /** A payout touches no other payout's epoch, request or price. */
  lemma PayoutFrame(s: State, p: Payout, q: Payout)
    requires Inv(s) && SupplyFits(s) && Payable(s, p)
    ensures Step(s, PayoutOp(s, p)).Ok?
    ensures var t := Step(s, PayoutOp(s, p)).value;
      && Inv(t) && SupplyFits(t) && t.epochs == s.epochs && t.epoch == s.epoch
      && (Payable(t, q) <==> Payable(s, q) && q != p)
      && (Payable(t, q) ==>
            Value(t, q) == Value(s, q) && PayoutOp(t, q) == PayoutOp(s, q) && CreditedSide(t, q) == CreditedSide(s, q))
  {
    hide Inv;
    hide Floor;
    hide Times;
    hide Step;
    hide Paid;
    SoundPrices(s);
    PayoutSucceeds(s, p);
    PaidFrame(s, p, q);
    StepKeeps(s, PayoutOp(s, p));
    SoundPrices(Paid(s, p));
  }

  /** How one payout moves any balance. */
  lemma PayoutCredits(s: State, p: Payout, account: AccountId, kind: Side)
    requires Inv(s) && SupplyFits(s) && Payable(s, p)
    ensures Step(s, PayoutOp(s, p)).Ok?
    ensures Step(s, PayoutOp(s, p)).value.Balance(account, kind)
         == s.Balance(account, kind)
          + (if account == p.key.account && kind == CreditedSide(s, p) then Value(s, p) else 0)
  {
    hide SideInv;
    hide Held;
    hide Value;
    hide Step;
    PayoutSucceeds(s, p);
  }

  /** `q` can be paid in `t` exactly as in `s`. */
  ghost predicate StillPays(s: State, t: State, q: Payout)
    requires CanPay(s, q)
  {
    && CanPay(t, q)
    && Value(t, q) == Value(s, q) && CreditedSide(t, q) == CreditedSide(s, q) && IsRefund(t, q) == IsRefund(s, q)
  }

  lemma BooksCommute(s: State, p: Payout, q: Payout, side: Side)
    requires p != q && CanPay(s, p) && CanPay(s, q)
    requires StillPays(s, Paid(s, p), q) && StillPays(s, Paid(s, q), p)
    ensures BookAfter(Paid(s, p), q, side) == BookAfter(Paid(s, q), p, side)
  {
    hide Value;
    assert Paid(s, p).Requests(side) == BookAfter(s, p, side);
    assert Paid(s, q).Requests(side) == BookAfter(s, q, side);
  }

  lemma PaidCommutes(s: State, p: Payout, q: Payout)
    requires p != q && CanPay(s, p) && CanPay(s, q)
    requires StillPays(s, Paid(s, p), q) && StillPays(s, Paid(s, q), p)
    ensures Paid(Paid(s, p), q) == Paid(Paid(s, q), p)
  {
    hide Value;
    hide BookAfter;
    hide Credited;
    hide OutcomesSound;
    BooksCommute(s, p, q, Deposits);
    BooksCommute(s, p, q, Redemptions);
    CreditsCommute(
      s.accounts, p.key.account, CreditedSide(s, p), Value(s, p),
      q.key.account, CreditedSide(s, q), Value(s, q));
  }

  /** Two payouts can be taken in either order with the same result. */
  lemma PayoutsCommute(s: State, p: Payout, q: Payout)
    requires Inv(s) && SupplyFits(s) && Payable(s, p) && Payable(s, q) && p != q
    ensures var pFirst, qFirst := Next(s, PayoutOp(s, p)), Next(s, PayoutOp(s, q));
      && Step(pFirst, PayoutOp(s, q)).Ok?
      && Step(pFirst, PayoutOp(s, q)) == Step(qFirst, PayoutOp(s, p))
  {
    hide Inv;
    hide Value;
    hide Step;
    hide Paid;
    SoundPrices(s);
    PayoutSucceeds(s, p);
    PayoutSucceeds(s, q);
    PayoutFrame(s, p, q);
    PayoutFrame(s, q, p);
    SoundPrices(Paid(s, p));
    SoundPrices(Paid(s, q));
    PayoutSucceeds(Paid(s, p), q);
    PayoutSucceeds(Paid(s, q), p);
    PaidCommutes(s, p, q);
  }

  // Taking a whole list of payouts.

  ghost predicate AllPayable(s: State, ps: seq<Payout>) {
    && (forall i :: 0 <= i < |ps| ==> Payable(s, ps[i]))
    && (forall i, j :: 0 <= i < j < |ps| ==> ps[i] != ps[j])
  }

  ghost function PayoutOps(s: State, ps: seq<Payout>): seq<Operation>
    requires AllPayable(s, ps)
  {
    seq(|ps|, i requires 0 <= i < |ps| => PayoutOp(s, ps[i]))
  }

  /** What a list of payouts credits to one account in one kind. */
  ghost function PaidTo(s: State, ps: seq<Payout>, account: AccountId, kind: Side): nat
    requires AllPayable(s, ps) && OutcomesSound(s.epochs)
    decreases |ps|
  {
    if ps == [] then 0 else
      (if ps[0].key.account == account && CreditedSide(s, ps[0]) == kind then Value(s, ps[0]) else 0)
      + PaidTo(s, ps[1..], account, kind)
  }

  /** Payouts that are unaffected by `s` turning into `t` are worth the same in both. */
  lemma {:induction false} PaidToAgrees(s: State, t: State, ps: seq<Payout>, account: AccountId, kind: Side)
    requires AllPayable(s, ps) && AllPayable(t, ps) && OutcomesSound(s.epochs) && OutcomesSound(t.epochs)
    requires forall i :: 0 <= i < |ps| ==>
      Value(t, ps[i]) == Value(s, ps[i]) && CreditedSide(t, ps[i]) == CreditedSide(s, ps[i])
    ensures PaidTo(t, ps, account, kind) == PaidTo(s, ps, account, kind)
    decreases |ps|
  {
    hide Value;
    if ps != [] {
      PaidToAgrees(s, t, ps[1..], account, kind);
    }
  }

  /**
   * Any list of distinct outstanding payouts is accepted in full. It credits every account with exactly
   * the value of its own payouts, and consumes exactly the listed ones.
   */
  lemma {:induction false} PayoutsSucceed(s: State, ps: seq<Payout>, account: AccountId, kind: Side, q: Payout)
    requires Inv(s) && SupplyFits(s) && AllPayable(s, ps)
    ensures AllAccepted(s, PayoutOps(s, ps))
    ensures var t := Run(s, PayoutOps(s, ps));
      && Inv(t) && SupplyFits(t) && t.epochs == s.epochs && t.epoch == s.epoch
      && t.Balance(account, kind) == s.Balance(account, kind) + PaidTo(s, ps, account, kind)
      && (Payable(t, q) <==> Payable(s, q) && q !in ps)
    decreases |ps|
  {
    hide SideInv;
    hide Value;
    hide Step;
    hide Inv;
    hide Payable;
    hide PayoutOp;
    SoundPrices(s);
    if ps != [] {
      var p, rest := ps[0], ps[1..];
      PayoutFrame(s, p, q);
      PayoutCredits(s, p, account, kind);
      PayoutSucceeds(s, p);
      var t := Next(s, PayoutOp(s, p));
      forall i | 0 <= i < |rest|
        ensures Payable(t, rest[i]) && PayoutOp(t, rest[i]) == PayoutOp(s, rest[i])
        ensures Value(t, rest[i]) == Value(s, rest[i]) && CreditedSide(t, rest[i]) == CreditedSide(s, rest[i])
      {
        assert rest[i] == ps[i + 1];
        PayoutFrame(s, p, rest[i]);
      }
      assert PayoutOps(s, ps)[0] == PayoutOp(s, p);
      assert PayoutOps(s, ps)[1..] == PayoutOps(t, rest);
      PaidToAgrees(s, t, rest, account, kind);
      PayoutsSucceed(t, rest, account, kind, q);
    }
  }

  // What remains once everything was taken.

  /** The rounding dust each finalized epoch keeps on one side. */
  ghost function DustPerEpoch(epochs: Outcomes, side: Side): map<EpochId, nat> {
    map id | id in epochs && epochs[id].Finalized? ::
      if id in epochs && epochs[id].Finalized? then epochs[id].terms.Dust(side) else 0
  }

  /** No request of a finalized epoch is left to claim. */
  ghost predicate NothingClaimable(b: SideBooks) {
    forall k :: k in b.book && k.epoch in b.epochs && b.epochs[k.epoch].Finalized? ==> !b.book[k].IsOutstanding()
  }

  /** No request of an aborted epoch is left to refund. */
  ghost predicate NothingRefundable(b: SideBooks) {
    forall k :: k in b.book && k.epoch in b.epochs && b.epochs[k.epoch].Aborted? ==> !b.book[k].IsOutstanding()
  }

  lemma OnlyDustRemains(b: SideBooks, side: Side)
    requires SideInv(b, side) && NothingClaimable(b)
    ensures b.reserve == Sum(DustPerEpoch(b.epochs, side))
  {
    hide TermsExplained;
    assert ReservePerEpoch(b.book, b.epochs, side) == DustPerEpoch(b.epochs, side) by {
      forall id | id in b.epochs && b.epochs[id].Finalized?
        ensures UnclaimedEntitled(b.book, b.epochs[id].terms, side) == map[]
      {
        assert OutstandingAmounts(b.book, id) == map[];
      }
    }
  }

  lemma OnlyPendingRemains(b: SideBooks, side: Side)
    requires SideInv(b, side) && NothingRefundable(b)
    ensures b.escrow == b.pending
  {
    hide ClaimsExplained;
    forall id | id in b.epochs && b.epochs[id].Aborted?
      ensures Sum(OutstandingAmounts(b.book, id)) == 0
    {
      assert OutstandingAmounts(b.book, id) == map[];
    }
    SumOfZeros(RefundsPerEpoch(b.book, b.epochs));
  }

  ghost predicate CoversClaims(s: State, ps: seq<Payout>) {
    forall q :: Payable(s, q) && !IsRefund(s, q) ==> q in ps
  }

  ghost predicate CoversRefunds(s: State, ps: seq<Payout>) {
    forall q :: Payable(s, q) && IsRefund(s, q) ==> q in ps
  }

  /** Once every claim is taken, the reserves hold exactly the recorded dust. */
  lemma AllClaimsLeaveOnlyDust(s: State, ps: seq<Payout>, side: Side)
    requires Inv(s) && SupplyFits(s) && AllPayable(s, ps)
    requires CoversClaims(s, ps)
    ensures Run(s, PayoutOps(s, ps)).Reserve(side) == Sum(DustPerEpoch(s.epochs, side))
  {
    hide SideInv;
    var t := Run(s, PayoutOps(s, ps));
    PayoutsSucceed(s, ps, 0, side, Payout(side, RequestKey(0, 0)));
    forall k | k in t.Requests(side) && k.epoch in t.epochs && t.epochs[k.epoch].Finalized?
      ensures !t.Requests(side)[k].IsOutstanding()
    {
      PayoutsSucceed(s, ps, 0, side, Payout(side, k));
    }
    OnlyDustRemains(Books(t, side), side);
  }

  /** Once every refund is taken, escrow holds only the current epoch's requests. */
  lemma AllRefundsLeaveOnlyPending(s: State, ps: seq<Payout>, side: Side)
    requires Inv(s) && SupplyFits(s) && AllPayable(s, ps)
    requires CoversRefunds(s, ps)
    ensures Run(s, PayoutOps(s, ps)).Escrow(side) ==
      (if s.epoch.Some? then s.epoch.value.Pending(side) else 0)
  {
    hide SideInv;
    var t := Run(s, PayoutOps(s, ps));
    PayoutsSucceed(s, ps, 0, side, Payout(side, RequestKey(0, 0)));
    forall k | k in t.Requests(side) && k.epoch in t.epochs && t.epochs[k.epoch].Aborted?
      ensures !t.Requests(side)[k].IsOutstanding()
    {
      PayoutsSucceed(s, ps, 0, side, Payout(side, k));
    }
    OnlyPendingRemains(Books(t, side), side);
  }

  // The emergency exit.

  /** `ps` lists every refund of epoch `id` and nothing else. */
  ghost predicate RefundsOf(s: State, ps: seq<Payout>, id: EpochId) {
    && AllPayable(s, ps)
    && id in s.epochs && s.epochs[id].Aborted?
    && (forall i :: 0 <= i < |ps| ==> ps[i].key.epoch == id)
    && (forall q :: Payable(s, q) && q.key.epoch == id ==> q in ps)
  }

  /** Refunds of a single epoch give each account its own request back and nothing else. */
  lemma {:induction false} RefundsGoHome(s: State, ps: seq<Payout>, id: EpochId, account: AccountId, kind: Side)
    requires AllPayable(s, ps) && OutcomesSound(s.epochs) && id in s.epochs && s.epochs[id].Aborted?
    requires forall i :: 0 <= i < |ps| ==> ps[i].key.epoch == id
    ensures PaidTo(s, ps, account, kind) ==
      if Payout(kind, RequestKey(id, account)) in ps
      then s.Requests(kind)[RequestKey(id, account)].amount else 0
    decreases |ps|
  {
    if ps != [] {
      RefundsGoHome(s, ps[1..], id, account, kind);
      var mine := Payout(kind, RequestKey(id, account));
      assert ps == [ps[0]] + ps[1..];
      assert ps[0] == mine <==> ps[0].key.account == account && ps[0].side == kind;
      assert forall i :: 0 <= i < |ps[1..]| ==> ps[1..][i] == ps[i + 1] != ps[0];
    }
  }

  lemma PayableIsHeld(s: State, p: Payout)
    requires Payable(s, p)
    ensures p.key in s.Requests(p.side)
  {
  }

  /** Aborting turns every active request of the epoch into a refund and touches no balance. */
  lemma AbortMakesRefunds(s: State, actor: AccountId, account: AccountId, kind: Side)
    requires Inv(s) && s.mode == Frozen && s.epoch.Some? && s.epoch.value.id + 1 < LIMIT64
    requires actor == s.authority.admin || actor == s.authority.guardian
    ensures Abort(s, actor).Ok?
    ensures var t, mine := Abort(s, actor).value, Payout(kind, RequestKey(s.epoch.value.id, account));
      && t.accounts == s.accounts && t.Requests(kind) == s.Requests(kind)
      && t.initialAssetSupply == s.initialAssetSupply && t.externalInflow == s.externalInflow
      && (mine.key in s.Requests(kind) ==> (Payable(t, mine) <==> s.Requests(kind)[mine.key].IsActive()))
  {
    hide Inv;
    hide Abort;
    hide SideInv;
    AbortAccepted(s, actor);
    AbortEffect(s, actor);
    SidesOf(s, kind);
    var key := RequestKey(s.epoch.value.id, account);
    if key in s.Requests(kind) {
      EntryAgrees(Books(s, kind), kind, key);
    }
  }

  lemma AbortAccepted(s: State, actor: AccountId)
    requires Inv(s) && s.mode == Frozen && s.epoch.Some? && s.epoch.value.id + 1 < LIMIT64
    requires actor == s.authority.admin || actor == s.authority.guardian
    ensures Abort(s, actor).Ok? && s.epoch.value.id !in s.epochs
  {
    hide Inv;
    OrderedIn(s);
    hide Pow10;
    hide RemoteConsistent;
  }

  lemma SidesOf(s: State, side: Side)
    requires Inv(s)
    ensures SideInv(Books(s, side), side)
  {
    hide SideInv;
    hide EpochsOrdered;
  }

  /**
   * From every frozen state with an open epoch, aborting it and taking its refunds is accepted and
   * returns every requester's exact amount.
   */
  lemma AbortReturnsExactAmounts(s: State, actor: AccountId, ps: seq<Payout>, account: AccountId, kind: Side)
    requires Inv(s) && SupplyFits(s) && s.mode == Frozen && s.epoch.Some? && s.epoch.value.id + 1 < LIMIT64
    requires actor == s.authority.admin || actor == s.authority.guardian
    requires RefundsOf(Next(s, AbortEpoch(actor)), ps, s.epoch.value.id)
    ensures Step(s, AbortEpoch(actor)).Ok?
    ensures var aborted := Step(s, AbortEpoch(actor)).value;
      && AllPayable(aborted, ps) && AllAccepted(aborted, PayoutOps(aborted, ps))
      && Run(aborted, PayoutOps(aborted, ps)).Balance(account, kind)
         == s.Balance(account, kind) + ActiveAt(s.Requests(kind), RequestKey(s.epoch.value.id, account))
  {
    hide Inv;
    hide Abort;
    hide Value;
    hide Payable;
    AbortMakesRefunds(s, actor, account, kind);
    var t, id := Abort(s, actor).value, s.epoch.value.id;
    var mine := Payout(kind, RequestKey(id, account));
    StepKeeps(s, AbortEpoch(actor));
    SoundPrices(t);
    if Payable(t, mine) {
      PayableIsHeld(t, mine);
    }
    PayoutsSucceed(t, ps, account, kind, mine);
    RefundsGoHome(t, ps, id, account, kind);
  }

  /** After the abort, taking every refund there is empties both escrows. */
  lemma AbortEmptiesEscrow(s: State, actor: AccountId, ps: seq<Payout>, side: Side)
    requires Inv(s) && SupplyFits(s) && Step(s, AbortEpoch(actor)).Ok?
    requires AllPayable(Step(s, AbortEpoch(actor)).value, ps)
    requires CoversRefunds(Step(s, AbortEpoch(actor)).value, ps)
    ensures var aborted := Step(s, AbortEpoch(actor)).value;
      Run(aborted, PayoutOps(aborted, ps)).Escrow(side) == 0
  {
    hide SideInv;
    StepKeeps(s, AbortEpoch(actor));
    AllRefundsLeaveOnlyPending(Step(s, AbortEpoch(actor)).value, ps, side);
  }

  // The lists exist.

  /** The outstanding payouts of a state are finitely many: at most one per side and request. */
  ghost function Payables(s: State): set<Payout> {
    (set k | k in s.depositRequests && Payable(s, Payout(Deposits, k)) :: Payout(Deposits, k))
    + (set k | k in s.redeemRequests && Payable(s, Payout(Redemptions, k)) :: Payout(Redemptions, k))
  }

  lemma PayablesHold(s: State, p: Payout)
    ensures p in Payables(s) <==> Payable(s, p)
  {
    if Payable(s, p) {
      match p.side
      case Deposits => assert p == Payout(Deposits, p.key);
      case Redemptions => assert p == Payout(Redemptions, p.key);
    }
  }

  lemma {:induction false} Listed(ps: set<Payout>) returns (list: seq<Payout>)
    ensures forall p :: p in list <==> p in ps
    ensures forall i, j :: 0 <= i < j < |list| ==> list[i] != list[j]
    decreases |ps|
  {
    if ps == {} {
      list := [];
    } else {
      var p :| p in ps;
      var rest := Listed(ps - {p});
      list := [p] + rest;
      assert forall i :: 0 <= i < |rest| ==> rest[i] in rest;
    }
  }

  /** Every state has a list of all its outstanding payouts. */
  lemma CoveringListExists(s: State) returns (ps: seq<Payout>)
    ensures AllPayable(s, ps) && CoversClaims(s, ps) && CoversRefunds(s, ps)
  {
    hide Payables;
    ps := Listed(Payables(s));
    forall p
      ensures p in ps <==> Payable(s, p)
    {
      PayablesHold(s, p);
    }
    assert forall i :: 0 <= i < |ps| ==> ps[i] in ps;
  }

  /** Every aborted epoch has a list of exactly its refunds. */
  lemma RefundListExists(s: State, id: EpochId) returns (ps: seq<Payout>)
    requires id in s.epochs && s.epochs[id].Aborted?
    ensures RefundsOf(s, ps, id)
  {
    hide Payables;
    ps := Listed(set p | p in Payables(s) && p.key.epoch == id);
    forall p
      ensures p in ps <==> Payable(s, p) && p.key.epoch == id
    {
      PayablesHold(s, p);
    }
    assert forall i :: 0 <= i < |ps| ==> ps[i] in ps;
  }

  // The observable position of a request.

  /** A request is shown as claimable or refundable exactly while its payout is outstanding. */
  lemma LifecycleShowsPayouts(s: State, side: Side, key: RequestKey)
    requires Inv(s)
    ensures Payable(s, Payout(side, key)) <==>
      s.Lifecycle(side, key) == Some(Claimable) || s.Lifecycle(side, key) == Some(Refundable)
    ensures s.Lifecycle(side, key).None? <==> key !in s.Requests(side)
    ensures key in s.Requests(side) ==> var r := s.Requests(side)[key];
      && (s.Lifecycle(side, key) == Some(Cancelled) <==> r.amount == 0)
      && (key.epoch in s.epochs && r.amount > 0 ==>
            s.Lifecycle(side, key) == Some(
              match (s.epochs[key.epoch].Finalized?, r.claimed)
              case (true, false) => Claimable
              case (true, true) => Claimed
              case (false, false) => Refundable
              case (false, true) => Refunded))
      && (key.epoch !in s.epochs && r.amount > 0 ==>
            && s.epoch.Some? && s.epoch.value.id == key.epoch && !r.claimed
            && s.Lifecycle(side, key) == Some(if s.epoch.value.phase == Open then Pending else Locked))
  {
    hide EscrowExplained;
    hide ClaimsExplained;
    hide Held;
    hide Pow10;
  }
}
