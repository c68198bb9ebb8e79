/** The loops that sum request records, against the order-independent sums of the model. */
module VaultTally {
  import opened Results
  import opened Words
  import opened Amounts
  import opened Pricing
  import opened Sums
  import opened VaultState

  /** Entitlements of one epoch, split into all and unclaimed. */
  datatype Entitlement = Entitlement(
    depositShares: U128, unclaimedDepositShares: U128, redeemAssets: U128, unclaimedRedeemAssets: U128)

  /** Why no amount at all converts at this basis, if so. */
  function ConversionFault(basis: PricingBasis, side: Side): Option<Rejection> {
    if LIMIT128 <= basis.Assets() || LIMIT128 <= basis.Shares() then Some(ArithmeticOverflow)
    else if (if side == Deposits then basis.Assets() else basis.Shares()) == 0 then Some(DivisionByZero)
    else None
  }

  /** Total and unclaimed entitlements of one side of an epoch. */
  datatype Owed = Owed(all: U128, unclaimed: U128)

  ghost function OwedOnSide(book: RequestBook, epoch: EpochId, terms: EpochTerms, side: Side): Refusable<Owed> {
    var active := ActiveAmounts(book, epoch);
    if active == map[] then Ok(Owed(0, 0))
    else if ConversionFault(terms.Basis(), side).Some? then Err(ConversionFault(terms.Basis(), side).value)
    else
      var all := Sum(PricedEach(active, terms.Numerator(side), terms.Denominator(side)));
      var unclaimed := Sum(PricedEach(OutstandingAmounts(book, epoch), terms.Numerator(side), terms.Denominator(side)));
      if all < LIMIT128 && unclaimed < LIMIT128 then Ok(Owed(all, unclaimed)) else Err(ArithmeticOverflow)
  }

  /** Prices every request of one epoch against the given terms. */
  ghost function EntitlementSums(s: State, epoch: EpochId, terms: EpochTerms): Refusable<Entitlement> {
    var deposits :- OwedOnSide(s.depositRequests, epoch, terms, Deposits);
    var redemptions :- OwedOnSide(s.redeemRequests, epoch, terms, Redemptions);
    Ok(Entitlement(deposits.all, deposits.unclaimed, redemptions.all, redemptions.unclaimed))
  }

  method Entitlements(s: State, epoch: EpochId, terms: EpochTerms) returns (r: Refusable<Entitlement>)
    ensures r == EntitlementSums(s, epoch, terms)
  {
    var deposits := OwedBy(s.depositRequests, epoch, terms, Deposits);
    var d :- deposits;
    var redemptions := OwedBy(s.redeemRequests, epoch, terms, Redemptions);
    var e :- redemptions;
    return Ok(Entitlement(d.all, d.unclaimed, e.all, e.unclaimed));
  }

  lemma OwedByFault(terms: EpochTerms, side: Side, amount: U128)
    ensures ConversionFault(terms.Basis(), side).Some? ==>
      terms.Owed(side, amount) == Err(ConversionFault(terms.Basis(), side).value)
    ensures ConversionFault(terms.Basis(), side).None? ==>
      && terms.Denominator(side) > 0
      && terms.Owed(side, amount) == Fit(Floor(Times(amount, terms.Numerator(side)), terms.Denominator(side)))
  {
  }

  /** Pricing one more entry adds its own floor. */
  lemma PricedWith(m: map<RequestKey, nat>, k: RequestKey, amount: nat, n: nat, d: nat)
    requires d > 0 && k !in m
    ensures Sum(PricedEach(m[k := amount], n, d)) == Sum(PricedEach(m, n, d)) + Floor(Times(amount, n), d)
  {
    hide Floor;
    hide Times;
    assert PricedEach(m[k := amount], n, d) == PricedEach(m, n, d)[k := Floor(Times(amount, n), d)];
    SumUpdate(PricedEach(m, n, d), k, Floor(Times(amount, n), d));
  }

  lemma PricedGrows(a: map<RequestKey, nat>, b: map<RequestKey, nat>, n: nat, d: nat)
    requires d > 0 && forall k :: k in a ==> k in b && a[k] == b[k]
    ensures Sum(PricedEach(a, n, d)) <= Sum(PricedEach(b, n, d))
  {
    hide Floor;
    hide Times;
    SumMonotone(PricedEach(a, n, d), PricedEach(b, n, d));
  }

  /** The requests seen so far, when `left` are still to come. */
  lemma SeenGrows(book: RequestBook, left: set<RequestKey>, k: RequestKey, epoch: EpochId)
    requires k in left && k in book && k.epoch == epoch
    ensures book - (left - {k}) == (book - left)[k := book[k]]
    ensures k !in ActiveAmounts(book - left, epoch) && k !in OutstandingAmounts(book - left, epoch)
    ensures ActiveAmounts(book - (left - {k}), epoch)
         == if book[k].IsActive() then ActiveAmounts(book - left, epoch)[k := book[k].amount]
            else ActiveAmounts(book - left, epoch)
    ensures OutstandingAmounts(book - (left - {k}), epoch)
         == if book[k].IsOutstanding() then OutstandingAmounts(book - left, epoch)[k := book[k].amount]
            else OutstandingAmounts(book - left, epoch)
  {
    hide ActiveAmounts;
    hide OutstandingAmounts;
    assert book - (left - {k}) == (book - left)[k := book[k]];
    ActiveGrows(book - left, k, book[k]);
    OutstandingGrows(book - left, k, book[k]);
  }

  lemma ActiveGrows(book: RequestBook, k: RequestKey, request: Request)
    requires k !in book
    ensures k !in ActiveAmounts(book, k.epoch)
    ensures ActiveAmounts(book[k := request], k.epoch)
         == if request.IsActive() then ActiveAmounts(book, k.epoch)[k := request.amount]
            else ActiveAmounts(book, k.epoch)
  {
  }

  lemma OutstandingGrows(book: RequestBook, k: RequestKey, request: Request)
    requires k !in book
    ensures k !in OutstandingAmounts(book, k.epoch)
    ensures OutstandingAmounts(book[k := request], k.epoch)
         == if request.IsOutstanding() then OutstandingAmounts(book, k.epoch)[k := request.amount]
            else OutstandingAmounts(book, k.epoch)
  {
  }

  lemma SeenIsPart(book: RequestBook, left: set<RequestKey>, epoch: EpochId)
    ensures forall k :: k in ActiveAmounts(book - left, epoch) ==>
      k in ActiveAmounts(book, epoch) && ActiveAmounts(book - left, epoch)[k] == ActiveAmounts(book, epoch)[k]
    ensures forall k :: k in OutstandingAmounts(book - left, epoch) ==>
      && k in OutstandingAmounts(book, epoch)
      && OutstandingAmounts(book - left, epoch)[k] == OutstandingAmounts(book, epoch)[k]
  {
  }

  /** A part that already overflows, or cannot be priced, decides the whole. */
  lemma PartDecides(book: RequestBook, left: set<RequestKey>, epoch: EpochId, terms: EpochTerms, side: Side)
    requires OwedOnSide(book - left, epoch, terms, side).Err?
    ensures OwedOnSide(book, epoch, terms, side) == OwedOnSide(book - left, epoch, terms, side)
  {
    hide PricedEach;
    hide ActiveAmounts;
    hide OutstandingAmounts;
    SeenIsPart(book, left, epoch);
    var part := ActiveAmounts(book - left, epoch);
    var k :| k in part;
    assert k in ActiveAmounts(book, epoch);
    if ConversionFault(terms.Basis(), side).None? {
      PricedGrows(part, ActiveAmounts(book, epoch), terms.Numerator(side), terms.Denominator(side));
      PricedGrows(
        OutstandingAmounts(book - left, epoch), OutstandingAmounts(book, epoch),
        terms.Numerator(side), terms.Denominator(side));
    }
  }

  /** One more request: nothing if inactive, its entitlement otherwise. */
  lemma OwedStep(
    book: RequestBook, left: set<RequestKey>, k: RequestKey, epoch: EpochId, terms: EpochTerms, side: Side, owed: Owed)
    requires k in left && k in book && k.epoch == epoch
    requires OwedOnSide(book - left, epoch, terms, side) == Ok(owed)
    ensures OwedOnSide(book - (left - {k}), epoch, terms, side) ==
      if !book[k].IsActive() then Ok(owed)
      else if terms.Owed(side, book[k].amount).Err? then Err(terms.Owed(side, book[k].amount).error)
      else
        var value := terms.Owed(side, book[k].amount).value;
        var unclaimed := owed.unclaimed + if book[k].claimed then 0 else value;
        if owed.all + value < LIMIT128 && unclaimed < LIMIT128 then Ok(Owed(owed.all + value, unclaimed))
        else Err(ArithmeticOverflow)
  {
    hide PricedEach;
    hide ActiveAmounts;
    hide OutstandingAmounts;
    hide Floor;
    hide Times;
    SeenGrows(book, left, k, epoch);
    OwedByFault(terms, side, book[k].amount);
    if book[k].IsActive() && ConversionFault(terms.Basis(), side).None? {
      var n, d := terms.Numerator(side), terms.Denominator(side);
      EmptyPricesNothing(n, d);
      PricedWith(ActiveAmounts(book - left, epoch), k, book[k].amount, n, d);
      PricedWith(OutstandingAmounts(book - left, epoch), k, book[k].amount, n, d);
      SeenOutstandingIsActive(book - left, epoch);
    }
  }

  lemma EmptyPricesNothing(n: nat, d: nat)
    requires d > 0
    ensures PricedEach<RequestKey>(map[], n, d) == map[]
  {
  }

  lemma SeenOutstandingIsActive(book: RequestBook, epoch: EpochId)
    ensures forall k :: k in OutstandingAmounts(book, epoch) ==> k in ActiveAmounts(book, epoch)
  {
  }

  lemma NothingSeen(book: RequestBook, left: set<RequestKey>, epoch: EpochId, terms: EpochTerms, side: Side)
    requires forall k :: k in book && k.epoch == epoch ==> k in left
    ensures OwedOnSide(book - left, epoch, terms, side) == Ok(Owed(0, 0))
  {
    assert ActiveAmounts(book - left, epoch) == map[];
  }

  method OwedBy(book: RequestBook, epoch: EpochId, terms: EpochTerms, side: Side) returns (r: Refusable<Owed>)
    ensures r == OwedOnSide(book, epoch, terms, side)
  {
    hide OwedOnSide;
    hide AssetsToShares;
    hide SharesToAssets;
    var left := set k | k in book && k.epoch == epoch;
    var owed := Owed(0, 0);
    NothingSeen(book, left, epoch, terms, side);
    while left != {}
      invariant forall k :: k in left ==> k in book && k.epoch == epoch
      invariant OwedOnSide(book - left, epoch, terms, side) == Ok(owed)
      decreases left
    {
      var k :| k in left;
      OwedStep(book, left, k, epoch, terms, side, owed);
      var request := book[k];
      left := left - {k};
      if OwedOnSide(book - left, epoch, terms, side).Err? {
        PartDecides(book, left, epoch, terms, side);
      }
      if !request.IsActive() {
        continue;
      }
      var value :- terms.Owed(side, request.amount);
      var all :- CheckedAdd(owed.all, value);
      owed := owed.(all := all);
      if !request.claimed {
        var unclaimed :- CheckedAdd(owed.unclaimed, value);
        owed := owed.(unclaimed := unclaimed);
      }
    }
    assert book - {} == book;
    return Ok(owed);
  }

  /** For sound terms, the totals are the sums the settlement measures its dust against. */
  lemma EntitlementsAreSums(s: State, terms: EpochTerms)
    requires terms.Basis().Sound()
    ensures var shares := Sum(Entitled(s.depositRequests, terms, Deposits));
      var assets := Sum(Entitled(s.redeemRequests, terms, Redemptions));
      && (shares < LIMIT128 && assets < LIMIT128 ==>
            && EntitlementSums(s, terms.id, terms).Ok?
            && EntitlementSums(s, terms.id, terms).value.depositShares == shares
            && EntitlementSums(s, terms.id, terms).value.redeemAssets == assets)
      && (LIMIT128 <= shares || LIMIT128 <= assets ==> EntitlementSums(s, terms.id, terms) == Err(ArithmeticOverflow))
  {
    OwedIsEntitled(s.depositRequests, terms, Deposits);
    OwedIsEntitled(s.redeemRequests, terms, Redemptions);
  }

  lemma OwedIsEntitled(book: RequestBook, terms: EpochTerms, side: Side)
    requires terms.Basis().Sound()
    ensures var all := Sum(Entitled(book, terms, side));
      && (all < LIMIT128 ==>
            OwedOnSide(book, terms.id, terms, side).Ok? && OwedOnSide(book, terms.id, terms, side).value.all == all)
      && (LIMIT128 <= all ==> OwedOnSide(book, terms.id, terms, side) == Err(ArithmeticOverflow))
  {
    hide PricedEach;
    var n, d := terms.Numerator(side), terms.Denominator(side);
    EmptyPricesNothing(n, d);
    PricedGrows(OutstandingAmounts(book, terms.id), ActiveAmounts(book, terms.id), n, d);
  }
}
