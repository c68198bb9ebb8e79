/** Share pricing with a virtual offset. Every conversion rounds down. */
module Pricing {
  import opened Results
  import opened Words
  import opened Amounts
  import opened Sums

  datatype PricingBasis = PricingBasis(
    totalAssets: U128, totalSupply: U128, virtualAssets: U128, virtualShares: U128)
  {
    /** Both sides of the price as unbounded numbers. */
    function Assets(): nat {
      totalAssets + virtualAssets
    }

    function Shares(): nat {
      totalSupply + virtualShares
    }

    function AssetSide(): Refusable<U128> {
      CheckedAdd(totalAssets, virtualAssets)
    }

    function ShareSide(): Refusable<U128> {
      CheckedAdd(totalSupply, virtualShares)
    }

    /** Neither side is zero nor wider than 128 bits. */
    predicate Sound() {
      0 < Assets() < LIMIT128 && 0 < Shares() < LIMIT128
    }
  }

  function Floor(x: nat, d: nat): nat
    requires d > 0
  {
    x / d
  }

  /** Floor of `a * b / d`, computed in 256 bits and narrowed back to 128. */
  function MulDivFloor(a: U128, b: U128, d: U128): Refusable<U128> {
    if d == 0 then Err(DivisionByZero) else Fit(Floor(Times(a, b), d))
  }

  function AssetsToShares(assets: U128, basis: PricingBasis): Refusable<U128> {
    var shareSide :- basis.ShareSide();
    var assetSide :- basis.AssetSide();
    MulDivFloor(assets, shareSide, assetSide)
  }

  function SharesToAssets(shares: U128, basis: PricingBasis): Refusable<U128> {
    var assetSide :- basis.AssetSide();
    var shareSide :- basis.ShareSide();
    MulDivFloor(shares, assetSide, shareSide)
  }

  /** `a / x <= b / y`, compared by cross multiplication. */
  predicate RatioAtMost(a: nat, x: nat, b: nat, y: nat) {
    a * y <= b * x
  }

  /** Orders two prices in assets per share. */
  predicate PriceAtMost(earlier: PricingBasis, later: PricingBasis) {
    RatioAtMost(earlier.Assets(), earlier.Shares(), later.Assets(), later.Shares())
  }

  /** The virtual share offset for a decimal difference. */
  function VirtualSharesFor(assetDecimals: U8, shareDecimals: U8): Refusable<U128> {
    if shareDecimals < assetDecimals then Err(InvalidConfiguration)
    else if Pow10(shareDecimals - assetDecimals) < LIMIT128 then Ok(Pow10(shareDecimals - assetDecimals))
    else Err(InvalidConfiguration)
  }

  /** Ten to the 38th power is the last one that fits in 128 bits. */
  lemma Pow10Fits(n: nat)
    ensures 1 <= Pow10(n)
    ensures Pow10(n) < LIMIT128 <==> n <= 38
  {
    Pow10Monotone(0, n);
    assert Pow10(10) == 1_0000000000;
    assert Pow10(20) == 1_0000000000_0000000000;
    assert Pow10(30) == 1_0000000000_0000000000_0000000000;
    assert Pow10(38) == 1_00000000_0000000000_0000000000_0000000000;
    assert Pow10(39) == 10_00000000_0000000000_0000000000_0000000000;
    if n <= 38 {
      Pow10Monotone(n, 38);
    } else {
      Pow10Monotone(39, n);
    }
  }

  /** A quotient is the unique number whose multiple brackets the dividend. */
  lemma FloorBrackets(x: nat, d: nat)
    requires d > 0
    ensures Floor(x, d) * d <= x < (Floor(x, d) + 1) * d
  {
  }

  lemma FloorIsGreatest(x: nat, d: nat, q: nat)
    requires d > 0
    ensures q <= Floor(x, d) <==> q * d <= x
  {
    FloorBrackets(x, d);
    var f := Floor(x, d);
    if q <= f {
      assert q * d <= f * d;
    } else {
      assert (f + 1) * d <= q * d;
    }
  }

  /** Converting there and back never returns more than it started with. */
  lemma RoundTripNeverGains(assets: U128, basis: PricingBasis)
    requires AssetsToShares(assets, basis).Ok?
    requires SharesToAssets(AssetsToShares(assets, basis).value, basis).Ok?
    ensures SharesToAssets(AssetsToShares(assets, basis).value, basis).value <= assets
  {
    var a, s := basis.Assets(), basis.Shares();
    var shares := Floor(Times(assets, s), a);
    FloorBrackets(Times(assets, s), a);
    FloorIsGreatest(Times(shares, a), s, assets + 1);
    assert shares * a < (assets + 1) * s;
  }

  /** Every entry of `amounts` priced on its own at `n / d`, rounding down. */
  ghost function PricedEach<K(!new)>(amounts: map<K, nat>, n: nat, d: nat): map<K, nat>
    requires d > 0
  {
    map k | k in amounts :: if k in amounts then Floor(Times(amounts[k], n), d) else 0
  }

  lemma PricedWithout<K(!new)>(amounts: map<K, nat>, n: nat, d: nat, k: K)
    requires d > 0 && k in amounts
    ensures k in PricedEach(amounts, n, d)
    ensures PricedEach(amounts, n, d)[k] == Floor(Times(amounts[k], n), d)
    ensures PricedEach(amounts, n, d) - {k} == PricedEach(amounts - {k}, n, d)
    ensures |amounts| == |amounts - {k}| + 1
  {
    hide Floor;
    hide Times;
    assert amounts.Keys == (amounts - {k}).Keys + {k};
  }

  /** The sum of floors against the exact total: each part loses less than one unit. */
  lemma {:induction false} FloorsBracketTotal<K(!new)>(amounts: map<K, nat>, n: nat, d: nat)
    requires d > 0
    ensures Times(Sum(PricedEach(amounts, n, d)), d) <= Times(Sum(amounts), n)
    ensures amounts != map[] ==> Times(Sum(amounts), n) < Times(Sum(PricedEach(amounts, n, d)) + |amounts|, d)
    ensures amounts == map[] ==> Sum(amounts) == 0 && Sum(PricedEach(amounts, n, d)) == 0
    decreases |amounts|
  {
    hide Floor;
    hide Times;
    if amounts == map[] {
      assert PricedEach(amounts, n, d) == map[];
      TimesZero(n);
      TimesZero(d);
    } else {
      var k :| k in amounts;
      var rest := amounts - {k};
      PricedWithout(amounts, n, d, k);
      SumRemove(amounts, k);
      SumRemove(PricedEach(amounts, n, d), k);
      FloorsBracketTotal(rest, n, d);
      BracketsAdd(amounts[k], Sum(rest), Floor(Times(amounts[k], n), d), Sum(PricedEach(rest, n, d)), n, d, |rest|);
    }
  }

  lemma TimesZero(n: nat)
    ensures Times(0, n) == 0
  {
  }

  lemma BracketsAdd(x: nat, y: nat, fx: nat, fy: nat, n: nat, d: nat, count: nat)
    requires d > 0 && fx == Floor(Times(x, n), d)
    requires Times(fy, d) <= Times(y, n)
    requires count > 0 ==> Times(y, n) < Times(fy + count, d)
    requires count == 0 ==> y == 0 && fy == 0
    ensures Times(fx + fy, d) <= Times(x + y, n) < Times(fx + fy + count + 1, d)
  {
    FloorBrackets(Times(x, n), d);
    assert (x + y) * n == x * n + y * n;
    assert (fx + fy) * d == fx * d + fy * d;
    assert (fx + fy + count + 1) * d == (fx + 1) * d + (fy + count) * d;
  }

  lemma DustBelow(total: nat, d: nat, parts: nat, count: nat)
    requires d > 0 && Times(parts, d) <= total
    requires if count == 0 then total == 0 else total < Times(parts + count, d)
    ensures parts <= Floor(total, d) <= parts + Max(count - 1, 0)
  {
    hide Floor;
    FloorIsGreatest(total, d, parts);
    if count == 0 {
      FloorIsGreatest(0, d, 1);
    } else {
      FloorIsGreatest(total, d, parts + count);
    }
  }

  /** Floor of a sum against the sum of floors: the difference stays below the number of parts. */
  lemma DustBound<K(!new)>(amounts: map<K, nat>, n: nat, d: nat)
    requires d > 0
    ensures Sum(PricedEach(amounts, n, d)) <= Floor(Times(Sum(amounts), n), d)
    ensures Floor(Times(Sum(amounts), n), d) - Sum(PricedEach(amounts, n, d)) <= Max(|amounts| - 1, 0)
  {
    hide PricedEach;
    hide Floor;
    hide Times;
    FloorsBracketTotal(amounts, n, d);
    if |amounts| == 0 {
      assert amounts == map[];
      TimesZero(n);
    }
    DustBelow(Times(Sum(amounts), n), d, Sum(PricedEach(amounts, n, d)), |amounts|);
  }

  /**
   * One settlement at a basis: burning `burned` shares for their floor in assets and
   * minting the floor of `deposit` in shares never lowers the price.
   */
  lemma SettlementNeverLowersPrice(
    assets: nat, shares: nat, burned: nat, paid: nat, deposit: nat, minted: nat)
    requires assets > 0 && shares > 0 && burned < shares
    requires paid == Floor(Times(burned, assets), shares)
    requires minted == Floor(Times(deposit, shares), assets)
    ensures paid < assets
    ensures RatioAtMost(assets, shares, assets + deposit - paid, shares + minted - burned)
  {
    FloorBrackets(Times(burned, assets), shares);
    FloorBrackets(Times(deposit, shares), assets);
    FloorIsGreatest(Times(burned, assets), shares, assets);
    ExpandSettlement(assets, shares, burned, paid, deposit, minted);
  }

  lemma ExpandSettlement(
    assets: nat, shares: nat, burned: nat, paid: nat, deposit: nat, minted: nat)
    requires burned < shares && assets > 0
    requires minted * assets <= deposit * shares
    requires paid * shares <= burned * assets
    ensures burned * assets < assets * shares
    ensures assets * (shares + minted - burned) <= (assets + deposit - paid) * shares
  {
    assert assets * (shares + minted - burned) == assets * shares + minted * assets - burned * assets;
    assert (assets + deposit - paid) * shares == assets * shares + deposit * shares - paid * shares;
  }

  lemma RatioTransitive(a: nat, x: nat, b: nat, y: nat, c: nat, z: nat)
    requires y > 0
    requires RatioAtMost(a, x, b, y) && RatioAtMost(b, y, c, z)
    ensures RatioAtMost(a, x, c, z)
  {
    calc {
      (a * z) * y;
    ==
      (a * y) * z;
    <= { assert (a * y) * z <= (b * x) * z; }
      (b * x) * z;
    ==
      (b * z) * x;
    <= { assert (b * z) * x <= (c * y) * x; }
      (c * y) * x;
    ==
      (c * x) * y;
    }
  }

  lemma RatioGrows(a: nat, x: nat, b: nat, c: nat, y: nat)
    requires RatioAtMost(a, x, b, y) && b <= c
    ensures RatioAtMost(a, x, c, y)
  {
    assert b * x <= c * x;
  }
}
