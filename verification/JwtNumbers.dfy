/** Decimal numbers of a token, read exactly. */
module JwtNumbers {
  import opened Results
  import opened Words
  import opened JwtErrors

  const MAX_TIMESTAMP: nat := 253_402_300_799
  const SCALE_DIGITS: nat := 6
  const SCALE: nat := 1_000_000
  const MAX_INTEGER_DIGITS: nat := 13
  const MAX_TIMESTAMP_DIGITS: nat := 12

  const ZERO: U8 := 48
  const POINT: U8 := 46

  predicate IsDigit(b: U8) {
    48 <= b <= 57
  }

  predicate AllDigits(digits: Bytes) {
    forall i :: 0 <= i < |digits| ==> IsDigit(digits[i])
  }

  /** The number a row of digits spells. */
  function NumberOf(digits: Bytes): nat
    requires AllDigits(digits)
  {
    if digits == [] then 0 else 10 * NumberOf(digits[..|digits| - 1]) + (digits[|digits| - 1] - ZERO)
  }

  lemma {:induction false} NumberFits(digits: Bytes)
    requires AllDigits(digits)
    ensures NumberOf(digits) < Pow10(|digits|)
  {
    if digits != [] {
      NumberFits(digits[..|digits| - 1]);
    }
  }

  lemma {:induction false} PrefixIsSmaller(digits: Bytes, i: nat)
    requires AllDigits(digits) && i <= |digits|
    ensures NumberOf(digits[..i]) <= NumberOf(digits)
  {
    if i < |digits| {
      PrefixIsSmaller(digits[..|digits| - 1], i);
      assert digits[..|digits| - 1][..i] == digits[..i];
    } else {
      assert digits[..i] == digits;
    }
  }

  /** One or more digits spelling a 64-bit number. */
  function DigitsOf(digits: Bytes): Parsed<U64> {
    if digits != [] && AllDigits(digits) && NumberOf(digits) < LIMIT64 then Ok(NumberOf(digits)) else Err(InvalidNumber)
  }

  method ParseDigits(digits: Bytes) returns (r: Parsed<U64>)
    ensures r == DigitsOf(digits)
  {
    if digits == [] {
      return Err(InvalidNumber);
    }
    var value: U64 := 0;
    for i := 0 to |digits|
      invariant AllDigits(digits[..i]) && value == NumberOf(digits[..i])
    {
      if !IsDigit(digits[i]) {
        return Err(InvalidNumber);
      }
      assert digits[..i + 1][..i] == digits[..i];
      var next: nat := 10 * value + (digits[i] - ZERO);
      assert next == NumberOf(digits[..i + 1]);
      if LIMIT64 <= next {
        if AllDigits(digits) {
          PrefixIsSmaller(digits, i + 1);
        }
        return Err(InvalidNumber);
      }
      value := next;
    }
    assert digits[..|digits|] == digits;
    return Ok(value);
  }

  /** A positive integer up to the end of the year 9999, without a leading zero. */
  function TimestampOf(token: Bytes): Parsed<U64> {
    if 0 < |token| <= MAX_TIMESTAMP_DIGITS && AllDigits(token) && token[0] != ZERO
      && 0 < NumberOf(token) <= MAX_TIMESTAMP
    then Ok(NumberOf(token)) else Err(InvalidNumber)
  }

  method ParseTimestamp(token: Bytes) returns (r: Parsed<U64>)
    ensures r == TimestampOf(token)
  {
    if |token| > MAX_TIMESTAMP_DIGITS || (token != [] && token[0] == ZERO) {
      return Err(InvalidNumber);
    }
    var digits := ParseDigits(token);
    var value :- digits;
    if value == 0 || value > MAX_TIMESTAMP {
      return Err(InvalidNumber);
    }
    return Ok(value);
  }

  // Amounts.

  datatype Decimal = Decimal(integer: Bytes, fraction: Option<Bytes>) {
    function Fraction(): Bytes {
      if fraction.Some? then fraction.value else []
    }

    function Spelled(): Bytes {
      if fraction.Some? then integer + [POINT] + fraction.value else integer
    }

    /** At most 13 integer digits without a leading zero, and at most six digits after the point. */
    predicate Accepted() {
      && 0 < |integer| <= MAX_INTEGER_DIGITS && AllDigits(integer)
      && !(|integer| > 1 && integer[0] == ZERO)
      && (fraction.Some? ==> 0 < |fraction.value| <= SCALE_DIGITS && AllDigits(fraction.value))
    }
  }

  function Micros(d: Decimal): nat
    requires d.Accepted()
  {
    NumberOf(d.integer) * SCALE + NumberOf(d.Fraction()) * Pow10(SCALE_DIGITS - |d.Fraction()|)
  }

  lemma {:induction false} NumberAppends(a: Bytes, b: Bytes)
    requires AllDigits(a) && AllDigits(b)
    ensures AllDigits(a + b) && NumberOf(a + b) == NumberOf(a) * Pow10(|b|) + NumberOf(b)
  {
    if b == [] {
      assert a + b == a;
    } else {
      var front := b[..|b| - 1];
      NumberAppends(a, front);
      assert (a + b)[..|a + b| - 1] == a + front;
      assert NumberOf(a + b) == 10 * NumberOf(a + front) + (b[|b| - 1] - ZERO);
      Distributes(NumberOf(a), Pow10(|front|));
    }
  }

  lemma Distributes(a: nat, p: nat)
    ensures 10 * (a * p) == a * (10 * p)
  {
  }

  lemma SixDigits(n: nat)
    requires n <= SCALE_DIGITS
    ensures Pow10(SCALE_DIGITS) == SCALE
    ensures Pow10(n) * Pow10(SCALE_DIGITS - n) == SCALE
  {
    assert Pow10(1) == 10 && Pow10(2) == 100 && Pow10(3) == 1000;
    assert Pow10(4) == 10_000 && Pow10(5) == 100_000 && Pow10(6) == 1_000_000;
  }

  /** The amount is the exact decimal times one million: no digit is lost and nothing is rounded. */
  lemma MicrosAreExact(d: Decimal)
    requires d.Accepted()
    ensures AllDigits(d.integer + d.Fraction())
    ensures Micros(d) * Pow10(|d.Fraction()|) == NumberOf(d.integer + d.Fraction()) * SCALE
  {
    var f := d.Fraction();
    var i, p, q, n := NumberOf(d.integer), Pow10(|f|), Pow10(SCALE_DIGITS - |f|), NumberOf(f);
    NumberAppends(d.integer, f);
    SixDigits(|f|);
    Rescaled(i, n, p, q, SCALE);
  }

  lemma Rescaled(i: nat, n: nat, p: nat, q: nat, scale: nat)
    requires p * q == scale
    ensures (i * scale + n * q) * p == (i * p + n) * scale
  {
    assert n * q * p == n * (p * q);
    assert (i * scale + n * q) * p == i * scale * p + n * q * p;
    assert (i * p + n) * scale == i * p * scale + n * scale;
    assert i * scale * p == i * p * scale;
  }

  /** The digit limits alone keep every intermediate result within 64 bits. */
  lemma MicrosFit(d: Decimal)
    requires d.Accepted()
    ensures NumberOf(d.integer) * SCALE < LIMIT64
    ensures NumberOf(d.Fraction()) * Pow10(SCALE_DIGITS - |d.Fraction()|) < SCALE
    ensures Micros(d) < LIMIT64
  {
    var f := d.Fraction();
    NumberFits(d.integer);
    Pow10Monotone(|d.integer|, MAX_INTEGER_DIGITS);
    ThirteenDigits();
    NumberFits(f);
    SixDigits(|f|);
    Pow10Monotone(0, SCALE_DIGITS - |f|);
    ProductGrows(NumberOf(f), Pow10(|f|), Pow10(SCALE_DIGITS - |f|));
  }

  lemma ThirteenDigits()
    ensures Pow10(MAX_INTEGER_DIGITS) == 10_000_000_000_000
  {
    SixDigits(0);
    assert Pow10(7) == 10_000_000 && Pow10(8) == 100_000_000 && Pow10(9) == 1_000_000_000;
    assert Pow10(10) == 10_000_000_000 && Pow10(11) == 100_000_000_000 && Pow10(12) == 1_000_000_000_000;
  }

  lemma ProductGrows(a: nat, b: nat, c: nat)
    requires a < b && c > 0
    ensures a * c < b * c
  {
  }

  /** The part before the first point, and the part after it if there is one. */
  function SplitAtPoint(token: Bytes): Decimal {
    if token == [] then Decimal([], None)
    else if token[0] == POINT then Decimal([], Some(token[1..]))
    else
      var rest := SplitAtPoint(token[1..]);
      rest.(integer := [token[0]] + rest.integer)
  }

  lemma {:induction false} SplitSpells(token: Bytes)
    ensures SplitAtPoint(token).Spelled() == token
  {
    if token != [] && token[0] != POINT {
      SplitSpells(token[1..]);
      var rest := SplitAtPoint(token[1..]);
      assert SplitAtPoint(token).Spelled() == [token[0]] + rest.Spelled();
    }
  }

  lemma {:induction false} SpellingSplits(d: Decimal)
    requires AllDigits(d.integer)
    ensures SplitAtPoint(d.Spelled()) == d
    decreases |d.integer|
  {
    if d.integer == [] {
      if d.fraction.Some? {
        assert d.Spelled()[1..] == d.fraction.value;
      }
    } else {
      var rest := d.(integer := d.integer[1..]);
      SpellingSplits(rest);
      assert d.Spelled()[1..] == rest.Spelled();
      assert d.integer == [d.integer[0]] + d.integer[1..];
    }
  }

  function AmountOf(token: Bytes): Parsed<U64> {
    var d := SplitAtPoint(token);
    if !d.Accepted() then Err(InvalidNumber) else
      MicrosFit(d);
      Ok(Micros(d))
  }

  /** A token is an amount exactly when it spells an accepted decimal of that many millionths. */
  lemma AmountIff(token: Bytes, v: U64)
    ensures AmountOf(token) == Ok(v) <==> exists d: Decimal :: d.Accepted() && d.Spelled() == token && Micros(d) == v
  {
    SplitSpells(token);
    forall d: Decimal | d.Accepted() && d.Spelled() == token
      ensures SplitAtPoint(token) == d
    {
      SpellingSplits(d);
    }
  }

  lemma NoFraction()
    ensures NumberOf([]) == 0
  {
  }

  /** So few digits never overflow. */
  lemma ShortDigits(digits: Bytes)
    requires |digits| <= MAX_INTEGER_DIGITS
    ensures DigitsOf(digits).Ok? <==> digits != [] && AllDigits(digits)
  {
    if AllDigits(digits) {
      NumberFits(digits);
      Pow10Monotone(|digits|, MAX_INTEGER_DIGITS);
      ThirteenDigits();
    }
  }

  method ParseAmount(token: Bytes) returns (r: Parsed<U64>)
    ensures r == AmountOf(token)
  {
    hide NumberOf;
    hide Pow10;
    var d := SplitAtPoint(token);
    if |d.integer| > MAX_INTEGER_DIGITS || (|d.integer| > 1 && d.integer[0] == ZERO) {
      return Err(InvalidNumber);
    }
    ShortDigits(d.integer);
    var integer := ParseDigits(d.integer);
    var whole :- integer;
    if d.fraction.None? {
      MicrosFit(d);
      NoFraction();
      return Ok(whole * SCALE);
    }
    var fraction := d.fraction.value;
    if |fraction| > SCALE_DIGITS {
      return Err(InvalidNumber);
    }
    ShortDigits(fraction);
    var digits := ParseDigits(fraction);
    var parts :- digits;
    MicrosFit(d);
    return Ok(whole * SCALE + parts * Pow10(SCALE_DIGITS - |fraction|));
  }
}
