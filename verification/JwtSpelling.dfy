/** The literal characters, names and numbers of the token format. */
module JwtSpelling {
  import opened Results
  import opened Words
  import opened JwtErrors
  import opened JwtNumbers
  import opened JwtGrammar

  /** The bytes are the characters of `name`. */
  predicate Is(bytes: Bytes, name: string) {
    |bytes| == |name| && forall i :: 0 <= i < |name| ==> bytes[i] == name[i] as int
  }

  // Names.

  lemma HeaderNames()
    ensures Is(ALG, "alg") && Is(KID, "kid") && Is(TYP, "typ")
    ensures Is(ES256, "ES256") && Is(JWT, "JWT")
    ensures Is(JWK, "jwk") && Is(JKU, "jku") && Is(X5C, "x5c") && Is(X5U, "x5u")
    ensures Is(X5T, "x5t") && Is(X5T_S256, "x5t#S256") && Is(CRIT, "crit") && Is(B64, "b64")
  {
  }

  lemma ClaimNames()
    ensures Is(ISS, "iss") && Is(JTI, "jti") && Is(IAT, "iat") && Is(EXP, "exp")
    ensures Is(VERDICT, "verdict") && Is(MANDATE, "mandate")
    ensures Is(POLICY_VERSION, "policy_version") && Is(NONCE, "nonce") && Is(REQUEST, "request")
    ensures Is(AUD, "aud") && Is(NBF, "nbf") && Is(SUPERSEDES, "supersedes")
  {
  }

  lemma RequestNames()
    ensures Is(AGENT, "agent") && Is(AMOUNT, "amount") && Is(CURRENCY, "currency")
    ensures Is(RECIPIENT, "recipient") && Is(CATEGORY, "category")
  {
  }

  /** The characters a document is made of. */
  lemma Characters(b: U8)
    ensures IsSpace(b) <==> b as char in {' ', '\t', '\n', '\r'}
    ensures IsPlain(b) <==> ' ' <= b as char <= '~' && b as char !in {'\"', '\\'}
    ensures IsNumeric(b) <==> '0' <= b as char <= '9' || b as char in {'.', '-', '+', 'e', 'E'}
    ensures OPEN as char == '{' && CLOSE as char == '}' && COLON as char == ':'
    ensures COMMA as char == ',' && QUOTE as char == '\"' && POINT as char == '.'
  {
  }

  // Numbers.

  /** A number in decimal, without a leading zero. */
  function Printed(v: nat): Bytes {
    if v < 10 then [48 + v] else Printed(v / 10) + [48 + v % 10]
  }

  lemma {:induction false} PrintedReads(v: nat)
    ensures Printed(v) != [] && AllDigits(Printed(v)) && NumberOf(Printed(v)) == v
    ensures v > 0 ==> Printed(v)[0] != 48
    ensures |Printed(v)| > 1 ==> Printed(v)[0] != 48
  {
    if v >= 10 {
      PrintedReads(v / 10);
      assert Printed(v)[..|Printed(v)| - 1] == Printed(v / 10);
      assert Printed(v)[0] == Printed(v / 10)[0];
    } else {
      assert [48 + v][..0] == [];
    }
  }

  lemma {:induction false} ReadPrints(digits: Bytes)
    requires digits != [] && AllDigits(digits) && (|digits| > 1 ==> digits[0] != 48)
    ensures Printed(NumberOf(digits)) == digits
  {
    var front, last := digits[..|digits| - 1], digits[|digits| - 1];
    if |digits| == 1 {
      assert NumberOf(digits) == last - 48;
    } else {
      assert front[0] == digits[0];
      ReadPrints(front);
      PositiveStart(front);
      assert NumberOf(digits) / 10 == NumberOf(front) && NumberOf(digits) % 10 == last - 48;
      assert digits == front + [last];
    }
  }

  lemma {:induction false} PositiveStart(digits: Bytes)
    requires digits != [] && AllDigits(digits) && digits[0] != 48
    ensures NumberOf(digits) > 0
  {
    if |digits| > 1 {
      assert digits[..|digits| - 1][0] == digits[0];
      PositiveStart(digits[..|digits| - 1]);
    }
  }

  lemma {:induction false} PrintedLength(v: nat, k: nat)
    requires k > 0
    ensures |Printed(v)| <= k <==> v < Pow10(k)
  {
    if v < 10 {
      Pow10Monotone(1, k);
    } else if k == 1 {
      PrintedReads(v / 10);
    } else {
      PrintedLength(v / 10, k - 1);
      TenTimes(v, Pow10(k - 1));
    }
  }

  lemma TenTimes(v: nat, p: nat)
    ensures v / 10 < p <==> v < 10 * p
  {
  }

  lemma TwelveDigits()
    ensures Pow10(12) == 1_000_000_000_000
  {
    ThirteenDigits();
  }

  /** A timestamp is exactly a number from one to the last second of the year 9999, in plain decimal. */
  lemma TimestampIff(token: Bytes, v: U64)
    ensures TimestampOf(token) == Ok(v) <==> 1 <= v <= 253_402_300_799 && token == Printed(v)
  {
    TwelveDigits();
    if TimestampOf(token) == Ok(v) {
      ReadPrints(token);
    }
    if 1 <= v <= 253_402_300_799 && token == Printed(v) {
      PrintedReads(v);
      PrintedLength(v, 12);
    }
  }

  function Zeros(n: nat): Bytes {
    if n == 0 then [] else Zeros(n - 1) + [48]
  }

  lemma {:induction false} ZerosRead(n: nat)
    ensures |Zeros(n)| == n && AllDigits(Zeros(n)) && NumberOf(Zeros(n)) == 0
  {
    if n > 0 {
      ZerosRead(n - 1);
      assert Zeros(n)[..n - 1] == Zeros(n - 1);
    }
  }

  /** The millionths spelled by up to six digits behind the point. */
  function Millionths(fraction: Bytes): nat
    requires |fraction| <= 6 && AllDigits(fraction)
  {
    ZerosRead(6 - |fraction|);
    NumberOf(fraction + Zeros(6 - |fraction|))
  }

  /** `token` spells `whole` and, if there is one, a fraction of one to six digits. */
  ghost predicate SpellsAmount(token: Bytes, whole: nat, fraction: Option<Bytes>) {
    && whole < 10_000_000_000_000
    && (fraction.Some? ==> 1 <= |fraction.value| <= 6 && AllDigits(fraction.value))
    && token == Printed(whole) + (if fraction.Some? then [46] + fraction.value else [])
  }

  lemma MillionthsAre(fraction: Bytes)
    requires |fraction| <= 6 && AllDigits(fraction)
    ensures Millionths(fraction) == NumberOf(fraction) * Pow10(6 - |fraction|)
  {
    hide NumberOf;
    hide Pow10;
    ZerosRead(6 - |fraction|);
    NumberAppends(fraction, Zeros(6 - |fraction|));
  }

  lemma AcceptedSpells(d: Decimal)
    requires d.Accepted()
    ensures SpellsAmount(d.Spelled(), NumberOf(d.integer), d.fraction)
    ensures Micros(d) == NumberOf(d.integer) * 1_000_000 + Millionths(d.Fraction())
  {
    ReadPrints(d.integer);
    PrintedLength(NumberOf(d.integer), 13);
    ThirteenDigits();
    MillionthsAre(d.Fraction());
    if d.fraction.None? {
      assert d.integer + [] == d.integer;
    } else {
      assert d.integer + [POINT] + d.fraction.value == d.integer + ([46] + d.fraction.value);
    }
  }

  lemma SpelledIsAccepted(token: Bytes, whole: nat, fraction: Option<Bytes>)
    requires SpellsAmount(token, whole, fraction)
    ensures var d := Decimal(Printed(whole), fraction); d.Accepted() && d.Spelled() == token
    ensures AllDigits(Printed(whole)) && NumberOf(Printed(whole)) == whole
  {
    PrintedReads(whole);
    PrintedLength(whole, 13);
    ThirteenDigits();
    var d := Decimal(Printed(whole), fraction);
    if fraction.None? {
      assert d.integer + [] == d.integer;
    } else {
      assert d.integer + [POINT] + fraction.value == d.integer + ([46] + fraction.value);
    }
  }

  /**
   * An amount is exactly a decimal of at most thirteen integer digits and six fraction digits, and its value is
   * that many millionths.
   */
  lemma AmountSpelledIff(token: Bytes, v: U64)
    ensures AmountOf(token) == Ok(v) <==>
      exists whole: nat, fraction: Option<Bytes> ::
        && SpellsAmount(token, whole, fraction)
        && v == whole * 1_000_000 + Millionths(if fraction.Some? then fraction.value else [])
  {
    hide Millionths;
    hide Micros;
    hide NumberOf;
    hide Printed;
    AmountIff(token, v);
    if AmountOf(token) == Ok(v) {
      var d: Decimal :| d.Accepted() && d.Spelled() == token && Micros(d) == v;
      AcceptedSpells(d);
    }
    forall whole: nat, fraction: Option<Bytes> | SpellsAmount(token, whole, fraction)
      && v == whole * 1_000_000 + Millionths(if fraction.Some? then fraction.value else [])
      ensures AmountOf(token) == Ok(v)
    {
      SpelledIsAccepted(token, whole, fraction);
      var d := Decimal(Printed(whole), fraction);
      AcceptedSpells(d);
      assert d.Accepted() && d.Spelled() == token && Micros(d) == v;
    }
  }
}
