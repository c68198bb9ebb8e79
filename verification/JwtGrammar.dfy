/**
 * The accepted documents: a subset of JSON (RFC 8259) without escapes, with one spelling per string,
 * unsigned decimal numbers and one nested object. A document is a tree of members with their whitespace.
 */
module JwtGrammar {
  import opened Results
  import opened Words
  import opened JwtErrors
  import opened JwtNumbers

  const ALG: Bytes := [97, 108, 103]  // alg
  const KID: Bytes := [107, 105, 100]  // kid
  const TYP: Bytes := [116, 121, 112]  // typ
  const JWK: Bytes := [106, 119, 107]  // jwk
  const JKU: Bytes := [106, 107, 117]  // jku
  const X5C: Bytes := [120, 53, 99]  // x5c
  const X5U: Bytes := [120, 53, 117]  // x5u
  const X5T: Bytes := [120, 53, 116]  // x5t
  const X5T_S256: Bytes := [120, 53, 116, 35, 83, 50, 53, 54]  // x5t#S256
  const CRIT: Bytes := [99, 114, 105, 116]  // crit
  const B64: Bytes := [98, 54, 52]  // b64
  const ISS: Bytes := [105, 115, 115]  // iss
  const JTI: Bytes := [106, 116, 105]  // jti
  const IAT: Bytes := [105, 97, 116]  // iat
  const EXP: Bytes := [101, 120, 112]  // exp
  const VERDICT: Bytes := [118, 101, 114, 100, 105, 99, 116]  // verdict
  const MANDATE: Bytes := [109, 97, 110, 100, 97, 116, 101]  // mandate
  const POLICY_VERSION: Bytes := [112, 111, 108, 105, 99, 121, 95, 118, 101, 114, 115, 105, 111, 110]  // policy_version
  const NONCE: Bytes := [110, 111, 110, 99, 101]  // nonce
  const REQUEST: Bytes := [114, 101, 113, 117, 101, 115, 116]  // request
  const AUD: Bytes := [97, 117, 100]  // aud
  const NBF: Bytes := [110, 98, 102]  // nbf
  const SUPERSEDES: Bytes := [115, 117, 112, 101, 114, 115, 101, 100, 101, 115]  // supersedes
  const AGENT: Bytes := [97, 103, 101, 110, 116]  // agent
  const AMOUNT: Bytes := [97, 109, 111, 117, 110, 116]  // amount
  const CURRENCY: Bytes := [99, 117, 114, 114, 101, 110, 99, 121]  // currency
  const RECIPIENT: Bytes := [114, 101, 99, 105, 112, 105, 101, 110, 116]  // recipient
  const CATEGORY: Bytes := [99, 97, 116, 101, 103, 111, 114, 121]  // category
  const ES256: Bytes := [69, 83, 50, 53, 54]  // ES256
  const JWT: Bytes := [74, 87, 84]  // JWT

  const QUOTE: U8 := 34
  const BACKSLASH: U8 := 92
  const COLON: U8 := 58
  const COMMA: U8 := 44
  const OPEN: U8 := 123
  const CLOSE: U8 := 125

  predicate IsSpace(b: U8) {
    b == 32 || b == 9 || b == 10 || b == 13
  }

  /** Printable ASCII other than the quote and the backslash. */
  predicate IsPlain(b: U8) {
    32 <= b <= 126 && b != QUOTE && b != BACKSLASH
  }

  predicate IsNumeric(b: U8) {
    IsDigit(b) || b == POINT || b == 45 || b == 43 || b == 101 || b == 69
  }

  predicate AllSpace(s: Bytes) {
    forall i :: 0 <= i < |s| ==> IsSpace(s[i])
  }

  predicate AllPlain(s: Bytes) {
    forall i :: 0 <= i < |s| ==> IsPlain(s[i])
  }

  predicate AllNumeric(s: Bytes) {
    forall i :: 0 <= i < |s| ==> IsNumeric(s[i])
  }

  // Documents.

  datatype Value =
    | Quoted(text: Bytes)
    | Numeric(token: Bytes)
    | Nested(members: seq<Member>, inner: Bytes)

  /** One field, with the whitespace before its key, around the colon and after its value. */
  datatype Member = Member(lead: Bytes, key: Bytes, gap: Bytes, space: Bytes, value: Value, trail: Bytes)

  predicate WellFormed(v: Value) {
    match v
    case Quoted(text) => AllPlain(text)
    case Numeric(token) => token != [] && AllNumeric(token)
    case Nested(members, inner) => AllSpace(inner) && AllWellFormed(members)
  }

  predicate AllWellFormed(ms: seq<Member>) {
    ms == [] ||
    (&& AllSpace(ms[0].lead) && AllPlain(ms[0].key) && AllSpace(ms[0].gap) && AllSpace(ms[0].space)
     && WellFormed(ms[0].value) && AllSpace(ms[0].trail) && AllWellFormed(ms[1..]))
  }

  function RenderValue(v: Value): Bytes
    decreases v, 0
  {
    match v
    case Quoted(text) => QuotedText(text)
    case Numeric(token) => token
    case Nested(members, inner) => RenderObject(members, inner)
  }

  /** Whitespace inside an empty object is its own. */
  function RenderObject(ms: seq<Member>, inner: Bytes): Bytes
    decreases ms, 2
  {
    if ms == [] then [OPEN] + inner + [CLOSE] else [OPEN] + RenderMembers(ms)
  }

  function QuotedText(s: Bytes): Bytes {
    [QUOTE] + s + [QUOTE]
  }

  /** One member in front of what follows it. */
  function RenderMember(m: Member, value: Bytes, rest: Bytes): Bytes {
    m.lead + (QuotedText(m.key) + (m.gap + ([COLON] + (m.space + (value + (m.trail + rest))))))
  }

  /** Members up to and including the closing brace. */
  function RenderMembers(ms: seq<Member>): Bytes
    requires ms != []
    decreases ms, 1
  {
    RenderMember(ms[0], RenderValue(ms[0].value), if |ms| == 1 then [CLOSE] else [COMMA] + RenderMembers(ms[1..]))
  }

  // Meaning.

  datatype Kind = TextKind | TimestampKind | AmountKind | RequestKind

  /** The fields an object may hold, and those named only to be refused. */
  datatype Schema = Schema(kinds: map<Bytes, Kind>, refused: set<Bytes>)

  const HEADER_SCHEMA := Schema(
    map[ALG := TextKind, KID := TextKind, TYP := TextKind], {JWK, JKU, X5C, X5U, X5T, X5T_S256, CRIT, B64})

  const REQUEST_SCHEMA := Schema(
    map[AGENT := TextKind, AMOUNT := AmountKind, CURRENCY := TextKind, RECIPIENT := TextKind, CATEGORY := TextKind], {})

  const CLAIMS_SCHEMA := Schema(
    map[ISS := TextKind, JTI := TextKind, IAT := TimestampKind, EXP := TimestampKind, VERDICT := TextKind,
        MANDATE := TextKind, POLICY_VERSION := TextKind, NONCE := TextKind, REQUEST := RequestKind],
    {AUD, NBF, SUPERSEDES})

  datatype Request = Request(agent: Bytes, amountMicros: U64, currency: Bytes, recipient: Bytes, category: Bytes)

  datatype FieldValue = Text(text: Bytes) | Number(number: U64) | Inner(request: Request)

  type Record = map<Bytes, FieldValue>

  function TextAt(r: Record, key: Bytes): Parsed<Bytes> {
    if key in r && r[key].Text? then Ok(r[key].text) else Err(MissingField)
  }

  function NumberAt(r: Record, key: Bytes): Parsed<U64> {
    if key in r && r[key].Number? then Ok(r[key].number) else Err(MissingField)
  }

  function RequestAt(r: Record, key: Bytes): Parsed<Request> {
    if key in r && r[key].Inner? then Ok(r[key].request) else Err(MissingField)
  }

  function Bounded(text: Bytes, limit: nat): Parsed<Bytes> {
    if text == [] || limit < |text| then Err(InvalidFieldLength) else Ok(text)
  }

  function BoundedAt(r: Record, key: Bytes, limit: nat): Parsed<Bytes> {
    var text :- TextAt(r, key);
    Bounded(text, limit)
  }

  function RequestOf(r: Record): Parsed<Request> {
    var agent :- BoundedAt(r, AGENT, 64);
    var amount :- NumberAt(r, AMOUNT);
    var currency :- BoundedAt(r, CURRENCY, 16);
    var recipient :- BoundedAt(r, RECIPIENT, 128);
    var category :- BoundedAt(r, CATEGORY, 32);
    Ok(Request(agent, amount, currency, recipient, category))
  }

  datatype Claims = Claims(
    iss: Bytes, jti: Bytes, iat: U64, exp: U64, verdict: Bytes, mandate: Bytes, policyVersion: Bytes,
    nonce: Bytes, request: Request)

  function ClaimsOf(r: Record): Parsed<Claims> {
    var iss :- TextAt(r, ISS);
    var jti :- BoundedAt(r, JTI, 64);
    var iat :- NumberAt(r, IAT);
    var exp :- NumberAt(r, EXP);
    var verdict :- TextAt(r, VERDICT);
    var mandate :- BoundedAt(r, MANDATE, 64);
    var policyVersion :- BoundedAt(r, POLICY_VERSION, 64);
    var nonce :- BoundedAt(r, NONCE, 64);
    var request :- RequestAt(r, REQUEST);
    Ok(Claims(iss, jti, iat, exp, verdict, mandate, policyVersion, nonce, request))
  }

  /** The key id of an accepted header. */
  function KeyIdOf(r: Record): Parsed<Bytes> {
    var alg :- TextAt(r, ALG);
    var _ :- Need(alg == ES256, UnsupportedAlgorithm);
    var _ :- Need(TYP in r ==> r[TYP] == Text(JWT), UnsupportedType);
    BoundedAt(r, KID, 32)
  }

  /** Which key may appear now, and what its value must be. */
  function KindOf(schema: Schema, r: Record, key: Bytes): Parsed<Kind> {
    if key in schema.kinds then (if key in r then Err(DuplicateField) else Ok(schema.kinds[key]))
    else if key in schema.refused then Err(UnsupportedClaim)
    else Err(UnknownField)
  }

  function ReadValue(kind: Kind, v: Value): Parsed<FieldValue>
    decreases v, 0
  {
    match kind
    case TextKind => if v.Quoted? then Ok(Text(v.text)) else Err(UnsupportedJsonValue)
    case TimestampKind =>
      if !v.Numeric? then Err(UnsupportedJsonValue) else
        var n :- TimestampOf(v.token);
        Ok(Number(n))
    case AmountKind =>
      if !v.Numeric? then Err(UnsupportedJsonValue) else
        var n :- AmountOf(v.token);
        Ok(Number(n))
    case RequestKind =>
      if !v.Nested? then Err(MalformedJson) else
        var r :- ReadMembers(REQUEST_SCHEMA, v.members, map[]);
        var request :- RequestOf(r);
        Ok(Inner(request))
  }

  /** Reads fields in the order they come, each at most once. */
  function ReadMembers(schema: Schema, ms: seq<Member>, r: Record): Parsed<Record>
    decreases ms, 1
  {
    if ms == [] then Ok(r) else
      var kind :- KindOf(schema, r, ms[0].key);
      var value :- ReadValue(kind, ms[0].value);
      ReadMembers(schema, ms[1..], r[ms[0].key := value])
  }

  // The order of fields does not matter.

  ghost predicate Distinct(ms: seq<Member>) {
    forall i, j :: 0 <= i < j < |ms| ==> ms[i].key != ms[j].key
  }

  ghost function Keys(ms: seq<Member>): set<Bytes> {
    set i | 0 <= i < |ms| :: ms[i].key
  }

  /** A member holds the value the record has under its key. */
  ghost predicate IsHeld(schema: Schema, m: Member, r: Record) {
    && m.key in schema.kinds && m.key in r
    && ReadValue(schema.kinds[m.key], m.value) == Ok(r[m.key])
  }

  /** The members hold exactly the record, each field once, in whatever order. */
  ghost predicate Holds(schema: Schema, ms: seq<Member>, r: Record) {
    && Distinct(ms) && r.Keys == Keys(ms)
    && (forall i :: 0 <= i < |ms| ==> IsHeld(schema, ms[i], r))
  }

  /** `after` is `before` with the fields the members hold, none of them there already. */
  ghost predicate Adds(schema: Schema, ms: seq<Member>, before: Record, after: Record) {
    && Distinct(ms) && after.Keys == before.Keys + Keys(ms)
    && (forall i :: 0 <= i < |ms| ==> ms[i].key !in before && IsHeld(schema, ms[i], after))
    && (forall k :: k in before ==> k in after && after[k] == before[k])
  }

  lemma AddsNothing(schema: Schema, before: Record, after: Record)
    ensures Adds(schema, [], before, after) <==> after == before
  {
    assert Keys([]) == {};
    if Adds(schema, [], before, after) {
      assert after.Keys == before.Keys;
      assert after == before;
    }
  }

  lemma DistinctFrom(ms: seq<Member>)
    requires ms != []
    ensures Distinct(ms) <==> Distinct(ms[1..]) && ms[0].key !in Keys(ms[1..])
  {
    assert forall i :: 0 <= i < |ms[1..]| ==> ms[1..][i] == ms[i + 1];
    if Distinct(ms[1..]) && ms[0].key !in Keys(ms[1..]) {
      forall i, j | 0 <= i < j < |ms|
        ensures ms[i].key != ms[j].key
      {
        assert ms[j].key == ms[1..][j - 1].key;
        assert ms[j].key in Keys(ms[1..]);
      }
    }
  }

  /** Adding the first member and then the rest. */
  lemma AddsFirst(schema: Schema, ms: seq<Member>, before: Record, value: FieldValue, after: Record)
    requires ms != [] && ms[0].key !in before && ms[0].key in schema.kinds
    requires ReadValue(schema.kinds[ms[0].key], ms[0].value) == Ok(value)
    ensures Adds(schema, ms, before, after) <==> Adds(schema, ms[1..], before[ms[0].key := value], after)
  {
    hide ReadValue;
    hide Distinct;
    hide Keys;
    KeysFrom(ms);
    DistinctFrom(ms);
    var next := before[ms[0].key := value];
    assert forall i :: 0 <= i < |ms[1..]| ==> ms[1..][i] == ms[i + 1];
    if Adds(schema, ms, before, after) {
      forall i | 0 <= i < |ms[1..]|
        ensures ms[1..][i].key !in next && IsHeld(schema, ms[1..][i], after)
      {
        assert ms[i + 1].key !in before && IsHeld(schema, ms[i + 1], after);
        KeyIn(ms[1..], i);
      }
      assert IsHeld(schema, ms[0], after);
    }
    if Adds(schema, ms[1..], next, after) {
      forall i | 0 <= i < |ms|
        ensures ms[i].key !in before && IsHeld(schema, ms[i], after)
      {
        if i > 0 {
          assert ms[1..][i - 1].key !in next && IsHeld(schema, ms[1..][i - 1], after);
        }
      }
      assert ms[0].key !in Keys(ms[1..]) by {
        if ms[0].key in Keys(ms[1..]) {
          KeyAmong(ms[1..], ms[0].key);
        }
      }
    }
  }

  lemma KeyIn(ms: seq<Member>, i: nat)
    requires i < |ms|
    ensures ms[i].key in Keys(ms)
  {
  }

  lemma KeyAmong(ms: seq<Member>, k: Bytes)
    requires k in Keys(ms)
    ensures exists i :: 0 <= i < |ms| && ms[i].key == k
  {
  }

  lemma {:induction false} ReadsOver(schema: Schema, ms: seq<Member>, before: Record, after: Record)
    ensures ReadMembers(schema, ms, before) == Ok(after) <==> Adds(schema, ms, before, after)
    decreases |ms|
  {
    hide ReadValue;
    hide Adds;
    if ms == [] {
      AddsNothing(schema, before, after);
    } else {
      var kind := KindOf(schema, before, ms[0].key);
      if kind.Ok? && ReadValue(kind.value, ms[0].value).Ok? {
        var value := ReadValue(kind.value, ms[0].value).value;
        AddsFirst(schema, ms, before, value, after);
        ReadsOver(schema, ms[1..], before[ms[0].key := value], after);
      } else if Adds(schema, ms, before, after) {
        AddsReadable(schema, ms, before, after);
        assert false;
      }
    }
  }

  lemma AddsReadable(schema: Schema, ms: seq<Member>, before: Record, after: Record)
    requires ms != [] && Adds(schema, ms, before, after)
    ensures ms[0].key !in before && ms[0].key in schema.kinds
    ensures ReadValue(schema.kinds[ms[0].key], ms[0].value).Ok?
  {
    hide ReadValue;
  }

  lemma KeysFrom(ms: seq<Member>)
    requires ms != []
    ensures Keys(ms) == {ms[0].key} + Keys(ms[1..])
  {
    forall k
      ensures k in Keys(ms) <==> k == ms[0].key || k in Keys(ms[1..])
    {
      if k in Keys(ms) {
        var i :| 0 <= i < |ms| && ms[i].key == k;
        assert i > 0 ==> ms[1..][i - 1].key == k;
      }
      if k in Keys(ms[1..]) {
        var i :| 0 <= i < |ms[1..]| && ms[1..][i].key == k;
        assert ms[i + 1].key == k;
      }
    }
  }

  /** Reading succeeds exactly when every field is known, readable and there once, whatever the order. */
  lemma ReadIffHolds(schema: Schema, ms: seq<Member>, r: Record)
    ensures ReadMembers(schema, ms, map[]) == Ok(r) <==> Holds(schema, ms, r)
  {
    hide ReadValue;
    hide ReadMembers;
    ReadsOver(schema, ms, map[], r);
  }
}
