/** The cursor that walks a document, and the profile's entry points. */
module JwtCursor {
  import opened Results
  import opened Words
  import opened JwtErrors
  import opened JwtNumbers
  import opened JwtGrammar
  import opened JwtParser
  import Base64Url

  /** A method read what the specification reads, and left the cursor where it does. */
  ghost predicate Reads<T(!new)>(r: Parsed<T>, spec: Parsed<(T, nat)>, position: nat) {
    match spec
    case Ok(v) => r == Ok(v.0) && position == v.1
    case Err(reason) => r == Err(reason)
  }

  class Cursor {
    const bytes: Bytes
    var position: nat

    constructor (bytes: Bytes)
      ensures this.bytes == bytes && position == 0
    {
      this.bytes := bytes;
      position := 0;
    }

    method SkipWhitespace()
      requires position <= |bytes|
      modifies this
      ensures position == SkipSpace(bytes, old(position))
    {
      while position < |bytes| && IsSpace(bytes[position])
        invariant position <= |bytes| && SkipSpace(bytes, position) == SkipSpace(bytes, old(position))
      {
        position := position + 1;
      }
    }

    method Expect(expected: U8) returns (r: Check<VerifierError>)
      requires position <= |bytes|
      modifies this
      ensures position <= |bytes|
      ensures r.Ok? <==> Sees(bytes, old(position), expected)
      ensures r.Ok? ==> position == old(position) + 1
      ensures r.Err? ==> r.error == MalformedJson
    {
      if position == |bytes| {
        return Err(MalformedJson);
      }
      var byte := bytes[position];
      position := position + 1;
      return Need(byte == expected, MalformedJson);
    }

    /** A string of printable ASCII. Escapes are rejected outright. */
    method String() returns (r: Parsed<Bytes>)
      requires position <= |bytes|
      modifies this
      ensures Reads(r, ScanString(bytes, old(position)), position) && position <= |bytes|
    {
      if !Sees(bytes, position, QUOTE) {
        return Err(UnsupportedJsonValue);
      }
      position := position + 1;
      var start := position;
      while true
        invariant start <= position <= |bytes| && PlainEnd(bytes, position) == PlainEnd(bytes, start)
        decreases |bytes| - position
      {
        if position == |bytes| {
          return Err(MalformedJson);
        }
        var byte := bytes[position];
        if byte == QUOTE {
          position := position + 1;
          break;
        }
        if byte == BACKSLASH || !(32 <= byte <= 126) {
          return Err(MalformedJson);
        }
        position := position + 1;
      }
      return Ok(bytes[start..position - 1]);
    }

    /** The raw token of a number; the caller decides which forms it accepts. */
    method NumberToken() returns (r: Parsed<Bytes>)
      requires position <= |bytes|
      modifies this
      ensures Reads(r, ScanNumber(bytes, old(position)), position) && position <= |bytes|
    {
      var start := position;
      while position < |bytes| && IsNumeric(bytes[position])
        invariant start <= position <= |bytes| && NumericEnd(bytes, position) == NumericEnd(bytes, start)
      {
        position := position + 1;
      }
      if position == start {
        return Err(UnsupportedJsonValue);
      }
      return Ok(bytes[start..position]);
    }

    /** The value of one field. */
    method FieldOf(kind: Kind) returns (r: Parsed<FieldValue>)
      requires position <= |bytes|
      modifies this
      ensures Reads(r, ScanValue(kind, bytes, old(position)), position) && position <= |bytes|
      decreases |bytes| - position, 1
    {
      match kind
      case TextKind =>
        var s := String();
        var text :- s;
        return Ok(Text(text));
      case TimestampKind =>
        var t := NumberToken();
        var token :- t;
        var n := ParseTimestamp(token);
        var number :- n;
        return Ok(Number(number));
      case AmountKind =>
        var t := NumberToken();
        var token :- t;
        var n := ParseAmount(token);
        var number :- n;
        return Ok(Number(number));
      case RequestKind =>
        var o := Fields(REQUEST_SCHEMA);
        var record :- o;
        var request :- RequestOf(record);
        return Ok(Inner(request));
    }

    /** One field: its key, which must be known and new, and its value. */
    method OneField(schema: Schema, record: Record) returns (r: Parsed<(Bytes, FieldValue)>)
      requires position <= |bytes|
      modifies this
      ensures Reads(r, ScanMember(schema, bytes, old(position), record), position) && position <= |bytes|
      decreases |bytes| - position, 2
    {
      hide SkipSpace;
      hide ScanString;
      hide ScanValue;
      SkipWhitespace();
      if !Sees(bytes, position, QUOTE) {
        return Err(MalformedJson);
      }
      var k := String();
      var key :- k;
      SkipWhitespace();
      var colon := Expect(COLON);
      var _ :- colon;
      SkipWhitespace();
      var kind :- KindOf(schema, record, key);
      var v := FieldOf(kind);
      var value :- v;
      SkipWhitespace();
      return Ok((key, value));
    }

    /** Visits each field of an object. */
    method Fields(schema: Schema) returns (r: Parsed<Record>)
      requires position <= |bytes|
      modifies this
      ensures Reads(r, ScanObject(schema, bytes, old(position)), position) && position <= |bytes|
      decreases |bytes| - position, 0
    {
      hide SkipSpace;
      hide ScanMember;
      ghost var start := position;
      SkipWhitespace();
      var opening := Expect(OPEN);
      var _ :- opening;
      SkipWhitespace();
      if Sees(bytes, position, CLOSE) {
        position := position + 1;
        return Ok(map[]);
      }
      var record: Record := map[];
      while true
        invariant start < position <= |bytes|
        invariant ScanObject(schema, bytes, start) == ScanMembers(schema, bytes, position, record)
        decreases |bytes| - position
      {
        var f := OneField(schema, record);
        var field :- f;
        record := record[field.0 := field.1];
        if Sees(bytes, position, CLOSE) {
          position := position + 1;
          return Ok(record);
        }
        var comma := Expect(COMMA);
        var _ :- comma;
      }
    }

    method Finish() returns (r: Check<VerifierError>)
      requires position <= |bytes|
      modifies this
      ensures r == Need(SkipSpace(bytes, old(position)) == |bytes|, MalformedJson)
    {
      SkipWhitespace();
      return Need(position == |bytes|, MalformedJson);
    }
  }

  /** One whole document. */
  method ParseDocument(schema: Schema, json: Bytes) returns (r: Parsed<Record>)
    ensures r == ScanDocument(schema, json)
  {
    hide ScanObject;
    var cursor := new Cursor(json);
    var f := cursor.Fields(schema);
    var record :- f;
    var e := cursor.Finish();
    var _ :- e;
    return Ok(record);
  }

  method ParseClaims(json: Bytes) returns (r: Parsed<Claims>)
    ensures r == ClaimsIn(json)
  {
    var d := ParseDocument(CLAIMS_SCHEMA, json);
    var record :- d;
    return ClaimsOf(record);
  }

  method ParseHeader(json: Bytes) returns (r: Parsed<Bytes>)
    ensures r == KeyIdIn(json)
  {
    var d := ParseDocument(HEADER_SCHEMA, json);
    var record :- d;
    return KeyIdOf(record);
  }

  // The signing input.

  predicate HasPoint(s: Bytes) {
    exists i :: 0 <= i < |s| && s[i] == POINT
  }

  /** Two non-empty segments around the only point. */
  ghost predicate TwoSegments(input: Bytes) {
    exists i :: 0 < i < |input| - 1 && input[i] == POINT && !HasPoint(input[..i]) && !HasPoint(input[i + 1..])
  }

  /** `BASE64URL(header) "." BASE64URL(payload)` (section 5.1 of RFC 7515). */
  function SigningInput(header: Bytes, payload: Bytes): Bytes {
    Base64Url.Encode(header) + [POINT] + Base64Url.Encode(payload)
  }

  lemma {:induction false} EncodingHasNoPoint(bytes: Bytes)
    ensures !HasPoint(Base64Url.Encode(bytes))
    ensures Base64Url.Encode(bytes) == [] <==> bytes == []
  {
    if |bytes| >= 3 {
      EncodingHasNoPoint(bytes[3..]);
    }
  }

  method FindPoint(s: Bytes) returns (i: nat)
    ensures i <= |s| && !HasPoint(s[..i]) && (i < |s| ==> s[i] == POINT)
  {
    i := 0;
    while i < |s| && s[i] != POINT
      invariant i <= |s| && forall j :: 0 <= j < i ==> s[j] != POINT
    {
      i := i + 1;
    }
  }

  lemma PointIsUnique(a: Bytes, b: Bytes, c: Bytes, d: Bytes)
    requires a + [POINT] + b == c + [POINT] + d && !HasPoint(a) && !HasPoint(c)
    ensures a == c && b == d
  {
    var s := a + [POINT] + b;
    assert s[|a|] == POINT && s[|c|] == POINT;
    assert forall i :: 0 <= i < |a| ==> s[i] == a[i];
    assert forall i :: 0 <= i < |c| ==> s[i] == c[i];
    assert |a| == |c|;
    assert a == s[..|a|] && c == s[..|c|];
    assert b == s[|a| + 1..] && d == s[|c| + 1..];
  }

  lemma NoPointNoInput(input: Bytes)
    requires !HasPoint(input)
    ensures forall header, payload :: input != SigningInput(header, payload)
  {
    hide Base64Url.Encode;
    forall header, payload
      ensures input != SigningInput(header, payload)
    {
      assert SigningInput(header, payload)[|Base64Url.Encode(header)|] == POINT;
    }
  }

  /** The input around its first point is a signing input exactly when both sides are encodings. */
  lemma InputSplits(first: Bytes, second: Bytes)
    requires !HasPoint(first)
    ensures forall header, payload ::
      first + [POINT] + second == SigningInput(header, payload) <==>
        first == Base64Url.Encode(header) && second == Base64Url.Encode(payload)
    ensures forall bytes ::
      !HasPoint(Base64Url.Encode(bytes)) && (Base64Url.Encode(bytes) == [] <==> bytes == [])
  {
    hide Base64Url.Encode;
    hide HasPoint;
    forall bytes
      ensures !HasPoint(Base64Url.Encode(bytes)) && (Base64Url.Encode(bytes) == [] <==> bytes == [])
    {
      EncodingHasNoPoint(bytes);
    }
    forall header, payload | first + [POINT] + second == SigningInput(header, payload)
      ensures first == Base64Url.Encode(header) && second == Base64Url.Encode(payload)
    {
      PointIsUnique(first, second, Base64Url.Encode(header), Base64Url.Encode(payload));
    }
  }

  /** Accepts exactly the canonical signing inputs of two non-empty documents, and returns both. */
  method DecodeSigningInput(input: Bytes) returns (r: Parsed<(Bytes, Bytes)>)
    ensures forall header, payload ::
      r == Ok((header, payload)) <==> header != [] && payload != [] && input == SigningInput(header, payload)
    ensures r.Err? ==> r.error == if TwoSegments(input) then InvalidBase64Url else MalformedSigningInput
  {
    hide Base64Url.Encode;
    hide Base64Url.Decode;
    hide SigningInput;
    var i := FindPoint(input);
    if i == |input| {
      NoPointNoInput(input);
      return Err(MalformedSigningInput);
    }
    var first, second := input[..i], input[i + 1..];
    assert input == first + [POINT] + second;
    InputSplits(first, second);
    var j := FindPoint(second);
    if j < |second| || first == [] || second == [] {
      return Err(MalformedSigningInput);
    }
    assert second[..j] == second;
    assert TwoSegments(input) by {
      assert input[i] == POINT && input[..i] == first && input[i + 1..] == second;
    }
    var h := Base64Url.DecodeBase64Url(first);
    var header :- h;
    var p := Base64Url.DecodeBase64Url(second);
    var payload :- p;
    return Ok((header, payload));
  }
}
