/** The cursor parser as functions of text and position, and that it accepts exactly the rendered documents. */
module JwtParser {
  import opened Results
  import opened Words
  import opened JwtErrors
  import opened JwtNumbers
  import opened JwtGrammar

  // Tokens.

  function SkipSpace(text: Bytes, i: nat): (j: nat)
    requires i <= |text|
    ensures i <= j <= |text|
    decreases |text| - i
  {
    if i < |text| && IsSpace(text[i]) then SkipSpace(text, i + 1) else i
  }

  function PlainEnd(text: Bytes, i: nat): (j: nat)
    requires i <= |text|
    ensures i <= j <= |text|
    decreases |text| - i
  {
    if i < |text| && IsPlain(text[i]) then PlainEnd(text, i + 1) else i
  }

  function NumericEnd(text: Bytes, i: nat): (j: nat)
    requires i <= |text|
    ensures i <= j <= |text|
    decreases |text| - i
  {
    if i < |text| && IsNumeric(text[i]) then NumericEnd(text, i + 1) else i
  }

  predicate Sees(text: Bytes, i: nat, b: U8) {
    i < |text| && text[i] == b
  }

  /** Every successful scan moves the cursor forward. */
  predicate Moves<T>(r: Parsed<(T, nat)>, text: Bytes, i: nat) {
    r.Ok? ==> i < r.value.1 <= |text|
  }

  function ScanString(text: Bytes, i: nat): (r: Parsed<(Bytes, nat)>)
    requires i <= |text|
    ensures Moves(r, text, i)
  {
    if !Sees(text, i, QUOTE) then Err(UnsupportedJsonValue) else
      var j := PlainEnd(text, i + 1);
      if Sees(text, j, QUOTE) then Ok((text[i + 1..j], j + 1)) else Err(MalformedJson)
  }

  function ScanNumber(text: Bytes, i: nat): (r: Parsed<(Bytes, nat)>)
    requires i <= |text|
    ensures Moves(r, text, i)
  {
    var j := NumericEnd(text, i);
    if j == i then Err(UnsupportedJsonValue) else Ok((text[i..j], j))
  }

  // Objects.

  function ScanValue(kind: Kind, text: Bytes, i: nat): (r: Parsed<(FieldValue, nat)>)
    requires i <= |text|
    ensures Moves(r, text, i)
    decreases |text| - i, 1
  {
    match kind
    case TextKind =>
      var (s, j) :- ScanString(text, i);
      Ok((Text(s), j))
    case TimestampKind =>
      var (token, j) :- ScanNumber(text, i);
      var n :- TimestampOf(token);
      Ok((Number(n), j))
    case AmountKind =>
      var (token, j) :- ScanNumber(text, i);
      var n :- AmountOf(token);
      Ok((Number(n), j))
    case RequestKind =>
      var (r, j) :- ScanObject(REQUEST_SCHEMA, text, i);
      var request :- RequestOf(r);
      Ok((Inner(request), j))
  }

  function ScanObject(schema: Schema, text: Bytes, i: nat): (r: Parsed<(Record, nat)>)
    requires i <= |text|
    ensures Moves(r, text, i)
    decreases |text| - i, 0
  {
    var a := SkipSpace(text, i);
    if !Sees(text, a, OPEN) then Err(MalformedJson) else
      var b := SkipSpace(text, a + 1);
      if Sees(text, b, CLOSE) then Ok((map[], b + 1)) else ScanMembers(schema, text, b, map[])
  }

  /** One field up to the comma or brace that ends it: its key and its value. */
  function ScanMember(schema: Schema, text: Bytes, i: nat, r: Record): (s: Parsed<((Bytes, FieldValue), nat)>)
    requires i <= |text|
    ensures Moves(s, text, i)
    decreases |text| - i, 2
  {
    var a := SkipSpace(text, i);
    if !Sees(text, a, QUOTE) then Err(MalformedJson) else
      var (key, b) :- ScanString(text, a);
      var c := SkipSpace(text, b);
      if !Sees(text, c, COLON) then Err(MalformedJson) else
        var d := SkipSpace(text, c + 1);
        var kind :- KindOf(schema, r, key);
        var (value, e) :- ScanValue(kind, text, d);
        Ok(((key, value), SkipSpace(text, e)))
  }

  function ScanMembers(schema: Schema, text: Bytes, i: nat, r: Record): (s: Parsed<(Record, nat)>)
    requires i <= |text|
    ensures Moves(s, text, i)
    decreases |text| - i, 3
  {
    var ((key, value), f) :- ScanMember(schema, text, i, r);
    if Sees(text, f, COMMA) then ScanMembers(schema, text, f + 1, r[key := value])
    else if Sees(text, f, CLOSE) then Ok((r[key := value], f + 1))
    else Err(MalformedJson)
  }

  /** One object and nothing but whitespace around it. */
  function ScanDocument(schema: Schema, text: Bytes): Parsed<Record> {
    var (r, i) :- ScanObject(schema, text, 0);
    var _ :- Need(SkipSpace(text, i) == |text|, MalformedJson);
    Ok(r)
  }

  // Where a piece of text is.

  ghost predicate At(text: Bytes, i: nat, s: Bytes) {
    i + |s| <= |text| && text[i..i + |s|] == s
  }

  lemma AtSplits(text: Bytes, i: nat, a: Bytes, b: Bytes)
    ensures At(text, i, a + b) <==> At(text, i, a) && At(text, i + |a|, b)
  {
    if i + |a| + |b| <= |text| {
      var whole := text[i..i + |a| + |b|];
      assert whole[..|a|] == text[i..i + |a|] && whole[|a|..] == text[i + |a|..i + |a| + |b|];
      assert (a + b)[..|a|] == a && (a + b)[|a|..] == b;
      assert whole == whole[..|a|] + whole[|a|..];
    }
  }

  lemma AtOne(text: Bytes, i: nat, b: U8)
    ensures At(text, i, [b]) <==> Sees(text, i, b)
  {
    if i < |text| {
      assert text[i..i + 1] == [text[i]];
    }
  }

  lemma {:induction false} SpaceSkipped(text: Bytes, i: nat)
    requires i <= |text|
    ensures var j := SkipSpace(text, i);
      At(text, i, text[i..j]) && AllSpace(text[i..j]) && !(j < |text| && IsSpace(text[j]))
    decreases |text| - i
  {
    var j := SkipSpace(text, i);
    if i < j {
      SpaceSkipped(text, i + 1);
      assert text[i..j] == [text[i]] + text[i + 1..j];
    }
  }

  lemma {:induction false} SkipsGap(text: Bytes, i: nat, gap: Bytes)
    requires At(text, i, gap) && AllSpace(gap) && !(i + |gap| < |text| && IsSpace(text[i + |gap|]))
    ensures SkipSpace(text, i) == i + |gap|
    decreases |gap|
  {
    if gap != [] {
      assert text[i] == gap[0];
      assert text[i + 1..i + |gap|] == gap[1..];
      SkipsGap(text, i + 1, gap[1..]);
    }
  }

  lemma {:induction false} PlainFound(text: Bytes, i: nat)
    requires i <= |text|
    ensures var j := PlainEnd(text, i); AllPlain(text[i..j]) && !(j < |text| && IsPlain(text[j]))
    decreases |text| - i
  {
    var j := PlainEnd(text, i);
    if i < j {
      PlainFound(text, i + 1);
      assert text[i..j] == [text[i]] + text[i + 1..j];
    }
  }

  lemma {:induction false} PlainMeasured(text: Bytes, i: nat, s: Bytes)
    requires At(text, i, s) && AllPlain(s) && Sees(text, i + |s|, QUOTE)
    ensures PlainEnd(text, i) == i + |s|
    decreases |s|
  {
    if s != [] {
      assert text[i] == s[0];
      assert text[i + 1..i + |s|] == s[1..];
      PlainMeasured(text, i + 1, s[1..]);
    }
  }

  lemma {:induction false} NumericFound(text: Bytes, i: nat)
    requires i <= |text|
    ensures var j := NumericEnd(text, i); AllNumeric(text[i..j])
    decreases |text| - i
  {
    var j := NumericEnd(text, i);
    if i < j {
      NumericFound(text, i + 1);
      assert text[i..j] == [text[i]] + text[i + 1..j];
    }
  }

  lemma {:induction false} NumericMeasured(text: Bytes, i: nat, s: Bytes)
    requires At(text, i, s) && AllNumeric(s) && !(i + |s| < |text| && IsNumeric(text[i + |s|]))
    ensures NumericEnd(text, i) == i + |s|
    decreases |s|
  {
    if s != [] {
      assert text[i] == s[0];
      assert text[i + 1..i + |s|] == s[1..];
      NumericMeasured(text, i + 1, s[1..]);
    }
  }

  // Strings.

  lemma StringScanned(text: Bytes, i: nat)
    requires i <= |text| && ScanString(text, i).Ok?
    ensures var (s, j) := ScanString(text, i).value;
      AllPlain(s) && At(text, i, QuotedText(s)) && j == i + |QuotedText(s)|
  {
    var (s, j) := ScanString(text, i).value;
    PlainFound(text, i + 1);
    assert text[i..j] == [QUOTE] + s + [QUOTE];
  }

  lemma StringRendered(text: Bytes, i: nat, s: Bytes)
    requires AllPlain(s) && At(text, i, QuotedText(s))
    ensures i <= |text| && ScanString(text, i) == Ok((s, i + |QuotedText(s)|))
  {
    AtSplits(text, i, [QUOTE] + s, [QUOTE]);
    AtSplits(text, i, [QUOTE], s);
    AtOne(text, i, QUOTE);
    AtOne(text, i + 1 + |s|, QUOTE);
    PlainMeasured(text, i + 1, s);
  }

  // Members.

  /** A member, the text of its value and what follows, each at its own position. */
  ghost predicate MemberAt(text: Bytes, i: nat, m: Member, value: Bytes, rest: Bytes) {
    var a := i + |m.lead|;
    var b := a + |QuotedText(m.key)|;
    var c := b + |m.gap|;
    var d := c + 1 + |m.space|;
    var e := d + |value|;
    var f := e + |m.trail|;
    && At(text, i, m.lead) && At(text, a, QuotedText(m.key)) && At(text, b, m.gap) && Sees(text, c, COLON)
    && At(text, c + 1, m.space) && At(text, d, value) && At(text, e, m.trail) && At(text, f, rest)
  }

  lemma MemberSplits(text: Bytes, i: nat, m: Member, value: Bytes, rest: Bytes)
    ensures At(text, i, RenderMember(m, value, rest)) <==> MemberAt(text, i, m, value, rest)
  {
    hide At;
    hide QuotedText;
    var r6 := m.trail + rest;
    var r5 := value + r6;
    var r4 := m.space + r5;
    var r3 := [COLON] + r4;
    var r2 := m.gap + r3;
    var r1 := QuotedText(m.key) + r2;
    var a := i + |m.lead|;
    var b := a + |QuotedText(m.key)|;
    var c := b + |m.gap|;
    AtSplits(text, i, m.lead, r1);
    AtSplits(text, a, QuotedText(m.key), r2);
    AtSplits(text, b, m.gap, r3);
    AtSplits(text, c, [COLON], r4);
    AtOne(text, c, COLON);
    AtSplits(text, c + 1, m.space, r5);
    AtSplits(text, c + 1 + |m.space|, value, r6);
    AtSplits(text, c + 1 + |m.space| + |value|, m.trail, rest);
  }

  function MemberLength(m: Member, value: Bytes): nat {
    |m.lead| + |QuotedText(m.key)| + |m.gap| + 1 + |m.space| + |value| + |m.trail|
  }

  lemma RenderedLength(m: Member, value: Bytes, rest: Bytes)
    ensures |RenderMember(m, value, rest)| == MemberLength(m, value) + |rest|
  {
  }

  // What the parser accepts is a rendered document.

  lemma NumberScanned(text: Bytes, i: nat)
    requires i <= |text| && ScanNumber(text, i).Ok?
    ensures var (token, j) := ScanNumber(text, i).value;
      token != [] && AllNumeric(token) && At(text, i, token) && j == i + |token|
  {
    NumericFound(text, i);
  }

  lemma {:induction false} ScannedValue(kind: Kind, text: Bytes, i: nat) returns (v: Value)
    requires i <= |text| && ScanValue(kind, text, i).Ok? && SkipSpace(text, i) == i
    ensures WellFormed(v) && At(text, i, RenderValue(v)) && ScanValue(kind, text, i).value.1 == i + |RenderValue(v)|
    ensures ReadValue(kind, v) == Ok(ScanValue(kind, text, i).value.0)
    decreases |text| - i, 1
  {
    match kind
    case TextKind =>
      StringScanned(text, i);
      v := Quoted(ScanString(text, i).value.0);
    case TimestampKind =>
      NumberScanned(text, i);
      v := Numeric(ScanNumber(text, i).value.0);
    case AmountKind =>
      NumberScanned(text, i);
      v := Numeric(ScanNumber(text, i).value.0);
    case RequestKind =>
      var ms, inner := ScannedObject(REQUEST_SCHEMA, text, i);
      v := Nested(ms, inner);
  }

  lemma {:induction false} ScannedObject(schema: Schema, text: Bytes, i: nat) returns (ms: seq<Member>, inner: Bytes)
    requires i <= |text| && ScanObject(schema, text, i).Ok? && SkipSpace(text, i) == i
    ensures AllSpace(inner) && AllWellFormed(ms) && At(text, i, RenderObject(ms, inner))
    ensures ScanObject(schema, text, i).value.1 == i + |RenderObject(ms, inner)|
    ensures ReadMembers(schema, ms, map[]) == Ok(ScanObject(schema, text, i).value.0)
    decreases |text| - i, 0
  {
    hide RenderMembers;
    hide ScanMembers;
    hide SkipSpace;
    hide AllWellFormed;
    var b := SkipSpace(text, i + 1);
    SpaceSkipped(text, i + 1);
    AtOne(text, i, OPEN);
    if Sees(text, b, CLOSE) {
      ms, inner := [], text[i + 1..b];
      assert text[i..b + 1] == [OPEN] + inner + [CLOSE];
      NoMembers();
    } else {
      inner := [];
      ms := ScannedMembers(schema, text, b, map[]);
      var gap := text[i + 1..b];
      ms := WithLead(schema, text, i + 1, ms, gap);
      AtSplits(text, i, [OPEN], RenderMembers(ms));
    }
  }

  lemma NoMembers()
    ensures AllWellFormed([])
  {
  }

  /** The whitespace skipped after the brace belongs to the first member. */
  lemma WithLead(schema: Schema, text: Bytes, i: nat, ms: seq<Member>, gap: Bytes) returns (all: seq<Member>)
    requires ms != [] && AllWellFormed(ms) && AllSpace(gap)
    requires At(text, i, gap) && At(text, i + |gap|, RenderMembers(ms))
    ensures all != [] && AllWellFormed(all) && At(text, i, RenderMembers(all))
    ensures |RenderMembers(all)| == |gap| + |RenderMembers(ms)|
    ensures forall r :: ReadMembers(schema, all, r) == ReadMembers(schema, ms, r)
  {
    hide At;
    hide RenderMember;
    hide RenderValue;
    hide ReadValue;
    var m := ms[0].(lead := gap + ms[0].lead);
    all := [m] + ms[1..];
    assert all[1..] == ms[1..];
    var rest := if |ms| == 1 then [CLOSE] else [COMMA] + RenderMembers(ms[1..]);
    LeadComesFirst(ms[0], gap, RenderValue(m.value), rest);
    assert RenderMembers(all) == RenderMember(m, RenderValue(m.value), rest);
    AtSplits(text, i, gap, RenderMembers(ms));
  }

  lemma LeadComesFirst(m: Member, gap: Bytes, value: Bytes, rest: Bytes)
    ensures RenderMember(m.(lead := gap + m.lead), value, rest) == gap + RenderMember(m, value, rest)
  {
    var body := QuotedText(m.key) + (m.gap + ([COLON] + (m.space + (value + (m.trail + rest)))));
    assert (gap + m.lead) + body == gap + (m.lead + body);
  }

  lemma SettledHere(text: Bytes, i: nat)
    requires i <= |text| && !(i < |text| && IsSpace(text[i]))
    ensures SkipSpace(text, i) == i
  {
  }

  /** The member just scanned, whatever follows it. */
  ghost predicate IsMember(text: Bytes, i: nat, m: Member, f: nat) {
    && AllWellFormed([m])
    && forall rest {:trigger At(text, f, rest)} :: At(text, f, rest) ==>
         && At(text, i, RenderMember(m, RenderValue(m.value), rest))
         && i + |RenderMember(m, RenderValue(m.value), rest)| == f + |rest|
  }

  lemma {:induction false} ScannedMember(schema: Schema, text: Bytes, i: nat, r: Record) returns (m: Member)
    requires i <= |text| && ScanMember(schema, text, i, r).Ok?
    ensures var ((key, value), f) := ScanMember(schema, text, i, r).value;
      && IsMember(text, i, m, f) && m.key == key && KindOf(schema, r, key).Ok?
      && ReadValue(KindOf(schema, r, key).value, m.value) == Ok(value)
    decreases |text| - i, 2
  {
    hide At;
    hide QuotedText;
    hide RenderValue;
    hide RenderMember;
    hide ReadValue;
    hide ScanValue;
    hide ScanString;
    hide SkipSpace;
    hide WellFormed;
    hide KindOf;
    var a := SkipSpace(text, i);
    SpaceSkipped(text, i);
    var (key, b) := ScanString(text, a).value;
    StringScanned(text, a);
    var c := SkipSpace(text, b);
    SpaceSkipped(text, b);
    var d := SkipSpace(text, c + 1);
    SpaceSkipped(text, c + 1);
    SettledHere(text, d);
    var kind := KindOf(schema, r, key).value;
    var (value, e) := ScanValue(kind, text, d).value;
    var v := ScannedValue(kind, text, d);
    var f := SkipSpace(text, e);
    SpaceSkipped(text, e);
    m := Member(text[i..a], key, text[b..c], text[c + 1..d], v, text[e..f]);
    assert [m][1..] == [];
    NoMembers();
    assert AllWellFormed([m]);
    forall rest | At(text, f, rest)
      ensures At(text, i, RenderMember(m, RenderValue(m.value), rest))
      ensures i + |RenderMember(m, RenderValue(m.value), rest)| == f + |rest|
    {
      MemberFound(text, i, m, RenderValue(v), rest);
    }
  }

  lemma {:induction false} ScannedMembers(schema: Schema, text: Bytes, i: nat, r: Record) returns (ms: seq<Member>)
    requires i <= |text| && ScanMembers(schema, text, i, r).Ok?
    ensures ms != [] && AllWellFormed(ms) && At(text, i, RenderMembers(ms))
    ensures ScanMembers(schema, text, i, r).value.1 == i + |RenderMembers(ms)|
    ensures ReadMembers(schema, ms, r) == Ok(ScanMembers(schema, text, i, r).value.0)
    decreases |text| - i, 3
  {
    hide At;
    hide RenderValue;
    hide RenderMember;
    hide ReadValue;
    hide ScanMember;
    hide WellFormed;
    hide KindOf;
    var ((key, value), f) := ScanMember(schema, text, i, r).value;
    var m := ScannedMember(schema, text, i, r);
    assert [m][1..] == [];
    if Sees(text, f, COMMA) {
      var more := ScannedMembers(schema, text, f + 1, r[key := value]);
      ms := [m] + more;
      assert ms[1..] == more;
      AtOne(text, f, COMMA);
      AtSplits(text, f, [COMMA], RenderMembers(more));
      assert At(text, f, [COMMA] + RenderMembers(more));
    } else {
      ms := [m];
      AtOne(text, f, CLOSE);
      assert At(text, f, [CLOSE]);
    }
  }

  lemma MemberFound(text: Bytes, i: nat, m: Member, value: Bytes, rest: Bytes)
    requires MemberAt(text, i, m, value, rest)
    ensures At(text, i, RenderMember(m, value, rest))
    ensures |RenderMember(m, value, rest)| == MemberLength(m, value) + |rest|
  {
    hide At;
    MemberSplits(text, i, m, value, rest);
    RenderedLength(m, value, rest);
  }

  // Every rendered document that reads well is accepted.

  /** What may follow a value never continues a number. */
  predicate Stops(text: Bytes, i: nat) {
    i == |text| || (i < |text| && !IsNumeric(text[i]))
  }

  lemma NumberRendered(text: Bytes, i: nat, token: Bytes)
    requires token != [] && AllNumeric(token) && At(text, i, token) && Stops(text, i + |token|)
    ensures i <= |text| && ScanNumber(text, i) == Ok((token, i + |token|))
  {
    NumericMeasured(text, i, token);
  }

  /** A value never starts with whitespace. */
  lemma ValueStarts(text: Bytes, i: nat, v: Value)
    requires WellFormed(v) && At(text, i, RenderValue(v))
    ensures i < |text| && !IsSpace(text[i])
  {
    match v
    case Quoted(t) => assert RenderValue(v)[0] == QUOTE;
    case Numeric(token) => assert RenderValue(v)[0] == token[0];
    case Nested(ms, inner) => assert RenderObject(ms, inner)[0] == OPEN;
    assert text[i] == RenderValue(v)[0];
  }

  lemma {:induction false} RenderedValue(kind: Kind, text: Bytes, i: nat, v: Value)
    requires WellFormed(v) && At(text, i, RenderValue(v)) && Stops(text, i + |RenderValue(v)|)
    requires ReadValue(kind, v).Ok?
    ensures i <= |text| && ScanValue(kind, text, i) == Ok((ReadValue(kind, v).value, i + |RenderValue(v)|))
    decreases v, 1
  {
    hide At;
    match kind
    case TextKind => StringRendered(text, i, v.text);
    case TimestampKind => NumberRendered(text, i, v.token);
    case AmountKind => NumberRendered(text, i, v.token);
    case RequestKind => RenderedObject(REQUEST_SCHEMA, text, i, v.members, v.inner);
  }

  lemma {:induction false} RenderedObject(schema: Schema, text: Bytes, i: nat, ms: seq<Member>, inner: Bytes)
    requires AllSpace(inner) && AllWellFormed(ms) && At(text, i, RenderObject(ms, inner))
    requires ReadMembers(schema, ms, map[]).Ok?
    ensures i <= |text|
    ensures ScanObject(schema, text, i) == Ok((ReadMembers(schema, ms, map[]).value, i + |RenderObject(ms, inner)|))
    decreases ms, 2
  {
    hide At;
    hide RenderMembers;
    hide ScanMembers;
    if ms == [] {
      AtSplits(text, i, [OPEN] + inner, [CLOSE]);
      AtSplits(text, i, [OPEN], inner);
      AtOne(text, i, OPEN);
      AtOne(text, i + 1 + |inner|, CLOSE);
      SkipsGap(text, i + 1, inner);
    } else {
      AtSplits(text, i, [OPEN], RenderMembers(ms));
      AtOne(text, i, OPEN);
      RenderedMembers(schema, text, i + 1, ms, map[]);
      LeadSkipped(schema, text, i + 1, ms, map[]);
    }
  }

  /** Skipping whitespace first makes no difference: a key follows it. */
  lemma LeadSkipped(schema: Schema, text: Bytes, i: nat, ms: seq<Member>, r: Record)
    requires ms != [] && AllWellFormed(ms) && At(text, i, RenderMembers(ms))
    ensures i <= |text| && var b := SkipSpace(text, i);
      !Sees(text, b, CLOSE) && ScanMembers(schema, text, b, r) == ScanMembers(schema, text, i, r)
  {
    hide At;
    hide ScanMembers;
    hide RenderMember;
    hide RenderValue;
    hide QuotedText;
    hide WellFormed;
    hide SkipSpace;
    var m := ms[0];
    var rest := if |ms| == 1 then [CLOSE] else [COMMA] + RenderMembers(ms[1..]);
    MemberSplits(text, i, m, RenderValue(m.value), rest);
    QuoteSeen(text, i + |m.lead|, m.key);
    SkipsGap(text, i, m.lead);
    SkippedTwice(schema, text, i, r);
  }

  lemma SkippedTwice(schema: Schema, text: Bytes, i: nat, r: Record)
    requires i <= |text|
    ensures ScanMembers(schema, text, SkipSpace(text, i), r) == ScanMembers(schema, text, i, r)
  {
    hide SkipSpace;
    hide ScanValue;
    hide ScanString;
    SpaceSkipped(text, i);
    SettledHere(text, SkipSpace(text, i));
    assert ScanMember(schema, text, SkipSpace(text, i), r) == ScanMember(schema, text, i, r);
  }

  lemma ObjectSkipped(schema: Schema, text: Bytes)
    ensures ScanObject(schema, text, SkipSpace(text, 0)) == ScanObject(schema, text, 0)
  {
    hide SkipSpace;
    hide ScanMembers;
    SpaceSkipped(text, 0);
    SettledHere(text, SkipSpace(text, 0));
  }

  lemma QuoteSeen(text: Bytes, i: nat, s: Bytes)
    requires At(text, i, QuotedText(s))
    ensures Sees(text, i, QUOTE)
  {
    assert text[i] == QuotedText(s)[0];
  }

  lemma {:induction false} RenderedMember(schema: Schema, text: Bytes, i: nat, m: Member, rest: Bytes, r: Record)
    requires AllWellFormed([m]) && At(text, i, RenderMember(m, RenderValue(m.value), rest))
    requires rest != [] && (rest[0] == COMMA || rest[0] == CLOSE)
    requires KindOf(schema, r, m.key).Ok? && ReadValue(KindOf(schema, r, m.key).value, m.value).Ok?
    ensures i <= |text| && var f := i + MemberLength(m, RenderValue(m.value));
      && At(text, f, rest)
      && ScanMember(schema, text, i, r)
           == Ok(((m.key, ReadValue(KindOf(schema, r, m.key).value, m.value).value), f))
    decreases m
  {
    hide At;
    hide QuotedText;
    hide RenderMember;
    hide ReadValue;
    hide ScanValue;
    hide ScanString;
    hide SkipSpace;
    hide KindOf;
    hide WellFormed;
    hide RenderValue;
    var value := RenderValue(m.value);
    MemberSplits(text, i, m, value, rest);
    var a := i + |m.lead|;
    QuoteSeen(text, a, m.key);
    SkipsGap(text, i, m.lead);
    StringRendered(text, a, m.key);
    var b := a + |QuotedText(m.key)|;
    SkipsGap(text, b, m.gap);
    var c := b + |m.gap|;
    var d := c + 1 + |m.space|;
    ValueStarts(text, d, m.value);
    SkipsGap(text, c + 1, m.space);
    var e := d + |value|;
    FirstSeen(text, e + |m.trail|, rest);
    SkipsGap(text, e, m.trail);
    TrailStops(text, e, m.trail);
    RenderedValue(KindOf(schema, r, m.key).value, text, d, m.value);
  }

  lemma FirstSeen(text: Bytes, i: nat, rest: Bytes)
    requires At(text, i, rest) && rest != []
    ensures Sees(text, i, rest[0])
  {
    assert text[i] == rest[0];
  }

  lemma {:induction false} RenderedMembers(schema: Schema, text: Bytes, i: nat, ms: seq<Member>, r: Record)
    requires ms != [] && AllWellFormed(ms) && At(text, i, RenderMembers(ms))
    requires ReadMembers(schema, ms, r).Ok?
    ensures i <= |text|
    ensures ScanMembers(schema, text, i, r) == Ok((ReadMembers(schema, ms, r).value, i + |RenderMembers(ms)|))
    decreases ms, 1
  {
    hide At;
    hide RenderMember;
    hide ReadValue;
    hide ScanMember;
    hide KindOf;
    hide WellFormed;
    hide RenderValue;
    var m := ms[0];
    var rest := if |ms| == 1 then [CLOSE] else [COMMA] + RenderMembers(ms[1..]);
    assert [m][1..] == [];
    RenderedMember(schema, text, i, m, rest, r);
    RenderedLength(m, RenderValue(m.value), rest);
    var f := i + MemberLength(m, RenderValue(m.value));
    FirstSeen(text, f, rest);
    if |ms| > 1 {
      AtSplits(text, f, [COMMA], RenderMembers(ms[1..]));
      var value := ReadValue(KindOf(schema, r, m.key).value, m.value).value;
      RenderedMembers(schema, text, f + 1, ms[1..], r[m.key := value]);
    }
  }

  lemma TrailStops(text: Bytes, i: nat, trail: Bytes)
    requires At(text, i, trail) && AllSpace(trail)
    requires Sees(text, i + |trail|, COMMA) || Sees(text, i + |trail|, CLOSE)
    ensures Stops(text, i)
  {
    if trail != [] {
      assert text[i] == trail[0];
    }
  }

  // Whole documents.

  /** A document: one object between whitespace. */
  datatype Document = Document(before: Bytes, members: seq<Member>, inner: Bytes, after: Bytes) {
    predicate WellFormed() {
      AllSpace(before) && AllSpace(after) && AllSpace(inner) && AllWellFormed(members)
    }

    function Render(): Bytes {
      before + (RenderObject(members, inner) + after)
    }
  }

  lemma DocumentRendered(schema: Schema, d: Document)
    requires d.WellFormed() && ReadMembers(schema, d.members, map[]).Ok?
    ensures ScanDocument(schema, d.Render()) == ReadMembers(schema, d.members, map[])
  {
    hide At;
    hide ScanMembers;
    hide RenderObject;
    hide ReadMembers;
    hide AllWellFormed;
    hide SkipSpace;
    hide ScanObject;
    var text := d.Render();
    var shown := RenderObject(d.members, d.inner);
    var i := |d.before|;
    assert At(text, 0, text) by { Everywhere(text); }
    AtSplits(text, 0, d.before, shown + d.after);
    AtSplits(text, i, shown, d.after);
    ObjectStarts(text, i, d.members, d.inner);
    SkipsGap(text, 0, d.before);
    ObjectSkipped(schema, text);
    RenderedObject(schema, text, i, d.members, d.inner);
    SkipsGap(text, i + |shown|, d.after);
  }

  lemma Everywhere(text: Bytes)
    ensures At(text, 0, text)
  {
  }

  lemma ObjectStarts(text: Bytes, i: nat, ms: seq<Member>, inner: Bytes)
    requires At(text, i, RenderObject(ms, inner))
    ensures Sees(text, i, OPEN)
  {
    assert text[i] == RenderObject(ms, inner)[0];
  }

  lemma DocumentScanned(schema: Schema, text: Bytes) returns (d: Document)
    requires ScanDocument(schema, text).Ok?
    ensures d.WellFormed() && d.Render() == text
    ensures ReadMembers(schema, d.members, map[]) == ScanDocument(schema, text)
  {
    hide ScanObject;
    hide RenderObject;
    hide AllWellFormed;
    hide ReadMembers;
    hide SkipSpace;
    var a := SkipSpace(text, 0);
    SpaceSkipped(text, 0);
    SettledHere(text, a);
    ObjectSkipped(schema, text);
    var ms, inner := ScannedObject(schema, text, a);
    var b := ScanObject(schema, text, 0).value.1;
    SpaceSkipped(text, b);
    d := Document(text[..a], ms, inner, text[b..]);
    assert text[0..a] == text[..a] && text[b..|text|] == text[b..];
    assert text[a..b] == RenderObject(ms, inner);
    assert text == text[..a] + (text[a..b] + text[b..]);
  }

  /**
   * A text is accepted with a record exactly when it is some document, in any field order and with any
   * whitespace, whose members hold that record: every field known, readable, and there exactly once.
   */
  lemma AcceptedIff(schema: Schema, text: Bytes, r: Record)
    ensures ScanDocument(schema, text) == Ok(r) <==>
      exists d: Document :: d.WellFormed() && d.Render() == text && Holds(schema, d.members, r)
  {
    hide ScanDocument;
    hide ReadMembers;
    hide Holds;
    if ScanDocument(schema, text) == Ok(r) {
      var d := DocumentScanned(schema, text);
      ReadIffHolds(schema, d.members, r);
    }
    forall d: Document | d.WellFormed() && d.Render() == text && Holds(schema, d.members, r)
      ensures ScanDocument(schema, text) == Ok(r)
    {
      ReadIffHolds(schema, d.members, r);
      DocumentRendered(schema, d);
    }
  }

  function ClaimsIn(text: Bytes): Parsed<Claims> {
    var r :- ScanDocument(CLAIMS_SCHEMA, text);
    ClaimsOf(r)
  }

  function KeyIdIn(text: Bytes): Parsed<Bytes> {
    var r :- ScanDocument(HEADER_SCHEMA, text);
    KeyIdOf(r)
  }

  /** What claims look like as a record. */
  function RequestRecord(q: Request): Record {
    map[AGENT := Text(q.agent), AMOUNT := Number(q.amountMicros), CURRENCY := Text(q.currency),
        RECIPIENT := Text(q.recipient), CATEGORY := Text(q.category)]
  }

  function ClaimsRecord(c: Claims): Record {
    map[ISS := Text(c.iss), JTI := Text(c.jti), IAT := Number(c.iat), EXP := Number(c.exp),
        VERDICT := Text(c.verdict), MANDATE := Text(c.mandate), POLICY_VERSION := Text(c.policyVersion),
        NONCE := Text(c.nonce), REQUEST := Inner(c.request)]
  }

  /** The lengths the profile allows. */
  predicate InBounds(c: Claims) {
    && 0 < |c.jti| <= 64 && 0 < |c.mandate| <= 64 && 0 < |c.policyVersion| <= 64 && 0 < |c.nonce| <= 64
  }

  /** A record gives the claims their own values. */
  predicate Claimed(r: Record, c: Claims)
    requires r.Keys == CLAIMS_SCHEMA.kinds.Keys
  {
    && r[ISS] == Text(c.iss) && r[JTI] == Text(c.jti) && r[IAT] == Number(c.iat) && r[EXP] == Number(c.exp)
    && r[VERDICT] == Text(c.verdict) && r[MANDATE] == Text(c.mandate)
    && r[POLICY_VERSION] == Text(c.policyVersion) && r[NONCE] == Text(c.nonce) && r[REQUEST] == Inner(c.request)
  }

  lemma ClaimsAreRead(r: Record, c: Claims)
    requires r.Keys <= CLAIMS_SCHEMA.kinds.Keys
    ensures ClaimsOf(r) == Ok(c) <==> InBounds(c) && r.Keys == CLAIMS_SCHEMA.kinds.Keys && Claimed(r, c)
  {
  }

  lemma ClaimsAreRecorded(c: Claims)
    ensures ClaimsRecord(c).Keys == CLAIMS_SCHEMA.kinds.Keys && Claimed(ClaimsRecord(c), c)
  {
  }

  lemma RecordsAreClaims(r: Record, c: Claims)
    requires r.Keys <= CLAIMS_SCHEMA.kinds.Keys
    ensures ClaimsOf(r) == Ok(c) <==> InBounds(c) && r == ClaimsRecord(c)
  {
    ClaimsAreRead(r, c);
    ClaimsAreRecorded(c);
    hide ClaimsOf;
    hide ClaimsRecord;
    if ClaimsOf(r) == Ok(c) {
      assert r.Keys == CLAIMS_SCHEMA.kinds.Keys;
    }
  }

  /** An accepted header as a record: the algorithm, the key id, and the type if it is given. */
  function HeaderRecord(kid: Bytes, typed: bool): Record {
    var r: Record := map[ALG := Text(ES256), KID := Text(kid)];
    if typed then r[TYP := Text(JWT)] else r
  }

  lemma RecordsAreHeaders(r: Record, kid: Bytes)
    requires r.Keys <= HEADER_SCHEMA.kinds.Keys
    ensures KeyIdOf(r) == Ok(kid) <==>
      0 < |kid| <= 32 && (r == HeaderRecord(kid, true) || r == HeaderRecord(kid, false))
  {
    assert ALG != KID && ALG != TYP && KID != TYP by {
      assert ALG[0] != KID[0] && ALG[0] != TYP[0] && KID[0] != TYP[0];
    }
    if KeyIdOf(r) == Ok(kid) {
      assert r.Keys == HeaderRecord(kid, TYP in r).Keys;
      assert r == HeaderRecord(kid, TYP in r);
    }
  }

  lemma HeaderKeys(kid: Bytes, typed: bool)
    ensures HeaderRecord(kid, typed).Keys <= HEADER_SCHEMA.kinds.Keys
  {
  }

  /**
   * A key id is read out of exactly the texts that print a header holding it: ES256, the key id, and the type
   * JWT or no type, in any order and with any whitespace; no other field.
   */
  lemma HeaderIff(text: Bytes, kid: Bytes)
    ensures KeyIdIn(text) == Ok(kid) <==>
      0 < |kid| <= 32
      && exists d: Document, typed: bool ::
           d.WellFormed() && d.Render() == text && Holds(HEADER_SCHEMA, d.members, HeaderRecord(kid, typed))
  {
    hide ScanDocument;
    hide Holds;
    hide KeyIdOf;
    hide HeaderRecord;
    AcceptedIff(HEADER_SCHEMA, text, HeaderRecord(kid, true));
    AcceptedIff(HEADER_SCHEMA, text, HeaderRecord(kid, false));
    if ScanDocument(HEADER_SCHEMA, text).Ok? {
      var r := ScanDocument(HEADER_SCHEMA, text).value;
      AcceptedIff(HEADER_SCHEMA, text, r);
      var d: Document :| d.WellFormed() && d.Render() == text && Holds(HEADER_SCHEMA, d.members, r);
      HeldKeys(HEADER_SCHEMA, d.members, r);
      RecordsAreHeaders(r, kid);
    }
    HeaderKeys(kid, true);
    HeaderKeys(kid, false);
    RecordsAreHeaders(HeaderRecord(kid, true), kid);
    RecordsAreHeaders(HeaderRecord(kid, false), kid);
  }

  predicate RequestInBounds(q: Request) {
    0 < |q.agent| <= 64 && 0 < |q.currency| <= 16 && 0 < |q.recipient| <= 128 && 0 < |q.category| <= 32
  }

  lemma RecordsAreRequests(r: Record, q: Request)
    requires r.Keys <= REQUEST_SCHEMA.kinds.Keys
    ensures RequestOf(r) == Ok(q) <==> RequestInBounds(q) && r == RequestRecord(q)
  {
    if RequestInBounds(q) && r == RequestRecord(q) {
      assert RequestOf(r) == Ok(q);
    }
    if RequestOf(r) == Ok(q) {
      assert r.Keys == RequestRecord(q).Keys;
    }
  }

  /** The nested request, too, may have its five fields in any order, each exactly once. */
  lemma RequestIff(v: Value, q: Request)
    ensures ReadValue(RequestKind, v) == Ok(Inner(q)) <==>
      v.Nested? && RequestInBounds(q) && Holds(REQUEST_SCHEMA, v.members, RequestRecord(q))
  {
    hide ReadMembers;
    hide RequestOf;
    hide RequestRecord;
    hide Holds;
    if v.Nested? {
      ReadIffHolds(REQUEST_SCHEMA, v.members, RequestRecord(q));
      if ReadMembers(REQUEST_SCHEMA, v.members, map[]).Ok? {
        var r := ReadMembers(REQUEST_SCHEMA, v.members, map[]).value;
        ReadIffHolds(REQUEST_SCHEMA, v.members, r);
        HeldKeys(REQUEST_SCHEMA, v.members, r);
        RecordsAreRequests(r, q);
      }
    }
  }

  /**
   * Claims parse out of exactly the texts that print them: any order of the nine fields, any whitespace, any
   * spelling of the amount with the same value; no field missing, repeated or unknown.
   */
  lemma ClaimsIff(text: Bytes, c: Claims)
    ensures ClaimsIn(text) == Ok(c) <==>
      InBounds(c)
      && exists d: Document :: d.WellFormed() && d.Render() == text && Holds(CLAIMS_SCHEMA, d.members, ClaimsRecord(c))
  {
    hide ScanDocument;
    hide Holds;
    hide ClaimsOf;
    hide ClaimsRecord;
    AcceptedIff(CLAIMS_SCHEMA, text, ClaimsRecord(c));
    if ScanDocument(CLAIMS_SCHEMA, text).Ok? {
      var r := ScanDocument(CLAIMS_SCHEMA, text).value;
      AcceptedIff(CLAIMS_SCHEMA, text, r);
      var d: Document :| d.WellFormed() && d.Render() == text && Holds(CLAIMS_SCHEMA, d.members, r);
      HeldKeys(CLAIMS_SCHEMA, d.members, r);
      RecordsAreClaims(r, c);
    }
    if InBounds(c) {
      RecordedKeys(c);
      RecordsAreClaims(ClaimsRecord(c), c);
    }
  }

  lemma RecordedKeys(c: Claims)
    ensures ClaimsRecord(c).Keys <= CLAIMS_SCHEMA.kinds.Keys
  {
  }

  lemma HeldKeys(schema: Schema, ms: seq<Member>, r: Record)
    requires Holds(schema, ms, r)
    ensures r.Keys <= schema.kinds.Keys
  {
    hide ReadValue;
  }
}
