/** Unpadded Base64URL (section 5 of RFC 4648) whose unused trailing bits must be zero (section 3.5). */
module Base64Url {
  import opened Results
  import opened Words
  import opened JwtErrors

  type Sextet = x: int | 0 <= x < 64

  function SextetOf(symbol: U8): Parsed<Sextet> {
    if 65 <= symbol <= 90 then Ok(symbol - 65)
    else if 97 <= symbol <= 122 then Ok(symbol - 97 + 26)
    else if 48 <= symbol <= 57 then Ok(symbol - 48 + 52)
    else if symbol == 45 then Ok(62)
    else if symbol == 95 then Ok(63)
    else Err(InvalidBase64Url)
  }

  /** The alphabet: A-Z, a-z, 0-9, '-' and '_'. */
  function SymbolOf(v: Sextet): U8 {
    if v < 26 then 65 + v
    else if v < 52 then 97 + v - 26
    else if v < 62 then 48 + v - 52
    else if v == 62 then 45
    else 95
  }

  lemma SymbolsInvert(symbol: U8, v: Sextet)
    ensures SextetOf(symbol) == Ok(v) <==> symbol == SymbolOf(v)
  {
  }

  // Three bytes and four sextets are the same 24 bits.

  function Word3(a: U8, b: U8, c: U8): nat {
    (a * 0x100 + b) * 0x100 + c
  }

  function Word4(p: Sextet, q: Sextet, r: Sextet, s: Sextet): nat {
    ((p * 0x40 + q) * 0x40 + r) * 0x40 + s
  }

  function First(w: nat): U8
    requires w < 0x100_0000
  {
    w / 0x100 / 0x100
  }

  function Second(w: nat): U8
    requires w < 0x100_0000
  {
    w / 0x100 % 0x100
  }

  function Third(w: nat): U8
    requires w < 0x100_0000
  {
    w % 0x100
  }

  /** The four symbols of one 24-bit group. */
  function Symbols(w: nat): (r: seq<U8>)
    requires w < 0x100_0000
    ensures |r| == 4
  {
    [SymbolOf(w / 0x40 / 0x40 / 0x40), SymbolOf(w / 0x40 / 0x40 % 0x40), SymbolOf(w / 0x40 % 0x40), SymbolOf(w % 0x40)]
  }

  /** The encoding: groups of three bytes, then one or two bytes with zero bits filled in. */
  function Encode(bytes: Bytes): seq<U8> {
    if |bytes| == 0 then []
    else if |bytes| == 1 then Symbols(Word3(bytes[0], 0, 0))[..2]
    else if |bytes| == 2 then Symbols(Word3(bytes[0], bytes[1], 0))[..3]
    else Symbols(Word3(bytes[0], bytes[1], bytes[2])) + Encode(bytes[3..])
  }

  /** The bits of up to four symbols, from the top of a 24-bit group down. */
  function Bits(chunk: seq<U8>): Parsed<nat>
    requires |chunk| <= 4
  {
    var p :- if |chunk| > 0 then SextetOf(chunk[0]) else Ok(0);
    var q :- if |chunk| > 1 then SextetOf(chunk[1]) else Ok(0);
    var r :- if |chunk| > 2 then SextetOf(chunk[2]) else Ok(0);
    var s :- if |chunk| > 3 then SextetOf(chunk[3]) else Ok(0);
    Ok(Word4(p, q, r, s))
  }

  /** The bytes of one chunk; a short one must leave no bits over. */
  function Chunk(chunk: seq<U8>): Parsed<Bytes>
    requires |chunk| <= 4
  {
    var w :- Bits(chunk);
    BitsFit(chunk);
    if |chunk| == 4 then Ok([First(w), Second(w), Third(w)])
    else if |chunk| == 3 && Third(w) == 0 then Ok([First(w), Second(w)])
    else if |chunk| == 2 && Second(w) == 0 && Third(w) == 0 then Ok([First(w)])
    else Err(InvalidBase64Url)
  }

  lemma BitsFit(chunk: seq<U8>)
    requires |chunk| <= 4 && Bits(chunk).Ok?
    ensures Bits(chunk).value < 0x100_0000
  {
  }

  lemma WordsInvert(a: U8, b: U8, c: U8)
    ensures Word3(a, b, c) < 0x100_0000
    ensures First(Word3(a, b, c)) == a && Second(Word3(a, b, c)) == b && Third(Word3(a, b, c)) == c
  {
  }

  lemma BytesInvert(w: nat)
    requires w < 0x100_0000
    ensures Word3(First(w), Second(w), Third(w)) == w
  {
  }

  lemma Quotient(x: nat, s: Sextet, w: nat)
    ensures x * 0x40 + s == w <==> x == w / 0x40 && s == w % 0x40
  {
  }

  lemma SextetsInvert(p: Sextet, q: Sextet, r: Sextet, s: Sextet, w: nat)
    requires w < 0x100_0000
    ensures Word4(p, q, r, s) == w <==>
      p == w / 0x40 / 0x40 / 0x40 && q == w / 0x40 / 0x40 % 0x40 && r == w / 0x40 % 0x40 && s == w % 0x40
  {
    Quotient((p * 0x40 + q) * 0x40 + r, s, w);
    Quotient(p * 0x40 + q, r, w / 0x40);
    Quotient(p, q, w / 0x40 / 0x40);
  }

  /** A full group decodes to `w` exactly when it is spelled with the symbols of `w`. */
  lemma GroupInverts(chunk: seq<U8>, w: nat)
    requires |chunk| == 4 && w < 0x100_0000
    ensures Bits(chunk) == Ok(w) <==> chunk == Symbols(w)
  {
    var p, q, r, s := w / 0x40 / 0x40 / 0x40, w / 0x40 / 0x40 % 0x40, w / 0x40 % 0x40, w % 0x40;
    SymbolsInvert(chunk[0], p);
    SymbolsInvert(chunk[1], q);
    SymbolsInvert(chunk[2], r);
    SymbolsInvert(chunk[3], s);
    SextetsInvert(p, q, r, s, w);
    if Bits(chunk) == Ok(w) {
      SextetsInvert(
        SextetOf(chunk[0]).value, SextetOf(chunk[1]).value, SextetOf(chunk[2]).value, SextetOf(chunk[3]).value, w);
    }
    assert chunk == [chunk[0], chunk[1], chunk[2], chunk[3]];
  }

  /** Missing symbols count as zero bits. */
  lemma ShortGroup(chunk: seq<U8>, full: seq<U8>)
    requires |chunk| < 4 && |full| == 4 && chunk == full[..|chunk|]
    requires forall i :: |chunk| <= i < 4 ==> full[i] == SymbolOf(0)
    ensures Bits(chunk) == Bits(full)
  {
    SymbolsInvert(SymbolOf(0), 0);
  }

  lemma OneByte(chunk: seq<U8>, a: U8)
    requires |chunk| == 2
    ensures Chunk(chunk) == Ok([a]) <==> chunk == Symbols(Word3(a, 0, 0))[..2]
  {
    hide Symbols;
    hide Bits;
    var full, w := chunk + [SymbolOf(0), SymbolOf(0)], Word3(a, 0, 0);
    ShortGroup(chunk, full);
    WordsInvert(a, 0, 0);
    GroupInverts(full, w);
    ZeroTail(a);
    assert full == Symbols(w) <==> chunk == Symbols(w)[..2] by {
      assert Symbols(w) == Symbols(w)[..2] + [SymbolOf(0), SymbolOf(0)];
      assert full[..2] == chunk;
    }
    if Bits(chunk).Ok? {
      BitsFit(chunk);
      BytesInvert(Bits(chunk).value);
    }
  }

  lemma ZeroTail(a: U8)
    ensures |Symbols(Word3(a, 0, 0))| == 4
    ensures Symbols(Word3(a, 0, 0))[2] == SymbolOf(0) && Symbols(Word3(a, 0, 0))[3] == SymbolOf(0)
  {
    hide SymbolOf;
    Quotient(a * 0x400, 0, Word3(a, 0, 0));
    Quotient(a * 0x10, 0, a * 0x400);
  }

  lemma TwoBytes(chunk: seq<U8>, a: U8, b: U8)
    requires |chunk| == 3
    ensures Chunk(chunk) == Ok([a, b]) <==> chunk == Symbols(Word3(a, b, 0))[..3]
  {
    hide Symbols;
    hide Bits;
    var full, w := chunk + [SymbolOf(0)], Word3(a, b, 0);
    ShortGroup(chunk, full);
    WordsInvert(a, b, 0);
    GroupInverts(full, w);
    ZeroEnd(a, b);
    assert full == Symbols(w) <==> chunk == Symbols(w)[..3] by {
      assert Symbols(w) == Symbols(w)[..3] + [SymbolOf(0)];
      assert full[..3] == chunk;
    }
    if Bits(chunk).Ok? {
      BitsFit(chunk);
      BytesInvert(Bits(chunk).value);
    }
  }

  lemma ZeroEnd(a: U8, b: U8)
    ensures |Symbols(Word3(a, b, 0))| == 4 && Symbols(Word3(a, b, 0))[3] == SymbolOf(0)
  {
    hide SymbolOf;
    Quotient((a * 0x100 + b) * 4, 0, Word3(a, b, 0));
  }

  lemma ThreeBytes(chunk: seq<U8>, a: U8, b: U8, c: U8)
    requires |chunk| == 4
    ensures Chunk(chunk) == Ok([a, b, c]) <==> chunk == Symbols(Word3(a, b, c))
  {
    hide Symbols;
    hide Bits;
    WordsInvert(a, b, c);
    GroupInverts(chunk, Word3(a, b, c));
    if Bits(chunk).Ok? {
      BitsFit(chunk);
      BytesInvert(Bits(chunk).value);
    }
  }

  /** The whole decoder, group by group. */
  function Decode(input: seq<U8>): Parsed<Bytes> {
    if input == [] then Ok([])
    else if |input| < 4 then Chunk(input)
    else
      var head :- Chunk(input[..4]);
      var rest :- Decode(input[4..]);
      Ok(head + rest)
  }

  lemma ChunkLength(chunk: seq<U8>)
    requires |chunk| <= 4
    ensures Chunk(chunk).Ok? ==> |chunk| >= 2 && |Chunk(chunk).value| == |chunk| - 1
    ensures Chunk(chunk).Err? ==> Chunk(chunk).error == InvalidBase64Url
  {
  }

  /**
   * An input is accepted exactly when it is the encoding of what it decodes to: decoding inverts encoding,
   * and no byte string has two accepted spellings.
   */
  lemma {:induction false} DecodeInvertsEncode(input: seq<U8>, out: Bytes)
    ensures Decode(input) == Ok(out) <==> input == Encode(out)
    decreases |input| + |out|
  {
    hide Chunk;
    hide Symbols;
    if |input| < 4 {
      if input != [] {
        ChunkLength(input);
      }
      if |out| == 1 && |input| == 2 {
        assert out == [out[0]];
        OneByte(input, out[0]);
      } else if |out| == 2 && |input| == 3 {
        assert out == [out[0], out[1]];
        TwoBytes(input, out[0], out[1]);
      }
      ShortEncodings(out);
    } else {
      ChunkLength(input[..4]);
      ShortEncodings(out);
      if |out| >= 3 {
        DecodeInvertsEncode(input[4..], out[3..]);
        ThreeBytes(input[..4], out[0], out[1], out[2]);
        var head := [out[0], out[1], out[2]];
        assert out == head + out[3..] && out[..3] == head;
        assert input == input[..4] + input[4..];
        if Decode(input) == Ok(out) {
          assert out == Chunk(input[..4]).value + Decode(input[4..]).value;
          assert out[3..] == Decode(input[4..]).value;
        }
        if input == Encode(out) {
          assert input[..4] == Symbols(Word3(out[0], out[1], out[2]));
          assert input[4..] == Encode(out[3..]);
        }
      }
    }
  }

  lemma ShortEncodings(out: Bytes)
    ensures |Encode(out)| >= 4 <==> |out| >= 3
    ensures |out| == 1 ==> |Encode(out)| == 2
    ensures |out| == 2 ==> |Encode(out)| == 3
  {
  }

  lemma {:induction false} LengthDecides(input: seq<U8>)
    ensures |input| % 4 == 1 ==> Decode(input) == Err(InvalidBase64Url)
    ensures Decode(input).Err? ==> Decode(input).error == InvalidBase64Url
    decreases |input|
  {
    hide Chunk;
    if |input| >= 4 {
      ChunkLength(input[..4]);
      LengthDecides(input[4..]);
    } else if input != [] {
      ChunkLength(input);
    }
  }

  lemma Canonical(input: seq<U8>)
    ensures forall out :: Decode(input) == Ok(out) <==> input == Encode(out)
  {
    forall out
      ensures Decode(input) == Ok(out) <==> input == Encode(out)
    {
      DecodeInvertsEncode(input, out);
    }
  }

  /** What the groups from `i` on add to those before. */
  ghost function Continued(done: Bytes, rest: Parsed<Bytes>): Parsed<Bytes> {
    if rest.Ok? then Ok(done + rest.value) else rest
  }

  lemma GroupDone(input: seq<U8>, i: nat, end: nat, done: Bytes)
    requires i < |input| && end == Min(i + 4, |input|)
    ensures end - i <= 4 && Continued(done, Decode(input[i..])) ==
      if Chunk(input[i..end]).Err? then Err(Chunk(input[i..end]).error)
      else Continued(done + Chunk(input[i..end]).value, Decode(input[end..]))
  {
    hide Chunk;
    assert input[i..][..end - i] == input[i..end] && input[i..][end - i..] == input[end..];
    if end - i < 4 {
      assert input[i..] == input[i..end] && input[end..] == [];
      assert Chunk(input[i..end]).Ok? ==>
        done + Chunk(input[i..end]).value == done + Chunk(input[i..end]).value + [];
    } else if Chunk(input[i..end]).Ok? && Decode(input[end..]).Ok? {
      assert done + (Chunk(input[i..end]).value + Decode(input[end..]).value)
          == done + Chunk(input[i..end]).value + Decode(input[end..]).value;
    }
  }

  method DecodeBase64Url(input: seq<U8>) returns (r: Parsed<Bytes>)
    ensures r == Decode(input)
    ensures forall out :: r == Ok(out) <==> input == Encode(out)
    ensures r.Err? ==> r.error == InvalidBase64Url
  {
    hide Chunk;
    hide Encode;
    hide Decode;
    Canonical(input);
    LengthDecides(input);
    if |input| % 4 == 1 {
      return Err(InvalidBase64Url);
    }
    var output: Bytes := [];
    var i := 0;
    assert input[0..] == input;
    assert forall rest: Bytes :: output + rest == rest;
    while i < |input|
      invariant 0 <= i <= |input|
      invariant Decode(input) == Continued(output, Decode(input[i..]))
    {
      var end := Min(i + 4, |input|);
      GroupDone(input, i, end, output);
      var group :- Chunk(input[i..end]);
      output := output + group;
      i := end;
    }
    NothingLeft(input[i..]);
    assert output + [] == output;
    return Ok(output);
  }

  lemma NothingLeft(input: seq<U8>)
    requires input == []
    ensures Decode(input) == Ok([])
  {
  }
}
