/** The alphabet of Base64URL, and which bits of the bytes every symbol carries (section 4 of RFC 4648). */
module Base64Bits {
  import opened Results
  import opened Words
  import opened JwtErrors
  import opened Base64Url

  const CAPITALS: string := "ABCDEFGHIJKLMNOPQRSTUVWXYZ"
  const SMALL: string := "abcdefghijklmnopqrstuvwxyz"
  const OTHERS: string := "0123456789-_"

  /** The 64 symbols in the order of their values. */
  function Alphabet(v: Sextet): char {
    if v < 26 then CAPITALS[v] else if v < 52 then SMALL[v - 26] else OTHERS[v - 52]
  }

  lemma CapitalsAre(v: nat)
    requires v < 26
    ensures CAPITALS[v] as int == 65 + v
  {
  }

  lemma SmallAre(v: nat)
    requires v < 26
    ensures SMALL[v] as int == 97 + v
  {
  }

  /** The symbol of every value, and of nothing else, is that of the alphabet. */
  lemma AlphabetIs(v: Sextet, symbol: U8)
    ensures SymbolOf(v) == Alphabet(v) as int
    ensures SextetOf(symbol) == Ok(v) <==> symbol == Alphabet(v) as int
  {
    SymbolsInvert(symbol, v);
    hide SextetOf;
    if v < 26 {
      CapitalsAre(v);
    } else if v < 52 {
      SmallAre(v - 26);
    }
  }

  /** A byte of the input, or zero bits behind its end. */
  function ByteAt(bytes: Bytes, i: nat): U8 {
    if i < |bytes| then bytes[i] else 0
  }

  /** Six bits of the input, from the `6 * i`-th on: three bytes give four such values. */
  function SextetAt(bytes: Bytes, i: nat): Sextet {
    var first := 3 * (i / 4);
    var a, b, c := ByteAt(bytes, first), ByteAt(bytes, first + 1), ByteAt(bytes, first + 2);
    match i % 4
    case 0 => a / 4
    case 1 => a % 4 * 16 + b / 16
    case 2 => b % 16 * 4 + c / 64
    case _ => c % 64
  }

  lemma GroupBits(a: U8, b: U8, c: U8)
    ensures Word3(a, b, c) < 0x100_0000
    ensures Symbols(Word3(a, b, c))
         == [SymbolOf(a / 4), SymbolOf(a % 4 * 16 + b / 16), SymbolOf(b % 16 * 4 + c / 64), SymbolOf(c % 64)]
  {
    hide SymbolOf;
    WordsInvert(a, b, c);
    var w := Word3(a, b, c);
    SextetsInvert(a / 4, a % 4 * 16 + b / 16, b % 16 * 4 + c / 64, c % 64, w);
  }

  /** Every symbol of an encoding carries its own six bits of the input, most significant first. */
  lemma {:induction false} EncodeAt(bytes: Bytes, i: nat)
    ensures |Encode(bytes)| == (4 * |bytes| + 2) / 3
    ensures i < |Encode(bytes)| ==> Encode(bytes)[i] == SymbolOf(SextetAt(bytes, i))
    decreases |bytes|
  {
    hide SymbolOf;
    hide Symbols;
    hide Word3;
    if bytes != [] {
      GroupBits(ByteAt(bytes, 0), ByteAt(bytes, 1), ByteAt(bytes, 2));
      if |bytes| >= 3 {
        EncodeAt(bytes[3..], if i < 4 then 0 else i - 4);
        if i >= 4 {
          LaterBits(bytes, i);
        }
      }
    }
  }

  lemma LaterBits(bytes: Bytes, i: nat)
    requires |bytes| >= 3 && i >= 4
    ensures SextetAt(bytes, i) == SextetAt(bytes[3..], i - 4)
  {
    assert i / 4 == (i - 4) / 4 + 1 && i % 4 == (i - 4) % 4;
    var first := 3 * ((i - 4) / 4);
    assert forall k: nat :: ByteAt(bytes[3..], k) == ByteAt(bytes, k + 3);
  }
}
