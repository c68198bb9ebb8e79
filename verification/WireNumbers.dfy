/** Fixed-width big-endian numbers. */
module WireNumbers {
  import opened Words

  type Bytes = seq<U8>

  function Pow256(n: nat): nat {
    if n == 0 then 1 else 256 * Pow256(n - 1)
  }

  /** The `width` low-order bytes of `v`, most significant first. */
  function BigEndian(width: nat, v: nat): (r: Bytes)
    ensures |r| == width
  {
    if width == 0 then [] else BigEndian(width - 1, v / 256) + [v % 256]
  }

  function FromBigEndian(bytes: Bytes): nat {
    if bytes == [] then 0 else 256 * FromBigEndian(bytes[..|bytes| - 1]) + bytes[|bytes| - 1]
  }

  lemma {:induction false} NumberFits(bytes: Bytes)
    ensures FromBigEndian(bytes) < Pow256(|bytes|)
  {
    if bytes != [] {
      NumberFits(bytes[..|bytes| - 1]);
    }
  }

  /** Every number that fits its width is read back. */
  lemma {:induction false} NumberRoundTrip(width: nat, v: nat)
    requires v < Pow256(width)
    ensures FromBigEndian(BigEndian(width, v)) == v
  {
    if width != 0 {
      NumberRoundTrip(width - 1, v / 256);
      assert BigEndian(width, v)[..width - 1] == BigEndian(width - 1, v / 256);
    }
  }

  /** Every byte string is the encoding of the number it is read as. */
  lemma {:induction false} BytesRoundTrip(bytes: Bytes)
    ensures BigEndian(|bytes|, FromBigEndian(bytes)) == bytes
  {
    if bytes != [] {
      var front := bytes[..|bytes| - 1];
      BytesRoundTrip(front);
      assert FromBigEndian(bytes) / 256 == FromBigEndian(front);
      assert bytes == front + [bytes[|bytes| - 1]];
    }
  }

  lemma Widths()
    ensures Pow256(1) == 0x100 && Pow256(2) == 0x1_0000 && Pow256(4) == 0x1_0000_0000
    ensures Pow256(8) == 0x1_0000_0000_0000_0000
    ensures Pow256(16) == 0x1_0000_0000_0000_0000_0000_0000_0000_0000
    ensures Pow256(32) == 0x1_0000_0000_0000_0000_0000_0000_0000_0000_0000_0000_0000_0000_0000_0000_0000_0000
  {
    assert Pow256(4) == 256 * 256 * 256 * 256;
    assert Pow256(8) == 256 * 256 * 256 * 256 * Pow256(4);
    assert Pow256(12) == 256 * 256 * 256 * 256 * Pow256(8);
    assert Pow256(16) == 256 * 256 * 256 * 256 * Pow256(12);
    assert Pow256(20) == 256 * 256 * 256 * 256 * Pow256(16);
    assert Pow256(24) == 256 * 256 * 256 * 256 * Pow256(20);
    assert Pow256(28) == 256 * 256 * 256 * 256 * Pow256(24);
  }

  /** The first number too wide for a field. The field widths in use are spelled out. */
  function Limit(width: nat): nat {
    match width
    case 1 => 0x100
    case 2 => 0x1_0000
    case 4 => 0x1_0000_0000
    case 8 => 0x1_0000_0000_0000_0000
    case 16 => 0x1_0000_0000_0000_0000_0000_0000_0000_0000
    case 32 => 0x1_0000_0000_0000_0000_0000_0000_0000_0000_0000_0000_0000_0000_0000_0000_0000_0000
    case _ => Pow256(width)
  }

  lemma LimitIsPower(width: nat)
    ensures Limit(width) == Pow256(width)
  {
    Widths();
  }
}
