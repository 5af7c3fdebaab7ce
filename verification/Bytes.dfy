/** Integers as bytes, least significant first and most significant first, and taking bytes off the front. */
module Bytes {
  import opened Common

  function Pow256(width: nat): (r: nat)
    ensures r > 0
  {
    if width == 0 then 1 else 256 * Pow256(width - 1)
  }

  function Little(n: nat, width: nat): (bytes: seq<Byte>)
    ensures |bytes| == width
  {
    if width == 0 then [] else [n % 256] + Little(n / 256, width - 1)
  }

  function FromLittle(bytes: seq<Byte>): nat {
    if bytes == [] then 0 else bytes[0] + 256 * FromLittle(bytes[1..])
  }

  function Reversed(bytes: seq<Byte>): (r: seq<Byte>)
    ensures |r| == |bytes|
    ensures forall i :: 0 <= i < |bytes| ==> r[i] == bytes[|bytes| - 1 - i]
  {
    seq(|bytes|, i requires 0 <= i < |bytes| => bytes[|bytes| - 1 - i])
  }

  lemma ReversedTwice(bytes: seq<Byte>)
    ensures Reversed(Reversed(bytes)) == bytes
  {}

  function Big(n: nat, width: nat): (bytes: seq<Byte>)
    ensures |bytes| == width
  {
    Reversed(Little(n, width))
  }

  function FromBig(bytes: seq<Byte>): nat {
    FromLittle(Reversed(bytes))
  }

  /** Numbers that fit are read back. */
  lemma {:induction false} LittleReadsBack(n: nat, width: nat)
    requires n < Pow256(width)
    ensures FromLittle(Little(n, width)) == n
  {
    if width > 0 {
      LittleReadsBack(n / 256, width - 1);
      assert Little(n, width)[1..] == Little(n / 256, width - 1);
    }
  }

  /** Every byte string is the encoding of the number it is read as, and that number fits. */
  lemma {:induction false} LittleIsOnto(bytes: seq<Byte>)
    ensures FromLittle(bytes) < Pow256(|bytes|)
    ensures Little(FromLittle(bytes), |bytes|) == bytes
  {
    if bytes != [] {
      LittleIsOnto(bytes[1..]);
      assert bytes == [bytes[0]] + bytes[1..];
    }
  }

  lemma BigReadsBack(n: nat, width: nat)
    requires n < Pow256(width)
    ensures FromBig(Big(n, width)) == n
  {
    ReversedTwice(Little(n, width));
    LittleReadsBack(n, width);
  }

  lemma BigIsOnto(bytes: seq<Byte>)
    ensures FromBig(bytes) < Pow256(|bytes|)
    ensures Big(FromBig(bytes), |bytes|) == bytes
  {
    var flipped := Reversed(bytes);
    LittleIsOnto(flipped);
    ReversedTwice(bytes);
  }

  lemma Widths()
    ensures Pow256(1) == 0x100 && Pow256(4) == U32_MAX + 1 && Pow256(8) == U64_MAX + 1 && Pow256(16) == U128_LIMIT
  {
    assert Pow256(2) == 256 * Pow256(1);
    assert Pow256(4) == 256 * (256 * Pow256(2));
    assert Pow256(6) == 256 * (256 * Pow256(4));
    assert Pow256(8) == 256 * (256 * Pow256(6));
    assert Pow256(10) == 256 * (256 * Pow256(8));
    assert Pow256(12) == 256 * (256 * Pow256(10));
    assert Pow256(14) == 256 * (256 * Pow256(12));
    assert Pow256(16) == 256 * (256 * Pow256(14));
  }
}
