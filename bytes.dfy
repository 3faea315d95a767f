/** Bytes and the little-endian unsigned integers that every fixed layout of the bot is built from. */
module Bytes {

  type Byte = b: int | 0 <= b < 256

  /** 256 to the power n: the number of distinct values an n-byte field holds. */
  function Pow256(n: nat): (p: nat)
    ensures p >= 1
  {
    if n == 0 then 1 else 256 * Pow256(n - 1)
  }

  /** The n-byte little-endian unsigned encoding of x (construct's Int8ul, Int64ul and
      BytesInteger(width, signed=False, swapped=True)); only values that fit are encoded. */
  function LittleEndian(x: nat, width: nat): (bs: seq<Byte>)
    requires x < Pow256(width)
    ensures |bs| == width
    ensures width > 0 ==> bs[0] == x % 256
  {
    if width == 0 then []
    else
      QuotientFits(x, width);
      [x % 256] + LittleEndian(x / 256, width - 1)
  }

  /** The unsigned integer whose little-endian encoding is bs. */
  function FromLittleEndian(bs: seq<Byte>): (x: nat)
    ensures x < Pow256(|bs|)
  {
    if bs == [] then 0
    else
      var rest := FromLittleEndian(bs[1..]);
      assert rest + 1 <= Pow256(|bs| - 1);
      assert 256 * (rest + 1) <= 256 * Pow256(|bs| - 1);
      bs[0] + 256 * rest
  }

  lemma QuotientFits(x: nat, width: nat)
    requires width > 0 && x < Pow256(width)
    ensures x / 256 < Pow256(width - 1)
  {
  }

  /** Decoding an encoded value gives it back. */
  lemma {:induction false} FromLittleEndianOfLittleEndian(x: nat, width: nat)
    requires x < Pow256(width)
    ensures FromLittleEndian(LittleEndian(x, width)) == x
  {
    if width > 0 {
      QuotientFits(x, width);
      var bs := LittleEndian(x, width);
      assert bs[1..] == LittleEndian(x / 256, width - 1);
      FromLittleEndianOfLittleEndian(x / 256, width - 1);
    }
  }

  /** Encoding a decoded value gives the bytes back: every byte string of the width is a valid encoding. */
  lemma {:induction false} LittleEndianOfFromLittleEndian(bs: seq<Byte>)
    ensures LittleEndian(FromLittleEndian(bs), |bs|) == bs
  {
    if bs != [] {
      var x := FromLittleEndian(bs);
      var rest := FromLittleEndian(bs[1..]);
      assert x % 256 == bs[0] && x / 256 == rest;
      LittleEndianOfFromLittleEndian(bs[1..]);
    }
  }
}
