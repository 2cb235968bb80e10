/**
  Bytes on the SPI bus and the two ways the decoders turn a run of bytes into a number:
  Python's `int.from_bytes(bs, byteorder='little')` and the shift-and-or loop
  `value = (value << 8) | b`, which reads its bytes most significant first.
  The bit masks the decoders apply to whole words are written out as arithmetic here.
*/
module Bytes {

  /** One octet transferred on MOSI or MISO. */
  type byte = b: int | 0 <= b < 256

  function Pow256(n: nat): (r: nat)
    ensures r >= 1
  {
    if n == 0 then 1 else 256 * Pow256(n - 1)
  }

  /** `int.from_bytes(bs, byteorder='little')`: the first byte is the least significant. */
  function LeValue(bs: seq<byte>): (r: nat)
    ensures r < Pow256(|bs|)
  {
    if bs == [] then 0 else bs[0] + 256 * LeValue(bs[1..])
  }

  /** The value the loop `value = (value << 8) | b` leaves after running over `bs`. Since `b < 256`,
      the `|` adds `b` to the shifted value. */
  function BeValue(bs: seq<byte>): (r: nat)
    ensures r < Pow256(|bs|)
  {
    if bs == [] then 0 else BeValue(bs[..|bs| - 1]) * 256 + bs[|bs| - 1]
  }

  /** Python's `s[::-1]` and `list.reverse()`. */
  function Reversed(s: seq<byte>): (r: seq<byte>)
    ensures |r| == |s|
    ensures forall i :: 0 <= i < |s| ==> r[i] == s[|s| - 1 - i]
  {
    if s == [] then [] else Reversed(s[1..]) + [s[0]]
  }

  /** The `n` little-endian bytes of `v`: the inverse of `LeValue` on words of a fixed width. */
  function LeBytes(v: nat, n: nat): (r: seq<byte>)
    requires v < Pow256(n)
    ensures |r| == n
    ensures LeValue(r) == v
  {
    if n == 0 then [] else [v % 256] + LeBytes(v / 256, n - 1)
  }

  /** Reversing the bytes and accumulating them most significant first reads them little-endian:
      the two decoders of the later chip generation compute `int.from_bytes(bs, 'little')` this way. */
  lemma {:induction false} BeValueOfReversed(s: seq<byte>)
    ensures BeValue(Reversed(s)) == LeValue(s)
  {
    if s != [] {
      var r := Reversed(s);
      assert r == Reversed(s[1..]) + [s[0]];
      assert r[..|r| - 1] == Reversed(s[1..]);
      BeValueOfReversed(s[1..]);
    }
  }

  /** A fixed-width little-endian reading loses nothing: the bytes come back from the value. */
  lemma {:induction false} LeBytesOfLeValue(bs: seq<byte>)
    ensures LeBytes(LeValue(bs), |bs|) == bs
  {
    if bs != [] {
      var v := LeValue(bs);
      assert v % 256 == bs[0] && v / 256 == LeValue(bs[1..]);
      LeBytesOfLeValue(bs[1..]);
    }
  }

  /** In a four-byte little-endian word the last byte is the most significant one. */
  lemma WordBytes(bs: seq<byte>)
    requires |bs| == 4
    ensures LeValue(bs) == bs[0] as int + 0x100 * bs[1] as int + 0x1_0000 * bs[2] as int + 0x100_0000 * bs[3] as int
    ensures LeValue(bs) / 0x100_0000 == bs[3]
    ensures LeValue(bs) % 0x100_0000 == LeValue(bs[..3])
  {
    var b0, b1, b2, b3 := bs[0] as int, bs[1] as int, bs[2] as int, bs[3] as int;
    assert bs[1..][1..][1..][1..] == [];
    assert LeValue(bs[1..][1..][1..]) == b3;
    assert LeValue(bs[1..][1..]) == b2 + 0x100 * b3;
    assert LeValue(bs[1..]) == b1 + 0x100 * b2 + 0x1_0000 * b3;
    var low := bs[..3];
    assert low[1..] == [bs[1], bs[2]] && low[1..][1..] == [bs[2]];
    assert low[1..][1..][1..] == [];
    var l := b0 + 0x100 * b1 + 0x1_0000 * b2;
    assert LeValue(low) == l;
    assert 0 <= l < 0x100_0000;
    assert LeValue(bs) == l + 0x100_0000 * b3;
  }

  /** Appending a byte below a number: the number is what remains after dropping the byte. */
  lemma ShiftIn(high: nat, b: byte)
    ensures (high * 0x100 + b) / 0x100 == high && (high * 0x100 + b) % 0x100 == b
  {
  }

  /** `v & 0xFF000000`. */
  function TopByteMask(v: nat): nat
  {
    v / 0x100_0000 % 0x100 * 0x100_0000
  }

  /** `v & 0x00FFFFFF`. */
  function Low24(v: nat): nat
  {
    v % 0x100_0000
  }

  /** `v & 0x3FFFFFFF`. */
  function Low30(v: nat): nat
  {
    v % 0x4000_0000
  }
}
