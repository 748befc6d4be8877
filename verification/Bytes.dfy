/** Bytes and big-endian numbers. */
module Bytes {
  type byte = b: int | 0 <= b < 256
  type U16 = x: int | 0 <= x < 0x1_0000
  type U32 = x: int | 0 <= x < 0x1_0000_0000
  type U64 = x: int | 0 <= x < 0x1_0000_0000_0000_0000

  /** 256 to the power `n`. */
  function Power256(n: nat): (p: nat)
    ensures p > 0
  {
    if n == 0 then 1 else 256 * Power256(n - 1)
  }

  /** The last `n` bytes of `x`, most significant first. */
  function BigEndian(n: nat, x: nat): (s: seq<byte>)
    ensures |s| == n
  {
    if n == 0 then [] else BigEndian(n - 1, x / 256) + [x % 256]
  }

  function Number(s: seq<byte>): (x: nat)
    ensures x < Power256(|s|)
  {
    if s == [] then 0 else Number(s[..|s| - 1]) * 256 + s[|s| - 1]
  }

  lemma {:induction false} NumberOfBigEndian(n: nat, x: nat)
    requires x < Power256(n)
    ensures Number(BigEndian(n, x)) == x
  {
    if n > 0 {
      var s := BigEndian(n, x);
      assert s[..n - 1] == BigEndian(n - 1, x / 256);
      NumberOfBigEndian(n - 1, x / 256);
    }
  }

  lemma {:induction false} BigEndianOfNumber(s: seq<byte>)
    ensures BigEndian(|s|, Number(s)) == s
  {
    if s != [] {
      BigEndianOfNumber(s[..|s| - 1]);
    }
  }

  lemma Powers()
    ensures Power256(1) == 0x100 && Power256(2) == 0x1_0000 && Power256(4) == 0x1_0000_0000
    ensures Power256(8) == 0x1_0000_0000_0000_0000
  {
    assert Power256(3) == 0x100_0000 && Power256(4) == 0x1_0000_0000;
    assert Power256(5) == 0x100_0000_0000 && Power256(6) == 0x1_0000_0000_0000;
  }

  lemma NumberOf2(s: seq<byte>)
    requires |s| == 2
    ensures Number(s) == (s[0] as int) * 0x100 + s[1]
  {
    assert Number(s[..1]) == s[0] by { assert s[..1][..0] == []; }
  }

  lemma NumberOf4(s: seq<byte>)
    requires |s| == 4
    ensures Number(s) == (s[0] as int) * 0x100_0000 + (s[1] as int) * 0x1_0000 + (s[2] as int) * 0x100 + s[3]
  {
    NumberOf2(s[..2]);
    assert s[..3][..2] == s[..2];
    assert Number(s[..3]) == Number(s[..2]) * 256 + s[2];
  }

  lemma NumberOf8(s: seq<byte>)
    requires |s| == 8
    ensures Number(s) ==
            (s[0] as int) * 0x100_0000_0000_0000 + (s[1] as int) * 0x1_0000_0000_0000
            + (s[2] as int) * 0x100_0000_0000 + (s[3] as int) * 0x1_0000_0000
            + (s[4] as int) * 0x100_0000 + (s[5] as int) * 0x1_0000 + (s[6] as int) * 0x100 + s[7]
  {
    NumberOf4(s[..4]);
    assert s[..5][..4] == s[..4];
    assert Number(s[..5]) == Number(s[..4]) * 256 + s[4];
    assert s[..6][..5] == s[..5];
    assert Number(s[..6]) == Number(s[..5]) * 256 + s[5];
    assert s[..7][..6] == s[..6];
    assert Number(s[..7]) == Number(s[..6]) * 256 + s[6];
  }
}
