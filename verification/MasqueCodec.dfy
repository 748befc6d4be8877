/** The MASQUE codec: variable-length integers (RFC 9000, section 16), HTTP datagrams (RFC 9297,
    section 2.1) and the CONNECT-UDP path (RFC 9298). */
module MasqueCodec {
  import opened Wrappers
  import opened Bytes

  const TwoTo62: int := 0x4000_0000_0000_0000

  // ----- variable-length integers ------------------------------------------------------------

  function VarintLen(v: U64): (n: nat)
    ensures n == 1 || n == 2 || n == 4 || n == 8
  {
    if v <= 0x3F then 1 else if v <= 0x3FFF then 2 else if v <= 0x3FFF_FFFF then 4 else 8
  }

  /** The two high bits that announce a length. */
  function Tag(n: nat): nat
    requires n == 1 || n == 2 || n == 4 || n == 8
  {
    if n == 1 then 0 else if n == 2 then 1 else if n == 4 then 2 else 3
  }

  /** The length that a first byte announces. */
  function Announced(b: byte): (n: nat)
    ensures n == 1 || n == 2 || n == 4 || n == 8
    ensures Tag(n) == b / 64
  {
    if b < 64 then 1 else if b < 128 then 2 else if b < 192 then 4 else 8
  }

  /** The value in network order, its two high bits replaced by the tag. */
  function Varint(v: U64): (s: seq<byte>)
    ensures |s| == VarintLen(v)
  {
    var n := VarintLen(v);
    var s := BigEndian(n, v);
    s[0 := Tag(n) * 64 + s[0] % 64]
  }

  /** How many bytes the integer at the front takes, and its value. */
  function DecodeVarint(s: seq<byte>): Option<(nat, nat)> {
    if s == [] || |s| < Announced(s[0]) then None
    else
      var n := Announced(s[0]);
      Some((n, Number([s[0] % 64] + s[1..n])))
  }

  lemma Times256(b: int, p: int)
    ensures b * (256 * p) == b * p * 256
  {
  }

  lemma {:induction false} NumberCons(b: byte, s: seq<byte>)
    ensures Number([b] + s) == b * Power256(|s|) + Number(s)
  {
    var all := [b] + s;
    if s == [] {
      assert all[..0] == [];
    } else {
      var init := s[..|s| - 1];
      assert all[..|all| - 1] == [b] + init;
      NumberCons(b, init);
      Times256(b, Power256(|init|));
      assert Power256(|s|) == 256 * Power256(|init|);
    }
  }

  /** The most values that fit beside the tag. */
  function Room(n: nat): nat
    requires n == 1 || n == 2 || n == 4 || n == 8
  {
    if n == 1 then 0x40 else if n == 2 then 0x4000 else if n == 4 then 0x4000_0000 else TwoTo62
  }

  lemma RoomIs(n: nat)
    requires n == 1 || n == 2 || n == 4 || n == 8
    ensures Room(n) == 64 * Power256(n - 1) && Power256(n) == 4 * Room(n)
  {
    Powers();
    assert Power256(7) * 256 == Power256(8);
  }

  lemma SmallMultiple(d: int, m: int)
    requires -m < d * m < m
    ensures d == 0
  {
    if d >= 1 {
      MultipleGrows(d, m);
    } else if d <= -1 {
      MultipleGrows(-d, m);
    }
  }

  lemma MultipleGrows(d: int, m: int)
    requires d >= 1 && m >= 0
    ensures d * m >= m
  {
    assert (d - 1) * m >= 0;
  }

  lemma Remainder(k: int, m: int, low: int)
    requires 0 <= low < m
    ensures (k * m + low) % m == low
  {
    var x := k * m + low;
    var d := x / m - k;
    assert x == x / m * m + x % m;
    assert d * m == low - x % m;
    SmallMultiple(d, m);
  }

  lemma Distribute(h: int, r: int, p: int)
    ensures (h * 64 + r) * p == h * (64 * p) + r * p
  {
  }

  lemma TopBits(b: nat, p: nat, low: nat)
    requires low < p
    ensures (b * p + low) % (64 * p) == b % 64 * p + low
  {
    HighAndLow(b / 64, b % 64, p, low);
    assert b == b / 64 * 64 + b % 64;
  }

  lemma HighAndLow(h: nat, r: nat, p: nat, low: nat)
    requires r < 64 && low < p
    ensures ((h * 64 + r) * p + low) % (64 * p) == r * p + low
  {
    Distribute(h, r, p);
    MultipleGrows(64 - r, p);
    assert (64 - r) * p == 64 * p - r * p;
    Remainder(h, 64 * p, r * p + low);
  }

  /** Dropping the two high bits of a number is taking it modulo the room beside them. */
  lemma DropTag(b: byte, rest: seq<byte>)
    requires |rest| == 0 || |rest| == 1 || |rest| == 3 || |rest| == 7
    ensures Number([b % 64] + rest) == Number([b] + rest) % Room(|rest| + 1)
  {
    var p, low := Power256(|rest|), Number(rest);
    NumberCons(b, rest);
    NumberCons(b % 64, rest);
    TopBits(b, p, low);
    RoomIs(|rest| + 1);
  }

  lemma WithoutTag(s: seq<byte>, v: U64)
    requires |s| == VarintLen(v) && Number(s) == v
    ensures Number([s[0] % 64] + s[1..]) == v % TwoTo62
  {
    assert [s[0]] + s[1..] == s;
    DropTag(s[0], s[1..]);
    RoomEnough(v);
  }

  lemma RoomEnough(v: U64)
    ensures v % Room(VarintLen(v)) == v % TwoTo62
  {
  }

  lemma DecodeTagged(s: seq<byte>, rest: seq<byte>)
    requires |s| == 1 || |s| == 2 || |s| == 4 || |s| == 8
    ensures DecodeVarint(s[0 := Tag(|s|) * 64 + s[0] % 64] + rest) ==
            Some((|s|, Number([s[0] % 64] + s[1..])))
  {
    var wire := s[0 := Tag(|s|) * 64 + s[0] % 64] + rest;
    assert wire[0] == Tag(|s|) * 64 + s[0] % 64;
    assert wire[1..|s|] == s[1..];
  }

  /** Decoding gives every 64-bit value back modulo 2 to the power 62, whatever follows it. */
  lemma VarintRoundTrip(v: U64, rest: seq<byte>)
    ensures DecodeVarint(Varint(v) + rest) == Some((VarintLen(v), v % TwoTo62))
  {
    var s := BigEndian(VarintLen(v), v);
    NumberFits(v);
    DecodeTagged(s, rest);
    WithoutTag(s, v);
  }

  lemma NumberFits(v: U64)
    ensures Number(BigEndian(VarintLen(v), v)) == v
  {
    RoomIs(VarintLen(v));
    NumberOfBigEndian(VarintLen(v), v);
  }

  /** The length used is the shortest that can stand for the value. */
  lemma VarintShortest(s: seq<byte>)
    requires DecodeVarint(s).Some?
    ensures var (n, v) := DecodeVarint(s).value;
            v < TwoTo62 && VarintLen(v) <= n <= |s|
  {
    var n := Announced(s[0]);
    DropTag(s[0], s[1..n]);
  }

  /** Encoding a decoded value again reproduces its bytes exactly if they were of shortest form. */
  lemma VarintReencode(s: seq<byte>)
    requires DecodeVarint(s).Some?
    ensures var (n, v) := DecodeVarint(s).value;
            v < TwoTo62 && n <= |s| && (Varint(v) == s[..n] <==> n == VarintLen(v))
  {
    VarintShortest(s);
    var (n, v) := DecodeVarint(s).value;
    if n == VarintLen(v) {
      TagAgain(s[0], s[1..n], v);
      assert [s[0]] + s[1..n] == s[..n];
    }
  }

  lemma TagAgain(b: byte, rest: seq<byte>, v: U64)
    requires |rest| + 1 == VarintLen(v) == Announced(b) && v == Number([b % 64] + rest)
    ensures Varint(v) == [b] + rest
  {
    BigEndianOfNumber([b % 64] + rest);
  }

  method Put1(out: array<byte>, at: nat, v: U64)
    requires at + 1 <= out.Length && VarintLen(v) == 1
    modifies out
    ensures out[..] == old(out[..at]) + Varint(v) + old(out[at + 1..])
  {
    out[at] := v % 0x100;
    assert BigEndian(1, v) == [v % 0x100];
    assert out[..] == out[..at] + out[at..at + 1] + out[at + 1..];
  }

  method Put2(out: array<byte>, at: nat, v: U64)
    requires at + 2 <= out.Length && VarintLen(v) == 2
    modifies out
    ensures out[..] == old(out[..at]) + Varint(v) + old(out[at + 2..])
  {
    ByteOf(2, v, 0);
    ByteOf(2, v, 1);
    out[at] := 0x40 + v / 0x100 % 64;
    out[at + 1] := v % 0x100;
    assert out[at..at + 2] == Varint(v);
    assert out[..] == out[..at] + out[at..at + 2] + out[at + 2..];
  }

  lemma FourBytes(v: U64, s: seq<byte>)
    requires VarintLen(v) == 4 && |s| == 4
    requires s[0] == 0x80 + v / 0x100_0000 % 64
    requires forall i | 1 <= i < 4 :: s[i] == ByteAt(4, v, i)
    ensures s == Varint(v)
  {
    forall i | 0 <= i < 4 ensures BigEndian(4, v)[i] == ByteAt(4, v, i) { ByteOf(4, v, i); }
  }

  method Put4(out: array<byte>, at: nat, v: U64)
    requires at + 4 <= out.Length && VarintLen(v) == 4
    modifies out
    ensures out[..] == old(out[..at]) + Varint(v) + old(out[at + 4..])
  {
    out[at] := 0x80 + v / 0x100_0000 % 64;
    out[at + 1] := v / 0x1_0000 % 0x100;
    out[at + 2] := v / 0x100 % 0x100;
    out[at + 3] := v % 0x100;
    FourBytes(v, out[at..at + 4]);
    assert out[..] == out[..at] + out[at..at + 4] + out[at + 4..];
  }

  lemma EightBytes(v: U64, s: seq<byte>)
    requires VarintLen(v) == 8 && |s| == 8
    requires s[0] == 0xC0 + v / 0x100_0000_0000_0000 % 64
    requires forall i | 1 <= i < 8 :: s[i] == ByteAt(8, v, i)
    ensures s == Varint(v)
  {
    forall i | 0 <= i < 8 ensures BigEndian(8, v)[i] == ByteAt(8, v, i) { ByteOf(8, v, i); }
  }

  method Put8(out: array<byte>, at: nat, v: U64)
    requires at + 8 <= out.Length && VarintLen(v) == 8
    modifies out
    ensures out[..] == old(out[..at]) + Varint(v) + old(out[at + 8..])
  {
    out[at] := 0xC0 + v / 0x100_0000_0000_0000 % 64;
    out[at + 1] := v / 0x1_0000_0000_0000 % 0x100;
    out[at + 2] := v / 0x100_0000_0000 % 0x100;
    out[at + 3] := v / 0x1_0000_0000 % 0x100;
    out[at + 4] := v / 0x100_0000 % 0x100;
    out[at + 5] := v / 0x1_0000 % 0x100;
    out[at + 6] := v / 0x100 % 0x100;
    out[at + 7] := v % 0x100;
    EightBytes(v, out[at..at + 8]);
    assert out[..] == out[..at] + out[at..at + 8] + out[at + 8..];
  }

  /** `VarintEncode` into part of a buffer. */
  method VarintEncode(out: array<byte>, at: nat, cap: nat, v: U64) returns (n: nat)
    requires at + cap <= out.Length
    modifies out
    ensures n == if cap < VarintLen(v) then 0 else VarintLen(v)
    ensures n == 0 ==> out[..] == old(out[..])
    ensures n > 0 ==> out[..] == old(out[..at]) + Varint(v) + old(out[at + n..])
  {
    n := VarintLen(v);
    if cap < n {
      return 0;
    }
    if n == 1 {
      Put1(out, at, v);
    } else if n == 2 {
      Put2(out, at, v);
    } else if n == 4 {
      Put4(out, at, v);
    } else {
      Put8(out, at, v);
    }
  }

  /** Byte `i` of an `n`-byte number, as a shift computes it. */
  function ByteAt(n: nat, v: nat, i: nat): nat
    requires i < n <= 8
  {
    var k := n - 1 - i;
    if k == 0 then v % 0x100
    else if k == 1 then v / 0x100 % 0x100
    else if k == 2 then v / 0x1_0000 % 0x100
    else if k == 3 then v / 0x100_0000 % 0x100
    else if k == 4 then v / 0x1_0000_0000 % 0x100
    else if k == 5 then v / 0x100_0000_0000 % 0x100
    else if k == 6 then v / 0x1_0000_0000_0000 % 0x100
    else v / 0x100_0000_0000_0000 % 0x100
  }

  lemma {:induction false} ByteOf(n: nat, v: nat, i: nat)
    requires i < n <= 8
    ensures BigEndian(n, v)[i] == ByteAt(n, v, i)
    decreases n
  {
    if i < n - 1 {
      ByteOf(n - 1, v / 256, i);
      ShiftOnce(v, n - 2 - i);
    }
  }

  /** Shifting by one byte and then by `k` is shifting by `k + 1`. */
  lemma ShiftOnce(v: nat, k: nat)
    requires k < 7
    ensures ByteAt(8, v / 256, 7 - k) == ByteAt(8, v, 6 - k)
  {
  }

  /** `VarintDecode`: 0 when there is nothing or not enough. */
  method VarintDecode(s: seq<byte>) returns (n: nat, v: U64)
    ensures match DecodeVarint(s)
            case None => n == 0
            case Some((size, value)) => n == size && v == value
  {
    if |s| < 1 {
      return 0, 0;
    }
    n := Announced(s[0]);
    if |s| < n {
      return 0, 0;
    }
    var value: nat := s[0] % 64;
    assert [s[0] % 64] + s[1..1] == [s[0] % 64];
    for i := 1 to n
      invariant value == Number([s[0] % 64] + s[1..i])
    {
      assert ([s[0] % 64] + s[1..i + 1])[..i] == [s[0] % 64] + s[1..i];
      value := value * 256 + s[i] as int;
    }
    VarintShortest(s);
    v := value;
  }

  // ----- datagrams ---------------------------------------------------------------------------

  const UdpContextId: U64 := 0

  /** A UDP payload as an HTTP datagram of a CONNECT-UDP stream. */
  function Datagram(qsid: U64, payload: seq<byte>): seq<byte> {
    Varint(qsid) + Varint(UdpContextId) + payload
  }

  datatype Decoded = Decoded(qsid: nat, context: nat, payload: seq<byte>)

  function DecodedDatagram(d: seq<byte>): Option<Decoded> {
    match DecodeVarint(d)
    case None => None
    case Some((n, qsid)) =>
      if n > |d| then None
      else
        match DecodeVarint(d[n..])
        case None => None
        case Some((m, context)) => if n + m > |d| then None else Some(Decoded(qsid, context, d[n + m..]))
  }

  function DatagramOverhead(qsid: U64): nat {
    VarintLen(qsid) + VarintLen(UdpContextId)
  }

  method EncodeDatagram(qsid: U64, payload: seq<byte>) returns (ok: bool, out: array<byte>)
    ensures fresh(out) && ok && out[..] == Datagram(qsid, payload)
    ensures out.Length == DatagramOverhead(qsid) + |payload|
  {
    var overhead := DatagramOverhead(qsid);
    out := new byte[overhead + |payload|];
    var n, m := EncodeOverhead(out, qsid);
    if n == 0 {
      return false, out;
    }
    if m == 0 {
      return false, out;
    }
    ghost var front := out[..n + m];
    forall i | 0 <= i < |payload| { out[n + m + i] := payload[i]; }
    assert out[..n + m] == front && out[n + m..] == payload;
    assert out[..] == out[..n + m] + out[n + m..];
    ok := true;
  }

  /** The two integers in front of the payload. */
  method EncodeOverhead(out: array<byte>, qsid: U64) returns (n: nat, m: nat)
    requires DatagramOverhead(qsid) <= out.Length
    modifies out
    ensures n == VarintLen(qsid) && m == VarintLen(UdpContextId)
    ensures out[..n + m] == Varint(qsid) + Varint(UdpContextId)
  {
    n := VarintEncode(out, 0, DatagramOverhead(qsid), qsid);
    assert out[..n] == Varint(qsid);
    m := VarintEncode(out, n, DatagramOverhead(qsid) - n, UdpContextId);
    assert out[n..n + m] == Varint(UdpContextId);
    assert out[..n + m] == out[..n] + out[n..n + m];
  }

  method DecodeDatagram(d: seq<byte>) returns (r: Option<Decoded>)
    ensures r == DecodedDatagram(d)
  {
    var n, qsid := VarintDecode(d);
    if n == 0 {
      return None;
    }
    VarintShortest(d);
    var m, context := VarintDecode(d[n..]);
    if m == 0 {
      return None;
    }
    VarintShortest(d[n..]);
    assert d[n..][m..] == d[n + m..];
    r := Some(Decoded(qsid, context, d[n + m..]));
  }

  /** Decoding inverts encoding, for stream ids below 2 to the power 62 exactly. */
  lemma DatagramRoundTrip(qsid: U64, payload: seq<byte>)
    ensures DecodedDatagram(Datagram(qsid, payload)) == Some(Decoded(qsid % TwoTo62, 0, payload))
  {
    var n := VarintLen(qsid);
    var d := Datagram(qsid, payload);
    assert d == Varint(qsid) + (Varint(UdpContextId) + payload);
    VarintRoundTrip(qsid, Varint(UdpContextId) + payload);
    assert d[n..] == Varint(UdpContextId) + payload;
    VarintRoundTrip(UdpContextId, payload);
    assert d[n + 1..] == payload;
  }

  /** A decoded datagram is made of its two integers and its payload. */
  lemma DatagramParts(d: seq<byte>)
    requires DecodedDatagram(d).Some?
    ensures var x := DecodedDatagram(d).value;
            && DecodeVarint(d).Some? && x.qsid == DecodeVarint(d).value.1
            && var n := DecodeVarint(d).value.0;
            && n <= |d| && DecodeVarint(d[n..]).Some? && x.context == DecodeVarint(d[n..]).value.1
            && var m := DecodeVarint(d[n..]).value.0;
            && n + m <= |d| && d == d[..n] + d[n..][..m] + x.payload
  {
  }

  /** A datagram that equals its own re-encoding has shortest integers and the context of UDP. */
  lemma ReencodedForm(qsid: U64, payload: seq<byte>, d: seq<byte>)
    requires Datagram(qsid, payload) == d
    ensures DecodeVarint(d) == Some((VarintLen(qsid), qsid % TwoTo62))
    ensures VarintLen(qsid) <= |d| && DecodeVarint(d[VarintLen(qsid)..]) == Some((1, 0))
  {
    var tail := Varint(UdpContextId) + payload;
    assert d == Varint(qsid) + tail;
    VarintRoundTrip(qsid, tail);
    assert d[VarintLen(qsid)..] == tail;
    VarintRoundTrip(UdpContextId, payload);
  }

  /** Encoding a decoded datagram again gives its bytes back exactly when both integers were of
      shortest form and the context was that of UDP. */
  lemma DatagramReencode(d: seq<byte>)
    requires DecodedDatagram(d).Some?
    ensures var x := DecodedDatagram(d).value;
            var n := DecodeVarint(d).value.0;
            && x.qsid < TwoTo62 && n <= |d|
            && (Datagram(x.qsid, x.payload) == d <==>
                  x.context == 0 && n == VarintLen(x.qsid) && DecodeVarint(d[n..]).value.0 == 1)
  {
    DatagramParts(d);
    var x := DecodedDatagram(d).value;
    var n := DecodeVarint(d).value.0;
    VarintReencode(d);
    VarintReencode(d[n..]);
    if Datagram(x.qsid, x.payload) == d {
      ReencodedForm(x.qsid, x.payload, d);
    }
  }

  // ----- the packet size of the inner connection ---------------------------------------------

  const SafetyMargin: nat := 64

  /** `MasqueDatagramMss` of a tunnel with an HTTP/3 connection. */
  function DatagramMss(mss: nat, qsid: U64): nat {
    var overhead := DatagramOverhead(qsid);
    if mss <= overhead + SafetyMargin then 0 else mss - overhead - SafetyMargin
  }

  /** A payload fits exactly as long as its datagram leaves the safety margin free. */
  lemma FitsMss(mss: nat, qsid: U64, payload: seq<byte>)
    requires payload != []
    ensures |payload| <= DatagramMss(mss, qsid) <==> |Datagram(qsid, payload)| + SafetyMargin <= mss
  {
  }
}
