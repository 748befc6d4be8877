/** The packet format of an SMP stream, and what a byte stream means: the packets it starts with. */
module SmpPacket {
  import opened Bytes

  const HeaderSize: nat := 17

  datatype Header = Header(kind: byte, size: U32, timestamp: U64, transId: U32)

  type Payload = s: seq<byte> | |s| < 0x1_0000_0000

  datatype Packet = Packet(kind: byte, timestamp: U64, transId: U32, payload: Payload)

  function HeaderOf(p: Packet): Header {
    Header(p.kind, |p.payload|, p.timestamp, p.transId)
  }

  function HeaderBytes(h: Header): (s: seq<byte>)
    ensures |s| == HeaderSize
  {
    [h.kind] + BigEndian(4, h.size) + BigEndian(8, h.timestamp) + BigEndian(4, h.transId)
  }

  /** A packet on the wire. */
  function Framed(p: Packet): seq<byte> {
    HeaderBytes(HeaderOf(p)) + p.payload
  }

  function HeaderAt(s: seq<byte>): Header
    requires |s| >= HeaderSize
  {
    Powers();
    Header(s[0], Number(s[1..5]), Number(s[5..13]), Number(s[13..17]))
  }

  lemma HeaderRoundTrip(h: Header, rest: seq<byte>)
    ensures HeaderAt(HeaderBytes(h) + rest) == h
  {
    Powers();
    var s := HeaderBytes(h) + rest;
    assert s[1..5] == BigEndian(4, h.size);
    assert s[5..13] == BigEndian(8, h.timestamp);
    assert s[13..17] == BigEndian(4, h.transId);
    NumberOfBigEndian(4, h.size);
    NumberOfBigEndian(8, h.timestamp);
    NumberOfBigEndian(4, h.transId);
  }

  /** Every 17 bytes are a header. */
  lemma BytesOfHeader(s: seq<byte>)
    requires |s| >= HeaderSize
    ensures HeaderBytes(HeaderAt(s)) == s[..HeaderSize]
  {
    BigEndianOfNumber(s[1..5]);
    BigEndianOfNumber(s[5..13]);
    BigEndianOfNumber(s[13..17]);
  }

  /** The stream starts with a whole packet. */
  predicate Whole(s: seq<byte>) {
    |s| >= HeaderSize && |s| >= HeaderSize + HeaderAt(s).size
  }

  function First(s: seq<byte>): Packet
    requires Whole(s)
  {
    var h := HeaderAt(s);
    Packet(h.kind, h.timestamp, h.transId, s[HeaderSize..HeaderSize + h.size])
  }

  function AfterFirst(s: seq<byte>): (r: seq<byte>)
    requires Whole(s)
    ensures |r| < |s|
  {
    s[HeaderSize + HeaderAt(s).size..]
  }

  /** Reading the four fields at `at` is reading a header. */
  lemma HeaderFields(have: seq<byte>, at: nat, h: Header)
    requires at + HeaderSize <= |have| && h.kind == have[at]
    requires h.size == Number(have[at + 1..at + 5]) && h.timestamp == Number(have[at + 5..at + 13])
    requires h.transId == Number(have[at + 13..at + 17])
    ensures HeaderBytes(h) + have[at + HeaderSize..] == have[at..]
  {
    var s := have[at..];
    assert s[1..5] == have[at + 1..at + 5] && s[5..13] == have[at + 5..at + 13];
    assert s[13..17] == have[at + 13..at + 17];
    BytesOfHeader(s);
    assert s[HeaderSize..] == have[at + HeaderSize..];
  }

  /** A header followed by as many bytes as it announces. */
  lemma HeaderThenPayload(h: Header, rest: seq<byte>)
    ensures Whole(HeaderBytes(h) + rest) <==> |rest| >= h.size
    ensures |rest| >= h.size ==>
              && First(HeaderBytes(h) + rest) == Packet(h.kind, h.timestamp, h.transId, rest[..h.size])
              && AfterFirst(HeaderBytes(h) + rest) == rest[h.size..]
  {
    HeaderRoundTrip(h, rest);
  }

  /** The packets a stream starts with, and the bytes after them. */
  function Packets(s: seq<byte>): seq<Packet>
    decreases |s|
  {
    if Whole(s) then [First(s)] + Packets(AfterFirst(s)) else []
  }

  function Residue(s: seq<byte>): seq<byte>
    decreases |s|
  {
    if Whole(s) then Residue(AfterFirst(s)) else s
  }

  /** The wire image of a sequence of packets. */
  function Stream(ps: seq<Packet>): seq<byte> {
    if ps == [] then [] else Framed(ps[0]) + Stream(ps[1..])
  }

  lemma {:induction false} StreamAppend(ps: seq<Packet>, qs: seq<Packet>)
    ensures Stream(ps + qs) == Stream(ps) + Stream(qs)
  {
    if ps == [] {
      assert ps + qs == qs;
    } else {
      assert (ps + qs)[1..] == ps[1..] + qs;
      StreamAppend(ps[1..], qs);
    }
  }

  /** More bytes do not change a packet that is already whole. */
  lemma WholeAppend(s: seq<byte>, more: seq<byte>)
    requires Whole(s)
    ensures Whole(s + more) && First(s + more) == First(s)
    ensures AfterFirst(s + more) == AfterFirst(s) + more
  {
    var t := s + more;
    assert t[1..5] == s[1..5] && t[5..13] == s[5..13] && t[13..17] == s[13..17];
    var end := HeaderSize + HeaderAt(s).size;
    assert t[HeaderSize..end] == s[HeaderSize..end];
    assert t[end..] == s[end..] + more;
  }

  /** Chunk independence: the packets of a stream are those of its first part, then those of what
      is left of it with the second part. */
  lemma {:induction false} PacketsAppend(s: seq<byte>, more: seq<byte>)
    ensures Packets(s + more) == Packets(s) + Packets(Residue(s) + more)
    ensures Residue(s + more) == Residue(Residue(s) + more)
    decreases |s|
  {
    if Whole(s) {
      WholeAppend(s, more);
      PacketsAppend(AfterFirst(s), more);
    }
  }

  lemma FramedWhole(p: Packet, rest: seq<byte>)
    ensures Whole(Framed(p) + rest)
    ensures First(Framed(p) + rest) == p && AfterFirst(Framed(p) + rest) == rest
  {
    var s := Framed(p) + rest;
    assert s == HeaderBytes(HeaderOf(p)) + (p.payload + rest);
    HeaderRoundTrip(HeaderOf(p), p.payload + rest);
  }

  lemma PacketsOfFramed(p: Packet, rest: seq<byte>)
    ensures Packets(Framed(p) + rest) == [p] + Packets(rest)
    ensures Residue(Framed(p) + rest) == Residue(rest)
  {
    FramedWhole(p, rest);
  }

  /** Round trip: the packets of a wire image are the packets sent. */
  lemma {:induction false} PacketsOfStream(ps: seq<Packet>)
    ensures Packets(Stream(ps)) == ps && Residue(Stream(ps)) == []
    decreases |ps|
  {
    if ps != [] {
      PacketsOfFramed(ps[0], Stream(ps[1..]));
      PacketsOfStream(ps[1..]);
    }
  }

  /** Re-framing what was parsed gives the stream back: nothing is lost or made up. */
  lemma {:induction false} StreamOfPackets(s: seq<byte>)
    ensures Stream(Packets(s)) + Residue(s) == s
    ensures !Whole(Residue(s))
    decreases |s|
  {
    if Whole(s) {
      var h := HeaderAt(s);
      BytesOfHeader(s);
      assert HeaderOf(First(s)) == h;
      assert Framed(First(s)) + AfterFirst(s) == s;
      StreamOfPackets(AfterFirst(s));
      var ps := Packets(s);
      assert ps[1..] == Packets(AfterFirst(s));
      assert Stream(ps) + Residue(s) == Framed(ps[0]) + (Stream(ps[1..]) + Residue(s));
    }
  }

  /** Some of the bytes of `p`, but not all. */
  predicate Begins(s: seq<byte>, p: Packet) {
    s <= Framed(p) && s != Framed(p)
  }

  /** Whatever part of the wire image has arrived, the packets in it are the first ones sent, and
      the bytes after them are a proper beginning of the next. */
  lemma {:induction false} PrefixDelivers(ps: seq<Packet>, arrived: seq<byte>)
    requires arrived <= Stream(ps)
    ensures Packets(arrived) <= ps
    ensures Packets(arrived) != ps ==> Begins(Residue(arrived), ps[|Packets(arrived)|])
    decreases |ps|
  {
    if ps == [] {
      assert arrived == [];
    } else if |arrived| >= |Framed(ps[0])| {
      var rest := arrived[|Framed(ps[0])|..];
      assert arrived == Framed(ps[0]) + rest;
      assert rest <= Stream(ps[1..]);
      PacketsOfFramed(ps[0], rest);
      PrefixDelivers(ps[1..], rest);
      assert ps == [ps[0]] + ps[1..];
    } else {
      ShortIsNotWhole(ps[0], arrived);
    }
  }

  lemma ShortIsNotWhole(p: Packet, s: seq<byte>)
    requires Begins(s, p)
    ensures !Whole(s)
  {
    if Whole(s) {
      var more := Framed(p)[|s|..];
      assert |more| > 0 && s + more == Framed(p) && Framed(p) + [] == Framed(p);
      WholeAppend(s, more);
      FramedWhole(p, []);
    }
  }

  function Joined(chunks: seq<seq<byte>>): seq<byte> {
    if chunks == [] then [] else chunks[0] + Joined(chunks[1..])
  }

  /** The packets reported when a parser that has kept `raw` is fed one chunk after the other, and
      what it keeps in the end. */
  function Fed(raw: seq<byte>, chunks: seq<seq<byte>>): (seq<Packet>, seq<byte>)
    decreases |chunks|
  {
    if chunks == [] then ([], raw)
    else
      var rest := Fed(Residue(raw + chunks[0]), chunks[1..]);
      (Packets(raw + chunks[0]) + rest.0, rest.1)
  }

  /** However a stream is split, the parser reports the same packets and keeps the same bytes. */
  lemma {:induction false} AnySplit(raw: seq<byte>, chunks: seq<seq<byte>>)
    requires !Whole(raw)
    ensures Fed(raw, chunks) == (Packets(raw + Joined(chunks)), Residue(raw + Joined(chunks)))
    decreases |chunks|
  {
    if chunks == [] {
      assert raw + Joined(chunks) == raw;
    } else {
      var s, more := raw + chunks[0], Joined(chunks[1..]);
      assert s + more == raw + Joined(chunks);
      StreamOfPackets(s);
      AnySplit(Residue(s), chunks[1..]);
      PacketsAppend(s, more);
    }
  }
}
