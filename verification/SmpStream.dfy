/** `SMPStream`: the send queue in front of a transport that may take part of what it is offered. */
module SmpStream {
  import opened Bytes
  import opened SmpPacket

  /** A packet of the send queue: its bytes that the transport has not taken, and the length of
      the original data, which is what the sender is told when it is sent. */
  datatype Entry = Entry(pkt: Packet, length: nat, left: seq<byte>)

  datatype Queued = Queued(pkt: Packet, length: nat)
  datatype Sent = Sent(transId: U32, length: nat)

  /** What the transport was offered and how it answered. */
  datatype Offer = Offer(data: seq<byte>, answer: int)

  /** Zero, an error, or more than was offered: nothing was taken. */
  predicate Refused(o: Offer) {
    !(0 < o.answer <= |o.data|)
  }

  function Taken(o: Offer): seq<byte> {
    if Refused(o) then [] else o.data[..o.answer]
  }

  /** The bytes that the transport has taken. */
  function Wire(offers: seq<Offer>): seq<byte> {
    if offers == [] then [] else Wire(offers[..|offers| - 1]) + Taken(offers[|offers| - 1])
  }

  lemma WireMore(offers: seq<Offer>, o: Offer)
    ensures Wire(offers + [o]) == Wire(offers) + Taken(o)
  {
    assert (offers + [o])[..|offers|] == offers;
  }

  function Pkts(qs: seq<Queued>): (ps: seq<Packet>)
    ensures |ps| == |qs|
  {
    seq(|qs|, i requires 0 <= i < |qs| => qs[i].pkt)
  }

  function Notices(qs: seq<Queued>): (ns: seq<Sent>)
    ensures |ns| == |qs|
  {
    seq(|qs|, i requires 0 <= i < |qs| => Sent(qs[i].pkt.transId, qs[i].length))
  }

  /** `SMPParser::PackPacket`. */
  method PackPacket(p: Packet) returns (out: seq<byte>)
    ensures out == Framed(p)
  {
    out := [p.kind];
    out := out + BigEndian(4, |p.payload|);
    out := out + BigEndian(8, p.timestamp);
    out := out + BigEndian(4, p.transId);
    out := out + p.payload;
  }

  /** The first packet of the queue may be partly or wholly taken, the others are untouched: the
      wire and what is left of the first packet make up the packets so far. */
  ghost predicate QueueOk(queued: seq<Queued>, sent: seq<Sent>, list: seq<Entry>, wire: seq<byte>) {
    && |sent| + |list| == |queued|
    && sent == Notices(queued[..|sent|])
    && (forall i | 0 <= i < |list| :: Queued(list[i].pkt, list[i].length) == queued[|sent| + i])
    && (forall i | 1 <= i < |list| :: list[i].left == Framed(list[i].pkt))
    && Complete(queued[..|sent|], list, wire)
  }

  ghost predicate Complete(done: seq<Queued>, list: seq<Entry>, wire: seq<byte>) {
    && (list == [] ==> wire == Stream(Pkts(done)))
    && (list != [] ==>
          && |list[0].left| <= |Framed(list[0].pkt)|
          && wire + list[0].left == Stream(Pkts(done)) + Framed(list[0].pkt))
  }

  lemma StreamPush(qs: seq<Queued>, q: Queued)
    ensures Stream(Pkts(qs + [q])) == Stream(Pkts(qs)) + Framed(q.pkt)
  {
    assert Pkts(qs + [q]) == Pkts(qs) + [q.pkt];
    StreamAppend(Pkts(qs), [q.pkt]);
    assert Stream([q.pkt]) == Framed(q.pkt);
  }

  lemma QueuePush(queued: seq<Queued>, sent: seq<Sent>, list: seq<Entry>, wire: seq<byte>, q: Queued)
    requires QueueOk(queued, sent, list, wire)
    ensures QueueOk(queued + [q], sent, list + [Entry(q.pkt, q.length, Framed(q.pkt))], wire)
  {
    assert (queued + [q])[..|sent|] == queued[..|sent|];
    StreamPush(queued[..|sent|], q);
  }

  lemma QueueForward(queued: seq<Queued>, sent: seq<Sent>, list: seq<Entry>, wire: seq<byte>, n: nat)
    requires QueueOk(queued, sent, list, wire) && list != [] && n <= |list[0].left|
    ensures var e := list[0];
            QueueOk(queued, sent, list[0 := e.(left := e.left[n..])], wire + e.left[..n])
  {
    var left := list[0].left;
    assert wire + left[..n] + left[n..] == wire + left;
  }

  /** An offer of the next `n` bytes and its answer. */
  lemma SendStep(queued: seq<Queued>, sent: seq<Sent>, list: seq<Entry>, offers: seq<Offer>, n: nat, answer: int)
    requires QueueOk(queued, sent, list, Wire(offers)) && list != [] && n <= |list[0].left|
    ensures var e, o := list[0], Offer(list[0].left[..n], answer);
            && Wire(offers + [o]) == Wire(offers) + Taken(o)
            && QueueOk(queued, sent, if Refused(o) then list else list[0 := e.(left := e.left[answer..])],
                       Wire(offers + [o]))
  {
    var o := Offer(list[0].left[..n], answer);
    WireMore(offers, o);
    if !Refused(o) {
      QueueForward(queued, sent, list, Wire(offers), answer);
      assert list[0].left[..n][..answer] == list[0].left[..answer];
    } else {
      assert Wire(offers) + [] == Wire(offers);
    }
  }

  lemma QueuePop(queued: seq<Queued>, sent: seq<Sent>, list: seq<Entry>, wire: seq<byte>)
    requires QueueOk(queued, sent, list, wire) && list != [] && list[0].left == []
    ensures QueueOk(queued, sent + [Sent(list[0].pkt.transId, list[0].length)], list[1..], wire)
  {
    var done := queued[..|sent|];
    var q := queued[|sent|];
    assert Queued(list[0].pkt, list[0].length) == q;
    assert queued[..|sent| + 1] == done + [q];
    StreamPush(done, q);
    assert wire + list[0].left == wire;
    assert Notices(done + [q]) == Notices(done) + [Sent(q.pkt.transId, q.length)];
    forall i | 0 <= i < |list[1..]|
      ensures Queued(list[1..][i].pkt, list[1..][i].length) == queued[|sent| + 1 + i]
    {
      assert list[1..][i] == list[i + 1];
    }
    assert Complete(done + [q], list[1..], wire) by {
      if |list| > 1 {
        assert list[1..][0].left == Framed(list[1..][0].pkt);
      }
    }
  }

  /** The last offer was made after the first `before` ones, was refused, and is a block at the
      beginning of what is left. */
  predicate StuckAt(before: nat, offers: seq<Offer>, left: seq<byte>) {
    && |offers| > before
    && (var last := offers[|offers| - 1];
        Refused(last) && last.data != [] && last.data <= left)
  }

  class SMPStream {
    var sendList: seq<Entry>
    var offers: seq<Offer>
    /** The calls of `OnStreamDataSent`. */
    var sent: seq<Sent>
    /** Every packet ever queued. */
    ghost var queued: seq<Queued>

    ghost predicate Sending()
      reads this
    {
      QueueOk(queued, sent, sendList, Wire(offers))
    }

    ghost predicate Valid()
      reads this
    {
      Sending() && (sendList != [] ==> sendList[0].left != [])
    }

    /** The queue has been pushed out since the first `before` offers: all of it is on the wire, or
        the transport has refused a block, which is the next to be offered. */
    ghost predicate Pushed(before: nat)
      reads this
    {
      if sendList == [] then Wire(offers) == Stream(Pkts(queued))
      else StuckAt(before, offers, sendList[0].left)
    }

    constructor ()
      ensures Valid() && queued == [] && offers == []
    {
      sendList, offers, sent, queued := [], [], [], [];
    }

    /** Offer bytes to the transport, which answers as it likes. */
    method Send(data: seq<byte>) returns (answer: int)
      modifies this`offers
      ensures offers == old(offers) + [Offer(data, answer)]
    {
      answer := *;
      offers := offers + [Offer(data, answer)];
    }

    /** Push the queue out until it is empty or the transport refuses: then the last offer was
        refused and is still the next to be made. */
    method SendBuffList()
      requires Sending()
      modifies this`sendList, this`offers, this`sent
      ensures Valid() && old(sent) <= sent && old(Wire(offers)) <= Wire(offers)
      ensures old(offers) <= offers && Pushed(|old(offers)|)
    {
      while sendList != []
        invariant Sending() && old(sent) <= sent && old(Wire(offers)) <= Wire(offers)
        invariant old(offers) <= offers
        decreases |sendList|
      {
        var refused := SendFirst();
        if refused {
          return;
        }
        QueuePop(queued, sent, sendList, Wire(offers));
        sent := sent + [Sent(sendList[0].pkt.transId, sendList[0].length)];
        sendList := sendList[1..];
      }
      WireIsPrefix(queued, sent, sendList, Wire(offers));
    }

    /** Offer the first packet, block by block, until nothing is left of it or a block is refused. */
    method SendFirst() returns (refused: bool)
      requires Sending() && sendList != []
      modifies this`sendList, this`offers
      ensures Sending() && |sendList| == |old(sendList)| && old(Wire(offers)) <= Wire(offers)
      ensures old(offers) <= offers
      ensures !refused ==> sendList[0].left == []
      ensures refused ==> sendList[0].left != [] && StuckAt(|old(offers)|, offers, sendList[0].left)
    {
      refused := false;
      while !refused && sendList[0].left != []
        invariant Sending() && |sendList| == |old(sendList)| && old(Wire(offers)) <= Wire(offers)
        invariant old(offers) <= offers
        invariant refused ==> sendList[0].left != [] && StuckAt(|old(offers)|, offers, sendList[0].left)
        decreases |sendList[0].left|, if refused then 0 else 1
      {
        refused := SendBlock();
      }
    }

    /** Offer one block of the first packet, and move on by what was taken of it. */
    method SendBlock() returns (refused: bool)
      requires Sending() && sendList != [] && sendList[0].left != []
      modifies this`sendList, this`offers
      ensures Sending() && |sendList| == |old(sendList)| && old(Wire(offers)) <= Wire(offers)
      ensures |offers| == |old(offers)| + 1 && old(offers) <= offers
      ensures refused == Refused(offers[|offers| - 1])
      ensures refused ==> sendList == old(sendList) && StuckAt(|old(offers)|, offers, sendList[0].left)
      ensures !refused ==> |sendList[0].left| < |old(sendList[0].left)|
    {
      var left := sendList[0].left;
      var n :| 0 < n <= |left|;
      ghost var before := offers;
      var answer := Send(left[..n]);
      SendStep(queued, sent, sendList, before, n, answer);
      if answer < 0 {
        return true;
      }
      if answer == 0 {
        return true;
      }
      if answer > n {
        return true;
      }
      sendList := sendList[0 := sendList[0].(left := left[answer..])];
      refused := false;
    }

    /** What the transport passes on to the peer. */
    method OnWire() returns (wire: seq<byte>)
      ensures wire == Wire(offers)
    {
      wire := [];
      for i := 0 to |offers|
        invariant wire == Wire(offers[..i])
      {
        WireMore(offers[..i], offers[i]);
        assert offers[..i + 1] == offers[..i] + [offers[i]];
        wire := wire + Taken(offers[i]);
      }
      assert offers[..|offers|] == offers;
    }

    method SendPacket(pkt: Packet, length: nat)
      requires Valid()
      modifies this
      ensures Valid() && queued == old(queued) + [Queued(pkt, length)]
      ensures old(sent) <= sent && old(Wire(offers)) <= Wire(offers)
      ensures old(offers) <= offers && Pushed(|old(offers)|)
    {
      var packed := PackPacket(pkt);
      QueuePush(queued, sent, sendList, Wire(offers), Queued(pkt, length));
      sendList := sendList + [Entry(pkt, length, packed)];
      queued := queued + [Queued(pkt, length)];
      SendBuffList();
    }

    method OnWriteNotify()
      requires Valid()
      modifies this
      ensures Valid() && queued == old(queued)
      ensures old(sent) <= sent && old(Wire(offers)) <= Wire(offers)
      ensures old(offers) <= offers && Pushed(|old(offers)|)
    {
      SendBuffList();
    }
  }

  /** Between calls, exactly the packets that the transport has taken completely are reported as
      sent, in order. */
  lemma SentIsTaken(queued: seq<Queued>, sent: seq<Sent>, list: seq<Entry>, wire: seq<byte>)
    requires QueueOk(queued, sent, list, wire) && (list != [] ==> list[0].left != [])
    ensures Packets(wire) == Pkts(queued[..|sent|]) && sent == Notices(queued[..|sent|])
  {
    if list == [] {
      PacketsOfStream(Pkts(queued[..|sent|]));
    } else {
      TakenOfFirst(Pkts(queued[..|sent|]), list[0].pkt, list[0].left, wire);
    }
  }

  /** The transport has taken a beginning of the packets queued, and all of them if none is left. */
  lemma WireIsPrefix(queued: seq<Queued>, sent: seq<Sent>, list: seq<Entry>, wire: seq<byte>)
    requires QueueOk(queued, sent, list, wire)
    ensures wire <= Stream(Pkts(queued)) && (list == [] ==> wire == Stream(Pkts(queued)))
  {
    var done := queued[..|sent|];
    if list == [] {
      assert queued == done;
    } else {
      var q := queued[|sent|];
      assert Queued(list[0].pkt, list[0].length) == q;
      var rest := queued[|sent| + 1..];
      assert queued == done + [q] + rest;
      StreamPush(done, q);
      StreamAppend(Pkts(done + [q]), Pkts(rest));
      assert Pkts(queued) == Pkts(done + [q]) + Pkts(rest);
      assert wire <= wire + list[0].left;
    }
  }

  lemma TakenOfFirst(done: seq<Packet>, p: Packet, left: seq<byte>, wire: seq<byte>)
    requires wire + left == Stream(done) + Framed(p) && left != []
    requires |left| <= |Framed(p)|
    ensures Packets(wire) == done
  {
    var part := wire[|Stream(done)|..];
    assert wire == Stream(done) + part && part + left == Framed(p) by {
      assert (wire + left)[..|Stream(done)|] == Stream(done);
      assert (wire + left)[|Stream(done)|..] == Framed(p);
    }
    ShortIsNotWhole(p, part);
    PacketsOfStream(done);
    PacketsAppend(Stream(done), part);
    assert [] + part == part;
  }
}
