/** End-to-end delivery: a stream, a transport that takes and passes on bytes in order but in any
    portions, and the parser of the peer. */
module SmpLink {
  import opened Bytes
  import opened SmpPacket
  import opened SmpParser
  import opened SmpStream

  lemma ReadMore(wire: seq<byte>, read: nat, end: nat)
    requires read <= end <= |wire|
    ensures Packets(wire[..end]) ==
            Packets(wire[..read]) + Packets(Residue(wire[..read]) + wire[read..end])
    ensures Residue(wire[..end]) == Residue(Residue(wire[..read]) + wire[read..end])
  {
    assert wire[..end] == wire[..read] + wire[read..end];
    PacketsAppend(wire[..read], wire[read..end]);
  }

  /** The packets in the first `read` bytes of the wire, compared with those queued and sent. */
  lemma DeliveredAt(queued: seq<Queued>, sent: seq<Sent>, list: seq<Entry>, wire: seq<byte>, read: nat)
    requires QueueOk(queued, sent, list, wire) && (list != [] ==> list[0].left != [])
    requires read <= |wire|
    ensures Packets(wire[..read]) <= Pkts(queued[..|sent|]) <= Pkts(queued)
    ensures sent == Notices(queued[..|sent|])
    ensures read == |wire| ==> Packets(wire[..read]) == Pkts(queued[..|sent|])
    ensures list == [] ==> queued[..|sent|] == queued
  {
    SentIsTaken(queued, sent, list, wire);
    ReadMore(wire, read, |wire|);
    assert wire[..|wire|] == wire;
  }

  /** None of the offers behind the first `before` ones was refused. */
  predicate NoneRefused(before: nat, offers: seq<Offer>) {
    forall i | before <= i < |offers| :: !Refused(offers[i])
  }

  class Link {
    const from: SMPStream
    const to: SMPParser
    /** How much of the wire the peer has read. */
    var read: nat

    ghost function Arrived(): seq<byte>
      requires read <= |Wire(from.offers)|
      reads this, from
    {
      Wire(from.offers)[..read]
    }

    ghost predicate Valid()
      reads this, from, to, to.buf
    {
      && from.Valid() && to.Valid() && read <= |Wire(from.offers)|
      && to.handled == Packets(Arrived()) && to.Raw() == Residue(Arrived())
    }

    constructor ()
      ensures Valid() && fresh(from) && fresh(to) && fresh(to.buf)
      ensures from.queued == [] && to.handled == []
    {
      from := new SMPStream();
      to := new SMPParser();
      read := 0;
    }

    method Send(pkt: Packet, length: nat)
      requires Valid()
      modifies from
      ensures Valid() && from.queued == old(from.queued) + [Queued(pkt, length)]
      ensures old(from.sent) <= from.sent
      ensures from.Pushed(|old(from.offers)|)
      ensures NoneRefused(|old(from.offers)|, from.offers) ==> from.sendList == []
    {
      from.SendPacket(pkt, length);
      assert Arrived() == old(Arrived());
    }

    method WriteNotify()
      requires Valid()
      modifies from
      ensures Valid() && from.queued == old(from.queued) && old(from.sent) <= from.sent
      ensures from.Pushed(|old(from.offers)|)
      ensures NoneRefused(|old(from.offers)|, from.offers) ==> from.sendList == []
    {
      from.OnWriteNotify();
      assert Arrived() == old(Arrived());
    }

    /** The peer reads the next `n` bytes, or as many as there are. */
    method Read(n: nat)
      requires Valid()
      modifies this, to, to.buf
      ensures Valid() && (to.buf == old(to.buf) || fresh(to.buf))
      ensures read == if old(read) + n <= |Wire(from.offers)| then old(read) + n else |Wire(from.offers)|
      ensures old(to.handled) <= to.handled
      ensures from.sendList == [] && old(read) + n >= |Wire(from.offers)| ==> to.handled == Pkts(from.queued)
    {
      var wire := from.OnWire();
      var end := if read + n <= |wire| then read + n else |wire|;
      var data := wire[read..end];
      ReadMore(wire, read, end);
      to.Parse(data);
      read := end;
      Delivered();
    }

    /** At all times the packets reported at the peer are the first packets queued, unchanged and
        in order, and among those whose sending was reported; the transport has taken a beginning
        of the packed queue; when everything taken has been read,
        they are exactly those; and when the queue is empty as well, they are all. */
    lemma Delivered()
      requires Valid()
      ensures to.handled <= Pkts(from.queued[..|from.sent|]) <= Pkts(from.queued)
      ensures Wire(from.offers) <= Stream(Pkts(from.queued))
      ensures from.sendList == [] ==> Wire(from.offers) == Stream(Pkts(from.queued))
      ensures from.sent == Notices(from.queued[..|from.sent|])
      ensures read == |Wire(from.offers)| ==> to.handled == Pkts(from.queued[..|from.sent|])
      ensures read == |Wire(from.offers)| && from.sendList == [] ==> to.handled == Pkts(from.queued)
    {
      DeliveredAt(from.queued, from.sent, from.sendList, Wire(from.offers), read);
      WireIsPrefix(from.queued, from.sent, from.sendList, Wire(from.offers));
    }
  }
}
