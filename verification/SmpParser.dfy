/** `SMPParser`: the incremental parser over one growing and compacting buffer. */
module SmpParser {
  import opened Bytes
  import opened SmpPacket

  datatype ParseState = ParseType | ParsePayloadSize | ParseTimestamp | ParseStreamId | ParsePayload

  /** Of the stream `all`, the packets after `before` are reported and `raw` is still to be parsed. */
  ghost predicate Parsed(all: seq<byte>, before: seq<Packet>, now: seq<Packet>, raw: seq<byte>) {
    now + Packets(raw) == before + Packets(all) && Residue(raw) == Residue(all)
  }

  lemma ParsedStep(all: seq<byte>, before: seq<Packet>, now: seq<Packet>, raw: seq<byte>)
    requires Parsed(all, before, now, raw) && Whole(raw)
    ensures Parsed(all, before, now + [First(raw)], AfterFirst(raw))
  {
    var rest := Packets(AfterFirst(raw));
    assert Packets(raw) == [First(raw)] + rest;
    assert now + ([First(raw)] + rest) == now + [First(raw)] + rest;
    assert Residue(raw) == Residue(AfterFirst(raw));
  }

  lemma ParsedAll(all: seq<byte>, before: seq<Packet>, now: seq<Packet>, raw: seq<byte>)
    requires Parsed(all, before, now, raw) && !Whole(raw)
    ensures now == before + Packets(all) && raw == Residue(all)
  {
  }

  class SMPParser {
    var buf: array<byte>
    var dataSize: nat
    var parsedSize: nat
    var header: Header
    var state: ParseState
    var required: U32
    /** What the packet handler was given, in order. */
    var handled: seq<Packet>

    ghost predicate InBounds()
      reads this
    {
      parsedSize <= dataSize <= buf.Length
    }

    /** The bytes in the buffer. */
    ghost function Have(): seq<byte>
      requires InBounds()
      reads this, buf
    {
      buf[..dataSize]
    }

    /** The bytes received that are not part of a reported packet. */
    ghost function Raw(): seq<byte>
      requires InBounds()
      reads this, buf
    {
      (if state.ParsePayload? then HeaderBytes(header) else []) + Have()[parsedSize..]
    }

    /** Inside the parse loop: the state is one of two, and tells what is required. */
    ghost predicate Parsing()
      reads this, buf
    {
      && InBounds()
      && ((state.ParseType? && required == HeaderSize) || (state.ParsePayload? && required == header.size))
    }

    /** Between calls the buffer is compacted and starts with no whole packet. */
    ghost predicate Valid()
      reads this, buf
    {
      && Parsing() && parsedSize == 0 && !Whole(Raw())
      && (state.ParsePayload? <==> |Raw()| >= HeaderSize)
    }

    constructor ()
      ensures Valid() && fresh(buf) && Raw() == [] && handled == []
    {
      buf := new byte[0];
      dataSize, parsedSize, required := 0, 0, HeaderSize;
      header := Header(0, 0, 0, 0);
      state := ParseType;
      handled := [];
    }

    /** Grow the buffer if the new bytes do not fit, and append them. */
    method Append(data: seq<byte>)
      requires InBounds()
      modifies this`buf, this`dataSize, buf
      ensures buf == old(buf) || fresh(buf)
      ensures dataSize == old(dataSize) + |data| <= buf.Length
      ensures InBounds() && Raw() == old(Raw()) + data
    {
      if buf.Length - dataSize < |data| {
        var grown := new byte[dataSize + |data|];
        forall i | 0 <= i < dataSize { grown[i] := buf[i]; }
        buf := grown;
      }
      forall i | 0 <= i < |data| { buf[dataSize + i] := data[i]; }
      dataSize := dataSize + |data|;
      assert Have() == old(Have()) + data;
    }

    method Parse(data: seq<byte>)
      requires Valid()
      modifies this, buf
      ensures Valid() && (buf == old(buf) || fresh(buf))
      ensures handled == old(handled) + Packets(old(Raw()) + data)
      ensures Raw() == Residue(old(Raw()) + data)
    {
      ghost var all := Raw() + data;
      Append(data);
      ParseBuffer(all);
      Compact();
    }

    /** The parse loop: report every whole packet in the buffer. */
    method ParseBuffer(ghost all: seq<byte>)
      requires Parsing() && Raw() == all
      modifies this`handled, this`header, this`state, this`required, this`parsedSize
      ensures Parsing() && !Whole(Raw()) && (state.ParsePayload? <==> |Raw()| >= HeaderSize)
      ensures handled == old(handled) + Packets(all) && Raw() == Residue(all)
    {
      var parsing := true;
      while parsing && required <= dataSize - parsedSize
        invariant Parsing()
        invariant Parsed(all, old(handled), handled, Raw())
        invariant !parsing ==> required > dataSize - parsedSize
        decreases dataSize - parsedSize, if state.ParsePayload? then 1 else 0
      {
        parsing := Step(all, old(handled));
      }
      StuckIsNotWhole();
      ParsedAll(all, old(handled), handled, Raw());
    }

    /** One turn of the parse loop: no state but these two is ever entered. */
    method Step(ghost all: seq<byte>, ghost before: seq<Packet>) returns (enough: bool)
      requires Parsing() && required <= dataSize - parsedSize
      requires Parsed(all, before, handled, Raw())
      modifies this`handled, this`header, this`state, this`required, this`parsedSize
      ensures Parsing() && Parsed(all, before, handled, Raw())
      ensures enough == (required <= dataSize - parsedSize)
      ensures old(parsedSize) < parsedSize
              || (old(parsedSize) == parsedSize && old(state).ParsePayload? && state.ParseType?)
    {
      match state
      case ParseType =>
        enough := ParseHeaderStep();
      case ParsePayload =>
        HeaderThenPayload(header, Have()[parsedSize..]);
        ParsedStep(all, before, handled, Raw());
        enough := ParsePayloadStep();
      case _ => assert false;
    }

    /** Out of the loop, what is left starts with no whole packet. */
    lemma StuckIsNotWhole()
      requires Parsing() && required > dataSize - parsedSize
      ensures !Whole(Raw()) && (state.ParsePayload? <==> |Raw()| >= HeaderSize)
    {
      if state.ParsePayload? {
        HeaderThenPayload(header, Have()[parsedSize..]);
      }
    }

    /** Move the unparsed bytes to the front. */
    method Compact()
      requires InBounds()
      modifies this`dataSize, this`parsedSize, buf
      ensures parsedSize == 0 && InBounds() && Raw() == old(Raw())
    {
      if dataSize <= parsedSize {
        dataSize := 0;
        parsedSize := 0;
      } else if parsedSize > 0 {
        forall i | 0 <= i < dataSize - parsedSize { buf[i] := buf[parsedSize + i]; }
        dataSize := dataSize - parsedSize;
        parsedSize := 0;
      }
    }

    /** `_RequireData`: how much the next state needs, in 32-bit arithmetic. */
    method RequireData(size: U32, next: ParseState) returns (enough: bool)
      requires InBounds() && required == 0
      modifies this`state, this`required
      ensures state == next && required == size && enough == (dataSize - parsedSize >= size)
    {
      if required == 0 {
        state := next;
      }
      required := (required + size) % 0x1_0000_0000;
      enough := dataSize - parsedSize >= required;
    }

    method Read32(at: nat) returns (x: U32)
      requires InBounds() && at + 4 <= dataSize
      ensures x == Number(Have()[at..at + 4])
    {
      NumberOf4(Have()[at..at + 4]);
      x := (buf[at] as int) * 0x100_0000 + (buf[at + 1] as int) * 0x1_0000
           + (buf[at + 2] as int) * 0x100 + buf[at + 3];
    }

    method Read64(at: nat) returns (x: U64)
      requires InBounds() && at + 8 <= dataSize
      ensures x == Number(Have()[at..at + 8])
    {
      NumberOf8(Have()[at..at + 8]);
      x := (buf[at] as int) * 0x100_0000_0000_0000 + (buf[at + 1] as int) * 0x1_0000_0000_0000
           + (buf[at + 2] as int) * 0x100_0000_0000 + (buf[at + 3] as int) * 0x1_0000_0000
           + (buf[at + 4] as int) * 0x100_0000 + (buf[at + 5] as int) * 0x1_0000
           + (buf[at + 6] as int) * 0x100 + buf[at + 7];
    }

    method ReadHeader()
      requires Parsing() && state.ParseType? && required <= dataSize - parsedSize
      modifies this`header, this`required, this`parsedSize
      ensures InBounds() && required == 0 && parsedSize == old(parsedSize) + HeaderSize
      ensures HeaderBytes(header) + Have()[parsedSize..] == old(Have()[parsedSize..])
    {
      ghost var at, have := parsedSize, Have();
      var kind := buf[parsedSize];
      required := required - 1;
      parsedSize := parsedSize + 1;
      var size := Read32(parsedSize);
      required := required - 4;
      parsedSize := parsedSize + 4;
      var timestamp := Read64(parsedSize);
      required := required - 8;
      parsedSize := parsedSize + 8;
      var transId := Read32(parsedSize);
      required := required - 4;
      parsedSize := parsedSize + 4;
      header := Header(kind, size, timestamp, transId);
      HeaderFields(have, at, header);
    }

    method ParseHeaderStep() returns (enough: bool)
      requires Parsing() && state.ParseType? && required <= dataSize - parsedSize
      modifies this`header, this`state, this`required, this`parsedSize
      ensures Parsing() && state.ParsePayload? && Raw() == old(Raw())
      ensures parsedSize == old(parsedSize) + HeaderSize
      ensures enough == (required <= dataSize - parsedSize)
    {
      assert Raw() == Have()[parsedSize..];
      ReadHeader();
      enough := RequireData(header.size, ParsePayload);
    }

    method ParsePayloadStep() returns (enough: bool)
      requires Parsing() && state.ParsePayload? && required <= dataSize - parsedSize
      modifies this`handled, this`state, this`required, this`parsedSize
      ensures Parsing() && state.ParseType?
      ensures Whole(old(Raw())) && Raw() == AfterFirst(old(Raw()))
      ensures handled == old(handled) + [First(old(Raw()))]
      ensures parsedSize == old(parsedSize + header.size)
      ensures enough == (required <= dataSize - parsedSize)
    {
      HeaderThenPayload(header, Have()[parsedSize..]);
      var payload := buf[parsedSize..parsedSize + header.size];
      assert payload == Have()[parsedSize..][..header.size] by {
        var again := Have()[parsedSize..][..header.size];
        assert forall i | 0 <= i < |payload| :: payload[i] == buf[parsedSize + i] == again[i];
      }
      required := required - header.size;
      handled := handled + [Packet(header.kind, header.timestamp, header.transId, payload)];
      parsedSize := parsedSize + header.size;
      enough := RequireData(HeaderSize, ParseType);
    }
  }
}
