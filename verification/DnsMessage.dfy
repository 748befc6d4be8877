/** DNS messages (RFC 1035, section 4.1): what a response means record by record, and the parser
    that computes it. */
module DnsMessage {
  import opened Wrappers
  import opened Bytes
  import opened Texts
  import opened DnsName

  datatype Addr = V4(bytes: seq<byte>) | V6(bytes: seq<byte>)

  datatype DnsError =
    | TooShort
    | NotAResponse
    | WrongId
    | Rcode(code: nat)
    | NoQuestion
    | QuestionUndecodable
    | QuestionMismatch
    | QuestionName
    | QuestionShort
    | AnswerName
    | AnswerShort
    | AnswerData
    | TruncatedEmpty

  function ReadU16(d: seq<byte>, pos: nat): U16
    requires pos + 2 <= |d|
  {
    (d[pos] as int) * 0x100 + d[pos + 1] as int
  }

  function ReadU32(d: seq<byte>, pos: nat): U32
    requires pos + 4 <= |d|
  {
    (d[pos] as int) * 0x100_0000 + (d[pos + 1] as int) * 0x1_0000
    + (d[pos + 2] as int) * 0x100 + d[pos + 3] as int
  }

  // ----- the record level --------------------------------------------------------------------

  datatype Record = Record(kind: U16, ttl: U32, data: seq<byte>)

  /** The resource record at a position and where the next one starts. */
  function RecordAt(d: seq<byte>, pos: nat): (r: Result<(Record, nat), DnsError>)
    ensures r.Success? ==> pos < r.value.1 <= |d|
  {
    var skip := SkipLength(d, pos);
    var p := pos + skip;
    if skip == 0 then Failure(AnswerName)
    else if p + 10 > |d| then Failure(AnswerShort)
    else
      var end := p + 10 + ReadU16(d, p + 8);
      if end > |d| then Failure(AnswerData)
      else Success((Record(ReadU16(d, p), ReadU32(d, p + 4), d[p + 10..end]), end))
  }

  /** The first `n` records, up to the first that is not whole. */
  function Records(d: seq<byte>, pos: nat, n: nat): seq<Record>
    decreases n
  {
    if n == 0 then []
    else
      match RecordAt(d, pos)
      case Failure(_) => []
      case Success((record, end)) => [record] + Records(d, end, n - 1)
  }

  /** Why fewer than `n` records are whole. */
  function RecordError(d: seq<byte>, pos: nat, n: nat): Option<DnsError>
    decreases n
  {
    if n == 0 then None
    else
      match RecordAt(d, pos)
      case Failure(e) => Some(e)
      case Success((_, end)) => RecordError(d, end, n - 1)
  }

  /** Where the question section of `n` entries ends. */
  function QuestionsEnd(d: seq<byte>, pos: nat, n: nat): Result<nat, DnsError>
    decreases n
  {
    if n == 0 then Success(pos)
    else
      var skip := SkipLength(d, pos);
      if skip == 0 then Failure(QuestionName)
      else if pos + skip + 4 > |d| then Failure(QuestionShort)
      else QuestionsEnd(d, pos + skip + 4, n - 1)
  }

  /** An A record of 4 bytes or an AAAA record of 16 bytes. */
  function AddrOf(r: Record): Option<Addr> {
    if r.kind == 1 && |r.data| == 4 then Some(V4(r.data))
    else if r.kind == 28 && |r.data| == 16 then Some(V6(r.data))
    else None
  }

  /** The addresses of a section in wire order. */
  function Addresses(rs: seq<Record>): seq<Addr> {
    if rs == [] then []
    else if AddrOf(rs[0]).Some? then [AddrOf(rs[0]).value] + Addresses(rs[1..])
    else Addresses(rs[1..])
  }

  lemma {:induction false} AddressesAppend(a: seq<Record>, b: seq<Record>)
    ensures Addresses(a + b) == Addresses(a) + Addresses(b)
  {
    if a == [] {
      assert a + b == b;
    } else {
      assert (a + b)[1..] == a[1..] + b;
      AddressesAppend(a[1..], b);
    }
  }

  /** `ttl` is the least of the address records' times to live, or `ttl0` if there are none. */
  predicate IsMinTtl(rs: seq<Record>, ttl0: U32, ttl: U32) {
    && (forall i | 0 <= i < |rs| && AddrOf(rs[i]).Some? :: ttl <= rs[i].ttl)
    && (if Addresses(rs) == [] then ttl == ttl0
        else exists i | 0 <= i < |rs| :: AddrOf(rs[i]).Some? && rs[i].ttl == ttl)
  }

  // ----- a whole response --------------------------------------------------------------------

  function Strip(host: Text): Text {
    if host != [] && host[|host| - 1] == Dot then Strip(host[..|host| - 1]) else host
  }

  /** `_LowerNoTrailingDot`. */
  method LowerNoTrailingDot(host: Text) returns (r: Text)
    ensures r == LowerAll(Strip(host))
  {
    r := host;
    while r != [] && r[|r| - 1] == Dot
      invariant Strip(r) == Strip(host)
      decreases |r|
    {
      r := r[..|r| - 1];
    }
    ghost var stripped := r;
    for i := 0 to |r|
      invariant |r| == |stripped| && r[..i] == LowerAll(stripped)[..i] && r[i..] == stripped[i..]
    {
      r := r[i := Lower(r[i])];
    }
  }

  predicate Truncated(d: seq<byte>)
    requires |d| >= 12
  {
    d[2] / 2 % 2 == 1
  }

  /** The question of the response is the one asked, when the caller says which it was. */
  function QuestionError(d: seq<byte>, host: Text): Option<DnsError>
    requires |d| >= 12
  {
    if host == [] then None
    else if ReadU16(d, 4) == 0 then Some(NoQuestion)
    else
      match NameAt(d, 12, MaxJumps)
      case None => Some(QuestionUndecodable)
      case Some(labels) => if TextOf(labels) != LowerAll(Strip(host)) then Some(QuestionMismatch) else None
  }

  function HeaderError(d: seq<byte>, txid: U16): Option<DnsError> {
    if |d| < 12 then Some(TooShort)
    else if d[2] < 0x80 then Some(NotAResponse)
    else if ReadU16(d, 0) != txid then Some(WrongId)
    else if d[3] % 16 != 0 then Some(Rcode(d[3] % 16))
    else None
  }

  /** Where the answers start, once the header and the questions are accepted. */
  function Preamble(d: seq<byte>, txid: U16, host: Text): (r: Result<nat, DnsError>)
    ensures r.Success? ==> |d| >= 12
  {
    match HeaderError(d, txid)
    case Some(e) => Failure(e)
    case None =>
      match QuestionError(d, host)
      case Some(e) => Failure(e)
      case None => QuestionsEnd(d, 12, ReadU16(d, 4))
  }

  /** The answer records of a response whose preamble is accepted. */
  function Answers(d: seq<byte>, start: nat): seq<Record>
    requires |d| >= 12
  {
    Records(d, start, ReadU16(d, 6))
  }

  /** Why a response is refused.  A truncated one may end inside its answers, but has to give at
      least one address; `already` are the addresses the caller has from elsewhere. */
  function Verdict(d: seq<byte>, txid: U16, host: Text, already: seq<Addr>): Option<DnsError> {
    match Preamble(d, txid, host)
    case Failure(e) => Some(e)
    case Success(start) =>
      var e := RecordError(d, start, ReadU16(d, 6));
      if !Truncated(d) then e
      else if already == [] && Addresses(Answers(d, start)) == [] then Some(TruncatedEmpty)
      else None
  }

  // ----- the parser --------------------------------------------------------------------------

  method ParseQuestions(d: seq<byte>, host: Text) returns (err: Option<DnsError>, pos: nat)
    requires |d| >= 12 && (host != [] ==> ReadU16(d, 4) > 0)
    ensures match QuestionError(d, host)
            case Some(e) => err == Some(e)
            case None =>
              match QuestionsEnd(d, 12, ReadU16(d, 4))
              case Failure(e) => err == Some(e)
              case Success(end) => err == None && pos == end
  {
    pos := 12;
    var qdcount := ReadU16(d, 4);
    ghost var all := QuestionsEnd(d, 12, qdcount);
    for i := 0 to qdcount
      invariant QuestionsEnd(d, pos, qdcount - i) == all
      invariant if i == 0 then pos == 12 else QuestionError(d, host) == None
    {
      if i == 0 && host != [] {
        var ok, qname := DecodeQuestionName(d, pos);
        if !ok {
          return Some(QuestionUndecodable), pos;
        }
        var expected := LowerNoTrailingDot(host);
        if qname != expected {
          return Some(QuestionMismatch), pos;
        }
      }
      var nameLen := SkipName(d, pos);
      if nameLen == 0 {
        return Some(QuestionName), pos;
      }
      pos := pos + nameLen;
      if pos + 4 > |d| {
        return Some(QuestionShort), pos;
      }
      pos := pos + 4;
    }
    err := None;
  }

  /** The loop's head: one record, or why it is not whole. */
  method ReadRecord(d: seq<byte>, start: nat) returns (r: Result<(Record, nat), DnsError>)
    ensures r == RecordAt(d, start)
  {
    var pos: nat := start;
    var nameLen := SkipName(d, pos);
    if nameLen == 0 {
      return Failure(AnswerName);
    }
    pos := pos + nameLen;
    if pos + 10 > |d| {
      return Failure(AnswerShort);
    }
    var kind := ReadU16(d, pos);
    pos := pos + 2;
    pos := pos + 2;
    var ttl := ReadU32(d, pos);
    pos := pos + 4;
    var rdlen := ReadU16(d, pos);
    pos := pos + 2;
    if pos + rdlen > |d| {
      return Failure(AnswerData);
    }
    r := Success((Record(kind, ttl, d[pos..pos + rdlen]), pos + rdlen));
  }

  /** `done` are the records read, the rest starts at `pos`. */
  ghost predicate Reading(d: seq<byte>, start: nat, count: nat, done: seq<Record>, pos: nat, left: nat) {
    && done + Records(d, pos, left) == Records(d, start, count)
    && RecordError(d, pos, left) == RecordError(d, start, count)
  }

  lemma ReadingStep(d: seq<byte>, start: nat, count: nat, done: seq<Record>, pos: nat, left: nat)
    requires left > 0 && Reading(d, start, count, done, pos, left)
    ensures match RecordAt(d, pos)
            case Failure(e) => done == Records(d, start, count) && RecordError(d, start, count) == Some(e)
            case Success((record, end)) => Reading(d, start, count, done + [record], end, left - 1)
  {
    match RecordAt(d, pos)
    case Failure(_) => assert done + [] == done;
    case Success((record, end)) =>
      assert done + ([record] + Records(d, end, left - 1)) == done + [record] + Records(d, end, left - 1);
  }

  /** The loop's tail: take the address of a record, if it is one. */
  method TakeRecord(record: Record, addrs: seq<Addr>, ttl: U32, haveTtl: bool,
                    ghost done: seq<Record>, ghost addrs0: seq<Addr>, ghost ttl0: U32)
    returns (addrs': seq<Addr>, ttl': U32, haveTtl': bool)
    requires addrs == addrs0 + Addresses(done) && IsMinTtl(done, ttl0, ttl)
    requires haveTtl == (Addresses(done) != [])
    ensures addrs' == addrs0 + Addresses(done + [record]) && IsMinTtl(done + [record], ttl0, ttl')
    ensures haveTtl' == (Addresses(done + [record]) != [])
  {
    addrs', ttl', haveTtl' := addrs, ttl, haveTtl;
    MinTtlStep(done, record, ttl0, ttl);
    if record.kind == 1 && |record.data| == 4 {
      addrs' := addrs + [V4(record.data)];
      if !haveTtl || record.ttl < ttl {
        ttl' := record.ttl;
      }
      haveTtl' := true;
    } else if record.kind == 28 && |record.data| == 16 {
      addrs' := addrs + [V6(record.data)];
      if !haveTtl || record.ttl < ttl {
        ttl' := record.ttl;
      }
      haveTtl' := true;
    }
  }

  method ParseAnswers(d: seq<byte>, start: nat, ancount: nat, addrs0: seq<Addr>, ttl0: U32)
    returns (err: Option<DnsError>, addrs: seq<Addr>, ttl: U32)
    ensures err == RecordError(d, start, ancount)
    ensures addrs == addrs0 + Addresses(Records(d, start, ancount))
    ensures IsMinTtl(Records(d, start, ancount), ttl0, ttl)
  {
    var pos: nat := start;
    var haveTtl := false;
    addrs, ttl := addrs0, ttl0;
    ghost var done: seq<Record> := [];
    assert done + Records(d, pos, ancount) == Records(d, pos, ancount);
    for i := 0 to ancount
      invariant Reading(d, start, ancount, done, pos, ancount - i)
      invariant addrs == addrs0 + Addresses(done) && IsMinTtl(done, ttl0, ttl)
      invariant haveTtl == (Addresses(done) != [])
    {
      var r := ReadRecord(d, pos);
      ReadingStep(d, start, ancount, done, pos, ancount - i);
      if r.Failure? {
        return Some(r.error), addrs, ttl;
      }
      var (record, end) := r.value;
      addrs, ttl, haveTtl := TakeRecord(record, addrs, ttl, haveTtl, done, addrs0, ttl0);
      done := done + [record];
      pos := end;
    }
    assert done + [] == done;
    err := None;
  }

  lemma MinTtlStep(done: seq<Record>, r: Record, ttl0: U32, ttl: U32)
    requires IsMinTtl(done, ttl0, ttl)
    ensures Addresses(done + [r]) ==
            Addresses(done) + (if AddrOf(r).Some? then [AddrOf(r).value] else [])
    ensures IsMinTtl(done + [r], ttl0,
                     if AddrOf(r).Some? && (Addresses(done) == [] || r.ttl < ttl) then r.ttl else ttl)
  {
    AddressesAppend(done, [r]);
    assert [r][1..] == [];
    var all := done + [r];
    assert all[|done|] == r;
    if Addresses(done) != [] {
      var i :| 0 <= i < |done| && AddrOf(done[i]).Some? && done[i].ttl == ttl;
      assert all[i] == done[i];
    } else {
      NoAddresses(done);
    }
  }

  lemma {:induction false} NoAddresses(rs: seq<Record>)
    requires Addresses(rs) == []
    ensures forall i | 0 <= i < |rs| :: AddrOf(rs[i]).None?
  {
    if rs != [] {
      NoAddresses(rs[1..]);
      assert forall i | 1 <= i < |rs| :: rs[i] == rs[1..][i - 1];
    }
  }

  /** `DnsMessage::ParseResponse`, with the caller's lists passed in and out. */
  method ParseResponse(d: seq<byte>, txid: U16, host: Text, addrs0: seq<Addr>, ttl0: U32)
    returns (err: Option<DnsError>, addrs: seq<Addr>, ttl: U32)
    ensures err == Verdict(d, txid, host, addrs0)
    ensures err.Some? ==> addrs == []
    ensures err.None? ==>
              var answers := Answers(d, Preamble(d, txid, host).value);
              addrs == addrs0 + Addresses(answers) && IsMinTtl(answers, ttl0, ttl)
  {
    if |d| < 12 {
      return Some(TooShort), [], ttl0;
    }
    if d[2] < 0x80 {
      return Some(NotAResponse), [], ttl0;
    }
    if ReadU16(d, 0) != txid {
      return Some(WrongId), [], ttl0;
    }
    var rcode := d[3] % 16;
    if rcode != 0 {
      return Some(Rcode(rcode)), [], ttl0;
    }
    if host != [] && ReadU16(d, 4) == 0 {
      return Some(NoQuestion), [], ttl0;
    }
    var failed, pos := ParseQuestions(d, host);
    if failed.Some? {
      return failed, [], ttl0;
    }
    var broken;
    broken, addrs, ttl := ParseAnswers(d, pos, ReadU16(d, 6), addrs0, ttl0);
    if broken.Some? && !Truncated(d) {
      return broken, [], ttl;
    }
    if Truncated(d) && addrs == [] {
      return Some(TruncatedEmpty), [], ttl;
    }
    err := None;
  }

  /** Without the truncation bit, an accepted response has all the records it announces. */
  lemma {:induction false} AllRecords(d: seq<byte>, pos: nat, n: nat)
    ensures RecordError(d, pos, n) == None <==> |Records(d, pos, n)| == n
    ensures |Records(d, pos, n)| <= n
    decreases n
  {
    if n > 0 {
      match RecordAt(d, pos)
      case Failure(_) =>
      case Success((record, end)) =>
        AllRecords(d, end, n - 1);
        assert |Records(d, pos, n)| == 1 + |Records(d, end, n - 1)|;
    }
  }

  // ----- truncation --------------------------------------------------------------------------

  lemma {:induction false} StopOfCut(d: seq<byte>, n: nat, pos: nat)
    requires n <= |d| && StopOf(d[..n], pos) != Bad
    ensures StopOf(d, pos) == StopOf(d[..n], pos) && LabelsOf(d, pos) == LabelsOf(d[..n], pos)
    decreases n - pos
  {
    var b := d[pos];
    if b / 64 == 0 && b != 0 {
      assert d[..n][pos + 1..pos + 1 + b] == d[pos + 1..pos + 1 + b];
      StopOfCut(d, n, pos + 1 + b);
    }
  }

  lemma {:induction false} NameAtCut(d: seq<byte>, n: nat, pos: nat, jumps: nat)
    requires n <= |d| && NameAt(d[..n], pos, jumps).Some?
    ensures NameAt(d, pos, jumps) == NameAt(d[..n], pos, jumps)
    decreases jumps
  {
    StopOfCut(d, n, pos);
    if StopOf(d, pos).Jump? {
      NameAtCut(d, n, StopOf(d, pos).target, jumps - 1);
    }
  }

  lemma SkipCut(d: seq<byte>, n: nat, pos: nat)
    requires n <= |d| && SkipLength(d[..n], pos) != 0
    ensures SkipLength(d, pos) == SkipLength(d[..n], pos)
  {
    StopOfCut(d, n, pos);
  }

  lemma RecordCut(d: seq<byte>, n: nat, pos: nat)
    requires n <= |d| && RecordAt(d[..n], pos).Success?
    ensures RecordAt(d, pos) == RecordAt(d[..n], pos)
  {
    SkipCut(d, n, pos);
    var p := pos + SkipLength(d, pos);
    var end := p + 10 + ReadU16(d, p + 8);
    assert d[..n][p + 10..end] == d[p + 10..end];
  }

  lemma {:induction false} RecordsCut(d: seq<byte>, n: nat, pos: nat, count: nat)
    requires n <= |d|
    ensures Records(d[..n], pos, count) <= Records(d, pos, count)
    decreases count
  {
    if count > 0 && RecordAt(d[..n], pos).Success? {
      var (record, end) := RecordAt(d[..n], pos).value;
      RecordCut(d, n, pos);
      RecordsCut(d, n, end, count - 1);
      assert Records(d[..n], pos, count) == [record] + Records(d[..n], end, count - 1);
      assert Records(d, pos, count) == [record] + Records(d, end, count - 1);
    }
  }

  lemma {:induction false} QuestionsCut(d: seq<byte>, n: nat, pos: nat, count: nat)
    requires n <= |d| && QuestionsEnd(d[..n], pos, count).Success?
    ensures QuestionsEnd(d, pos, count) == QuestionsEnd(d[..n], pos, count)
    decreases count
  {
    if count > 0 {
      SkipCut(d, n, pos);
      QuestionsCut(d, n, pos + SkipLength(d, pos) + 4, count - 1);
    }
  }

  lemma QuestionErrorCut(d: seq<byte>, n: nat, host: Text)
    requires 12 <= n <= |d| && QuestionError(d[..n], host) == None
    ensures QuestionError(d, host) == None
  {
    if host != [] {
      NameAtCut(d, n, 12, MaxJumps);
    }
  }

  lemma PreambleCut(d: seq<byte>, n: nat, txid: U16, host: Text)
    requires 12 <= n <= |d| && Preamble(d[..n], txid, host).Success?
    ensures Preamble(d, txid, host) == Preamble(d[..n], txid, host)
  {
    QuestionErrorCut(d, n, host);
    QuestionsCut(d, n, 12, ReadU16(d, 4));
  }

  lemma AnswersCut(d: seq<byte>, n: nat, start: nat)
    requires 12 <= n <= |d|
    ensures Addresses(Answers(d[..n], start)) <= Addresses(Answers(d, start))
  {
    var count := ReadU16(d, 6);
    assert ReadU16(d[..n], 6) == count;
    RecordsCut(d, n, start, count);
    AddressesOfPrefix(Records(d[..n], start, count), Records(d, start, count));
  }

  lemma AddressesOfPrefix(some: seq<Record>, all: seq<Record>)
    requires some <= all
    ensures Addresses(some) <= Addresses(all)
  {
    assert all == some + all[|some|..];
    AddressesAppend(some, all[|some|..]);
  }

  /** With the truncation bit set, any cut of a message that is still accepted gives a beginning of
      the addresses of the whole message, which is accepted as well. */
  lemma TruncationIsPrefix(d: seq<byte>, n: nat, txid: U16, host: Text)
    requires 12 <= n <= |d| && Truncated(d) && Verdict(d[..n], txid, host, []) == None
    ensures Verdict(d, txid, host, []) == None
    ensures var start := Preamble(d, txid, host).value;
            && Preamble(d[..n], txid, host) == Success(start)
            && Addresses(Answers(d[..n], start)) <= Addresses(Answers(d, start))
  {
    PreambleCut(d, n, txid, host);
    AnswersCut(d, n, Preamble(d, txid, host).value);
  }
}
