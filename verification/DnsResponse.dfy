/** Responses on the wire (RFC 1035, section 4.1): the bytes of resource records and of a whole
    response, and what the parser reads out of them. */
module DnsResponse {
  import opened Wrappers
  import opened Bytes
  import opened Texts
  import opened DnsName
  import opened DnsMessage
  import opened DnsQuery

  // ----- numbers -----------------------------------------------------------------------------

  lemma U16Bytes(d: seq<byte>, pos: nat)
    requires pos + 2 <= |d|
    ensures d[pos..pos + 2] == BigEndian(2, ReadU16(d, pos))
    ensures forall x: U16 | d[pos..pos + 2] == BigEndian(2, x) :: ReadU16(d, pos) == x
  {
    var s := d[pos..pos + 2];
    NumberOf2(s);
    BigEndianOfNumber(s);
    Powers();
    forall x: U16 | s == BigEndian(2, x) ensures ReadU16(d, pos) == x {
      NumberOfBigEndian(2, x);
    }
  }

  lemma U32Bytes(d: seq<byte>, pos: nat)
    requires pos + 4 <= |d|
    ensures d[pos..pos + 4] == BigEndian(4, ReadU32(d, pos))
    ensures forall x: U32 | d[pos..pos + 4] == BigEndian(4, x) :: ReadU32(d, pos) == x
  {
    var s := d[pos..pos + 4];
    NumberOf4(s);
    BigEndianOfNumber(s);
    Powers();
    forall x: U32 | s == BigEndian(4, x) ensures ReadU32(d, pos) == x {
      NumberOfBigEndian(4, x);
    }
  }

  // ----- names -------------------------------------------------------------------------------

  /** Labels that end at the root, or in a pointer to an earlier name. */
  datatype Name = Name(labels: seq<Text>, pointer: Option<nat>)

  predicate NameOk(n: Name) {
    GoodLabels(n.labels) && (n.pointer.Some? ==> n.pointer.value < 0x4000)
  }

  function NameEnd(n: Name): seq<byte>
    requires NameOk(n)
  {
    match n.pointer
    case None => [0]
    case Some(t) => [192 + t / 256, t % 256]
  }

  function NameBytes(n: Name): seq<byte>
    requires NameOk(n)
  {
    Encoded(n.labels) + NameEnd(n)
  }

  /** The bytes stand at a position. */
  predicate At(d: seq<byte>, pos: nat, s: seq<byte>) {
    pos + |s| <= |d| && d[pos..pos + |s|] == s
  }

  lemma AtParts(d: seq<byte>, pos: nat, a: seq<byte>, b: seq<byte>)
    requires At(d, pos, a + b)
    ensures At(d, pos, a) && At(d, pos + |a|, b)
  {
    var s := d[pos..pos + |a + b|];
    assert d[pos..pos + |a|] == s[..|a|] == (a + b)[..|a|];
    assert d[pos + |a|..pos + |a| + |b|] == s[|a|..] == (a + b)[|a|..];
  }

  /** The labels stand one behind the other from a position to another. */
  predicate StandsTo(d: seq<byte>, pos: nat, labels: seq<Text>, end: nat)
    decreases |labels|
  {
    if labels == [] then end == pos
    else LabelAt(d, pos, labels[0]) && StandsTo(d, pos + 1 + |labels[0]|, labels[1..], end)
  }

  lemma {:induction false} EncodedStandsTo(d: seq<byte>, pos: nat, labels: seq<Text>)
    requires GoodLabels(labels) && pos + |Encoded(labels)| <= |d|
    requires d[pos..pos + |Encoded(labels)|] == Encoded(labels)
    ensures StandsTo(d, pos, labels, pos + |Encoded(labels)|)
    decreases |labels|
  {
    if labels != [] {
      assert [labels[0]] + labels[1..] == labels;
      GoodCons(labels[0], labels[1..]);
      EncodedFirst(d, pos, Encoded(labels), labels[0], Encoded(labels[1..]));
      EncodedStandsTo(d, pos + 1 + |labels[0]|, labels[1..]);
    }
  }

  /** The walk passes the labels that stand at a position. */
  lemma {:induction false} LabelsPassed(d: seq<byte>, pos: nat, labels: seq<Text>, end: nat)
    requires GoodLabels(labels) && StandsTo(d, pos, labels, end)
    ensures StopOf(d, pos) == StopOf(d, end)
    decreases |labels|
  {
    if labels != [] {
      assert [labels[0]] + labels[1..] == labels;
      GoodCons(labels[0], labels[1..]);
      LabelInPlace(d, pos, labels[0]);
      LabelsPassed(d, pos + 1 + |labels[0]|, labels[1..], end);
    }
  }

  lemma EncodedPassed(d: seq<byte>, pos: nat, labels: seq<Text>, rest: seq<byte>)
    requires GoodLabels(labels) && At(d, pos, Encoded(labels) + rest)
    ensures var end := pos + |Encoded(labels)|;
            At(d, end, rest) && StopOf(d, pos) == StopOf(d, end)
  {
    AtParts(d, pos, Encoded(labels), rest);
    EncodedStandsTo(d, pos, labels);
    LabelsPassed(d, pos, labels, pos + |Encoded(labels)|);
  }

  lemma EndStops(d: seq<byte>, pos: nat, n: Name)
    requires NameOk(n) && At(d, pos, NameEnd(n)) && (n.pointer.Some? ==> n.pointer.value < |d|)
    ensures StopOf(d, pos) == match n.pointer case None => Root(pos + 1) case Some(t) => Jump(pos, t)
  {
    assert d[pos] == d[pos..pos + |NameEnd(n)|][0];
    if n.pointer.Some? {
      assert d[pos + 1] == d[pos..pos + |NameEnd(n)|][1];
    }
  }

  lemma SkippedTo(d: seq<byte>, pos: nat, end: nat, n: Name)
    requires NameOk(n) && pos <= end && StopOf(d, pos) == StopOf(d, end)
    requires StopOf(d, end) == match n.pointer case None => Root(end + 1) case Some(t) => Jump(end, t)
    requires n.pointer.Some? ==> n.pointer.value < pos
    ensures SkipLength(d, pos) == end - pos + |NameEnd(n)|
  {
  }

  /** A name that stands at a position, with a pointer to an earlier one if it has any, is skipped as
      a whole. */
  lemma NameSkipped(d: seq<byte>, pos: nat, n: Name)
    requires NameOk(n) && At(d, pos, NameBytes(n))
    requires n.pointer.Some? ==> n.pointer.value < pos
    ensures SkipLength(d, pos) == |NameBytes(n)|
  {
    var end := pos + |Encoded(n.labels)|;
    EncodedPassed(d, pos, n.labels, NameEnd(n));
    EndStops(d, end, n);
    SkippedTo(d, pos, end, n);
  }

  /** A pointer to itself is no name. */
  lemma SelfPointerRefused(d: seq<byte>, pos: nat)
    requires pos < 0x4000 && At(d, pos, [192 + pos / 256, pos % 256])
    ensures SkipLength(d, pos) == 0 && RecordAt(d, pos) == Failure(AnswerName)
  {
    assert d[pos] == d[pos..pos + 2][0] && d[pos + 1] == d[pos..pos + 2][1];
  }

  // ----- records -----------------------------------------------------------------------------

  /** A resource record with its owner's name and its class. */
  datatype Resource = Resource(owner: Name, kind: U16, class_: U16, ttl: U32, data: seq<byte>)

  predicate ResourceOk(r: Resource) {
    NameOk(r.owner) && |r.data| < 0x1_0000
  }

  /** What follows the name. */
  function Fields(r: Resource): seq<byte>
    requires ResourceOk(r)
  {
    BigEndian(2, r.kind) + (BigEndian(2, r.class_) + (BigEndian(4, r.ttl) + (BigEndian(2, |r.data|) + r.data)))
  }

  function ResourceBytes(r: Resource): seq<byte>
    requires ResourceOk(r)
  {
    NameBytes(r.owner) + Fields(r)
  }

  lemma FieldsRead(d: seq<byte>, p: nat, r: Resource)
    requires ResourceOk(r) && At(d, p, Fields(r))
    ensures |Fields(r)| == 10 + |r.data| && p + 10 + |r.data| <= |d|
    ensures ReadU16(d, p) == r.kind && ReadU32(d, p + 4) == r.ttl && ReadU16(d, p + 8) == |r.data|
    ensures d[p + 10..p + 10 + |r.data|] == r.data
  {
    var size := BigEndian(2, |r.data|) + r.data;
    var life := BigEndian(4, r.ttl) + size;
    var class_ := BigEndian(2, r.class_) + life;
    AtParts(d, p, BigEndian(2, r.kind), class_);
    AtParts(d, p + 2, BigEndian(2, r.class_), life);
    AtParts(d, p + 4, BigEndian(4, r.ttl), size);
    AtParts(d, p + 8, BigEndian(2, |r.data|), r.data);
    U16Bytes(d, p);
    U32Bytes(d, p + 4);
    U16Bytes(d, p + 8);
  }

  /** Reading the bytes of a record gives its type, its time to live and its data, and the next record
      starts behind it. */
  lemma ResourceReadBack(d: seq<byte>, pos: nat, r: Resource)
    requires ResourceOk(r) && At(d, pos, ResourceBytes(r))
    requires r.owner.pointer.Some? ==> r.owner.pointer.value < pos
    ensures RecordAt(d, pos) == Success((Record(r.kind, r.ttl, r.data), pos + |ResourceBytes(r)|))
  {
    AtParts(d, pos, NameBytes(r.owner), Fields(r));
    NameSkipped(d, pos, r.owner);
    FieldsRead(d, pos + |NameBytes(r.owner)|, r);
  }

  /** Writing what was read from behind a name gives the bytes again. */
  lemma RecordBytesAgain(d: seq<byte>, pos: nat)
    requires RecordAt(d, pos).Success?
    ensures var (record, end) := RecordAt(d, pos).value;
            var p := pos + SkipLength(d, pos);
            && p + 10 + |record.data| == end
            && d[p..p + 2] == BigEndian(2, record.kind)
            && d[p + 4..p + 8] == BigEndian(4, record.ttl)
            && d[p + 8..p + 10] == BigEndian(2, |record.data|)
            && d[p + 10..end] == record.data
  {
    var p := pos + SkipLength(d, pos);
    U16Bytes(d, p);
    U32Bytes(d, p + 4);
    U16Bytes(d, p + 8);
  }

  // ----- a whole response --------------------------------------------------------------------

  /** An answer as a server means it. */
  datatype Answer =
    | A(owner: Name, ttl: U32, address: seq<byte>)
    | Aaaa(owner: Name, ttl: U32, address: seq<byte>)
    | Other(resource: Resource)

  /** Type 1 and type 28 of class IN, and whatever has neither of these types. */
  function ResourceOf(a: Answer): Resource {
    match a
    case A(owner, ttl, address) => Resource(owner, 1, 1, ttl, address)
    case Aaaa(owner, ttl, address) => Resource(owner, 28, 1, ttl, address)
    case Other(r) => r
  }

  /** Pointers lead to names in front of the answers. */
  predicate AnswerOk(a: Answer, start: nat) {
    && ResourceOk(ResourceOf(a))
    && (ResourceOf(a).owner.pointer.Some? ==> ResourceOf(a).owner.pointer.value < start)
    && match a
       case A(_, _, address) => |address| == 4
       case Aaaa(_, _, address) => |address| == 16
       case Other(r) => r.kind != 1 && r.kind != 28
  }

  predicate AnswersOk(answers: seq<Answer>, start: nat) {
    forall i | 0 <= i < |answers| :: AnswerOk(answers[i], start)
  }

  function Section(answers: seq<Answer>, start: nat): seq<byte>
    requires AnswersOk(answers, start)
  {
    if answers == [] then [] else ResourceBytes(ResourceOf(answers[0])) + Section(answers[1..], start)
  }

  function AddressesOf(answers: seq<Answer>): seq<Addr> {
    if answers == [] then []
    else
      (match answers[0]
       case A(_, _, address) => [V4(address)]
       case Aaaa(_, _, address) => [V6(address)]
       case Other(_) => [])
      + AddressesOf(answers[1..])
  }

  /** The least time to live of the addresses. */
  function LeastTtl(answers: seq<Answer>): Option<U32> {
    if answers == [] then None
    else
      var rest := LeastTtl(answers[1..]);
      if answers[0].Other? then rest
      else if rest.None? || answers[0].ttl < rest.value then Some(answers[0].ttl)
      else rest
  }

  function RecordOf(a: Answer): Record {
    var r := ResourceOf(a);
    Record(r.kind, r.ttl, r.data)
  }

  function RecordsOf(answers: seq<Answer>): (rs: seq<Record>)
    ensures |rs| == |answers|
  {
    seq(|answers|, i requires 0 <= i < |answers| => RecordOf(answers[i]))
  }

  lemma RecordsOfStep(answers: seq<Answer>)
    requires answers != []
    ensures RecordsOf(answers) == [RecordOf(answers[0])] + RecordsOf(answers[1..])
  {
  }

  lemma RecordsStep(d: seq<byte>, pos: nat, n: nat)
    requires n > 0 && RecordAt(d, pos).Success?
    ensures var (record, end) := RecordAt(d, pos).value;
            && Records(d, pos, n) == [record] + Records(d, end, n - 1)
            && RecordError(d, pos, n) == RecordError(d, end, n - 1)
  {
  }

  lemma {:induction false} SectionReadBack(d: seq<byte>, pos: nat, answers: seq<Answer>, start: nat)
    requires AnswersOk(answers, start) && start <= pos && At(d, pos, Section(answers, start))
    ensures Records(d, pos, |answers|) == RecordsOf(answers)
    ensures RecordError(d, pos, |answers|) == None
    decreases |answers|
  {
    if answers != [] {
      var r, rest := ResourceOf(answers[0]), answers[1..];
      assert AnswerOk(answers[0], start);
      AtParts(d, pos, ResourceBytes(r), Section(rest, start));
      ResourceReadBack(d, pos, r);
      SectionReadBack(d, pos + |ResourceBytes(r)|, rest, start);
      RecordsStep(d, pos, |answers|);
      RecordsOfStep(answers);
    }
  }

  lemma {:induction false} AddressesRead(answers: seq<Answer>, start: nat)
    requires AnswersOk(answers, start)
    ensures Addresses(RecordsOf(answers)) == AddressesOf(answers)
    decreases |answers|
  {
    if answers != [] {
      AddressesRead(answers[1..], start);
      assert AnswerOk(answers[0], start);
      assert RecordsOf(answers)[1..] == RecordsOf(answers[1..]);
      assert RecordsOf(answers)[0] == RecordOf(answers[0]);
    }
  }

  lemma {:induction false} LeastIsLeast(answers: seq<Answer>, start: nat)
    requires AnswersOk(answers, start)
    ensures AddressesOf(answers) == [] <==> LeastTtl(answers) == None
    ensures LeastTtl(answers).Some? ==>
              exists i | 0 <= i < |answers| :: !answers[i].Other? && answers[i].ttl == LeastTtl(answers).value
    ensures forall i | 0 <= i < |answers| && !answers[i].Other? ::
              LeastTtl(answers).Some? && LeastTtl(answers).value <= answers[i].ttl
    decreases |answers|
  {
    if answers != [] {
      var rest := answers[1..];
      LeastIsLeast(rest, start);
      assert forall i | 1 <= i < |answers| :: answers[i] == rest[i - 1];
      if LeastTtl(rest).Some? {
        var i :| 0 <= i < |rest| && !rest[i].Other? && rest[i].ttl == LeastTtl(rest).value;
        assert answers[i + 1] == rest[i];
      }
    }
  }

  /** What the parser calls the least time to live of the records is that of the addresses. */
  lemma LeastRead(answers: seq<Answer>, start: nat, ttl0: U32, ttl: U32)
    requires AnswersOk(answers, start) && IsMinTtl(RecordsOf(answers), ttl0, ttl)
    ensures ttl == if LeastTtl(answers).Some? then LeastTtl(answers).value else ttl0
  {
    var rs := RecordsOf(answers);
    AddressesRead(answers, start);
    LeastIsLeast(answers, start);
    forall i | 0 <= i < |answers| ensures AddrOf(rs[i]).Some? <==> !answers[i].Other? {
      assert AnswerOk(answers[i], start);
    }
    if LeastTtl(answers).Some? {
      var i :| 0 <= i < |answers| && !answers[i].Other? && answers[i].ttl == LeastTtl(answers).value;
      assert rs[i] == RecordOf(answers[i]);
      var j :| 0 <= j < |rs| && AddrOf(rs[j]).Some? && rs[j].ttl == ttl;
      assert rs[j] == RecordOf(answers[j]);
    }
  }

  /** Id, flags, one question, the number of answers, and the other two counts. */
  function Header(txid: U16, flags: (byte, byte), ancount: U16, counts: seq<byte>): seq<byte>
    requires |counts| == 4
  {
    BigEndian(2, txid) + ([flags.0, flags.1] + (BigEndian(2, 1) + (BigEndian(2, ancount) + counts)))
  }

  function QuestionBytes(host: Text, qtype: U16): seq<byte>
    requires ValidHost(host)
  {
    Encoded(Split(host)) + ([0] + (BigEndian(2, qtype) + BigEndian(2, 1)))
  }

  /** Where the answers of a response start. */
  function AnswersStart(host: Text): nat {
    12 + |host| + 6
  }

  predicate ResponseOk(host: Text, answers: seq<Answer>, counts: seq<byte>) {
    ValidHost(host) && AnswersOk(answers, AnswersStart(host)) && |answers| < 0x1_0000 && |counts| == 4
  }

  function ResponseBytes(host: Text, qtype: U16, txid: U16, flags: (byte, byte), answers: seq<Answer>,
                         counts: seq<byte>, more: seq<byte>): seq<byte>
    requires ResponseOk(host, answers, counts)
  {
    Header(txid, flags, |answers|, counts)
    + (QuestionBytes(host, qtype) + (Section(answers, AnswersStart(host)) + more))
  }

  lemma HeaderRead(d: seq<byte>, txid: U16, flags: (byte, byte), ancount: U16, counts: seq<byte>)
    requires |counts| == 4 && At(d, 0, Header(txid, flags, ancount, counts))
    ensures |d| >= 12 && ReadU16(d, 0) == txid && d[2] == flags.0 && d[3] == flags.1
    ensures ReadU16(d, 4) == 1 && ReadU16(d, 6) == ancount
  {
    var a := BigEndian(2, ancount) + counts;
    var q := BigEndian(2, 1) + a;
    AtParts(d, 0, BigEndian(2, txid), [flags.0, flags.1] + q);
    AtParts(d, 2, [flags.0, flags.1], q);
    AtParts(d, 4, BigEndian(2, 1), a);
    AtParts(d, 6, BigEndian(2, ancount), counts);
    U16Bytes(d, 0);
    U16Bytes(d, 4);
    U16Bytes(d, 6);
    assert d[2..4][0] == d[2] && d[2..4][1] == d[3];
  }

  lemma QuestionRead(d: seq<byte>, host: Text, qtype: U16)
    requires ValidHost(host) && At(d, 12, QuestionBytes(host, qtype))
    ensures |QuestionBytes(host, qtype)| == |host| + 6
    ensures NameAt(d, 12, MaxJumps) == Some(Split(host))
    ensures QuestionsEnd(d, 12, 1) == Success(AnswersStart(host))
  {
    var name := Encoded(Split(host));
    var rest := BigEndian(2, qtype) + BigEndian(2, 1);
    EncodedLength(host, 0);
    AtParts(d, 12, name, [0] + rest);
    AtParts(d, 12 + |name|, [0], rest);
    assert d[12 + |name|] == [0][0];
    EncodedStands(d, 12, Split(host));
    NameInPlace(d, 12, Split(host), 12 + |name| + 1);
    assert QuestionsEnd(d, AnswersStart(host), 0) == Success(AnswersStart(host));
  }

  /** The verdict on a response by whoever has asked with an id and expects a host, or any. */
  function Judged(host: Text, txid: U16, flags: (byte, byte), answers: seq<Answer>, asked: U16,
                  expected: Text): Option<DnsError>
  {
    if flags.0 < 0x80 then Some(NotAResponse)
    else if asked != txid then Some(WrongId)
    else if flags.1 % 16 != 0 then Some(Rcode(flags.1 % 16))
    else if expected != [] && LowerAll(Strip(expected)) != LowerAll(host) then Some(QuestionMismatch)
    else if flags.0 / 2 % 2 == 1 && AddressesOf(answers) == [] then Some(TruncatedEmpty)
    else None
  }

  /** A whole response is judged by its id, its flags and its question, in any case and with any dots at
      the end; if it is accepted, it is read as exactly its answers. */
  lemma ResponseReadBack(host: Text, qtype: U16, txid: U16, flags: (byte, byte), answers: seq<Answer>,
                         counts: seq<byte>, more: seq<byte>, asked: U16, expected: Text)
    requires ResponseOk(host, answers, counts)
    ensures var d := ResponseBytes(host, qtype, txid, flags, answers, counts, more);
            && Verdict(d, asked, expected, []) == Judged(host, txid, flags, answers, asked, expected)
            && Answers(d, AnswersStart(host)) == RecordsOf(answers)
            && Addresses(RecordsOf(answers)) == AddressesOf(answers)
            && (Verdict(d, asked, expected, []) == None ==>
                  Preamble(d, asked, expected) == Success(AnswersStart(host)))
  {
    ResponseRead(host, qtype, txid, flags, answers, counts, more);
    TextOfSplit(host, 0);
    assert host[0..] == host;
    ReadsJudged(ResponseBytes(host, qtype, txid, flags, answers, counts, more), host, txid, flags, answers,
                asked, expected);
  }

  /** What is read at each place of a response. */
  predicate Reads(d: seq<byte>, host: Text, txid: U16, flags: (byte, byte), answers: seq<Answer>) {
    && |d| >= 12 && ReadU16(d, 0) == txid && d[2] == flags.0 && d[3] == flags.1
    && ReadU16(d, 4) == 1 && ReadU16(d, 6) == |answers|
    && NameAt(d, 12, MaxJumps) == Some(Split(host))
    && QuestionsEnd(d, 12, 1) == Success(AnswersStart(host))
    && Records(d, AnswersStart(host), |answers|) == RecordsOf(answers)
    && RecordError(d, AnswersStart(host), |answers|) == None
    && Addresses(RecordsOf(answers)) == AddressesOf(answers)
  }

  lemma ResponseRead(host: Text, qtype: U16, txid: U16, flags: (byte, byte), answers: seq<Answer>,
                     counts: seq<byte>, more: seq<byte>)
    requires ResponseOk(host, answers, counts)
    ensures Reads(ResponseBytes(host, qtype, txid, flags, answers, counts, more), host, txid, flags, answers)
  {
    var d := ResponseBytes(host, qtype, txid, flags, answers, counts, more);
    var start := AnswersStart(host);
    var tail := Section(answers, start) + more;
    var head := Header(txid, flags, |answers|, counts);
    assert At(d, 0, head + (QuestionBytes(host, qtype) + tail));
    AtParts(d, 0, head, QuestionBytes(host, qtype) + tail);
    AtParts(d, 12, QuestionBytes(host, qtype), tail);
    HeaderRead(d, txid, flags, |answers|, counts);
    QuestionRead(d, host, qtype);
    AtParts(d, start, Section(answers, start), more);
    SectionReadBack(d, start, answers, start);
    AddressesRead(answers, start);
  }

  lemma ReadsJudged(d: seq<byte>, host: Text, txid: U16, flags: (byte, byte), answers: seq<Answer>,
                    asked: U16, expected: Text)
    requires Reads(d, host, txid, flags, answers) && TextOf(Split(host)) == LowerAll(host)
    ensures Verdict(d, asked, expected, []) == Judged(host, txid, flags, answers, asked, expected)
    ensures Verdict(d, asked, expected, []) == None ==>
              Preamble(d, asked, expected) == Success(AnswersStart(host))
  {
  }

  // ----- the query ---------------------------------------------------------------------------

  /** The query is one question of class IN with recursion desired, and nothing behind it. */
  lemma QueryIs(host: Text, qtype: U16, txid: U16)
    requires ValidHost(host)
    ensures Query(host, qtype, txid) == Header(txid, (1, 0), 0, [0, 0, 0, 0]) + QuestionBytes(host, qtype)
  {
    assert BigEndian(0, 0) == [] && BigEndian(2, 1) == [0, 1] && BigEndian(2, 0) == [0, 0];
    TwoBytes(txid);
    TwoBytes(qtype);
  }

  lemma TwoBytes(x: U16)
    ensures BigEndian(2, x) == [x / 256, x % 256]
  {
    assert BigEndian(1, x / 256) == [x / 256];
  }

  /** Whoever reads the query finds the id, one question, the host and the type. */
  lemma QueryReadBack(host: Text, qtype: U16, txid: U16)
    requires ValidHost(host)
    ensures var d := Query(host, qtype, txid);
            && |d| == AnswersStart(host)
            && ReadU16(d, 0) == txid && d[2] == 1 && d[3] == 0 && ReadU16(d, 4) == 1 && ReadU16(d, 6) == 0
            && NameAt(d, 12, MaxJumps) == Some(Split(host))
            && ReadU16(d, |d| - 4) == qtype && ReadU16(d, |d| - 2) == 1
  {
    var d := Query(host, qtype, txid);
    var head, name := Header(txid, (1, 0), 0, [0, 0, 0, 0]), Encoded(Split(host));
    var class_ := BigEndian(2, 1);
    QueryIs(host, qtype, txid);
    assert At(d, 0, head + QuestionBytes(host, qtype));
    AtParts(d, 0, head, QuestionBytes(host, qtype));
    HeaderRead(d, txid, (1, 0), 0, [0, 0, 0, 0]);
    QuestionRead(d, host, qtype);
    AtParts(d, 12, name, [0] + (BigEndian(2, qtype) + class_));
    AtParts(d, 12 + |name|, [0], BigEndian(2, qtype) + class_);
    AtParts(d, |d| - 4, BigEndian(2, qtype), class_);
    U16Bytes(d, |d| - 4);
    U16Bytes(d, |d| - 2);
  }
}
