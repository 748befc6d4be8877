/** `DnsMessage::BuildQuery`, and the round trip of a query through the response parser. */
module DnsQuery {
  import opened Wrappers
  import opened Bytes
  import opened Texts
  import opened DnsName
  import opened DnsMessage

  /** The first dot at or behind a position, or the end. */
  function DotFrom(s: Text, start: nat): (end: nat)
    requires start <= |s|
    ensures start <= end <= |s| && (end < |s| ==> s[end] == Dot)
    decreases |s| - start
  {
    if start == |s| || s[start] == Dot then start else DotFrom(s, start + 1)
  }

  /** The labels of a host name from a position on: the parts between its dots. */
  function SplitFrom(s: Text, start: nat): (labels: seq<Text>)
    requires start <= |s|
    ensures labels != []
    decreases |s| - start
  {
    var end := DotFrom(s, start);
    if end == |s| then [s[start..end]] else [s[start..end]] + SplitFrom(s, end + 1)
  }

  function Split(s: Text): seq<Text> {
    SplitFrom(s, 0)
  }

  /** No dot is passed over. */
  lemma {:induction false} DotIsFound(s: Text, start: nat, i: nat)
    requires start <= i < |s| && s[i] == Dot
    ensures DotFrom(s, start) <= i
    decreases i - start
  {
    if start < i {
      DotIsFound(s, start + 1, i);
    }
  }

  /** The first label, and the others if there are any. */
  lemma SplitStep(s: Text, start: nat)
    requires start <= |s|
    ensures var end := DotFrom(s, start);
            SplitFrom(s, start) ==
            if end < |s| then [s[start..end]] + SplitFrom(s, end + 1) else [s[start..end]] + []
  {
  }

  predicate GoodLabel(l: Text) {
    1 <= |l| <= 63
  }

  predicate GoodLabels(labels: seq<Text>) {
    forall i | 0 <= i < |labels| :: GoodLabel(labels[i])
  }

  /** The hosts that can be asked for (RFC 1035, section 2.3.4). */
  predicate ValidHost(host: Text) {
    GoodLabels(Split(host)) && |host| <= 253
  }

  /** Length-prefixed labels. */
  function Encoded(labels: seq<Text>): seq<byte>
    requires GoodLabels(labels)
  {
    if labels == [] then [] else [|labels[0]|] + labels[0] + Encoded(labels[1..])
  }

  function Query(host: Text, qtype: U16, txid: U16): seq<byte>
    requires ValidHost(host)
  {
    [txid / 256, txid % 256, 1, 0, 0, 1, 0, 0, 0, 0, 0, 0]
    + Encoded(Split(host)) + [0] + [qtype / 256, qtype % 256, 0, 1]
  }

  lemma GoodCons(one: Text, rest: seq<Text>)
    ensures GoodLabels([one] + rest) <==> GoodLabel(one) && GoodLabels(rest)
  {
    var labels := [one] + rest;
    assert labels[0] == one && forall i | 0 <= i < |rest| :: labels[i + 1] == rest[i];
    assert forall i | 1 <= i < |labels| :: labels[i] == rest[i - 1];
  }

  lemma EncodedCons(one: Text, rest: seq<Text>)
    requires GoodLabel(one) && GoodLabels(rest)
    ensures GoodLabels([one] + rest) && Encoded([one] + rest) == [|one|] + one + Encoded(rest)
  {
    GoodCons(one, rest);
    assert ([one] + rest)[1..] == rest;
  }

  /** An encoded name, root included, is two bytes longer than its text. */
  lemma {:induction false} EncodedLength(s: Text, start: nat)
    requires start <= |s| && GoodLabels(SplitFrom(s, start))
    ensures |Encoded(SplitFrom(s, start))| == |s| - start + 1
    decreases |s| - start
  {
    var end := DotFrom(s, start);
    SplitStep(s, start);
    if end < |s| {
      GoodCons(s[start..end], SplitFrom(s, end + 1));
      EncodedCons(s[start..end], SplitFrom(s, end + 1));
      EncodedLength(s, end + 1);
    } else {
      GoodCons(s[start..end], []);
      EncodedCons(s[start..end], []);
    }
  }

  method FindDot(host: Text, start: nat) returns (end: nat)
    requires start <= |host|
    ensures end == DotFrom(host, start)
  {
    end := start;
    while end < |host| && host[end] != Dot
      invariant start <= end <= |host| && DotFrom(host, end) == DotFrom(host, start)
    {
      end := end + 1;
    }
  }

  /** The encoding of the first label behind a position. */
  function Head(s: Text, start: nat): seq<byte>
    requires start <= |s| && GoodLabel(s[start..DotFrom(s, start)])
  {
    [DotFrom(s, start) - start] + s[start..DotFrom(s, start)]
  }

  /** The name field of the labels from a position on, without the root, if all of them are good. */
  function EncodedFrom(s: Text, start: nat): Option<seq<byte>>
    requires start <= |s|
    decreases |s| - start
  {
    var end := DotFrom(s, start);
    if !GoodLabel(s[start..end]) then None
    else if end == |s| then Some(Head(s, start))
    else Prefixed(Head(s, start), EncodedFrom(s, end + 1))
  }

  /** The encoding, if there is one. */
  function EncodedIfGood(labels: seq<Text>): Option<seq<byte>> {
    if GoodLabels(labels) then Some(Encoded(labels)) else None
  }

  lemma EncodedIfGoodCons(one: Text, rest: seq<Text>)
    ensures EncodedIfGood([one] + rest) ==
            if GoodLabel(one) then Prefixed([|one|] + one, EncodedIfGood(rest)) else None
  {
    GoodCons(one, rest);
    if GoodLabel(one) && GoodLabels(rest) {
      EncodedCons(one, rest);
    }
  }

  lemma EncodedFromStep(s: Text, start: nat, rest: seq<Text>)
    requires start <= |s|
    requires var end := DotFrom(s, start);
             if end < |s| then EncodedFrom(s, end + 1) == EncodedIfGood(rest) else rest == []
    ensures EncodedFrom(s, start) == EncodedIfGood([s[start..DotFrom(s, start)]] + rest)
  {
    var one := s[start..DotFrom(s, start)];
    assert [|one|] + one + [] == [|one|] + one;
    EncodedIfGoodCons(one, rest);
  }

  lemma {:induction false} EncodedFromIsSplit(s: Text, start: nat)
    requires start <= |s|
    ensures EncodedFrom(s, start) == EncodedIfGood(SplitFrom(s, start))
    decreases |s| - start
  {
    var end := DotFrom(s, start);
    SplitStep(s, start);
    if end < |s| {
      EncodedFromIsSplit(s, end + 1);
      EncodedFromStep(s, start, SplitFrom(s, end + 1));
    } else {
      EncodedFromStep(s, start, []);
    }
  }

  /** `qname` is the encoding of the labels before `start`. */
  ghost predicate Encoding(host: Text, qname: seq<byte>, start: nat) {
    start <= |host| && EncodedFrom(host, 0) == Prefixed(qname, EncodedFrom(host, start))
  }

  lemma EncodingStep(host: Text, qname: seq<byte>, start: nat)
    requires Encoding(host, qname, start)
    requires GoodLabel(host[start..DotFrom(host, start)]) && DotFrom(host, start) < |host|
    ensures Encoding(host, qname + Head(host, start), DotFrom(host, start) + 1)
  {
    PrefixedTwice(qname, Head(host, start), EncodedFrom(host, DotFrom(host, start) + 1));
  }

  method EncodeName(host: Text) returns (ok: bool, qname: seq<byte>)
    ensures ok == EncodedFrom(host, 0).Some?
    ensures ok ==> Some(qname) == EncodedFrom(host, 0)
  {
    qname := [];
    var start: nat := 0;
    assert EncodedFrom(host, 0).Some? ==> [] + EncodedFrom(host, 0).value == EncodedFrom(host, 0).value;
    while start <= |host|
      invariant Encoding(host, qname, start)
      decreases |host| - start
    {
      var end := FindDot(host, start);
      if end - start == 0 || end - start > 63 {
        return false, qname;
      }
      var part := EncodeLabel(host, start, end);
      if end == |host| {
        qname := qname + part;
        break;
      }
      EncodingStep(host, qname, start);
      qname := qname + part;
      start := end + 1;
    }
    ok := true;
  }

  method EncodeLabel(host: Text, start: nat, end: nat) returns (r: seq<byte>)
    requires start <= end <= |host| && GoodLabel(host[start..end]) && end == DotFrom(host, start)
    ensures r == Head(host, start)
  {
    r := [end - start];
    for i := start to end
      invariant r == [end - start] + host[start..i]
    {
      r := r + [host[i]];
    }
  }

  /** The empty message stands for a refused host. */
  method BuildQuery(host: Text, qtype: U16, txid: U16) returns (msg: seq<byte>)
    ensures msg == if ValidHost(host) then Query(host, qtype, txid) else []
  {
    EncodedFromIsSplit(host, 0);
    if host == [] {
      return [];
    }
    var ok, qname := EncodeName(host);
    if !ok {
      return [];
    }
    EncodedLength(host, 0);
    qname := qname + [0];
    if |qname| > 255 {
      return [];
    }
    msg := [txid / 256, txid % 256, 1, 0, 0, 1, 0, 0, 0, 0, 0, 0];
    msg := msg + qname;
    msg := msg + [qtype / 256, qtype % 256, 0, 1];
  }

  /** The size of a query; neither an empty host nor one with a dot at the end has any. */
  lemma QueryBounds(host: Text, qtype: U16, txid: U16)
    ensures ValidHost(host) ==> |Query(host, qtype, txid)| == |host| + 18 <= 271
    ensures host == [] ==> !ValidHost(host)
    ensures host != [] && host[|host| - 1] == Dot ==> !ValidHost(host)
  {
    if ValidHost(host) {
      EncodedLength(host, 0);
    }
    if host == [] || host[|host| - 1] == Dot {
      EmptyLabel(host, 0);
      EncodedFromIsSplit(host, 0);
    }
  }

  /** Behind a dot at the end, or at the end of nothing, there is an empty label. */
  lemma {:induction false} EmptyLabel(s: Text, start: nat)
    requires start <= |s| && (start == |s| || s[|s| - 1] == Dot)
    ensures EncodedFrom(s, start) == None
    decreases |s| - start
  {
    if start < |s| {
      DotIsFound(s, start, |s| - 1);
      EmptyLabel(s, DotFrom(s, start) + 1);
    }
  }

  // ----- the name of a query decodes to the host ---------------------------------------------

  predicate LabelAt(d: seq<byte>, pos: nat, one: Text) {
    && pos + 1 + |one| <= |d| && d[pos] as int == |one| && d[pos + 1..pos + 1 + |one|] == one
  }

  /** The labels stand one behind the other, from a position up to the root before `end`. */
  predicate Stands(d: seq<byte>, pos: nat, labels: seq<Text>, end: nat)
    decreases |labels|
  {
    if labels == [] then pos < |d| && d[pos] == 0 && end == pos + 1
    else LabelAt(d, pos, labels[0]) && Stands(d, pos + 1 + |labels[0]|, labels[1..], end)
  }

  lemma {:induction false} NameInPlace(d: seq<byte>, pos: nat, labels: seq<Text>, end: nat)
    requires GoodLabels(labels) && Stands(d, pos, labels, end)
    ensures StopOf(d, pos) == Root(end) && LabelsOf(d, pos) == labels
    decreases |labels|
  {
    if labels != [] {
      assert [labels[0]] + labels[1..] == labels;
      GoodCons(labels[0], labels[1..]);
      LabelInPlace(d, pos, labels[0]);
      NameInPlace(d, pos + 1 + |labels[0]|, labels[1..], end);
    }
  }

  lemma {:induction false} EncodedStands(d: seq<byte>, pos: nat, labels: seq<Text>)
    requires GoodLabels(labels) && pos + |Encoded(labels)| < |d|
    requires d[pos..pos + |Encoded(labels)|] == Encoded(labels) && d[pos + |Encoded(labels)|] == 0
    ensures Stands(d, pos, labels, pos + |Encoded(labels)| + 1)
    decreases |labels|
  {
    if labels != [] {
      assert [labels[0]] + labels[1..] == labels;
      GoodCons(labels[0], labels[1..]);
      EncodedFirst(d, pos, Encoded(labels), labels[0], Encoded(labels[1..]));
      EncodedStands(d, pos + 1 + |labels[0]|, labels[1..]);
    }
  }

  /** An encoding at a position starts with its first label, and that of the others follows. */
  lemma EncodedFirst(d: seq<byte>, pos: nat, enc: seq<byte>, one: Text, tail: seq<byte>)
    requires |one| < 256 && enc == [|one|] + one + tail
    requires pos + |enc| <= |d| && d[pos..pos + |enc|] == enc
    ensures var next := pos + 1 + |one|;
            LabelAt(d, pos, one) && d[next..next + |tail|] == tail
  {
    var next := pos + 1 + |one|;
    assert d[pos] == enc[0];
    forall i | 0 <= i < |one| ensures d[pos + 1..next][i] == one[i] {
      assert d[pos..pos + |enc|][1 + i] == enc[1 + i] == one[i];
    }
    forall i | 0 <= i < |tail| ensures d[next..next + |tail|][i] == tail[i] {
      assert d[pos..pos + |enc|][1 + |one| + i] == enc[1 + |one| + i] == tail[i];
    }
  }

  lemma LabelInPlace(d: seq<byte>, pos: nat, one: Text)
    requires GoodLabel(one) && LabelAt(d, pos, one)
    ensures StopOf(d, pos) == StopOf(d, pos + 1 + |one|)
    ensures LabelsOf(d, pos) == [one] + LabelsOf(d, pos + 1 + |one|)
  {
  }

  lemma LowerAtDot(s: Text, start: nat, end: nat)
    requires start <= end < |s| && s[end] == Dot
    ensures LowerAll(s[start..]) == LowerAll(s[start..end]) + [Dot] + LowerAll(s[end + 1..])
  {
  }

  /** The labels from a position on, in lower case, with dots between them. */
  function TextFrom(s: Text, start: nat): Text
    requires start <= |s|
    decreases |s| - start
  {
    var end := DotFrom(s, start);
    if end == |s| then LowerAll(s[start..end])
    else LowerAll(s[start..end]) + [Dot] + TextFrom(s, end + 1)
  }

  lemma {:induction false} TextFromIsLower(s: Text, start: nat)
    requires start <= |s|
    ensures TextFrom(s, start) == LowerAll(s[start..])
    decreases |s| - start
  {
    var end := DotFrom(s, start);
    if end < |s| {
      TextFromIsLower(s, end + 1);
      LowerAtDot(s, start, end);
    } else {
      assert s[start..end] == s[start..];
    }
  }

  lemma {:induction false} TextFromIsSplit(s: Text, start: nat)
    requires start <= |s|
    ensures TextOf(SplitFrom(s, start)) == TextFrom(s, start)
    decreases |s| - start
  {
    var end := DotFrom(s, start);
    if end < |s| {
      TextFromIsSplit(s, end + 1);
      TextFromStep(s, start, SplitFrom(s, end + 1));
    }
  }

  lemma TextFromStep(s: Text, start: nat, rest: seq<Text>)
    requires start <= |s| && DotFrom(s, start) < |s|
    requires rest != [] && TextOf(rest) == TextFrom(s, DotFrom(s, start) + 1)
    ensures TextFrom(s, start) == TextOf([s[start..DotFrom(s, start)]] + rest)
  {
    TextCons(s[start..DotFrom(s, start)], rest);
  }

  /** Joining the labels again gives the host back, in lower case. */
  lemma TextOfSplit(s: Text, start: nat)
    requires start <= |s|
    ensures TextOf(SplitFrom(s, start)) == LowerAll(s[start..])
  {
    TextFromIsSplit(s, start);
    TextFromIsLower(s, start);
  }

  /** The query, sent back as a response without answers. */
  function Echo(host: Text, qtype: U16, txid: U16): seq<byte>
    requires ValidHost(host)
  {
    Query(host, qtype, txid)[2 := 0x81]
  }

  lemma EchoName(host: Text, qtype: U16, txid: U16)
    requires ValidHost(host)
    ensures var d := Echo(host, qtype, txid);
            && StopOf(d, 12) == Root(12 + |host| + 2) && |d| == 12 + |host| + 2 + 4
            && NameAt(d, 12, MaxJumps) == Some(Split(host))
  {
    var d := Echo(host, qtype, txid);
    var before: seq<byte> := [txid / 256, txid % 256, 0x81, 0, 0, 1, 0, 0, 0, 0, 0, 0];
    var after: seq<byte> := [qtype / 256, qtype % 256, 0, 1];
    var name := Encoded(Split(host));
    assert d == before + name + [0] + after;
    EncodedLength(host, 0);
    assert d[12..12 + |name|] == name && d[12 + |name|] == 0;
    EncodedStands(d, 12, Split(host));
    NameInPlace(d, 12, Split(host), 12 + |name| + 1);
  }

  /** Round trip: the echoed query is accepted when the caller expects no particular host or one
      that is the same up to case and trailing dots, and it is refused for every other. */
  lemma EchoAccepted(host: Text, qtype: U16, txid: U16, expected: Text)
    requires ValidHost(host)
    ensures Verdict(Echo(host, qtype, txid), txid, expected, []) ==
            if expected == [] || LowerAll(Strip(expected)) == LowerAll(host) then None
            else Some(QuestionMismatch)
  {
    EchoName(host, qtype, txid);
    TextOfSplit(host, 0);
    assert host[0..] == host;
    var d := Echo(host, qtype, txid);
    assert QuestionsEnd(d, 12, 1) == Success(|d|) by {
      assert QuestionsEnd(d, |d|, 0) == Success(|d|);
    }
  }

  /** A host that can be asked for has no trailing dot, so a variant of it is one that differs in
      case and by dots at the end only. */
  lemma Variants(host: Text, other: Text, dots: Text)
    requires ValidHost(host) && LowerAll(other) == LowerAll(host)
    requires forall i | 0 <= i < |dots| :: dots[i] == Dot
    ensures LowerAll(Strip(other + dots)) == LowerAll(host)
  {
    if dots == [] {
      QueryBounds(host, 0, 0);
      assert other + dots == other;
      var n := |host| - 1;
      assert LowerAll(other)[n] == LowerAll(host)[n];
    } else {
      assert (other + dots)[..|other + dots| - 1] == other + dots[..|dots| - 1];
      Variants(host, other, dots[..|dots| - 1]);
    }
  }
}
