/** `HttpConnector::BuildRequestText`: the text of a request (RFC 9112, section 2.1), and what a
    receiver reads out of it. */
module HttpRequestText {
  import opened Wrappers
  import opened Bytes
  import opened Texts
  import opened HttpUrl

  const Cr: byte := 13
  const Lf: byte := 10
  const Space: byte := 32

  const CrLf: Text := [13, 10]

  // ----- what is allowed in a request --------------------------------------------------------

  /** A character of a token (RFC 9110, section 5.6.2). */
  predicate TokenChar(b: byte) {
    || 97 <= b <= 122 || 65 <= b <= 90 || 48 <= b <= 57
    || b == 33 || 35 <= b <= 39 || b == 42 || b == 43 || b == 45 || b == 46
    || 94 <= b <= 96 || b == 124 || b == 126
  }

  predicate Token(s: Text) {
    s != [] && forall i | 0 <= i < |s| :: TokenChar(s[i])
  }

  /** The letters, the digits and fifteen marks. */
  lemma TokenCharIs(b: byte)
    ensures TokenChar(b) <==>
              || 'a' as int <= b <= 'z' as int || 'A' as int <= b <= 'Z' as int || '0' as int <= b <= '9' as int
              || b as char in {'!', '#', '$', '%', '&', '\'', '*', '+', '-', '.', '^', '_', '`', '|', '~'}
  {
  }

  /** A header value that cannot end its line. */
  predicate SafeValue(s: Text) {
    forall i | 0 <= i < |s| :: s[i] != Cr && s[i] != Lf && s[i] != 0
  }

  datatype Field = Field(name: Text, value: Text)

  /** The headers are in the order of the map they come from. */
  datatype Request = Request(verb: Text, headers: seq<Field>, body: Text)

  datatype BuildError = UnfitMethod | UnfitTarget | UnfitName(i: nat) | UnfitValue(i: nat) | UnfitHost

  function Upper(b: byte): byte {
    if 97 <= b <= 122 then b - 32 else b
  }

  function UpperAll(s: Text): (r: Text)
    ensures |r| == |s|
  {
    seq(|s|, i requires 0 <= i < |s| => Upper(s[i]))
  }

  function Verb(req: Request): Text {
    if req.verb == [] then Ascii("GET") else req.verb
  }

  predicate ExpectsBody(verb: Text) {
    var v := UpperAll(verb);
    v == Ascii("POST") || v == Ascii("PUT") || v == Ascii("PATCH")
  }

  predicate NeedsLength(req: Request) {
    req.body != [] || ExpectsBody(Verb(req))
  }

  /** `_FindHeaderCI`: the value of the first header with this name, whatever its case. */
  function FindHeader(hs: seq<Field>, lower: Text): Option<Text> {
    if hs == [] then None
    else if LowerAll(hs[0].name) == lower then Some(hs[0].value)
    else FindHeader(hs[1..], lower)
  }

  function HostValue(req: Request, hostHeader: Text): Text {
    var h := FindHeader(req.headers, Ascii("host"));
    if h.Some? then h.value else hostHeader
  }

  function HeaderError(hs: seq<Field>, from: nat): Option<BuildError>
    requires from <= |hs|
    decreases |hs| - from
  {
    if from == |hs| then None
    else if !Token(hs[from].name) then Some(UnfitName(from))
    else if !SafeValue(hs[from].value) then Some(UnfitValue(from))
    else HeaderError(hs, from + 1)
  }

  function BuildErrorOf(req: Request, target: Text, hostHeader: Text): Option<BuildError> {
    if !Token(Verb(req)) then Some(UnfitMethod)
    else if target == [] || !SafePart(target) then Some(UnfitTarget)
    else if HeaderError(req.headers, 0).Some? then HeaderError(req.headers, 0)
    else if HostValue(req, hostHeader) == [] || !SafeValue(HostValue(req, hostHeader)) then Some(UnfitHost)
    else None
  }

  // ----- the intended head -------------------------------------------------------------------

  /** Headers that the connector writes itself, or not at all. */
  predicate Reserved(name: Text) {
    var l := LowerAll(name);
    || l == Ascii("host") || l == Ascii("content-length") || l == Ascii("connection")
    || l == Ascii("transfer-encoding")
  }

  function Kept(hs: seq<Field>): seq<Field> {
    if hs == [] then []
    else if Reserved(hs[0].name) then Kept(hs[1..])
    else [hs[0]] + Kept(hs[1..])
  }

  function When(b: bool, f: Field): seq<Field> {
    if b then [f] else []
  }

  function HostField(value: Text): Field { Field(Ascii("Host"), value) }
  function AgentField(): Field { Field(Ascii("User-Agent"), Ascii("ttsignal/1.0")) }
  function LengthField(n: nat): Field { Field(Ascii("Content-Length"), Decimal(n)) }
  function CloseField(): Field { Field(Ascii("Connection"), Ascii("close")) }

  /** The header fields of the request, in order. */
  function Intended(req: Request, hostHeader: Text, keepAlive: bool): seq<Field> {
    [HostField(HostValue(req, hostHeader))]
    + When(FindHeader(req.headers, Ascii("user-agent")).None?, AgentField())
    + When(NeedsLength(req), LengthField(|req.body|))
    + When(!keepAlive, CloseField())
    + Kept(req.headers)
  }

  function RequestLine(verb: Text, target: Text): Text {
    verb + [Space] + target + [Space] + Ascii("HTTP/1.1")
  }

  function Line(f: Field): Text {
    f.name + [Colon, Space] + f.value
  }

  function Lines(fs: seq<Field>): (ls: seq<Text>)
    ensures |ls| == |fs|
  {
    seq(|fs|, i requires 0 <= i < |fs| => Line(fs[i]))
  }

  function Head(req: Request, target: Text, hostHeader: Text, keepAlive: bool): seq<Text> {
    [RequestLine(Verb(req), target)] + Lines(Intended(req, hostHeader, keepAlive))
  }

  /** Every line and its end. */
  function Joined(lines: seq<Text>): Text {
    if lines == [] then [] else lines[0] + CrLf + Joined(lines[1..])
  }

  /** A head, the empty line, and a body. */
  function Printed(lines: seq<Text>, body: Text): Text {
    Joined(lines) + CrLf + body
  }

  // ----- the builder -------------------------------------------------------------------------

  method FindHeaderCI(hs: seq<Field>, lower: Text) returns (r: Option<Text>)
    ensures r == FindHeader(hs, lower)
  {
    assert hs[0..] == hs;
    for i := 0 to |hs|
      invariant FindHeader(hs[i..], lower) == FindHeader(hs, lower)
    {
      assert hs[i..][1..] == hs[i + 1..];
      if LowerAll(hs[i].name) == lower {
        return Some(hs[i].value);
      }
    }
    r := None;
  }

  lemma {:induction false} JoinedAppend(a: seq<Text>, b: seq<Text>)
    ensures Joined(a + b) == Joined(a) + Joined(b)
  {
    if a == [] {
      assert a + b == b;
    } else {
      assert (a + b)[1..] == a[1..] + b;
      JoinedAppend(a[1..], b);
    }
  }

  lemma {:induction false} KeptOne(hs: seq<Field>, h: Field)
    ensures Kept(hs + [h]) == Kept(hs) + (if Reserved(h.name) then [] else [h])
  {
    if hs == [] {
      assert hs + [h] == [h];
    } else {
      assert (hs + [h])[1..] == hs[1..] + [h];
      KeptOne(hs[1..], h);
    }
  }

  method CheckHeaders(hs: seq<Field>) returns (err: Option<BuildError>)
    ensures err == HeaderError(hs, 0)
  {
    for i := 0 to |hs|
      invariant HeaderError(hs, i) == HeaderError(hs, 0)
    {
      if !Token(hs[i].name) {
        return Some(UnfitName(i));
      }
      if !SafeValue(hs[i].value) {
        return Some(UnfitValue(i));
      }
    }
    err := None;
  }

  /** The lines of the user's own headers. */
  method AppendHeaders(hs: seq<Field>, before: Text, ghost first: seq<Text>, ghost done: seq<Field>)
    returns (out: Text)
    requires before == Joined(first + Lines(done))
    ensures out == Joined(first + Lines(done + Kept(hs)))
  {
    out := before;
    assert done + Kept([]) == done && hs[..0] == [];
    for i := 0 to |hs|
      invariant out == Joined(first + Lines(done + Kept(hs[..i])))
    {
      assert hs[..i + 1] == hs[..i] + [hs[i]];
      KeptOne(hs[..i], hs[i]);
      if Reserved(hs[i].name) {
        assert Kept(hs[..i]) + [] == Kept(hs[..i]);
        continue;
      }
      assert done + (Kept(hs[..i]) + [hs[i]]) == done + Kept(hs[..i]) + [hs[i]];
      JoinedField(first, done + Kept(hs[..i]), hs[i]);
      out := out + hs[i].name + [Colon, Space] + hs[i].value + CrLf;
    }
    assert hs[..|hs|] == hs;
  }

  method BuildRequestText(req: Request, target: Text, hostHeader: Text, keepAlive: bool)
    returns (r: Result<Text, BuildError>)
    ensures r == match BuildErrorOf(req, target, hostHeader)
                 case Some(e) => Failure(e)
                 case None => Success(Printed(Head(req, target, hostHeader, keepAlive), req.body))
  {
    var verb := if req.verb == [] then Ascii("GET") else req.verb;
    if !Token(verb) {
      return Failure(UnfitMethod);
    }
    if target == [] || !SafePart(target) {
      return Failure(UnfitTarget);
    }
    var err := CheckHeaders(req.headers);
    if err.Some? {
      return Failure(err.value);
    }
    var hostValue := hostHeader;
    var host := FindHeaderCI(req.headers, Ascii("host"));
    if host.Some? {
      hostValue := host.value;
    }
    if hostValue == [] || !SafeValue(hostValue) {
      return Failure(UnfitHost);
    }
    var out := BuildHead(req, target, hostValue, hostHeader, keepAlive);
    out := out + CrLf;
    out := out + req.body;
    r := Success(out);
  }

  method BuildHead(req: Request, target: Text, hostValue: Text, ghost hostHeader: Text, keepAlive: bool)
    returns (out: Text)
    requires hostValue == HostValue(req, hostHeader)
    ensures out == Joined(Head(req, target, hostHeader, keepAlive))
  {
    out := Verb(req) + [Space] + target + ([Space] + Ascii("HTTP/1.1")) + CrLf;
    ghost var first := [RequestLine(Verb(req), target)];
    assert out == Joined(first) by { SingleLine(RequestLine(Verb(req), target)); }
    ghost var host := [HostField(hostValue)];
    assert first + Lines([]) == first && [] + host == host;
    out := AppendField(out, true, HostField(hostValue), first, []);
    var agent := FindHeaderCI(req.headers, Ascii("user-agent"));
    out := AppendField(out, agent.None?, AgentField(), first, host);
    ghost var two := host + When(agent.None?, AgentField());
    out := AppendField(out, NeedsLength(req), LengthField(|req.body|), first, two);
    ghost var three := two + When(NeedsLength(req), LengthField(|req.body|));
    out := AppendField(out, !keepAlive, CloseField(), first, three);
    out := AppendHeaders(req.headers, out, first, three + When(!keepAlive, CloseField()));
  }

  lemma SingleLine(line: Text)
    ensures Joined([line]) == line + CrLf
  {
    assert [line][1..] == [];
    assert line + CrLf + [] == line + CrLf;
  }

  /** The text so far is the line `first` and the fields `done`. */
  method AppendField(before: Text, wanted: bool, f: Field, ghost first: seq<Text>, ghost done: seq<Field>)
    returns (out: Text)
    requires before == Joined(first + Lines(done))
    ensures out == Joined(first + Lines(done + When(wanted, f)))
  {
    out := before;
    if wanted {
      JoinedField(first, done, f);
      out := out + f.name + [Colon, Space] + f.value + CrLf;
    } else {
      assert done + [] == done;
    }
  }

  lemma JoinedField(first: seq<Text>, done: seq<Field>, f: Field)
    ensures Joined(first + Lines(done + [f])) == Joined(first + Lines(done)) + Line(f) + CrLf
  {
    assert first + Lines(done + [f]) == first + Lines(done) + [Line(f)];
    JoinedAppend(first + Lines(done), [Line(f)]);
    SingleLine(Line(f));
  }

  // ----- what a receiver reads ---------------------------------------------------------------

  /** The first line break at or behind a position, or the length. */
  function LineEnd(s: Text, from: nat): (i: nat)
    requires from <= |s|
    ensures from <= i <= |s| && (i < |s| ==> i + 2 <= |s| && s[i] == Cr && s[i + 1] == Lf)
    decreases |s| - from
  {
    if from == |s| then from
    else if from + 2 <= |s| && s[from] == Cr && s[from + 1] == Lf then from
    else LineEnd(s, from + 1)
  }

  /** A receiver reads lines up to the first empty one; the rest is the body. */
  function ReadMessage(s: Text): Option<(seq<Text>, Text)>
    decreases |s|
  {
    var end := LineEnd(s, 0);
    if end == |s| then None
    else if end == 0 then Some(([], s[2..]))
    else
      match ReadMessage(s[end + 2..])
      case None => None
      case Some((lines, body)) => Some(([s[..end]] + lines, body))
  }

  /** A field line is split at its first colon. */
  function ReadField(line: Text): Option<Field> {
    var colon := IndexOf(line, {Colon});
    if colon + 2 > |line| || line[colon + 1] != Space then None
    else Some(Field(line[..colon], line[colon + 2..]))
  }

  /** A request line is split at its first two spaces. */
  function ReadRequestLine(line: Text): Option<(Text, Text, Text)> {
    var first := IndexOf(line, {Space});
    if first == |line| then None
    else
      var rest := line[first + 1..];
      var second := IndexOf(rest, {Space});
      if second == |rest| then None
      else Some((line[..first], rest[..second], rest[second + 1..]))
  }

  /** The method and the target are read back from the request line. */
  lemma RequestLineReadBack(verb: Text, target: Text)
    requires Token(verb) && SafePart(target)
    ensures ReadRequestLine(RequestLine(verb, target)) == Some((verb, target, Ascii("HTTP/1.1")))
  {
    var version := Ascii("HTTP/1.1");
    var rest := target + [Space] + version;
    assert RequestLine(verb, target) == verb + [Space] + rest;
    FirstCut(verb, Space, rest);
    FirstCut(target, Space, version);
  }

  /** A text that lacks the separator is found in front of it. */
  lemma FirstCut(a: Text, sep: byte, b: Text)
    requires sep !in a
    ensures var s := a + [sep] + b;
            IndexOf(s, {sep}) == |a| && s[..|a|] == a && s[|a| + 1..] == b
  {
    assert a + [sep] + b == a + ([sep] + b);
    IndexOfAppend(a, [sep] + b, {sep});
  }

  predicate GoodLine(l: Text) {
    l != [] && Cr !in l && Lf !in l
  }

  predicate GoodLines(ls: seq<Text>) {
    forall i | 0 <= i < |ls| :: GoodLine(ls[i])
  }

  lemma {:induction false} LineEndIs(s: Text, from: nat, end: nat)
    requires from <= end && end + 2 <= |s| && s[end] == Cr && s[end + 1] == Lf
    requires forall i | from <= i < end :: s[i] != Cr
    ensures LineEnd(s, from) == end
    decreases end - from
  {
    if from < end {
      LineEndIs(s, from + 1, end);
    }
  }

  lemma ReadLine(l: Text, rest: Text)
    requires GoodLine(l)
    ensures ReadMessage(l + CrLf + rest) ==
            match ReadMessage(rest) case None => None case Some((lines, body)) => Some(([l] + lines, body))
  {
    var s := l + CrLf + rest;
    LineEndIs(s, 0, |l|);
    assert s[..|l|] == l && s[|l| + 2..] == rest;
  }

  /** Framing: the receiver reads exactly the lines and exactly the body that were printed. */
  lemma {:induction false} PrintedReadBack(lines: seq<Text>, body: Text)
    requires GoodLines(lines)
    ensures ReadMessage(Printed(lines, body)) == Some((lines, body))
    decreases |lines|
  {
    var s := Printed(lines, body);
    if lines == [] {
      assert s == CrLf + body;
      LineEndIs(s, 0, 0);
      assert s[2..] == body;
    } else {
      var rest := Printed(lines[1..], body);
      assert s == lines[0] + CrLf + rest;
      ReadLine(lines[0], rest);
      PrintedReadBack(lines[1..], body);
      assert [lines[0]] + lines[1..] == lines;
    }
  }

  predicate BlankAt(s: Text, i: nat) {
    i + 4 <= |s| && s[i] == Cr && s[i + 1] == Lf && s[i + 2] == Cr && s[i + 3] == Lf
  }

  /** The first CR LF CR LF of the text is the end of its head. */
  lemma {:induction false} FirstBlank(lines: seq<Text>, body: Text)
    requires GoodLines(lines) && lines != []
    ensures |Joined(lines)| >= 2 && BlankAt(Printed(lines, body), |Joined(lines)| - 2)
    ensures forall k: nat | k < |Joined(lines)| - 2 :: !BlankAt(Printed(lines, body), k)
    decreases |lines|
  {
    var s := Printed(lines, body);
    var l, rest := lines[0], Printed(lines[1..], body);
    assert s == l + CrLf + rest;
    var n := |l| + 2;
    if lines[1..] == [] {
      assert rest == CrLf + body;
    } else {
      FirstBlank(lines[1..], body);
      assert rest == lines[1] + CrLf + Joined(lines[2..]) + CrLf + body by {
        assert lines[1..][1..] == lines[2..];
      }
      assert s[n] == lines[1][0];
      forall k: nat | k < |Joined(lines)| - 2 ensures !BlankAt(s, k) {
        if k >= n {
          assert !BlankAt(rest, k - n);
        } else if k < |l| {
          assert s[k] == l[k];
        }
      }
    }
  }

  /** A field with a token for a name is read back from its line. */
  lemma FieldReadBack(f: Field)
    requires Token(f.name)
    ensures ReadField(Line(f)) == Some(f)
  {
    IndexOfAppend(f.name, [Colon, Space] + f.value, {Colon});
    assert Line(f) == f.name + ([Colon, Space] + f.value);
    assert Line(f)[..|f.name|] == f.name && Line(f)[|f.name| + 2..] == f.value;
  }

  // ----- the fields that are sent ------------------------------------------------------------

  predicate FieldOk(f: Field) {
    Token(f.name) && SafeValue(f.value)
  }

  predicate FieldsOk(fs: seq<Field>) {
    forall i | 0 <= i < |fs| :: FieldOk(fs[i])
  }

  lemma {:induction false} HeadersOk(hs: seq<Field>, from: nat)
    requires from <= |hs| && HeaderError(hs, from) == None
    ensures forall i | from <= i < |hs| :: FieldOk(hs[i])
    decreases |hs| - from
  {
    if from < |hs| {
      HeadersOk(hs, from + 1);
    }
  }

  lemma {:induction false} KeptOk(hs: seq<Field>)
    requires FieldsOk(hs)
    ensures FieldsOk(Kept(hs))
  {
    if hs != [] {
      KeptOk(hs[1..]);
    }
  }

  lemma OwnFieldsOk(n: nat)
    ensures Token(HostField([]).name) && FieldOk(AgentField()) && FieldOk(LengthField(n))
    ensures FieldOk(CloseField())
  {
  }

  lemma IntendedOk(req: Request, target: Text, hostHeader: Text, keepAlive: bool)
    requires BuildErrorOf(req, target, hostHeader) == None
    ensures FieldsOk(Intended(req, hostHeader, keepAlive))
  {
    HeadersOk(req.headers, 0);
    KeptOk(req.headers);
    OwnFieldsOk(|req.body|);
  }

  lemma GoodLineOf(f: Field)
    requires FieldOk(f)
    ensures GoodLine(Line(f))
  {
  }

  lemma HeadIsGood(req: Request, target: Text, hostHeader: Text, keepAlive: bool)
    requires BuildErrorOf(req, target, hostHeader) == None
    ensures GoodLines(Head(req, target, hostHeader, keepAlive))
  {
    var fs := Intended(req, hostHeader, keepAlive);
    IntendedOk(req, target, hostHeader, keepAlive);
    forall i | 0 <= i < |fs| ensures GoodLine(Lines(fs)[i]) {
      GoodLineOf(fs[i]);
    }
    assert GoodLine(RequestLine(Verb(req), target));
  }

  /** Without a method of its own, a request is a GET. */
  lemma FirstLineReadBack(req: Request, target: Text)
    requires Token(Verb(req)) && SafePart(target)
    ensures ReadRequestLine(RequestLine(Verb(req), target)) ==
            Some((if req.verb == [] then [71, 69, 84] else req.verb, target, Ascii("HTTP/1.1")))
  {
    RequestLineReadBack(Verb(req), target);
    assert Ascii("GET") == [71, 69, 84];
  }

  /** In every text that is built, the first CR LF CR LF is the end of the head, the receiver reads
      the request line, exactly the intended fields, and exactly the body. */
  lemma TextReadBack(req: Request, target: Text, hostHeader: Text, keepAlive: bool)
    requires BuildErrorOf(req, target, hostHeader) == None
    ensures var head := Head(req, target, hostHeader, keepAlive);
            var fs := Intended(req, hostHeader, keepAlive);
            && ReadMessage(Printed(head, req.body)) == Some((head, req.body))
            && ReadRequestLine(head[0]) ==
               Some((if req.verb == [] then [71, 69, 84] else req.verb, target, Ascii("HTTP/1.1")))
            && (forall i | 0 <= i < |fs| :: ReadField(head[1 + i]) == Some(fs[i]))
            && (forall k: nat | k < |Joined(head)| - 2 :: !BlankAt(Printed(head, req.body), k))
            && BlankAt(Printed(head, req.body), |Joined(head)| - 2)
  {
    var head := Head(req, target, hostHeader, keepAlive);
    var fs := Intended(req, hostHeader, keepAlive);
    HeadIsGood(req, target, hostHeader, keepAlive);
    FirstLineReadBack(req, target);
    PrintedReadBack(head, req.body);
    FirstBlank(head, req.body);
    IntendedOk(req, target, hostHeader, keepAlive);
    forall i | 0 <= i < |fs| ensures ReadField(head[1 + i]) == Some(fs[i]) {
      FieldReadBack(fs[i]);
    }
  }

  /** How many fields have a name, whatever its case. */
  function Count(fs: seq<Field>, lower: Text): nat {
    if fs == [] then 0 else (if LowerAll(fs[0].name) == lower then 1 else 0) + Count(fs[1..], lower)
  }

  lemma {:induction false} CountAppend(a: seq<Field>, b: seq<Field>, lower: Text)
    ensures Count(a + b, lower) == Count(a, lower) + Count(b, lower)
  {
    if a == [] {
      assert a + b == b;
    } else {
      assert (a + b)[1..] == a[1..] + b;
      CountAppend(a[1..], b, lower);
    }
  }

  lemma {:induction false} KeptHasNoReserved(hs: seq<Field>, lower: Text)
    requires forall name: Text :: LowerAll(name) == lower ==> Reserved(name)
    ensures Count(Kept(hs), lower) == 0
  {
    if hs != [] {
      KeptHasNoReserved(hs[1..], lower);
      if !Reserved(hs[0].name) {
        assert Kept(hs)[1..] == Kept(hs[1..]);
      }
    }
  }

  lemma CountWhen(wanted: bool, f: Field, lower: Text)
    ensures Count(When(wanted, f), lower) == if wanted && LowerAll(f.name) == lower then 1 else 0
  {
    assert [f][1..] == [];
  }

  predicate Named(f: Field, lower: Text) {
    LowerAll(f.name) == lower
  }

  /** The number of fields of one name among those that the connector adds and those it keeps. */
  lemma CountIntended(req: Request, hostHeader: Text, keepAlive: bool, lower: Text)
    requires forall name: Text :: LowerAll(name) == lower ==> Reserved(name)
    ensures Count(Intended(req, hostHeader, keepAlive), lower) ==
            (if Named(HostField(HostValue(req, hostHeader)), lower) then 1 else 0)
            + (if FindHeader(req.headers, Ascii("user-agent")).None? && Named(AgentField(), lower) then 1 else 0)
            + (if NeedsLength(req) && Named(LengthField(|req.body|), lower) then 1 else 0)
            + (if !keepAlive && Named(CloseField(), lower) then 1 else 0)
  {
    var h := When(true, HostField(HostValue(req, hostHeader)));
    var u := When(FindHeader(req.headers, Ascii("user-agent")).None?, AgentField());
    var c := When(NeedsLength(req), LengthField(|req.body|));
    var k := When(!keepAlive, CloseField());
    KeptHasNoReserved(req.headers, lower);
    CountAppend(h + u + c + k, Kept(req.headers), lower);
    CountAppend(h + u + c, k, lower);
    CountAppend(h + u, c, lower);
    CountAppend(h, u, lower);
    CountWhen(true, HostField(HostValue(req, hostHeader)), lower);
    CountWhen(FindHeader(req.headers, Ascii("user-agent")).None?, AgentField(), lower);
    CountWhen(NeedsLength(req), LengthField(|req.body|), lower);
    CountWhen(!keepAlive, CloseField(), lower);
  }

  lemma HostNamed(value: Text)
    ensures Named(HostField(value), Ascii("host")) && |HostField(value).name| == 4
  {
  }

  lemma AgentNamed()
    ensures !Named(AgentField(), Ascii("connection")) && |AgentField().name| == 10
  {
    assert LowerAll(AgentField().name)[0] != Ascii("connection")[0];
  }

  lemma LengthNamed(n: nat)
    ensures Named(LengthField(n), Ascii("content-length")) && |LengthField(n).name| == 14
  {
  }

  lemma CloseNamed()
    ensures Named(CloseField(), Ascii("connection")) && |CloseField().name| == 10
  {
  }

  /** There is exactly one Host field, the first. */
  lemma OneHost(req: Request, hostHeader: Text, keepAlive: bool)
    ensures Count(Intended(req, hostHeader, keepAlive), Ascii("host")) == 1
    ensures Intended(req, hostHeader, keepAlive)[0] == HostField(HostValue(req, hostHeader))
  {
    CountIntended(req, hostHeader, keepAlive, Ascii("host"));
    HostNamed(HostValue(req, hostHeader));
  }

  lemma {:induction false} KeptCount(hs: seq<Field>, lower: Text)
    requires !Own(lower)
    ensures Count(Kept(hs), lower) == Count(hs, lower)
  {
    if hs != [] {
      KeptCount(hs[1..], lower);
      if !Reserved(hs[0].name) {
        assert Kept(hs)[1..] == Kept(hs[1..]);
      }
    }
  }

  lemma {:induction false} NoneFound(hs: seq<Field>, lower: Text)
    ensures FindHeader(hs, lower).None? <==> Count(hs, lower) == 0
  {
    if hs != [] {
      NoneFound(hs[1..], lower);
    }
  }

  /** The connector names itself exactly if the user names no agent. */
  lemma OneAgent(req: Request, hostHeader: Text, keepAlive: bool)
    ensures var n := Count(req.headers, Ascii("user-agent"));
            Count(Intended(req, hostHeader, keepAlive), Ascii("user-agent")) == if n == 0 then 1 else n
  {
    var ua := Ascii("user-agent");
    var h := When(true, HostField(HostValue(req, hostHeader)));
    var u := When(FindHeader(req.headers, ua).None?, AgentField());
    var c := When(NeedsLength(req), LengthField(|req.body|));
    var k := When(!keepAlive, CloseField());
    AgentIsOther();
    KeptCount(req.headers, ua);
    NoneFound(req.headers, ua);
    CountAppend(h + u + c + k, Kept(req.headers), ua);
    CountAppend(h + u + c, k, ua);
    CountAppend(h + u, c, ua);
    CountAppend(h, u, ua);
    CountWhen(true, HostField(HostValue(req, hostHeader)), ua);
    CountWhen(FindHeader(req.headers, ua).None?, AgentField(), ua);
    CountWhen(NeedsLength(req), LengthField(|req.body|), ua);
    CountWhen(!keepAlive, CloseField(), ua);
    HostNamed(HostValue(req, hostHeader));
    LengthNamed(|req.body|);
  }

  lemma AgentIsOther()
    ensures Named(AgentField(), Ascii("user-agent")) && !Named(CloseField(), Ascii("user-agent"))
    ensures !Own(Ascii("user-agent"))
  {
    assert LowerAll(CloseField().name)[0] != Ascii("user-agent")[0];
    assert Ascii("connection")[0] != Ascii("user-agent")[0];
  }

  /** POST, PUT and PATCH, whatever their case, have a length even without a body. */
  lemma LengthIsNeeded(req: Request)
    ensures NeedsLength(req) <==>
              || |req.body| > 0 || LowerAll(req.verb) == Ascii("post") || LowerAll(req.verb) == Ascii("put")
              || LowerAll(req.verb) == Ascii("patch")
  {
    SameWord(Verb(req), Ascii("POST"), Ascii("post"));
    SameWord(Verb(req), Ascii("PUT"), Ascii("put"));
    SameWord(Verb(req), Ascii("PATCH"), Ascii("patch"));
    if req.verb == [] {
      assert |UpperAll(Verb(req))| == 3 && UpperAll(Verb(req))[0] == 71 != Ascii("PUT")[0];
    }
  }

  lemma SameWord(v: Text, upper: Text, lower: Text)
    requires |upper| == |lower|
    requires forall i | 0 <= i < |upper| :: 65 <= upper[i] <= 90 && lower[i] == upper[i] + 32
    ensures UpperAll(v) == upper <==> LowerAll(v) == lower
  {
    if UpperAll(v) == upper {
      forall i | 0 <= i < |v| ensures LowerAll(v)[i] == lower[i] {
        assert UpperAll(v)[i] == upper[i];
      }
    }
    if LowerAll(v) == lower {
      forall i | 0 <= i < |v| ensures UpperAll(v)[i] == upper[i] {
        assert LowerAll(v)[i] == lower[i];
      }
    }
  }

  /** The Host field is the first that the user gives, whatever its case, or the URL's. */
  lemma HostIsMeant(req: Request, hostHeader: Text, keepAlive: bool, i: nat)
    ensures i < |req.headers| && FirstAt(req.headers, Ascii("host"), req.headers[i].value, i) ==>
              Intended(req, hostHeader, keepAlive)[0] == Field(Ascii("Host"), req.headers[i].value)
    ensures Count(req.headers, Ascii("host")) == 0 ==>
              Intended(req, hostHeader, keepAlive)[0] == Field(Ascii("Host"), hostHeader)
  {
    NoneFound(req.headers, Ascii("host"));
    if i < |req.headers| {
      FoundFirst(req.headers, Ascii("host"), req.headers[i].value);
    }
  }

  /** There is one Content-Length field exactly when one is needed. */
  lemma OneLength(req: Request, hostHeader: Text, keepAlive: bool)
    ensures Count(Intended(req, hostHeader, keepAlive), Ascii("content-length")) ==
            if NeedsLength(req) then 1 else 0
  {
    CountIntended(req, hostHeader, keepAlive, Ascii("content-length"));
    LengthNamed(|req.body|);
  }

  /** A Transfer-Encoding field is never sent. */
  lemma NoTransferEncoding(req: Request, hostHeader: Text, keepAlive: bool)
    ensures Count(Intended(req, hostHeader, keepAlive), Ascii("transfer-encoding")) == 0
  {
    CountIntended(req, hostHeader, keepAlive, Ascii("transfer-encoding"));
  }

  /** A Connection field is sent only to close, whatever the user asks for. */
  lemma ConnectionOnlyToClose(req: Request, hostHeader: Text, keepAlive: bool)
    ensures Count(Intended(req, hostHeader, keepAlive), Ascii("connection")) == if keepAlive then 0 else 1
  {
    CountIntended(req, hostHeader, keepAlive, Ascii("connection"));
    AgentNamed();
    CloseNamed();
  }

  predicate Own(lower: Text) {
    || lower == Ascii("host") || lower == Ascii("content-length") || lower == Ascii("connection")
    || lower == Ascii("transfer-encoding")
  }

  /** The fields the counts speak of are the connector's own; every other header of the user is sent. */
  lemma OwnFieldsSent(req: Request, hostHeader: Text, keepAlive: bool)
    ensures NeedsLength(req) ==>
              Field(Ascii("Content-Length"), Decimal(|req.body|)) in Intended(req, hostHeader, keepAlive)
    ensures !keepAlive ==> Field(Ascii("Connection"), Ascii("close")) in Intended(req, hostHeader, keepAlive)
    ensures forall f | f in req.headers && !Own(LowerAll(f.name)) :: f in Intended(req, hostHeader, keepAlive)
  {
    assert NeedsLength(req) ==> LengthField(|req.body|) in When(NeedsLength(req), LengthField(|req.body|));
    assert !keepAlive ==> CloseField() in When(!keepAlive, CloseField());
    forall f | f in req.headers && !Own(LowerAll(f.name)) ensures f in Kept(req.headers) {
      KeptKeeps(req.headers, f);
    }
  }

  /** The user's headers are sent in their order, without those that are the connector's own: `ps` are
      their places. */
  lemma {:induction false} KeptInOrder(hs: seq<Field>) returns (ps: seq<nat>)
    ensures Places(hs, Kept(hs), ps)
  {
    if hs == [] {
      ps := [];
    } else {
      var rest := KeptInOrder(hs[1..]);
      ps := seq(|rest|, k requires 0 <= k < |rest| => rest[k] + 1);
      PlacesLater(hs, Kept(hs[1..]), rest, ps);
      if !Own(LowerAll(hs[0].name)) {
        PlacesFirst(hs, Kept(hs[1..]), ps);
        ps := [0] + ps;
      }
    }
  }

  /** `ps` are the places of `kept` in `hs`, in order, and these are all that are not the connector's. */
  predicate Places(hs: seq<Field>, kept: seq<Field>, ps: seq<nat>) {
    && PlacesFrom(hs, kept, ps, 0)
  }

  predicate PlacesFrom(hs: seq<Field>, kept: seq<Field>, ps: seq<nat>, from: nat) {
    && |ps| == |kept|
    && (forall k | 0 <= k < |ps| :: from <= ps[k] < |hs| && kept[k] == hs[ps[k]])
    && (forall j, k | 0 <= j < k < |ps| :: ps[j] < ps[k])
    && (forall i | from <= i < |hs| :: i in ps <==> !Own(LowerAll(hs[i].name)))
  }

  lemma PlacesLater(hs: seq<Field>, kept: seq<Field>, rest: seq<nat>, later: seq<nat>)
    requires hs != [] && Places(hs[1..], kept, rest)
    requires |later| == |rest| && forall k | 0 <= k < |rest| :: later[k] == rest[k] + 1
    ensures PlacesFrom(hs, kept, later, 1)
  {
    forall i | 1 <= i < |hs| ensures i in later <==> !Own(LowerAll(hs[i].name)) {
      assert hs[i] == hs[1..][i - 1];
      ShiftedIn(rest, later, i);
    }
  }

  lemma PlacesFirst(hs: seq<Field>, kept: seq<Field>, ps: seq<nat>)
    requires hs != [] && !Own(LowerAll(hs[0].name)) && PlacesFrom(hs, kept, ps, 1)
    ensures Places(hs, [hs[0]] + kept, [0] + ps)
  {
  }

  lemma ShiftedIn(rest: seq<nat>, later: seq<nat>, i: nat)
    requires i > 0 && |later| == |rest| && forall k | 0 <= k < |rest| :: later[k] == rest[k] + 1
    ensures i in later <==> i - 1 in rest
  {
    if i in later {
      var k :| 0 <= k < |later| && later[k] == i;
      assert rest[k] == i - 1;
    }
    if i - 1 in rest {
      var k :| 0 <= k < |rest| && rest[k] == i - 1;
      assert later[k] == i;
    }
  }

  /** A header is found exactly if it is the first with its name, whatever its case. */
  lemma {:induction false} FoundFirst(hs: seq<Field>, lower: Text, v: Text)
    ensures FindHeader(hs, lower) == Some(v) <==> exists i :: FirstAt(hs, lower, v, i)
  {
    if hs != [] {
      if LowerAll(hs[0].name) == lower {
        assert FirstAt(hs, lower, hs[0].value, 0);
      } else {
        FoundFirst(hs[1..], lower, v);
        FoundLater(hs, lower, v);
      }
    }
  }

  predicate FirstAt(hs: seq<Field>, lower: Text, v: Text, i: nat) {
    && i < |hs| && LowerAll(hs[i].name) == lower && hs[i].value == v
    && forall k | 0 <= k < i :: LowerAll(hs[k].name) != lower
  }

  lemma FoundLater(hs: seq<Field>, lower: Text, v: Text)
    requires hs != [] && LowerAll(hs[0].name) != lower
    ensures (exists i :: FirstAt(hs, lower, v, i)) <==> (exists i :: FirstAt(hs[1..], lower, v, i))
  {
    if i: nat :| FirstAt(hs, lower, v, i) {
      assert FirstAt(hs[1..], lower, v, i - 1);
    }
    if i: nat :| FirstAt(hs[1..], lower, v, i) {
      assert FirstAt(hs, lower, v, i + 1);
    }
  }

  lemma {:induction false} KeptKeeps(hs: seq<Field>, f: Field)
    requires f in hs && !Reserved(f.name)
    ensures f in Kept(hs)
  {
    if hs[0] != f {
      KeptKeeps(hs[1..], f);
    }
  }

  /** The parts of a URL that was accepted always fit a request: what can still be refused is what
      the caller put into it. */
  lemma UrlPartsFit(url: Text, req: Request)
    requires Parsed(url).Success?
    ensures var p := Parsed(url).value;
            BuildErrorOf(req, p.target, p.hostHeader).None? <==>
              && Token(Verb(req)) && HeaderError(req.headers, 0).None?
              && HostValue(req, p.hostHeader) != []
  {
    HostHeaderFits(url);
    HostValueSafe(req, Parsed(url).value.hostHeader);
  }

  lemma HostValueSafe(req: Request, hostHeader: Text)
    requires SafeValue(hostHeader)
    ensures HeaderError(req.headers, 0).None? ==> SafeValue(HostValue(req, hostHeader))
  {
    if HeaderError(req.headers, 0).None? {
      HeadersOk(req.headers, 0);
      if FindHeader(req.headers, Ascii("host")).Some? {
        FoundIsSafe(req.headers, Ascii("host"));
      }
    }
  }

  lemma HostHeaderSafe(a: Authority, port: U16, default: U16)
    requires a.host != [] && SafePart(a.host)
    ensures HostHeader(a, port, default) != [] && SafeValue(HostHeader(a, port, default))
  {
  }

  lemma RestFits(tls: bool, rest: Text)
    requires ParseRest(tls, rest).Success?
    ensures var p := ParseRest(tls, rest).value;
            p.target != [] && SafePart(p.target) && p.hostHeader != [] && SafeValue(p.hostHeader)
  {
    var end := IndexOf(rest, {HttpUrl.Slash, Question, Hash});
    var a := ParseAuthority(rest[..end]).value;
    HostHeaderSafe(a, ParsePort(a.port, DefaultPort(tls)).value, DefaultPort(tls));
    TargetAgain(rest[end..]);
  }

  lemma HostHeaderFits(url: Text)
    requires Parsed(url).Success?
    ensures var p := Parsed(url).value;
            p.target != [] && SafePart(p.target) && p.hostHeader != [] && SafeValue(p.hostHeader)
  {
    var rest := url[SchemeEnd(url, 0) + 3..];
    if Parsed(url) == ParseRest(true, rest) {
      RestFits(true, rest);
    } else {
      RestFits(false, rest);
    }
  }

  lemma {:induction false} FoundIsSafe(hs: seq<Field>, lower: Text)
    requires FieldsOk(hs) && FindHeader(hs, lower).Some?
    ensures SafeValue(FindHeader(hs, lower).value)
  {
    if LowerAll(hs[0].name) != lower {
      FoundIsSafe(hs[1..], lower);
    }
  }
}
