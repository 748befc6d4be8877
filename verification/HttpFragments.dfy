/** However the parser cuts a response into callbacks, the accumulator accepts or refuses the same
    responses and ends in the same state. */
module HttpFragments {
  import opened Wrappers
  import opened Texts
  import opened HttpHead

  // ----- whole responses ---------------------------------------------------------------------

  datatype Header = Header(name: Text, value: Text)
  datatype Head = Head(code: nat, reason: Text, headers: seq<Header>)
  datatype Response = Response(interims: seq<Head>, head: Head, body: Text, trailers: seq<Header>,
                               keep: bool)

  function Size(h: Header): nat {
    |h.name| + |h.value|
  }

  function Total(hs: seq<Header>): nat {
    if hs == [] then 0 else Size(hs[0]) + Total(hs[1..])
  }

  predicate SinglesOk(hs: seq<Header>) {
    forall i | 0 <= i < |hs| :: Size(hs[i]) <= MaxSingle
  }

  /** The headers one after the other into the map. */
  function Merge(m: Headers, hs: seq<Header>): Option<Headers>
    decreases |hs|
  {
    if hs == [] then Some(m)
    else
      match Add(m, hs[0].name, hs[0].value)
      case None => None
      case Some(m') => Merge(m', hs[1..])
  }

  /** A block of whole headers on top of a committed state. */
  function AddBlock(a: Acc, hs: seq<Header>): Option<Acc> {
    if !SinglesOk(hs) || a.bytes + Total(hs) > MaxTotal then None
    else
      match Merge(a.headers, hs)
      case None => None
      case Some(m) => Some(a.(bytes := a.bytes + Total(hs), headers := m))
  }

  /** A whole head on a fresh accumulator. */
  function AddHead(interims: nat, h: Head): Option<Acc> {
    if |h.reason| > MaxReason || |h.reason| > MaxTotal then None
    else AddBlock(Fresh(interims).(bytes := |h.reason|, reason := h.reason), h.headers)
  }

  /** What the accumulator is to hold after a response whose first `interims` heads are past. */
  function Expected(interims: nat, r: Response, maxBody: nat): Option<Acc>
    decreases |r.interims|
  {
    if r.interims != [] then
      if AddHead(interims, r.interims[0]).None? || interims + 1 > MaxInterim then None
      else Expected(interims + 1, r.(interims := r.interims[1..]), maxBody)
    else
      match AddHead(interims, r.head)
      case None => None
      case Some(a) =>
        if |r.body| > maxBody then None
        else
          match AddBlock(a.(status := r.head.code, body := r.body), r.trailers)
          case None => None
          case Some(b) => Some(b.(done := true, keepAlive := r.keep))
  }

  // ----- fragments ---------------------------------------------------------------------------

  function Joined(ts: seq<Text>): Text {
    if ts == [] then [] else ts[0] + Joined(ts[1..])
  }

  /** One or more pieces of the name, then one or more of the value. */
  datatype HeaderCut = HeaderCut(names: seq<Text>, values: seq<Text>)
  datatype HeadCut = HeadCut(code: nat, reason: seq<Text>, headers: seq<HeaderCut>)
  datatype ResponseCut = ResponseCut(interims: seq<HeadCut>, head: HeadCut, body: seq<Text>,
                                     trailers: seq<HeaderCut>, keep: bool)

  predicate HeadersCutOk(hs: seq<HeaderCut>) {
    forall i | 0 <= i < |hs| :: hs[i].names != [] && hs[i].values != []
  }

  predicate ResponseCutOk(r: ResponseCut) {
    && HeadersCutOk(r.head.headers) && HeadersCutOk(r.trailers) && !IsInterim(r.head.code)
    && (forall i | 0 <= i < |r.interims| ::
          HeadersCutOk(r.interims[i].headers) && IsInterim(r.interims[i].code))
  }

  function WholeHeader(h: HeaderCut): Header {
    Header(Joined(h.names), Joined(h.values))
  }

  function WholeHeaders(hs: seq<HeaderCut>): (r: seq<Header>)
    ensures |r| == |hs|
  {
    seq(|hs|, i requires 0 <= i < |hs| => WholeHeader(hs[i]))
  }

  function WholeHead(h: HeadCut): Head {
    Head(h.code, Joined(h.reason), WholeHeaders(h.headers))
  }

  function WholeHeads(hs: seq<HeadCut>): (r: seq<Head>)
    ensures |r| == |hs|
  {
    seq(|hs|, i requires 0 <= i < |hs| => WholeHead(hs[i]))
  }

  function WholeResponse(r: ResponseCut): Response {
    Response(WholeHeads(r.interims), WholeHead(r.head), Joined(r.body), WholeHeaders(r.trailers),
             r.keep)
  }

  function Each(ts: seq<Text>, f: Text -> Event): (es: seq<Event>)
    ensures |es| == |ts|
  {
    seq(|ts|, i requires 0 <= i < |ts| => f(ts[i]))
  }

  function Fields(ts: seq<Text>): seq<Event> { Each(ts, t => Field(t)) }
  function Values(ts: seq<Text>): seq<Event> { Each(ts, t => Value(t)) }
  function Statuses(ts: seq<Text>): seq<Event> { Each(ts, t => Status(t)) }
  function Bodies(ts: seq<Text>): seq<Event> { Each(ts, t => Body(t)) }

  function HeaderEvents(h: HeaderCut): seq<Event> {
    Fields(h.names) + Values(h.values)
  }

  function HeadersEvents(hs: seq<HeaderCut>): seq<Event> {
    if hs == [] then [] else HeaderEvents(hs[0]) + HeadersEvents(hs[1..])
  }

  function HeadEvents(h: HeadCut): seq<Event> {
    Statuses(h.reason) + HeadersEvents(h.headers) + [HeadComplete(h.code)]
  }

  /** The callbacks of a response: every interim one is a message of its own. */
  function ResponseEvents(r: ResponseCut): seq<Event>
    decreases |r.interims|
  {
    if r.interims != [] then
      HeadEvents(r.interims[0]) + [MessageComplete(r.interims[0].code, r.keep)]
      + ResponseEvents(r.(interims := r.interims[1..]))
    else
      HeadEvents(r.head) + Bodies(r.body) + HeadersEvents(r.trailers) + [MessageComplete(r.head.code, r.keep)]
  }

  // ----- one kind of fragment ----------------------------------------------------------------

  predicate InLimits(a: Acc) {
    a.bytes <= MaxTotal && |a.field| + |a.value| <= MaxSingle && |a.reason| <= MaxReason
  }

  lemma {:induction false} RunFields(a: Acc, ts: seq<Text>, maxBody: nat)
    requires InLimits(a) && !a.lastWasValue
    ensures Run(a, Fields(ts), maxBody) ==
            var all := Joined(ts);
            if a.bytes + |all| > MaxTotal || |a.field| + |a.value| + |all| > MaxSingle then None
            else Some(a.(bytes := a.bytes + |all|, field := a.field + all))
    decreases |ts|
  {
    if ts == [] {
      assert a.field + [] == a.field;
    } else {
      assert Fields(ts)[1..] == Fields(ts[1..]);
      if a' :| Step(a, Field(ts[0]), maxBody) == Some(a') {
        RunFields(a', ts[1..], maxBody);
        assert a'.field + Joined(ts[1..]) == a.field + Joined(ts);
      }
    }
  }

  lemma {:induction false} RunValues(a: Acc, ts: seq<Text>, maxBody: nat)
    requires InLimits(a)
    ensures Run(a, Values(ts), maxBody) ==
            var all := Joined(ts);
            if a.bytes + |all| > MaxTotal || |a.field| + |a.value| + |all| > MaxSingle then None
            else Some(a.(bytes := a.bytes + |all|, value := a.value + all,
                         lastWasValue := a.lastWasValue || ts != []))
    decreases |ts|
  {
    if ts == [] {
      assert a.value + [] == a.value;
    } else {
      assert Values(ts)[1..] == Values(ts[1..]);
      if a' :| Step(a, Value(ts[0]), maxBody) == Some(a') {
        RunValues(a', ts[1..], maxBody);
        assert a'.value + Joined(ts[1..]) == a.value + Joined(ts);
      }
    }
  }

  lemma {:induction false} RunStatuses(a: Acc, ts: seq<Text>, maxBody: nat)
    requires InLimits(a)
    ensures Run(a, Statuses(ts), maxBody) ==
            var all := Joined(ts);
            if a.bytes + |all| > MaxTotal || |a.reason| + |all| > MaxReason then None
            else Some(a.(bytes := a.bytes + |all|, reason := a.reason + all))
    decreases |ts|
  {
    if ts == [] {
      assert a.reason + [] == a.reason;
    } else {
      assert Statuses(ts)[1..] == Statuses(ts[1..]);
      if a' :| Step(a, Status(ts[0]), maxBody) == Some(a') {
        RunStatuses(a', ts[1..], maxBody);
        assert a'.reason + Joined(ts[1..]) == a.reason + Joined(ts);
      }
    }
  }

  lemma {:induction false} RunBodies(a: Acc, ts: seq<Text>, maxBody: nat)
    requires |a.body| <= maxBody
    ensures Run(a, Bodies(ts), maxBody) ==
            var all := Joined(ts);
            if |a.body| + |all| > maxBody then None else Some(a.(body := a.body + all))
    decreases |ts|
  {
    if ts == [] {
      assert a.body + [] == a.body;
    } else {
      assert Bodies(ts)[1..] == Bodies(ts[1..]);
      if a' :| Step(a, Body(ts[0]), maxBody) == Some(a') {
        RunBodies(a', ts[1..], maxBody);
        assert a'.body + Joined(ts[1..]) == a.body + Joined(ts);
      }
    }
  }

  // ----- a header, a block of headers --------------------------------------------------------

  /** Between two headers the last one may still be uncommitted. */
  predicate Between(a: Acc) {
    InLimits(a) && (a.lastWasValue || (a.field == [] && a.value == []))
  }

  lemma CommitOk(a: Acc)
    requires Between(a)
    ensures !a.lastWasValue ==> Commit(a) == Some(a)
    ensures Commit(a).Some? ==>
              var c := Commit(a).value;
              Between(c) && !c.lastWasValue && c.bytes == a.bytes && Commit(c) == Some(c)
  {
  }

  /** The state after one more whole header, which stays uncommitted. */
  function AfterHeader(a: Acc, w: Header): Option<Acc> {
    if Commit(a).None? || a.bytes + Size(w) > MaxTotal || Size(w) > MaxSingle then None
    else Some(Commit(a).value.(bytes := a.bytes + Size(w), field := w.name, value := w.value,
                               lastWasValue := true))
  }

  lemma RunHeader(a: Acc, h: HeaderCut, maxBody: nat)
    requires Between(a) && h.names != [] && h.values != []
    ensures Run(a, HeaderEvents(h), maxBody) == AfterHeader(a, WholeHeader(h))
  {
    CommitOk(a);
    var es := HeaderEvents(h);
    assert es[0] == Field(h.names[0]);
    if Commit(a).Some? {
      var c := Commit(a).value;
      assert Step(a, es[0], maxBody) == Step(c, es[0], maxBody);
      assert Run(a, es, maxBody) == Run(c, es, maxBody);
      RunAppend(c, Fields(h.names), Values(h.values), maxBody);
      RunFields(c, h.names, maxBody);
      assert c.field + Joined(h.names) == Joined(h.names);
      if b :| Run(c, Fields(h.names), maxBody) == Some(b) {
        RunValues(b, h.values, maxBody);
        assert b.value + Joined(h.values) == Joined(h.values);
      }
    }
  }

  /** The state after the pending header is committed, if it can be. */
  function Settled(a: Option<Acc>): Option<Acc> {
    match a
    case None => None
    case Some(b) => Commit(b)
  }

  function AddBlockTo(a: Option<Acc>, hs: seq<Header>): Option<Acc> {
    match a
    case None => None
    case Some(b) => AddBlock(b, hs)
  }

  lemma AfterHeaderOk(a: Acc, w: Header)
    requires Between(a)
    ensures AfterHeader(a, w).Some? ==> Between(AfterHeader(a, w).value)
  {
    CommitOk(a);
  }

  lemma BlockStep(a: Acc, ws: seq<Header>)
    requires Between(a) && ws != []
    ensures AddBlockTo(Commit(a), ws) == AddBlockTo(Settled(AfterHeader(a, ws[0])), ws[1..])
  {
    assert SinglesOk(ws) <==> Size(ws[0]) <= MaxSingle && SinglesOk(ws[1..]) by {
      assert forall i | 1 <= i < |ws| :: ws[i] == ws[1..][i - 1];
    }
  }

  /** What a block of headers leaves alone. */
  predicate SameMessage(a: Acc, b: Acc) {
    b.interim == a.interim && b.status == a.status
  }

  /** A block of headers, however cut, settles to the block of whole headers. */
  lemma {:induction false} RunHeaders(a: Acc, hs: seq<HeaderCut>, maxBody: nat)
    requires Between(a) && HeadersCutOk(hs)
    ensures var r := Run(a, HeadersEvents(hs), maxBody);
            && Settled(r) == AddBlockTo(Commit(a), WholeHeaders(hs))
            && (r.Some? ==> SameMessage(a, r.value))
    decreases |hs|
  {
    if hs == [] {
      SettleNothing(a);
    } else {
      var ws := WholeHeaders(hs);
      assert ws[1..] == WholeHeaders(hs[1..]);
      RunAppend(a, HeaderEvents(hs[0]), HeadersEvents(hs[1..]), maxBody);
      RunHeader(a, hs[0], maxBody);
      AfterHeaderOk(a, ws[0]);
      BlockStep(a, ws);
      var r := AfterHeader(a, ws[0]);
      if r.Some? {
        RunHeaders(r.value, hs[1..], maxBody);
      }
    }
  }

  lemma SettleNothing(a: Acc)
    requires Between(a)
    ensures Commit(a) == AddBlockTo(Commit(a), [])
  {
  }

  // ----- heads and responses -----------------------------------------------------------------

  /** What the head's last callback makes of it. */
  function HeadDone(interims: nat, h: Head): Option<Acc> {
    match AddHead(interims, h)
    case None => None
    case Some(a) =>
      if !IsInterim(h.code) then Some(a.(status := h.code))
      else if interims + 1 > MaxInterim then None
      else Some(Fresh(interims + 1).(interim := true))
  }

  lemma RunHead(interims: nat, h: HeadCut, maxBody: nat)
    requires HeadersCutOk(h.headers)
    ensures Run(Fresh(interims), HeadEvents(h), maxBody) == HeadDone(interims, WholeHead(h))
  {
    var a := Fresh(interims);
    var es := Statuses(h.reason) + HeadersEvents(h.headers);
    RunAppend(a, es, [HeadComplete(h.code)], maxBody);
    RunAppend(a, Statuses(h.reason), HeadersEvents(h.headers), maxBody);
    RunStatuses(a, h.reason, maxBody);
    assert [] + Joined(h.reason) == Joined(h.reason);
    if b :| Run(a, Statuses(h.reason), maxBody) == Some(b) {
      RunHeaders(b, h.headers, maxBody);
      CommitOk(b);
      RunOne(Run(b, HeadersEvents(h.headers), maxBody), HeadComplete(h.code), maxBody);
    }
  }

  /** A single callback at the end. */
  lemma RunOne(a: Option<Acc>, e: Event, maxBody: nat)
    ensures a.Some? ==> Run(a.value, [e], maxBody) == Step(a.value, e, maxBody)
  {
    if a.Some? && Step(a.value, e, maxBody).Some? {
      assert [e][1..] == [];
    }
  }

  lemma RunFinal(interims: nat, r: ResponseCut, maxBody: nat)
    requires ResponseCutOk(r) && r.interims == []
    ensures Run(Fresh(interims), ResponseEvents(r), maxBody) ==
            Expected(interims, WholeResponse(r), maxBody)
  {
    var a := Fresh(interims);
    var e1 := HeadEvents(r.head);
    var last := HeadersEvents(r.trailers) + [MessageComplete(r.head.code, r.keep)];
    assert ResponseEvents(r) == e1 + (Bodies(r.body) + last);
    RunAppend(a, e1, Bodies(r.body) + last, maxBody);
    RunHead(interims, r.head, maxBody);
    if b :| Run(a, e1, maxBody) == Some(b) {
      AfterHead(interims, WholeHead(r.head));
      RunAppend(b, Bodies(r.body), last, maxBody);
      RunBodies(b, r.body, maxBody);
      assert [] + Joined(r.body) == Joined(r.body);
      if c :| Run(b, Bodies(r.body), maxBody) == Some(c) {
        RunTrailers(c, r, maxBody);
      }
    }
  }

  lemma AfterHead(interims: nat, h: Head)
    requires HeadDone(interims, h).Some? && !IsInterim(h.code)
    ensures var b := HeadDone(interims, h).value;
            && Between(b) && !b.lastWasValue && b.body == [] && b.status == h.code && !b.interim
  {
  }

  lemma RunTrailers(c: Acc, r: ResponseCut, maxBody: nat)
    requires Between(c) && !c.lastWasValue && !c.interim && HeadersCutOk(r.trailers)
    requires c.status == r.head.code
    ensures Run(c, HeadersEvents(r.trailers) + [MessageComplete(r.head.code, r.keep)], maxBody) ==
            match AddBlock(c, WholeHeaders(r.trailers))
            case None => None
            case Some(b) => Some(b.(done := true, keepAlive := r.keep))
  {
    RunAppend(c, HeadersEvents(r.trailers), [MessageComplete(r.head.code, r.keep)], maxBody);
    RunHeaders(c, r.trailers, maxBody);
    CommitOk(c);
    assert Commit(c) == Some(c);
    RunOne(Run(c, HeadersEvents(r.trailers), maxBody), MessageComplete(r.head.code, r.keep), maxBody);
  }

  lemma RunInterim(interims: nat, h: HeadCut, keep: bool, maxBody: nat)
    requires HeadersCutOk(h.headers) && IsInterim(h.code)
    ensures Run(Fresh(interims), HeadEvents(h) + [MessageComplete(h.code, keep)], maxBody) ==
            if AddHead(interims, WholeHead(h)).None? || interims + 1 > MaxInterim then None
            else Some(Fresh(interims + 1))
  {
    RunAppend(Fresh(interims), HeadEvents(h), [MessageComplete(h.code, keep)], maxBody);
    RunHead(interims, h, maxBody);
    RunOne(HeadDone(interims, WholeHead(h)), MessageComplete(h.code, keep), maxBody);
  }

  lemma ExpectedInterim(interims: nat, r: ResponseCut, maxBody: nat)
    requires r.interims != []
    ensures Expected(interims, WholeResponse(r), maxBody) ==
            if AddHead(interims, WholeHead(r.interims[0])).None? || interims + 1 > MaxInterim then None
            else Expected(interims + 1, WholeResponse(r.(interims := r.interims[1..])), maxBody)
  {
    var w, rest := WholeResponse(r), r.(interims := r.interims[1..]);
    assert w.interims[0] == WholeHead(r.interims[0]);
    assert w.interims[1..] == WholeHeads(rest.interims);
    assert WholeResponse(rest) == w.(interims := w.interims[1..]);
  }

  /** The accumulator computes the meaning of the whole response: no cut changes what is accepted
      or what is kept, and of an interim head nothing is kept but that there was one. */
  lemma {:induction false} RunResponse(interims: nat, r: ResponseCut, maxBody: nat)
    requires ResponseCutOk(r)
    ensures Run(Fresh(interims), ResponseEvents(r), maxBody) ==
            Expected(interims, WholeResponse(r), maxBody)
    decreases |r.interims|
  {
    if r.interims == [] {
      RunFinal(interims, r, maxBody);
    } else {
      var first, rest := r.interims[0], r.(interims := r.interims[1..]);
      var es := HeadEvents(first) + [MessageComplete(first.code, r.keep)];
      assert ResponseEvents(r) == es + ResponseEvents(rest);
      RunAppend(Fresh(interims), es, ResponseEvents(rest), maxBody);
      RunInterim(interims, first, r.keep, maxBody);
      RunResponse(interims + 1, rest, maxBody);
      ExpectedInterim(interims, r, maxBody);
    }
  }

  /** Two ways of cutting the same response end the same. */
  lemma CutsAgree(r: ResponseCut, s: ResponseCut, maxBody: nat)
    requires ResponseCutOk(r) && ResponseCutOk(s) && WholeResponse(r) == WholeResponse(s)
    ensures Run(Fresh(0), ResponseEvents(r), maxBody) == Run(Fresh(0), ResponseEvents(s), maxBody)
  {
    RunResponse(0, r, maxBody);
    RunResponse(0, s, maxBody);
  }

  /** The interim heads of an accepted response leave only their number behind. */
  lemma {:induction false} InterimsForgotten(interims: nat, r: Response, maxBody: nat)
    requires Expected(interims, r, maxBody).Some?
    ensures Expected(0, r.(interims := []), maxBody).Some?
    ensures Expected(interims, r, maxBody).value ==
            Expected(0, r.(interims := []), maxBody).value.(interims := interims + |r.interims|)
    decreases |r.interims|
  {
    if r.interims != [] {
      InterimsForgotten(interims + 1, r.(interims := r.interims[1..]), maxBody);
    }
  }
}
