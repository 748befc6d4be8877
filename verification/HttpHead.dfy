/** The response accumulator of an HTTP connection: the parser's callbacks deliver the head and the
    body in fragments; what they add up to, and the limits, do not depend on the fragments. */
module HttpHead {
  import opened Wrappers
  import opened Texts

  const MaxTotal: nat := 65536
  const MaxSingle: nat := 16384
  const MaxCount: nat := 200
  const MaxReason: nat := 512
  const MaxInterim: nat := 8

  type Headers = map<Text, Text>

  datatype Acc = Acc(field: Text, value: Text, lastWasValue: bool, headers: Headers, bytes: nat,
                     reason: Text, body: Text, status: nat, interims: nat, interim: bool, done: bool,
                     keepAlive: bool)

  /** After the request was sent, and again after every interim response. */
  function Fresh(interims: nat): Acc {
    Acc([], [], false, map[], 0, [], [], 0, interims, false, false, false)
  }

  /** `keep` is what the parser says about keeping the connection. */
  datatype Event =
    | Status(at: Text)
    | Field(at: Text)
    | Value(at: Text)
    | HeadComplete(code: nat)
    | Body(at: Text)
    | MessageComplete(code: nat, keep: bool)

  predicate IsInterim(code: nat) {
    100 <= code < 200
  }

  /** One header into the map: names in lower case, repeated ones joined. */
  function Add(m: Headers, name: Text, value: Text): Option<Headers> {
    var key := LowerAll(name);
    if name == [] then Some(m)
    else if key in m then Some(m[key := m[key] + [44, 32] + value])
    else if |m| >= MaxCount then None
    else Some(m[key := value])
  }

  function Commit(a: Acc): Option<Acc> {
    match Add(a.headers, a.field, a.value)
    case None => None
    case Some(m) => Some(a.(field := [], value := [], lastWasValue := false, headers := m))
  }

  /** One callback; `None` is its refusal, after which none follows. */
  function Step(a: Acc, e: Event, maxBody: nat): Option<Acc> {
    match e
    case Status(at) =>
      if a.bytes + |at| > MaxTotal || |a.reason| + |at| > MaxReason then None
      else Some(a.(bytes := a.bytes + |at|, reason := a.reason + at))
    case Field(at) =>
      var c := if a.lastWasValue then Commit(a) else Some(a);
      if c.None? || c.value.bytes + |at| > MaxTotal
         || |c.value.field| + |c.value.value| + |at| > MaxSingle then None
      else Some(c.value.(bytes := c.value.bytes + |at|, field := c.value.field + at))
    case Value(at) =>
      if a.bytes + |at| > MaxTotal || |a.field| + |a.value| + |at| > MaxSingle then None
      else Some(a.(lastWasValue := true, bytes := a.bytes + |at|, value := a.value + at))
    case HeadComplete(code) =>
      var c := Commit(a);
      if c.None? then None
      else if !IsInterim(code) then Some(c.value.(status := code))
      else if a.interims + 1 > MaxInterim then None
      else Some(Fresh(a.interims + 1).(interim := true, done := a.done, keepAlive := a.keepAlive))
    case Body(at) =>
      if |a.body| + |at| > maxBody then None else Some(a.(body := a.body + at))
    case MessageComplete(code, keep) =>
      if a.interim then Some(a.(interim := false))
      else
        var c := Commit(a);
        if c.None? then None
        else Some(c.value.(status := if a.status == 0 then code else a.status, done := true,
                           keepAlive := keep))
  }

  function Run(a: Acc, es: seq<Event>, maxBody: nat): Option<Acc>
    decreases |es|
  {
    if es == [] then Some(a)
    else
      match Step(a, es[0], maxBody)
      case None => None
      case Some(a') => Run(a', es[1..], maxBody)
  }

  // ----- the callbacks in place --------------------------------------------------------------

  class HttpConnection {
    var field: Text
    var value: Text
    var lastWasValue: bool
    var headers: Headers
    var bytes: nat
    var reason: Text
    var body: Text
    var status: nat
    var interims: nat
    var interim: bool
    var done: bool
    var keepAlive: bool
    const maxBody: nat
    const headRequest: bool

    ghost function Snap(): Acc
      reads this
    {
      Acc(field, value, lastWasValue, headers, bytes, reason, body, status, interims, interim, done,
          keepAlive)
    }

    constructor (maxBody: nat, headRequest: bool)
      ensures Snap() == Fresh(0) && this.maxBody == maxBody && this.headRequest == headRequest
    {
      field, value, lastWasValue, headers, bytes := [], [], false, map[], 0;
      reason, body, status, interims, interim, done := [], [], 0, 0, false, false;
      keepAlive := false;
      this.maxBody, this.headRequest := maxBody, headRequest;
    }

    method ChargeHeaderBytes(length: nat) returns (ok: bool)
      modifies this`bytes
      ensures ok == (old(bytes) + length <= MaxTotal)
      ensures bytes == if ok then old(bytes) + length else old(bytes)
    {
      if bytes + length > MaxTotal {
        return false;
      }
      bytes := bytes + length;
      ok := true;
    }

    method CommitHeader() returns (ok: bool)
      modifies this
      ensures ok == Commit(old(Snap())).Some?
      ensures ok ==> Snap() == Commit(old(Snap())).value
      ensures !ok ==> Snap() == old(Snap())
    {
      if field == [] {
        value, lastWasValue := [], false;
        return true;
      }
      var key := LowerAll(field);
      if key !in headers {
        if |headers| >= MaxCount {
          return false;
        }
        headers := headers[key := value];
      } else {
        headers := headers[key := headers[key] + [44, 32]];
        headers := headers[key := headers[key] + value];
      }
      field, value, lastWasValue := [], [], false;
      ok := true;
    }

    method OnStatus(at: Text) returns (ok: bool)
      modifies this
      ensures ok == Step(old(Snap()), Status(at), maxBody).Some?
      ensures ok ==> Some(Snap()) == Step(old(Snap()), Status(at), maxBody)
    {
      ok := ChargeHeaderBytes(|at|);
      if !ok {
        return;
      }
      if |reason| + |at| > MaxReason {
        return false;
      }
      reason := reason + at;
    }

    method OnHeaderField(at: Text) returns (ok: bool)
      modifies this
      ensures ok == Step(old(Snap()), Field(at), maxBody).Some?
      ensures ok ==> Some(Snap()) == Step(old(Snap()), Field(at), maxBody)
    {
      if lastWasValue {
        ok := CommitHeader();
        if !ok {
          return;
        }
      }
      ok := ChargeHeaderBytes(|at|);
      if !ok || |field| + |value| + |at| > MaxSingle {
        return false;
      }
      field := field + at;
    }

    method OnHeaderValue(at: Text) returns (ok: bool)
      modifies this
      ensures ok == Step(old(Snap()), Value(at), maxBody).Some?
      ensures ok ==> Some(Snap()) == Step(old(Snap()), Value(at), maxBody)
    {
      lastWasValue := true;
      ok := ChargeHeaderBytes(|at|);
      if !ok || |field| + |value| + |at| > MaxSingle {
        return false;
      }
      value := value + at;
    }

    method ResetMessageState()
      modifies this
      ensures Snap() == Fresh(old(interims)).(interim := old(interim), done := old(done),
                                              keepAlive := old(keepAlive))
    {
      field, value, lastWasValue := [], [], false;
      reason, headers, body, status, bytes := [], map[], [], 0, 0;
    }

    /** `noBody` tells the parser that no body follows, whatever the headers say. */
    method OnHeadersComplete(code: nat) returns (ok: bool, noBody: bool)
      modifies this
      ensures ok ==> (noBody <==> !IsInterim(code) && (headRequest || code == 204 || code == 304))
      ensures ok == Step(old(Snap()), HeadComplete(code), maxBody).Some?
      ensures ok ==> Some(Snap()) == Step(old(Snap()), HeadComplete(code), maxBody)
    {
      ok := CommitHeader();
      if !ok {
        return false, false;
      }
      status := code;
      if status >= 100 && status < 200 {
        interims := interims + 1;
        if interims > MaxInterim {
          return false, false;
        }
        interim := true;
        ResetMessageState();
        return true, false;
      }
      noBody := headRequest || status == 204 || status == 304;
    }

    method OnBody(at: Text) returns (ok: bool)
      modifies this
      ensures ok == Step(old(Snap()), Body(at), maxBody).Some?
      ensures ok ==> Some(Snap()) == Step(old(Snap()), Body(at), maxBody)
    {
      if |body| + |at| > maxBody {
        return false;
      }
      body := body + at;
      ok := true;
    }

    method OnMessageComplete(code: nat, keep: bool) returns (ok: bool)
      modifies this
      ensures ok == Step(old(Snap()), MessageComplete(code, keep), maxBody).Some?
      ensures ok ==> Some(Snap()) == Step(old(Snap()), MessageComplete(code, keep), maxBody)
    {
      if interim {
        interim := false;
        return true;
      }
      ok := CommitHeader();
      if !ok {
        return;
      }
      if status == 0 {
        status := code;
      }
      done := true;
      keepAlive := keep;
    }
  }

  /** The status of the message is that of its head, whatever the parser says at the end. */
  lemma StatusStays(a: Acc, code: nat, later: nat, keep: bool, maxBody: nat)
    requires 200 <= code && !a.interim
    ensures var run := Run(a, [HeadComplete(code), MessageComplete(later, keep)], maxBody);
            run.Some? ==> run.value.status == code && run.value.done && run.value.keepAlive == keep
  {
    var es := [HeadComplete(code), MessageComplete(later, keep)];
    assert es[1..] == [MessageComplete(later, keep)];
    if b :| Step(a, es[0], maxBody) == Some(b) {
      assert Run(a, es, maxBody) == Run(b, es[1..], maxBody);
      if c :| Step(b, es[1..][0], maxBody) == Some(c) {
        assert Run(b, es[1..], maxBody) == Run(c, es[1..][1..], maxBody) == Some(c);
      }
    }
  }

  /** Heads with a 1xx status, the ninth excepted, are counted and forgotten. */
  lemma InterimCounted(a: Acc, code: nat, maxBody: nat)
    requires 100 <= code <= 199 && Commit(a).Some?
    ensures Step(a, HeadComplete(code), maxBody) ==
            if a.interims >= 8 then None
            else Some(Acc([], [], false, map[], 0, [], [], 0, a.interims + 1, true, a.done, a.keepAlive))
  {
  }

  // ----- limits ------------------------------------------------------------------------------

  predicate WithinLimits(a: Acc, maxBody: nat) {
    && a.bytes <= 65536 && |a.field| + |a.value| <= 16384 && |a.headers| <= 200
    && |a.reason| <= 512 && a.interims <= 8 && |a.body| <= maxBody
  }

  lemma StepWithinLimits(a: Acc, e: Event, maxBody: nat)
    requires WithinLimits(a, maxBody) && Step(a, e, maxBody).Some?
    ensures WithinLimits(Step(a, e, maxBody).value, maxBody)
  {
    if Commit(a).Some? {
      CommitWithinLimits(a, maxBody);
    }
  }

  lemma CommitWithinLimits(a: Acc, maxBody: nat)
    requires WithinLimits(a, maxBody) && Commit(a).Some?
    ensures WithinLimits(Commit(a).value, maxBody)
  {
    AddWithinCount(a.headers, a.field, a.value);
  }

  lemma AddWithinCount(m: Headers, name: Text, value: Text)
    requires |m| <= MaxCount && Add(m, name, value).Some?
    ensures |Add(m, name, value).value| <= MaxCount
  {
    var key := LowerAll(name);
    KeysAfter(m, key, value);
    if key in m {
      KeysAfter(m, key, m[key] + [44, 32] + value);
    }
  }

  lemma KeysAfter(m: Headers, key: Text, value: Text)
    ensures |m[key := value]| == if key in m then |m| else |m| + 1
  {
    var m' := m[key := value];
    assert m'.Keys == m.Keys + {key};
    assert |m'| == |m'.Keys| && |m| == |m.Keys|;
    if key in m {
      assert m.Keys + {key} == m.Keys;
    }
  }

  /** Whatever the parser calls, and in whatever order, no limit is ever exceeded. */
  lemma {:induction false} RunWithinLimits(a: Acc, es: seq<Event>, maxBody: nat)
    requires WithinLimits(a, maxBody) && Run(a, es, maxBody).Some?
    ensures WithinLimits(Run(a, es, maxBody).value, maxBody)
    decreases |es|
  {
    if es != [] {
      StepWithinLimits(a, es[0], maxBody);
      RunWithinLimits(Step(a, es[0], maxBody).value, es[1..], maxBody);
    }
  }

  lemma {:induction false} RunAppend(a: Acc, es: seq<Event>, fs: seq<Event>, maxBody: nat)
    ensures Run(a, es + fs, maxBody) ==
            match Run(a, es, maxBody) case None => None case Some(b) => Run(b, fs, maxBody)
    decreases |es|
  {
    if es == [] {
      assert es + fs == fs;
    } else {
      assert (es + fs)[0] == es[0] && (es + fs)[1..] == es[1..] + fs;
      if Step(a, es[0], maxBody).Some? {
        RunAppend(Step(a, es[0], maxBody).value, es[1..], fs, maxBody);
      }
    }
  }
}
