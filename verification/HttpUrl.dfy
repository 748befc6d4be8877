/** `HttpConnector::ParseUrl`: an absolute URL into the parts that a request needs, and back. */
module HttpUrl {
  import opened Wrappers
  import opened Bytes
  import opened Texts

  const Slash: byte := 47
  const Question: byte := 63
  const Hash: byte := 35
  const At: byte := 64
  const Open: byte := 91
  const Shut: byte := 93

  /** `_IsSafeRequestPart`: no white space and no control characters. */
  predicate SafePart(s: Text) {
    forall i | 0 <= i < |s| :: s[i] > 0x20 && s[i] != 0x7f
  }

  datatype Parts = Parts(tls: bool, host: Text, hostHeader: Text, port: U16, target: Text)

  function Scheme(tls: bool): Text {
    if tls then [104, 116, 116, 112, 115] else [104, 116, 116, 112]
  }

  function DefaultPort(tls: bool): U16 {
    if tls then 443 else 80
  }

  const Separator: Text := [58, 47, 47]

  datatype UrlError = NoScheme | BadScheme | NoHost | UserInfo | BadLiteral | BadHost | BadPort | BadTarget

  // ----- what the parts of a URL are ---------------------------------------------------------

  predicate SeparatorAt(url: Text, i: nat) {
    i + 3 <= |url| && url[i..i + 3] == Separator
  }

  /** The first "://", or the length. */
  function SchemeEnd(url: Text, from: nat): (i: nat)
    requires from <= |url|
    ensures from <= i <= |url| && (forall k: nat | from <= k < i :: !SeparatorAt(url, k))
    ensures i < |url| ==> SeparatorAt(url, i)
    decreases |url| - from
  {
    if from == |url| || SeparatorAt(url, from) then from else SchemeEnd(url, from + 1)
  }

  /** A host and the text of a port, if there is any. */
  datatype Authority = Authority(bracketed: bool, host: Text, port: Text)

  function ParseAuthority(a: Text): Result<Authority, UrlError> {
    if a == [] then Failure(NoHost)
    else if At in a then Failure(UserInfo)
    else if a[0] == Open then
      var rb := IndexOf(a, {Shut});
      if rb == |a| || rb == 1 then Failure(BadLiteral)
      else if rb + 1 == |a| then Success(Authority(true, a[1..rb], []))
      else if a[rb + 1] != Colon then Failure(BadLiteral)
      else Success(Authority(true, a[1..rb], a[rb + 2..]))
    else
      var colon := IndexOf(a, {Colon});
      var host := a[..colon];
      var port := if colon < |a| then a[colon + 1..] else [];
      if host == [] || Colon in port then Failure(BadHost)
      else Success(Authority(false, host, port))
  }

  predicate Digits(s: Text) {
    forall i | 0 <= i < |s| :: 48 <= s[i] <= 57
  }

  /** The value of a decimal number. */
  function ValueOf(s: Text): nat
    requires Digits(s)
  {
    if s == [] then 0 else ValueOf(s[..|s| - 1]) * 10 + (s[|s| - 1] - 48)
  }

  /** An absent or empty port is the default one. */
  function ParsePort(s: Text, default: U16): Option<U16> {
    if s == [] then Some(default)
    else if |s| > 5 || !Digits(s) then None
    else if ValueOf(s) == 0 || ValueOf(s) > 65535 then None
    else Some(ValueOf(s))
  }

  /** The request target: what follows the authority, up to the fragment. */
  function TargetOf(tail: Text): Text {
    var cut := tail[..IndexOf(tail, {Hash})];
    if cut == [] then [Slash] else if cut[0] == Question then [Slash] + cut else cut
  }

  /** The value of the Host header: the port only if it is not the default one. */
  function HostHeader(a: Authority, port: U16, default: U16): Text {
    (if a.bracketed then [Open] + a.host + [Shut] else a.host)
    + (if port != default then [Colon] + Decimal(port) else [])
  }

  function ParseRest(tls: bool, rest: Text): Result<Parts, UrlError> {
    var end := IndexOf(rest, {Slash, Question, Hash});
    match ParseAuthority(rest[..end])
    case Failure(e) => Failure(e)
    case Success(a) =>
      if a.host == [] || !SafePart(a.host) then Failure(BadHost)
      else
        var port := ParsePort(a.port, DefaultPort(tls));
        var target := TargetOf(rest[end..]);
        if port == None then Failure(BadPort)
        else if !SafePart(target) then Failure(BadTarget)
        else Success(Parts(tls, a.host, HostHeader(a, port.value, DefaultPort(tls)), port.value, target))
  }

  function Parsed(url: Text): Result<Parts, UrlError> {
    var end := SchemeEnd(url, 0);
    if end == |url| || end == 0 then Failure(NoScheme)
    else
      var scheme := LowerAll(url[..end]);
      if scheme == Scheme(false) then ParseRest(false, url[end + 3..])
      else if scheme == Scheme(true) then ParseRest(true, url[end + 3..])
      else Failure(BadScheme)
  }

  // ----- the parser --------------------------------------------------------------------------

  method Find(s: Text, c: byte) returns (i: nat)
    ensures i == IndexOf(s, {c})
  {
    i := 0;
    assert s[0..] == s;
    while i < |s| && s[i] != c
      invariant i <= |s| && i + IndexOf(s[i..], {c}) == IndexOf(s, {c})
    {
      assert s[i..][1..] == s[i + 1..];
      i := i + 1;
    }
  }

  method FindAuthorityEnd(s: Text) returns (i: nat)
    ensures i == IndexOf(s, {Slash, Question, Hash})
  {
    assert s[0..] == s;
    i := 0;
    while i < |s|
      invariant i <= |s|
      invariant i + IndexOf(s[i..], {Slash, Question, Hash}) == IndexOf(s, {Slash, Question, Hash})
    {
      var c := s[i];
      if c == Slash || c == Question || c == Hash {
        break;
      }
      assert s[i..][1..] == s[i + 1..];
      i := i + 1;
    }
  }

  method FindScheme(url: Text) returns (i: nat)
    ensures i == SchemeEnd(url, 0)
  {
    i := 0;
    while i < |url| && !(i + 3 <= |url| && url[i..i + 3] == Separator)
      invariant i <= |url| && SchemeEnd(url, i) == SchemeEnd(url, 0)
    {
      i := i + 1;
    }
  }

  method SplitAuthority(a: Text) returns (r: Result<Authority, UrlError>)
    ensures r == ParseAuthority(a)
  {
    if a == [] {
      return Failure(NoHost);
    }
    var at := Find(a, At);
    if at < |a| {
      return Failure(UserInfo);
    }
    if a[0] == Open {
      var rb := Find(a, Shut);
      if rb == |a| || rb == 1 {
        return Failure(BadLiteral);
      }
      var port: Text := [];
      if rb + 1 < |a| {
        if a[rb + 1] != Colon {
          return Failure(BadLiteral);
        }
        port := a[rb + 2..];
      }
      return Success(Authority(true, a[1..rb], port));
    }
    var host, port := a, [];
    assert a[..|a|] == a;
    var colon := Find(a, Colon);
    if colon < |a| {
      host := a[..colon];
      port := a[colon + 1..];
    }
    var second := Find(port, Colon);
    if host == [] || second < |port| {
      return Failure(BadHost);
    }
    r := Success(Authority(false, host, port));
  }

  method ReadPort(s: Text, default: U16) returns (port: Option<U16>)
    ensures port == ParsePort(s, default)
  {
    if s == [] {
      return Some(default);
    }
    if |s| > 5 {
      return None;
    }
    var v := 0;
    for i := 0 to |s|
      invariant Digits(s[..i]) && v == ValueOf(s[..i])
    {
      if s[i] < 48 || s[i] > 57 {
        return None;
      }
      assert s[..i + 1][..i] == s[..i];
      v := v * 10 + (s[i] - 48) as int;
    }
    assert s[..|s|] == s;
    if v == 0 || v > 65535 {
      return None;
    }
    port := Some(v);
  }

  method SafeRequestPart(s: Text) returns (ok: bool)
    ensures ok == SafePart(s)
  {
    for i := 0 to |s|
      invariant forall k | 0 <= k < i :: s[k] > 0x20 && s[k] != 0x7f
    {
      if s[i] <= 0x20 || s[i] == 0x7f {
        return false;
      }
    }
    ok := true;
  }

  method ParseUrl(url: Text) returns (r: Result<Parts, UrlError>)
    ensures r == Parsed(url)
  {
    var schemeEnd := FindScheme(url);
    if schemeEnd == |url| || schemeEnd == 0 {
      return Failure(NoScheme);
    }
    var scheme := LowerAll(url[..schemeEnd]);
    var tls := false;
    if scheme == Scheme(false) {
      tls := false;
    } else if scheme == Scheme(true) {
      tls := true;
    } else {
      return Failure(BadScheme);
    }
    var rest := url[schemeEnd + 3..];
    var authEnd := FindAuthorityEnd(rest);
    var split := SplitAuthority(rest[..authEnd]);
    if split.Failure? {
      return Failure(split.error);
    }
    var a := split.value;
    var safe := SafeRequestPart(a.host);
    if a.host == [] || !safe {
      return Failure(BadHost);
    }
    var port := ReadPort(a.port, DefaultPort(tls));
    if port == None {
      return Failure(BadPort);
    }
    var hostHeader := if a.bracketed then [Open] + a.host + [Shut] else a.host;
    if port.value != DefaultPort(tls) {
      hostHeader := hostHeader + ([Colon] + Decimal(port.value));
    } else {
      assert hostHeader + [] == hostHeader;
    }
    var tail := rest[authEnd..];
    var target: Text := [];
    if tail != [] && tail[0] != Hash {
      var hash := Find(tail, Hash);
      target := tail[..hash];
    }
    if target == [] {
      target := [Slash];
    } else if target[0] == Question {
      target := [Slash] + target;
    }
    safe := SafeRequestPart(target);
    if !safe {
      return Failure(BadTarget);
    }
    r := Success(Parts(tls, a.host, hostHeader, port.value, target));
  }

  // ----- printing and parsing again ----------------------------------------------------------

  /** The absolute URL of the parts. */
  function Printed(p: Parts): Text {
    Scheme(p.tls) + Separator + (p.hostHeader + p.target)
  }

  lemma SchemeEndOf(tls: bool, rest: Text)
    ensures SchemeEnd(Scheme(tls) + Separator + rest, 0) == |Scheme(tls)|
  {
    var url := Scheme(tls) + Separator + rest;
    var n := |Scheme(tls)|;
    assert SeparatorAt(url, n) by { assert url[n..n + 3] == Separator; }
    forall k: nat | k < n ensures !SeparatorAt(url, k) {
      assert url[k] == Scheme(tls)[k] != Separator[0];
      assert url[k..k + 3][0] == url[k];
    }
  }

  lemma {:induction false} ValueOfDecimal(n: nat)
    ensures Digits(Decimal(n)) && ValueOf(Decimal(n)) == n
  {
    if n >= 10 {
      ValueOfDecimal(n / 10);
      assert Decimal(n)[..|Decimal(n)| - 1] == Decimal(n / 10);
    }
  }

  lemma {:induction false} DecimalLength(n: nat, k: nat, bound: nat)
    requires n < bound && k >= 1 && bound == Power10(k)
    ensures |Decimal(n)| <= k
    decreases k
  {
    if n >= 10 {
      DecimalLength(n / 10, k - 1, bound / 10);
    }
  }

  function Power10(k: nat): nat {
    if k == 0 then 1 else 10 * Power10(k - 1)
  }

  /** A printed port is read back. */
  lemma PortReadBack(port: U16, default: U16)
    requires port > 0
    ensures ParsePort(Decimal(port), default) == Some(port)
  {
    ValueOfDecimal(port);
    assert Power10(5) == 100000 by { assert Power10(2) == 100; }
    DecimalLength(port, 5, 100000);
  }

  /** What an authority that parses is made of. */
  lemma AuthorityParts(a: Text)
    requires ParseAuthority(a).Success?
    ensures var x := ParseAuthority(a).value;
            && x.host != [] && At !in x.host
            && (x.bracketed ==> Shut !in x.host)
            && (!x.bracketed ==> Colon !in x.host && x.host[0] != Open)
            && (forall i | 0 <= i < |x.host| :: x.host[i] in a)
  {
    var x := ParseAuthority(a).value;
    var rb := IndexOf(a, {Shut});
    if a[0] == Open {
      assert x.host == a[1..rb];
    } else {
      assert x.host == a[..IndexOf(a, {Colon})];
    }
  }

  /** The port of a printed authority, if it is printed. */
  function PortText(port: U16, default: U16): Text {
    if port != default then Decimal(port) else []
  }

  lemma LiteralAlone(host: Text)
    requires host != [] && At !in host && Shut !in host
    ensures ParseAuthority([Open] + host + [Shut]) == Success(Authority(true, host, []))
  {
    var front := [Open] + host;
    IndexOfAppend(front, [Shut], {Shut});
    assert (front + [Shut])[1..|front|] == host;
  }

  lemma LiteralReadBack(host: Text, rest: Text)
    requires host != [] && At !in host && Shut !in host && Colon !in rest && At !in rest
    ensures ParseAuthority([Open] + host + [Shut] + ([Colon] + rest)) == Success(Authority(true, host, rest))
  {
    var front := [Open] + host;
    var h := front + [Shut] + ([Colon] + rest);
    assert h == front + ([Shut] + [Colon] + rest);
    IndexOfAppend(front, [Shut] + [Colon] + rest, {Shut});
    assert h[1..|front|] == host && h[|front| + 2..] == rest;
  }

  lemma NameAlone(host: Text)
    requires host != [] && At !in host && Colon !in host && host[0] != Open
    ensures ParseAuthority(host) == Success(Authority(false, host, []))
  {
    IndexOfAppend(host, [], {Colon});
    assert host + [] == host && host[..|host|] == host;
  }

  lemma NameReadBack(host: Text, rest: Text)
    requires host != [] && At !in host && Colon !in host && host[0] != Open
    requires Colon !in rest && At !in rest
    ensures ParseAuthority(host + ([Colon] + rest)) == Success(Authority(false, host, rest))
  {
    var h := host + ([Colon] + rest);
    IndexOfAppend(host, [Colon] + rest, {Colon});
    assert h[..|host|] == host && h[|host| + 1..] == rest;
  }

  /** Printing an authority and parsing it again gives the host back, and a port text that stands
      for the same port. */
  lemma AuthorityReadBack(a: Authority, port: U16, default: U16)
    requires a.host != [] && At !in a.host
    requires a.bracketed ==> Shut !in a.host
    requires !a.bracketed ==> Colon !in a.host && a.host[0] != Open
    ensures ParseAuthority(HostHeader(a, port, default)) ==
            Success(Authority(a.bracketed, a.host, PortText(port, default)))
  {
    var front := if a.bracketed then [Open] + a.host + [Shut] else a.host;
    assert front + [] == front;
    assert Colon !in Decimal(port) && At !in Decimal(port);
    if a.bracketed {
      LiteralAlone(a.host);
      LiteralReadBack(a.host, Decimal(port));
    } else {
      NameAlone(a.host);
      NameReadBack(a.host, Decimal(port));
    }
  }

  /** A printed host and target split where they were joined. */
  lemma HostHeaderEnds(a: Authority, port: U16, default: U16, target: Text)
    requires target != [] && target[0] == Slash
    requires forall i | 0 <= i < |a.host| :: a.host[i] !in {Slash, Question, Hash}
    ensures IndexOf(HostHeader(a, port, default) + target, {Slash, Question, Hash}) ==
            |HostHeader(a, port, default)|
  {
    IndexOfAppend(HostHeader(a, port, default), target, {Slash, Question, Hash});
  }

  /** A target starts with a slash, holds no fragment, and is its own target. */
  lemma TargetAgain(tail: Text)
    ensures var t := TargetOf(tail); t != [] && Hash !in t && TargetOf(t) == t
    ensures tail != [] && tail[0] in {Slash, Question, Hash} ==> TargetOf(tail)[0] == Slash
  {
    var t := TargetOf(tail);
    IndexOfAppend(t, [], {Hash});
    assert t + [] == t && t[..|t|] == t;
  }

  lemma Halves(a: Text, b: Text)
    ensures (a + b)[..|a|] == a && (a + b)[|a|..] == b
  {
  }

  /** What is printed after the scheme parses to what it was printed from. */
  lemma PrintedRest(tls: bool, a: Authority, port: U16, target: Text)
    requires a.host != [] && At !in a.host && SafePart(a.host) && port > 0
    requires a.bracketed ==> Shut !in a.host
    requires !a.bracketed ==> Colon !in a.host && a.host[0] != Open
    requires forall i | 0 <= i < |a.host| :: a.host[i] !in {Slash, Question, Hash}
    requires target != [] && target[0] == Slash && TargetOf(target) == target && SafePart(target)
    ensures var h := HostHeader(a, port, DefaultPort(tls));
            ParseRest(tls, h + target) == Success(Parts(tls, a.host, h, port, target))
  {
    AuthorityReadBack(a, port, DefaultPort(tls));
    HostHeaderEnds(a, port, DefaultPort(tls), target);
    Halves(HostHeader(a, port, DefaultPort(tls)), target);
    PortReadBack(port, DefaultPort(tls));
  }

  lemma ParseRestAgain(tls: bool, rest: Text)
    requires ParseRest(tls, rest).Success?
    ensures var p := ParseRest(tls, rest).value;
            p.tls == tls && ParseRest(tls, p.hostHeader + p.target) == Success(p)
  {
    var p := ParseRest(tls, rest).value;
    var end := IndexOf(rest, {Slash, Question, Hash});
    AuthorityParts(rest[..end]);
    TargetAgain(rest[end..]);
    PrintedRest(tls, ParseAuthority(rest[..end]).value, p.port, p.target);
  }

  lemma SchemeIsLower(tls: bool)
    ensures LowerAll(Scheme(tls)) == Scheme(tls) && Scheme(false) != Scheme(true)
  {
    assert |Scheme(false)| != |Scheme(true)|;
  }

  lemma ParsedAbsolute(tls: bool, rest: Text)
    ensures Parsed(Scheme(tls) + Separator + rest) == ParseRest(tls, rest)
  {
    var url := Scheme(tls) + Separator + rest;
    var n := |Scheme(tls)|;
    SchemeEndOf(tls, rest);
    SchemeIsLower(tls);
    assert url[..n] == Scheme(tls) && url[n + 3..] == rest;
  }

  lemma ParsedIsRest(url: Text) returns (tls: bool, rest: Text)
    requires Parsed(url).Success?
    ensures Parsed(url) == ParseRest(tls, rest)
  {
    rest := url[SchemeEnd(url, 0) + 3..];
    tls := LowerAll(url[..SchemeEnd(url, 0)]) == Scheme(true);
    SchemeIsLower(tls);
  }

  /** For every URL that is accepted, the URL printed from its parts is accepted and has exactly
      the same parts. */
  lemma PrintedParsesAgain(url: Text)
    requires Parsed(url).Success?
    ensures Parsed(Printed(Parsed(url).value)) == Parsed(url)
  {
    var tls, rest := ParsedIsRest(url);
    ParseRestAgain(tls, rest);
    ParsedAbsolute(tls, Parsed(url).value.hostHeader + Parsed(url).value.target);
  }
}
