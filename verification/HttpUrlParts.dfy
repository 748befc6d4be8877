/** URLs put together from their parts (RFC 3986, section 3), and what the parser makes of them. */
module HttpUrlParts {
  import opened Wrappers
  import opened Bytes
  import opened Texts
  import opened HttpUrl

  /** "[host]" or "host", and the port if one is written. */
  datatype Written = Written(scheme: Text, bracketed: bool, host: Text, port: Option<U16>, path: Text,
                             query: Option<Text>, fragment: Option<Text>)

  predicate NoneOf(s: Text, stops: set<byte>) {
    forall i | 0 <= i < |s| :: s[i] !in stops
  }

  /** No white space and no control characters. */
  predicate Clean(s: Text) {
    forall i | 0 <= i < |s| :: 32 < s[i] && s[i] != 127
  }

  predicate HostOk(w: Written) {
    && w.host != [] && Clean(w.host) && NoneOf(w.host, {Slash, Question, Hash, At})
    && (if w.bracketed then NoneOf(w.host, {Shut}) else NoneOf(w.host, {Colon}) && w.host[0] != Open)
  }

  /** An absolute http or https URL: the scheme in any case, a port from 1 on, a path that is empty or
      starts with a slash, and no white space or control characters but in the fragment. */
  predicate WrittenOk(w: Written, tls: bool) {
    && LowerAll(w.scheme) == (if tls then Ascii("https") else Ascii("http")) && HostOk(w)
    && (w.port.Some? ==> w.port.value > 0)
    && (w.path != [] ==> w.path[0] == Slash) && NoneOf(w.path, {Question, Hash}) && Clean(w.path)
    && (w.query.Some? ==> NoneOf(w.query.value, {Hash}) && Clean(w.query.value))
  }

  function HostPart(w: Written): Text {
    if w.bracketed then [91] + w.host + [93] else w.host
  }

  function After(mark: byte, part: Option<Text>): Text {
    match part
    case None => []
    case Some(s) => [mark] + s
  }

  function AuthorityPart(w: Written): Text {
    HostPart(w) + (match w.port case None => [] case Some(p) => [58] + Decimal(p))
  }

  function Tail(w: Written): Text {
    w.path + After(63, w.query) + After(35, w.fragment)
  }

  function UrlOf(w: Written): Text {
    w.scheme + [58, 47, 47] + (AuthorityPart(w) + Tail(w))
  }

  /** 443 for https and 80 for http. */
  function PortOf(w: Written, tls: bool): U16 {
    match w.port
    case Some(p) => p
    case None => if tls then 443 else 80
  }

  /** Path and query, with a slash for an empty path. */
  function TargetPart(w: Written): Text {
    (if w.path == [] then [47] else w.path) + After(63, w.query)
  }

  lemma SchemeFound(scheme: Text, tls: bool, rest: Text)
    requires LowerAll(scheme) == Scheme(tls)
    ensures SchemeEnd(scheme + Separator + rest, 0) == |scheme|
  {
    var url, n := scheme + Separator + rest, |scheme|;
    assert SeparatorAt(url, n) by { assert url[n..n + 3] == Separator; }
    forall k: nat | k < n ensures !SeparatorAt(url, k) {
      assert LowerAll(scheme)[k] == Lower(scheme[k]) && url[k] == scheme[k];
      assert url[k] != Separator[0];
      assert k + 3 <= |url| ==> url[k..k + 3][0] == url[k];
    }
  }

  lemma ParsedByScheme(scheme: Text, tls: bool, rest: Text)
    requires LowerAll(scheme) == Scheme(tls)
    ensures Parsed(scheme + Separator + rest) == ParseRest(tls, rest)
  {
    var url, n := scheme + Separator + rest, |scheme|;
    SchemeFound(scheme, tls, rest);
    SchemeIsLower(tls);
    assert |LowerAll(scheme)| == n;
    assert url[..n] == scheme && url[n + 3..] == rest;
  }

  lemma SchemeWords()
    ensures Ascii("https") == Scheme(true) && Ascii("http") == Scheme(false)
  {
  }

  lemma AuthorityParsed(w: Written)
    requires HostOk(w) && (w.port.Some? ==> w.port.value > 0)
    ensures ParseAuthority(AuthorityPart(w)) ==
            Success(Authority(w.bracketed, w.host, match w.port case None => [] case Some(p) => Decimal(p)))
  {
    assert HostPart(w) + [] == HostPart(w);
    match w.port {
      case None => if w.bracketed { LiteralAlone(w.host); } else { NameAlone(w.host); }
      case Some(p) =>
        assert Colon !in Decimal(p) && At !in Decimal(p);
        if w.bracketed { LiteralReadBack(w.host, Decimal(p)); } else { NameReadBack(w.host, Decimal(p)); }
    }
  }

  lemma AuthorityEnds(w: Written, tls: bool)
    requires WrittenOk(w, tls)
    ensures IndexOf(AuthorityPart(w) + Tail(w), {Slash, Question, Hash}) == |AuthorityPart(w)|
  {
    IndexOfAppend(AuthorityPart(w), Tail(w), {Slash, Question, Hash});
    if Tail(w) != [] {
      TailStarts(w, tls);
    }
  }

  lemma TailStarts(w: Written, tls: bool)
    requires WrittenOk(w, tls) && Tail(w) != []
    ensures Tail(w)[0] in {Slash, Question, Hash}
  {
    if w.path == [] {
      if w.query.None? {
        assert Tail(w) == After(35, w.fragment);
      } else {
        assert Tail(w)[0] == 63;
      }
    }
  }

  lemma TargetFound(w: Written, tls: bool)
    requires WrittenOk(w, tls)
    ensures TargetOf(Tail(w)) == TargetPart(w) && SafePart(TargetPart(w))
  {
    FragmentDropped(w.path + After(63, w.query), w.fragment);
    if w.path == [] {
      assert w.path + After(63, w.query) == After(63, w.query);
      assert w.query.None? ==> [47] + After(63, w.query) == [47];
    }
  }

  lemma FragmentDropped(front: Text, fragment: Option<Text>)
    requires NoneOf(front, {Hash})
    ensures TargetOf(front + After(35, fragment)) ==
            if front == [] then [47] else if front[0] == 63 then [47] + front else front
  {
    var s := front + After(35, fragment);
    IndexOfAppend(front, After(35, fragment), {Hash});
    assert s[..|front|] == front;
  }

  /** A URL whose authority holds user information is refused, whatever else it holds. */
  lemma UserInfoRefused(scheme: Text, tls: bool, authority: Text, tail: Text)
    requires LowerAll(scheme) == (if tls then Ascii("https") else Ascii("http"))
    requires 64 in authority && NoneOf(authority, {Slash, Question, Hash})
    requires tail != [] ==> tail[0] in {Slash, Question, Hash}
    ensures Parsed(scheme + [58, 47, 47] + (authority + tail)) == Failure(UserInfo)
  {
    SchemeWords();
    ParsedByScheme(scheme, tls, authority + tail);
    IndexOfAppend(authority, tail, {Slash, Question, Hash});
    Halves(authority, tail);
    RestRefused(tls, authority, tail);
  }

  lemma RestRefused(tls: bool, a: Text, tail: Text)
    requires At in a && IndexOf(a + tail, {Slash, Question, Hash}) == |a| && (a + tail)[..|a|] == a
    ensures ParseRest(tls, a + tail) == Failure(UserInfo)
  {
  }

  /** Whatever the URL, its parts hold no white space and no control characters. */
  lemma PartsAreClean(url: Text)
    requires Parsed(url).Success?
    ensures Clean(Parsed(url).value.host) && Clean(Parsed(url).value.target)
  {
    var tls, rest := ParsedIsRest(url);
  }

  /** Every URL is parsed into its parts: the scheme's security, the host, the port that is written or
      the scheme's own, and path and query; the fragment is dropped. */
  lemma WrittenParsed(w: Written, tls: bool)
    requires WrittenOk(w, tls)
    ensures Parsed(UrlOf(w)) ==
            Success(Parts(tls, w.host,
                          HostPart(w) + (if PortOf(w, tls) == (if tls then 443 else 80) then []
                                         else [58] + Decimal(PortOf(w, tls))),
                          PortOf(w, tls), TargetPart(w)))
  {
    var rest := AuthorityPart(w) + Tail(w);
    SchemeWords();
    ParsedByScheme(w.scheme, tls, rest);
    AuthorityEnds(w, tls);
    AuthorityParsed(w);
    TargetFound(w, tls);
    Halves(AuthorityPart(w), Tail(w));
    if w.port.Some? {
      PortReadBack(w.port.value, DefaultPort(tls));
    }
  }
}
