/** Percent encoding of path segments, and the path of a CONNECT-UDP request (RFC 9298, section 2). */
module MasquePath {
  import opened Wrappers
  import opened Bytes
  import opened Texts

  const Percent: byte := 37
  const Slash: byte := 47

  predicate IsUnreserved(b: byte) {
    || 65 <= b <= 90 || 97 <= b <= 122 || 48 <= b <= 57
    || b == 45 || b == 46 || b == 95 || b == 126
  }

  /** A digit of "0123456789ABCDEF". */
  function HexDigit(n: nat): byte
    requires n < 16
  {
    if n < 10 then 48 + n else 55 + n
  }

  function HexValue(b: byte): Option<nat> {
    if 48 <= b <= 57 then Some(b - 48)
    else if 65 <= b <= 70 then Some(b - 55)
    else if 97 <= b <= 102 then Some(b - 87)
    else None
  }

  function Escaped(b: byte): seq<byte> {
    if IsUnreserved(b) then [b] else [Percent, HexDigit(b / 16), HexDigit(b % 16)]
  }

  function Segment(s: Text): Text {
    if s == [] then [] else Escaped(s[0]) + Segment(s[1..])
  }

  /** What a percent-encoded text stands for (RFC 3986, section 2.1). */
  function Unescaped(s: Text): Option<Text> {
    if s == [] then Some([])
    else if s[0] != Percent then Prefixed([s[0]], Unescaped(s[1..]))
    else if |s| < 3 then None
    else
      var high, low := HexValue(s[1]), HexValue(s[2]);
      if high.None? || low.None? then None
      else Prefixed([high.value * 16 + low.value], Unescaped(s[3..]))
  }

  lemma {:induction false} SegmentAppend(a: Text, b: Text)
    ensures Segment(a + b) == Segment(a) + Segment(b)
  {
    if a == [] {
      assert a + b == b;
    } else {
      assert (a + b)[1..] == a[1..] + b;
      SegmentAppend(a[1..], b);
    }
  }

  lemma SegmentOne(c: byte)
    ensures Segment([c]) == Escaped(c)
  {
    assert Escaped(c) + [] == Escaped(c);
  }

  method PercentEncodeSegment(s: Text) returns (out: Text)
    ensures out == Segment(s)
  {
    out := [];
    for i := 0 to |s|
      invariant out == Segment(s[..i])
    {
      var c := s[i];
      assert s[..i + 1] == s[..i] + [c];
      SegmentAppend(s[..i], [c]);
      SegmentOne(c);
      if IsUnreserved(c) {
        out := out + [c];
      } else {
        out := out + [Percent];
        out := out + [HexDigit(c / 16 % 16)];
        out := out + [HexDigit(c % 16)];
      }
    }
    assert s[..|s|] == s;
  }

  lemma UnescapeOne(b: byte, rest: Text)
    ensures Unescaped(Escaped(b) + rest) == Prefixed([b], Unescaped(rest))
  {
    var s := Escaped(b) + rest;
    if IsUnreserved(b) {
      assert s[1..] == rest;
    } else {
      assert s[3..] == rest;
      assert b / 16 * 16 + b % 16 == b;
    }
  }

  /** Decoding an encoded segment gives it back, for every string of bytes. */
  lemma {:induction false} SegmentRoundTrip(s: Text)
    ensures Unescaped(Segment(s)) == Some(s)
  {
    if s != [] {
      UnescapeOne(s[0], Segment(s[1..]));
      SegmentRoundTrip(s[1..]);
      assert [s[0]] + s[1..] == s;
    }
  }

  /** An encoded segment holds no separator. */
  lemma {:induction false} SegmentHasNoSlash(s: Text)
    ensures Slash !in Segment(s)
  {
    if s != [] {
      SegmentHasNoSlash(s[1..]);
    }
  }

  function Unbracketed(host: Text): Text {
    if |host| >= 2 && host[0] == 91 && host[|host| - 1] == 93 then host[1..|host| - 1] else host
  }

  function Prefix(): Text {
    Ascii("/.well-known/masque/udp/")
  }

  function UdpPath(host: Text, port: U16): Text {
    Prefix() + Segment(Unbracketed(host)) + [Slash] + Segment(Decimal(port)) + [Slash]
  }

  method BuildConnectUdpPath(host: Text, port: U16) returns (path: Text)
    ensures path == UdpPath(host, port)
  {
    var h := host;
    if |h| >= 2 && h[0] == 91 && h[|h| - 1] == 93 {
      h := h[1..|h| - 1];
    }
    path := Prefix();
    var part := PercentEncodeSegment(h);
    path := path + part;
    path := path + [Slash];
    part := PercentEncodeSegment(Decimal(port));
    path := path + part;
    path := path + [Slash];
  }

  /** The letters, the digits and four marks (RFC 3986, section 2.3) stay as they are; no colon, bracket
      or percent sign does. */
  lemma UnreservedIs(b: byte)
    ensures Escaped(b) == [b] <==>
              || 'a' as int <= b <= 'z' as int || 'A' as int <= b <= 'Z' as int || '0' as int <= b <= '9' as int
              || b as char in {'-', '.', '_', '~'}
  {
  }

  /** The parts between the slashes. */
  function SplitAtSlash(s: Text): seq<Text>
    decreases |s|
  {
    var end := IndexOf(s, {Slash});
    if end == |s| then [s] else [s[..end]] + SplitAtSlash(s[end + 1..])
  }

  /** A proxy reads the template "/.well-known/masque/udp/{target_host}/{target_port}/" (RFC 9298,
      section 2): host and port, each unescaped. */
  function ReadPath(path: Text): Option<(Text, Text)> {
    var parts := SplitAtSlash(path);
    if |parts| != 7 || parts[0] != [] || parts[1] != Ascii(".well-known") || parts[2] != Ascii("masque")
       || parts[3] != Ascii("udp") || parts[6] != [] then None
    else
      match (Unescaped(parts[4]), Unescaped(parts[5]))
      case (Some(host), Some(port)) => Some((host, port))
      case _ => None
  }

  function JoinedBySlash(parts: seq<Text>): Text
    requires parts != []
  {
    if |parts| == 1 then parts[0] else parts[0] + [Slash] + JoinedBySlash(parts[1..])
  }

  lemma {:induction false} SplitOfJoined(parts: seq<Text>)
    requires parts != [] && forall i | 0 <= i < |parts| :: Slash !in parts[i]
    ensures SplitAtSlash(JoinedBySlash(parts)) == parts
  {
    var a, s := parts[0], JoinedBySlash(parts);
    if |parts| == 1 {
      IndexOfAppend(a, [], {Slash});
      assert a + [] == a;
    } else {
      var b := JoinedBySlash(parts[1..]);
      assert s == a + ([Slash] + b);
      IndexOfAppend(a, [Slash] + b, {Slash});
      assert s[..|a|] == a && s[|a| + 1..] == b;
      SplitOfJoined(parts[1..]);
    }
  }

  lemma JoinedStep(a: Text, parts: seq<Text>)
    requires parts != []
    ensures JoinedBySlash([a] + parts) == a + [Slash] + JoinedBySlash(parts)
  {
    assert ([a] + parts)[1..] == parts;
  }

  function Target(h: Text, p: Text): seq<Text> {
    [h] + ([p] + [[]])
  }

  function Parts(h: Text, p: Text): seq<Text> {
    [[]] + ([Ascii(".well-known")] + ([Ascii("masque")] + ([Ascii("udp")] + Target(h, p))))
  }

  lemma TargetJoined(h: Text, p: Text)
    ensures JoinedBySlash(Target(h, p)) == h + [Slash] + (p + [Slash])
  {
    JoinedStep(h, [p] + [[]]);
    JoinedStep(p, [[]]);
    assert p + [Slash] + [] == p + [Slash];
  }

  lemma PartsJoined(h: Text, p: Text)
    ensures JoinedBySlash(Parts(h, p)) == Prefix() + h + [Slash] + p + [Slash]
  {
    var t := Target(h, p);
    TargetJoined(h, p);
    JoinedStep([], [Ascii(".well-known")] + ([Ascii("masque")] + ([Ascii("udp")] + t)));
    JoinedStep(Ascii(".well-known"), [Ascii("masque")] + ([Ascii("udp")] + t));
    JoinedStep(Ascii("masque"), [Ascii("udp")] + t);
    JoinedStep(Ascii("udp"), t);
    PrefixIs(JoinedBySlash(t));
    assert Prefix() + (h + [Slash] + (p + [Slash])) == Prefix() + h + [Slash] + p + [Slash];
  }

  lemma PrefixIs(rest: Text)
    ensures Prefix() + rest ==
            [] + [Slash] + (Ascii(".well-known") + [Slash] + (Ascii("masque") + [Slash]
                                                             + (Ascii("udp") + [Slash] + rest)))
  {
    PrefixWords();
    Regroup(Ascii("masque") + [Slash], Ascii("udp") + [Slash], rest);
    Regroup(Ascii(".well-known") + [Slash], Ascii("masque") + [Slash] + (Ascii("udp") + [Slash]), rest);
    Regroup([] + [Slash], Ascii(".well-known") + [Slash] + (Ascii("masque") + [Slash] + (Ascii("udp") + [Slash])),
            rest);
  }

  lemma Regroup(a: Text, b: Text, c: Text)
    ensures a + (b + c) == a + b + c
  {
  }

  lemma PrefixWords()
    ensures Prefix() == [] + [Slash] + (Ascii(".well-known") + [Slash] + (Ascii("masque") + [Slash]
                                                                         + (Ascii("udp") + [Slash])))
  {
  }

  lemma PartsHaveNoSlash(h: Text, p: Text)
    requires Slash !in h && Slash !in p
    ensures forall i | 0 <= i < 7 :: Slash !in Parts(h, p)[i]
  {
  }

  /** The proxy reads exactly the target's host, without brackets, and its port. */
  lemma PathReadBack(host: Text, port: U16)
    ensures ReadPath(UdpPath(host, port)) == Some((Unbracketed(host), Decimal(port)))
  {
    var h, p := Segment(Unbracketed(host)), Segment(Decimal(port));
    SegmentHasNoSlash(Unbracketed(host));
    SegmentHasNoSlash(Decimal(port));
    SegmentRoundTrip(Unbracketed(host));
    SegmentRoundTrip(Decimal(port));
    PartsJoined(h, p);
    PartsHaveNoSlash(h, p);
    SplitOfJoined(Parts(h, p));
  }

  /** An address in brackets goes without them, and every other host as it is. */
  lemma BracketsDropped(host: Text, port: U16)
    ensures ReadPath(UdpPath([91] + host + [93], port)) == Some((host, Decimal(port)))
    ensures 91 !in host ==> ReadPath(UdpPath(host, port)) == Some((host, Decimal(port)))
  {
    var bracketed := [91] + host + [93];
    assert bracketed[1..|bracketed| - 1] == host;
    PathReadBack(bracketed, port);
    PathReadBack(host, port);
  }

  /** The path names its target: two targets with the same path are the same, up to the brackets
      around an IPv6 address. */
  lemma PathNamesTarget(h1: Text, p1: U16, h2: Text, p2: U16)
    requires UdpPath(h1, p1) == UdpPath(h2, p2)
    ensures Unbracketed(h1) == Unbracketed(h2) && p1 == p2
  {
    var a, c := Prefix() + Segment(Unbracketed(h1)), Prefix() + Segment(Unbracketed(h2));
    var b, d := Segment(Decimal(p1)), Segment(Decimal(p2));
    var x, y := a + [Slash] + b, c + [Slash] + d;
    assert x == UdpPath(h1, p1)[..|x|] && y == UdpPath(h2, p2)[..|y|];
    SegmentHasNoSlash(Decimal(p1));
    SegmentHasNoSlash(Decimal(p2));
    LastSeparator(Slash, a, b, c, d);
    assert Segment(Unbracketed(h1)) == a[|Prefix()|..] == c[|Prefix()|..] == Segment(Unbracketed(h2));
    SegmentRoundTrip(Unbracketed(h1));
    SegmentRoundTrip(Unbracketed(h2));
    SegmentRoundTrip(Decimal(p1));
    SegmentRoundTrip(Decimal(p2));
    DecimalInjective(p1, p2);
  }
}
