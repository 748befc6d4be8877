/** `_PoolKey`: what a pooled channel is filed under, and what it keeps apart. */
module PoolKeys {
  import opened Bytes
  import opened Texts
  import opened VpnPolicy

  type Key = Text

  /** The part of `TcpChannelConfig` that says where and how a channel is opened. */
  datatype Target = Target(host: Text, port: U16, tls: bool, resolved: Text, policy: Policy,
                           ifIndex: U32, netHandle: U64)

  const LetterI: byte := 105
  const LetterN: byte := 110
  const LetterP: byte := 112
  const LetterR: byte := 114

  const TlsMark: Text := [58, 116, 108, 115]
  const TcpMark: Text := [58, 116, 99, 112]

  /** ":tls" or ":tcp". */
  function Security(t: Target): Text {
    if t.tls then TlsMark else TcpMark
  }

  /** What stands between the host and the resolved address, but for the last letter. */
  function Middle(t: Target): Text {
    [Colon] + Decimal(t.port) + Security(t)
    + [Colon] + [LetterP] + PolicyText(t.policy)
    + [Colon] + [LetterI] + Decimal(t.ifIndex)
    + [Colon] + [LetterN] + Decimal(t.netHandle)
    + [Colon]
  }

  function PoolKey(t: Target): Key {
    t.host + Middle(t) + [LetterR] + t.resolved
  }

  // ----- keys of different targets -----------------------------------------------------------

  lemma Regroup(h: Text, y: Text, x: Text)
    ensures h + (y + x) == h + y + x
  {
  }

  /** Host and middle, grouped from the left. */
  lemma FrontIs(t: Target)
    ensures t.host + Middle(t) ==
            t.host + [Colon] + Decimal(t.port) + Security(t)
            + [Colon] + [LetterP] + PolicyText(t.policy)
            + [Colon] + [LetterI] + Decimal(t.ifIndex)
            + [Colon] + [LetterN] + Decimal(t.netHandle)
            + [Colon]
  {
    var h, y0 := t.host, [Colon] + Decimal(t.port) + Security(t);
    Regroup(h, [Colon], Decimal(t.port));
    Regroup(h, [Colon] + Decimal(t.port), Security(t));
    var y1 := y0 + [Colon] + [LetterP] + PolicyText(t.policy);
    Regroup(h, y0, [Colon]);
    Regroup(h, y0 + [Colon], [LetterP]);
    Regroup(h, y0 + [Colon] + [LetterP], PolicyText(t.policy));
    var y2 := y1 + [Colon] + [LetterI] + Decimal(t.ifIndex);
    Regroup(h, y1, [Colon]);
    Regroup(h, y1 + [Colon], [LetterI]);
    Regroup(h, y1 + [Colon] + [LetterI], Decimal(t.ifIndex));
    Regroup(h, y2, [Colon]);
    Regroup(h, y2 + [Colon], [LetterN]);
    Regroup(h, y2 + [Colon] + [LetterN], Decimal(t.netHandle));
    Regroup(h, y2 + [Colon] + [LetterN] + Decimal(t.netHandle), [Colon]);
  }

  lemma DropColon(a: Text, b: Text)
    requires a + [Colon] == b + [Colon]
    ensures a == b
  {
    assert (a + [Colon])[..|a|] == a && (b + [Colon])[..|b|] == b;
  }

  lemma EndpointSame(t: Target, u: Target)
    requires t.host + [Colon] + Decimal(t.port) + Security(t) == u.host + [Colon] + Decimal(u.port) + Security(u)
    ensures t.host == u.host && t.port == u.port && t.tls == u.tls
  {
    var p, q := t.host + [Colon] + Decimal(t.port), u.host + [Colon] + Decimal(u.port);
    var a, b := p + Security(t), q + Security(u);
    assert a[|a| - 1] == Security(t)[3] && b[|b| - 1] == Security(u)[3];
    assert a[..|p|] == p && b[..|q|] == q;
    LastSeparator(Colon, t.host, Decimal(t.port), u.host, Decimal(u.port));
    DecimalInjective(t.port, u.port);
  }

  /** The numbers and the policy are read off from the end. */
  lemma FrontSame(t: Target, u: Target)
    requires t.host + Middle(t) == u.host + Middle(u)
    ensures t.(resolved := []) == u.(resolved := [])
  {
    FrontIs(t);
    FrontIs(u);
    var p := t.host + [Colon] + Decimal(t.port) + Security(t) + [Colon];
    var q := u.host + [Colon] + Decimal(u.port) + Security(u) + [Colon];
    var i := p + [LetterP] + PolicyText(t.policy) + [Colon];
    var j := q + [LetterP] + PolicyText(u.policy) + [Colon];
    var n := i + [LetterI] + Decimal(t.ifIndex) + [Colon];
    var m := j + [LetterI] + Decimal(u.ifIndex) + [Colon];
    DropColon(n + [LetterN] + Decimal(t.netHandle), m + [LetterN] + Decimal(u.netHandle));
    LastSeparator(LetterN, n, Decimal(t.netHandle), m, Decimal(u.netHandle));
    DecimalInjective(t.netHandle, u.netHandle);
    DropColon(i + [LetterI] + Decimal(t.ifIndex), j + [LetterI] + Decimal(u.ifIndex));
    LastSeparator(LetterI, i, Decimal(t.ifIndex), j, Decimal(u.ifIndex));
    DecimalInjective(t.ifIndex, u.ifIndex);
    DropColon(p + [LetterP] + PolicyText(t.policy), q + [LetterP] + PolicyText(u.policy));
    LastSeparator(LetterP, p, PolicyText(t.policy), q, PolicyText(u.policy));
    PolicyTextInjective(t.policy, u.policy);
    DropColon(t.host + [Colon] + Decimal(t.port) + Security(t), u.host + [Colon] + Decimal(u.port) + Security(u));
    EndpointSame(t, u);
  }

  // ----- when two targets share a key --------------------------------------------------------

  /** The key up to the resolved address, and from the end of the host on. */
  function Stem(t: Target): Text {
    t.host + Middle(t) + [LetterR]
  }

  function Tail(t: Target): Text {
    Middle(t) + [LetterR] + t.resolved
  }

  /** Another target is filed under the same key. */
  ghost predicate Ambiguous(t: Target) {
    exists u :: u != t && PoolKey(u) == PoolKey(t)
  }

  ghost predicate AddressLikeTail(t: Target) {
    exists x: Text, u :: t.resolved == x + Tail(u)
  }

  ghost predicate HostLikeStem(t: Target) {
    exists x: Text, u :: t.host == Stem(u) + x
  }

  lemma MiddleHasNoLetter(t: Target)
    ensures LetterR !in Middle(t) && Colon in Middle(t)
  {
    assert Middle(t)[|Middle(t)| - 1] == Colon;
    assert LetterR !in Decimal(t.port) && LetterR !in Decimal(t.ifIndex) && LetterR !in Decimal(t.netHandle);
  }

  /** Of two ways to cut one text, the longer front reaches past the whole shorter one. */
  lemma Overlap(h: Text, m: Text, r: Text, h': Text, m': Text, r': Text)
    returns (x: Text)
    requires h + m + [LetterR] + r == h' + m' + [LetterR] + r' && LetterR !in m'
    requires |h| + |m| < |h'| + |m'|
    ensures h' == h + m + [LetterR] + x && r == x + (m' + [LetterR] + r')
  {
    var k, n := h + m + [LetterR] + r, |h| + |m|;
    var k' := h' + m' + [LetterR] + r';
    assert k[n] == LetterR && k'[n] == (h' + m')[n];
    assert n < |h'|;
    assert k'[..|h'|] == h' && k'[|h'|..] == m' + [LetterR] + r';
    assert k[..n + 1] == h + m + [LetterR] && k[n + 1..] == r;
    x := h'[n + 1..];
    assert h' == h'[..n + 1] + x && h'[..n + 1] == k'[..n + 1];
    assert r == k'[n + 1..] == x + k'[|h'|..];
  }

  lemma SameCut(t: Target, u: Target)
    requires PoolKey(t) == PoolKey(u) && |t.host| + |Middle(t)| == |u.host| + |Middle(u)|
    ensures t == u
  {
    var n := |t.host| + |Middle(t)|;
    assert PoolKey(t)[..n] == t.host + Middle(t) && PoolKey(u)[..n] == u.host + Middle(u);
    assert PoolKey(t)[n + 1..] == t.resolved && PoolKey(u)[n + 1..] == u.resolved;
    FrontSame(t, u);
  }

  lemma Rejoin(h: Text, m: Text, x: Text, m': Text, r': Text)
    ensures h + m + [LetterR] + (x + (m' + [LetterR] + r')) == (h + m + [LetterR] + x) + m' + [LetterR] + r'
  {
  }

  lemma SharedByAddress(t: Target, x: Text, u: Target)
    requires t.resolved == x + Tail(u)
    ensures Ambiguous(t)
  {
    var v := u.(host := Stem(t) + x);
    assert Middle(v) == Middle(u);
    Rejoin(t.host, Middle(t), x, Middle(u), u.resolved);
    assert |v.host| > |t.host|;
    assert PoolKey(v) == PoolKey(t);
  }

  lemma SharedByHost(t: Target, x: Text, u: Target)
    requires t.host == Stem(u) + x
    ensures Ambiguous(t)
  {
    var v := u.(resolved := x + Tail(t));
    assert Middle(v) == Middle(u);
    Rejoin(u.host, Middle(u), x, Middle(t), t.resolved);
    assert |v.host| < |t.host|;
    assert PoolKey(v) == PoolKey(t);
  }

  /** A target shares its key with another one exactly if its resolved address ends like a key from
      the host on, or its host begins like one up to the address. */
  lemma AmbiguousIff(t: Target)
    ensures Ambiguous(t) <==> AddressLikeTail(t) || HostLikeStem(t)
  {
    if AddressLikeTail(t) {
      var x: Text, u :| t.resolved == x + Tail(u);
      SharedByAddress(t, x, u);
    } else if HostLikeStem(t) {
      var x: Text, u :| t.host == Stem(u) + x;
      SharedByHost(t, x, u);
    } else if Ambiguous(t) {
      var u :| u != t && PoolKey(u) == PoolKey(t);
      OverlapOf(t, u);
      assert false;
    }
  }

  lemma OverlapOf(t: Target, u: Target)
    requires u != t && PoolKey(u) == PoolKey(t)
    ensures AddressLikeTail(t) || HostLikeStem(t)
  {
    MiddleHasNoLetter(t);
    MiddleHasNoLetter(u);
    if |t.host| + |Middle(t)| < |u.host| + |Middle(u)| {
      var x := Overlap(t.host, Middle(t), t.resolved, u.host, Middle(u), u.resolved);
      assert t.resolved == x + Tail(u);
    } else if |u.host| + |Middle(u)| < |t.host| + |Middle(t)| {
      var x := Overlap(u.host, Middle(u), u.resolved, t.host, Middle(t), t.resolved);
      assert t.host == Stem(u) + x;
    } else {
      SameCut(t, u);
    }
  }

  /** Numeric addresses hold no such letter and names no colon: then no other target has the key. */
  lemma UsualIsOwn(t: Target, u: Target)
    requires Colon !in t.host && LetterR !in t.resolved
    ensures PoolKey(t) == PoolKey(u) <==> t == u
  {
    if PoolKey(t) == PoolKey(u) && t != u {
      OverlapOf(t, u);
      LettersOfLike(t);
      assert false;
    }
  }

  lemma LettersOfLike(t: Target)
    ensures AddressLikeTail(t) ==> LetterR in t.resolved
    ensures HostLikeStem(t) ==> Colon in t.host
  {
    if AddressLikeTail(t) {
      var x: Text, u :| t.resolved == x + Tail(u);
      assert LetterR in Tail(u);
    }
    if HostLikeStem(t) {
      var x: Text, u :| t.host == Stem(u) + x;
      MiddleHasNoLetter(u);
      assert Colon in Stem(u);
    }
  }

  /** Two targets whose resolved addresses lack the letter have one key only if they are the same,
      colons in the hosts included. */
  lemma PoolKeyInjective(t: Target, u: Target)
    requires LetterR !in t.resolved && LetterR !in u.resolved
    ensures PoolKey(t) == PoolKey(u) <==> t == u
  {
    if PoolKey(t) == PoolKey(u) {
      LastSeparator(LetterR, t.host + Middle(t), t.resolved, u.host + Middle(u), u.resolved);
      FrontSame(t, u);
    }
  }
}
