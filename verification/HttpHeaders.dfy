/** What the map of response headers holds: for every name, whatever its case, the values in the order
    in which they came, with a comma and a space between them (RFC 9110, section 5.3). */
module HttpHeaders {
  import opened Wrappers
  import opened Texts
  import opened HttpHead
  import opened HttpFragments

  const CommaSpace: Text := [44, 32]

  /** The field names that occur, in lower case. */
  function Names(hs: seq<Header>): set<Text> {
    set i | 0 <= i < |hs| && hs[i].name != [] :: LowerAll(hs[i].name)
  }

  /** The values under a name, in order. */
  function ValuesOf(hs: seq<Header>, lower: Text): seq<Text> {
    if hs == [] then []
    else
      (if hs[0].name != [] && LowerAll(hs[0].name) == lower then [hs[0].value] else [])
      + ValuesOf(hs[1..], lower)
  }

  function CommaJoined(vs: seq<Text>): Text
    requires vs != []
  {
    if |vs| == 1 then vs[0] else vs[0] + CommaSpace + CommaJoined(vs[1..])
  }

  /** Values behind one that is there already. */
  function Behind(front: Text, vs: seq<Text>): Text {
    if vs == [] then front else front + CommaSpace + CommaJoined(vs)
  }

  lemma BehindOne(front: Text, v: Text, vs: seq<Text>)
    ensures Behind(front + CommaSpace + v, vs) == Behind(front, [v] + vs)
  {
    assert ([v] + vs)[1..] == vs;
    if vs != [] {
      assert front + CommaSpace + v + CommaSpace + CommaJoined(vs) ==
             front + CommaSpace + (v + CommaSpace + CommaJoined(vs));
    }
  }

  lemma JoinedIsBehind(v: Text, vs: seq<Text>)
    ensures CommaJoined([v] + vs) == Behind(v, vs)
  {
    assert ([v] + vs)[1..] == vs;
  }

  /** The value under a name after more headers have come. */
  function Value(m: Headers, hs: seq<Header>, lower: Text): Option<Text> {
    var vs := ValuesOf(hs, lower);
    if lower in m then Some(Behind(m[lower], vs))
    else if vs == [] then None
    else Some(CommaJoined(vs))
  }

  function Found(m: Headers, lower: Text): Option<Text> {
    if lower in m then Some(m[lower]) else None
  }

  lemma NamesStep(hs: seq<Header>)
    requires hs != []
    ensures Names(hs) == NameOf(hs[0]) + Names(hs[1..])
  {
    var rest := hs[1..];
    assert forall i | 1 <= i < |hs| :: hs[i] == rest[i - 1];
    assert forall i | 0 <= i < |rest| :: rest[i] == hs[i + 1];
  }

  lemma AddValue(m: Headers, h: Header, hs: seq<Header>, lower: Text)
    requires Add(m, h.name, h.value).Some?
    ensures Value(Add(m, h.name, h.value).value, hs, lower) == Value(m, [h] + hs, lower)
  {
    assert ([h] + hs)[1..] == hs;
    var vs := ValuesOf(hs, lower);
    if h.name != [] && LowerAll(h.name) == lower {
      if lower in m {
        BehindOne(m[lower], h.value, vs);
      } else {
        JoinedIsBehind(h.value, vs);
      }
    } else {
      assert [] + vs == vs;
    }
  }

  /** Merging headers gives every name that occurs its values, joined in order, and leaves the other
      names alone. */
  lemma {:induction false} MergedValues(m: Headers, hs: seq<Header>, lower: Text)
    requires Merge(m, hs).Some?
    ensures Found(Merge(m, hs).value, lower) == Value(m, hs, lower)
    decreases |hs|
  {
    if hs != [] {
      var m' := Add(m, hs[0].name, hs[0].value).value;
      assert [hs[0]] + hs[1..] == hs;
      AddValue(m, hs[0], hs[1..], lower);
      MergedValues(m', hs[1..], lower);
    }
  }

  function NameOf(h: Header): set<Text> {
    if h.name == [] then {} else {LowerAll(h.name)}
  }

  /** One more name is taken exactly if it makes no more than two hundred. */
  lemma AddKeys(m: Headers, h: Header)
    requires |m| <= MaxCount
    ensures Add(m, h.name, h.value).Some? <==> |m.Keys + NameOf(h)| <= MaxCount
    ensures Add(m, h.name, h.value).Some? ==> Add(m, h.name, h.value).value.Keys == m.Keys + NameOf(h)
  {
    if h.name == [] || LowerAll(h.name) in m {
      assert m.Keys + NameOf(h) == m.Keys;
    }
  }

  lemma SubsetSmaller(a: set<Text>, b: set<Text>)
    requires a <= b
    ensures |a| <= |b|
  {
    assert b == a + (b - a);
  }

  /** Headers are merged exactly if the names are at most two hundred. */
  lemma {:induction false} MergedIff(m: Headers, hs: seq<Header>)
    requires |m| <= MaxCount
    ensures Merge(m, hs).Some? <==> |m.Keys + Names(hs)| <= MaxCount
    ensures Merge(m, hs).Some? ==> Merge(m, hs).value.Keys == m.Keys + Names(hs)
    decreases |hs|
  {
    if hs == [] {
      assert m.Keys + Names(hs) == m.Keys;
    } else {
      NamesStep(hs);
      MergedStep(m, hs[0], hs[1..], Names(hs[1..]));
      if Add(m, hs[0].name, hs[0].value).Some? {
        MergedIff(Add(m, hs[0].name, hs[0].value).value, hs[1..]);
      }
    }
  }

  lemma MergedStep(m: Headers, h: Header, hs: seq<Header>, names: set<Text>)
    requires |m| <= MaxCount
    ensures var m' := Add(m, h.name, h.value);
            && (m'.Some? ==> |m'.value| <= MaxCount && m'.value.Keys + names == m.Keys + (NameOf(h) + names))
            && (m'.None? ==> |m.Keys + (NameOf(h) + names)| > MaxCount)
  {
    AddKeys(m, h);
    if Add(m, h.name, h.value).Some? {
      assert |Add(m, h.name, h.value).value| == |m.Keys + NameOf(h)|;
    } else {
      SubsetSmaller(m.Keys + NameOf(h), m.Keys + (NameOf(h) + names));
    }
  }

  /** The headers of a message, whatever the parser cut them into: refused exactly if there are more
      than two hundred names; otherwise each name has its values in order. */
  lemma MessageHeaders(hs: seq<Header>, lower: Text)
    ensures Merge(map[], hs).Some? <==> |Names(hs)| <= 200
    ensures Merge(map[], hs).Some? ==>
              var m := Merge(map[], hs).value;
              && m.Keys == Names(hs)
              && (lower in m ==> ValuesOf(hs, lower) != [] && m[lower] == CommaJoined(ValuesOf(hs, lower)))
  {
    var none: Headers := map[];
    MergedIff(none, hs);
    assert none.Keys + Names(hs) == Names(hs);
    if Merge(none, hs).Some? {
      MergedValues(none, hs, lower);
    }
  }
}
