/** Domain names on the wire (RFC 1035, sections 3.1 and 4.1.4): the two walkers, and what they
    agree on. */
module DnsName {
  import opened Wrappers
  import opened Bytes
  import opened Texts

  const Dot: byte := 46
  const MaxJumps: nat := 32

  // ----- the walk over one name --------------------------------------------------------------

  /** Where the labels from a position lead: to the root, to a pointer, or out of the format.
      `end` is the position behind the root or the pointer. */
  datatype Stop = Root(end: nat) | Jump(at: nat, target: nat) | Bad

  predicate IsPointer(b: byte) { b / 64 == 3 }
  function PointerTo(high: byte, low: byte): nat { (high as int) % 64 * 256 + low as int }
  predicate IsReserved(b: byte) { b / 64 == 1 || b / 64 == 2 }

  function StopOf(d: seq<byte>, pos: nat): (stop: Stop)
    ensures match stop
            case Bad => true
            case Root(end) => pos < end <= |d|
            case Jump(at, target) => pos <= at && at + 2 <= |d| && target < |d|
    decreases |d| - pos
  {
    if pos >= |d| then Bad
    else
      var b := d[pos];
      if IsPointer(b) then
        if pos + 1 >= |d| then Bad
        else
          var target := PointerTo(b, d[pos + 1]);
          if target >= |d| then Bad else Jump(pos, target)
      else if IsReserved(b) then Bad
      else if b == 0 then Root(pos + 1)
      else if pos + 1 + b > |d| then Bad
      else StopOf(d, pos + 1 + b)
  }

  /** The labels from a position up to where the walk stops. */
  function LabelsOf(d: seq<byte>, pos: nat): seq<Text>
    decreases |d| - pos
  {
    if pos >= |d| || d[pos] / 64 != 0 || d[pos] == 0 || pos + 1 + d[pos] > |d| then []
    else [d[pos + 1..pos + 1 + d[pos]]] + LabelsOf(d, pos + 1 + d[pos])
  }

  /** The name at a position, following at most `jumps` pointers. */
  function NameAt(d: seq<byte>, pos: nat, jumps: nat): Option<seq<Text>>
    decreases jumps
  {
    match StopOf(d, pos)
    case Bad => None
    case Root(_) => Some(LabelsOf(d, pos))
    case Jump(_, target) =>
      if jumps == 0 then None
      else
        match NameAt(d, target, jumps - 1)
        case None => None
        case Some(rest) => Some(LabelsOf(d, pos) + rest)
  }

  /** The text form of a name: the labels in lower case with dots between them. */
  function TextOf(labels: seq<Text>): Text {
    if labels == [] then []
    else if |labels| == 1 then LowerAll(labels[0])
    else LowerAll(labels[0]) + [Dot] + TextOf(labels[1..])
  }

  lemma TextCons(one: Text, rest: seq<Text>)
    requires rest != []
    ensures TextOf([one] + rest) == LowerAll(one) + [Dot] + TextOf(rest)
  {
    assert ([one] + rest)[1..] == rest;
  }

  // ----- the two walkers of the resolver -----------------------------------------------------

  /** How many bytes the name at `offset` takes in place, 0 if it is malformed. */
  function SkipLength(d: seq<byte>, offset: nat): nat {
    match StopOf(d, offset)
    case Bad => 0
    case Root(end) => end - offset
    case Jump(at, target) => if target == at then 0 else at + 2 - offset
  }

  method SkipName(d: seq<byte>, offset: nat) returns (n: nat)
    ensures n == SkipLength(d, offset)
  {
    var consumed: nat := 0;
    var pos: nat := offset;
    while pos < |d|
      invariant pos == offset + consumed && StopOf(d, pos) == StopOf(d, offset)
      decreases |d| - pos
    {
      var b := d[pos];
      if IsPointer(b) {
        if pos + 1 >= |d| {
          return 0;
        }
        var target := PointerTo(b, d[pos + 1]);
        if target >= |d| {
          return 0;
        }
        if target == pos {
          return 0;
        }
        return consumed + 2;
      }
      if b / 64 != 0 {
        return 0;
      }
      if b == 0 {
        return consumed + 1;
      }
      if pos + 1 + b > |d| {
        return 0;
      }
      pos := pos + 1 + b;
      consumed := consumed + 1 + b;
    }
    return 0;
  }

  /** The text of a name, of which `name` is spelled already, unless nothing is. */
  function Spelled(first: bool, name: Text, rest: Option<seq<Text>>): Option<Text> {
    match rest
    case None => None
    case Some(labels) =>
      if first then Some(TextOf(labels))
      else if labels == [] then Some(name)
      else Some(name + [Dot] + TextOf(labels))
  }

  function NameText(d: seq<byte>, pos: nat, jumps: nat): Option<Text> {
    Spelled(true, [], NameAt(d, pos, jumps))
  }

  /** One label further. */
  function WithLabel(first: bool, name: Text, one: Text): Text {
    if first then LowerAll(one) else name + [Dot] + LowerAll(one)
  }

  lemma SpelledLabel(first: bool, name: Text, one: Text, rest: Option<seq<Text>>)
    ensures Spelled(first, name, Prefixed([one], rest)) == Spelled(false, WithLabel(first, name, one), rest)
  {
    if rest.Some? {
      if rest.value == [] {
        assert [one] + rest.value == [one];
      } else {
        TextCons(one, rest.value);
        assert name + [Dot] + (LowerAll(one) + [Dot] + TextOf(rest.value)) ==
               name + [Dot] + LowerAll(one) + [Dot] + TextOf(rest.value);
      }
    }
  }

  /** `name` is spelled, and the rest is at `pos`. */
  ghost predicate Decoding(d: seq<byte>, want: Option<Text>, first: bool, name: Text, pos: nat, jumps: nat) {
    want == Spelled(first, name, NameAt(d, pos, jumps))
  }

  lemma LabelHere(d: seq<byte>, want: Option<Text>, first: bool, name: Text, pos: nat, next: nat, jumps: nat)
    requires Decoding(d, want, first, name, pos, jumps) && IsPart(d, pos, Label(next))
    ensures Decoding(d, want, false, WithLabel(first, name, d[pos + 1..next]), next, jumps)
  {
    var one := d[pos + 1..next];
    if StopOf(d, next).Jump? && jumps > 0 {
      PrefixedTwice([one], LabelsOf(d, next), NameAt(d, StopOf(d, next).target, jumps - 1));
    }
    assert NameAt(d, pos, jumps) == Prefixed([one], NameAt(d, next, jumps));
    SpelledLabel(first, name, one, NameAt(d, next, jumps));
  }

  /** Malformed, or a pointer too many. */
  lemma StuckHere(d: seq<byte>, want: Option<Text>, first: bool, name: Text, pos: nat, jumps: nat)
    requires Decoding(d, want, first, name, pos, jumps)
    requires StopOf(d, pos) == Bad || (StopOf(d, pos).Jump? && jumps == 0)
    ensures want == None
  {
  }

  lemma EndHere(d: seq<byte>, want: Option<Text>, first: bool, name: Text, pos: nat, jumps: nat)
    requires Decoding(d, want, first, name, pos, jumps) && IsPart(d, pos, Terminator)
    requires first ==> name == []
    ensures want == Some(name)
  {
  }

  lemma PointerHere(d: seq<byte>, want: Option<Text>, first: bool, name: Text, pos: nat, jumps: nat)
    requires Decoding(d, want, first, name, pos, jumps + 1)
    requires StopOf(d, pos).Jump? && LabelsOf(d, pos) == []
    ensures Decoding(d, want, first, name, StopOf(d, pos).target, jumps)
  {
    var rest := NameAt(d, StopOf(d, pos).target, jumps);
    if rest.Some? {
      assert [] + rest.value == rest.value;
    }
  }

  lemma LowerOneMore(d: seq<byte>, from: nat, i: nat)
    requires from <= i < |d|
    ensures LowerAll(d[from..i + 1]) == LowerAll(d[from..i]) + [Lower(d[i])]
  {
    var longer, shorter := LowerAll(d[from..i + 1]), LowerAll(d[from..i]) + [Lower(d[i])];
    assert |longer| == |shorter|;
    forall k | 0 <= k < |longer| ensures longer[k] == shorter[k] {
      assert longer[k] == Lower(d[from..i + 1][k]) == Lower(d[from + k]);
      assert k < i - from ==> shorter[k] == Lower(d[from..i][k]);
    }
  }

  method AppendLabel(name: Text, first: bool, d: seq<byte>, from: nat, to: nat) returns (r: Text)
    requires from <= to <= |d| && (first ==> name == [])
    ensures r == WithLabel(first, name, d[from..to])
  {
    r := name;
    if !first {
      r := r + [Dot];
    }
    ghost var before := r;
    for i := from to to
      invariant r == before + LowerAll(d[from..i])
    {
      LowerOneMore(d, from, i);
      assert before + (LowerAll(d[from..i]) + [Lower(d[i])]) == before + LowerAll(d[from..i]) + [Lower(d[i])];
      r := r + [Lower(d[i])];
    }
  }

  method DecodeQuestionName(d: seq<byte>, offset: nat) returns (ok: bool, name: Text)
    ensures ok == NameText(d, offset, MaxJumps).Some?
    ensures ok ==> Some(name) == NameText(d, offset, MaxJumps)
  {
    ok, name := DecodeName(d, offset, MaxJumps);
  }

  method DecodeName(d: seq<byte>, offset: nat, limit: nat) returns (ok: bool, name: Text)
    ensures ok == NameText(d, offset, limit).Some?
    ensures ok ==> Some(name) == NameText(d, offset, limit)
  {
    name := [];
    var pos: nat := offset;
    var jumps: nat := 0;
    var first := true;
    ghost var want := NameText(d, offset, limit);
    while true
      invariant jumps <= limit && Decoding(d, want, first, name, pos, limit - jumps)
      invariant first ==> name == []
      decreases limit - jumps, |d| - pos
    {
      var part := PartAt(d, pos);
      match part
      case Malformed =>
        StuckHere(d, want, first, name, pos, limit - jumps);
        return false, name;
      case Pointer(target) =>
        jumps := jumps + 1;
        if jumps > limit {
          StuckHere(d, want, first, name, pos, 0);
          return false, name;
        }
        PointerHere(d, want, first, name, pos, limit - jumps);
        pos := target;
      case Terminator =>
        EndHere(d, want, first, name, pos, limit - jumps);
        return true, name;
      case Label(next) =>
        LabelHere(d, want, first, name, pos, next, limit - jumps);
        name := AppendLabel(name, first, d, pos + 1, next);
        first := false;
        pos := next;
    }
  }

  /** What stands at one position of a name. */
  datatype Part = Malformed | Pointer(target: nat) | Terminator | Label(next: nat)

  predicate IsPart(d: seq<byte>, pos: nat, part: Part) {
    match part
    case Malformed => StopOf(d, pos) == Bad
    case Pointer(target) => StopOf(d, pos) == Jump(pos, target) && LabelsOf(d, pos) == []
    case Terminator => StopOf(d, pos).Root? && LabelsOf(d, pos) == []
    case Label(next) =>
      && pos + 1 < next <= |d| && StopOf(d, pos) == StopOf(d, next)
      && LabelsOf(d, pos) == [d[pos + 1..next]] + LabelsOf(d, next)
  }

  method PartAt(d: seq<byte>, pos: nat) returns (part: Part)
    ensures IsPart(d, pos, part)
  {
    if pos >= |d| {
      return Malformed;
    }
    var b := d[pos];
    if IsPointer(b) {
      if pos + 1 >= |d| {
        return Malformed;
      }
      var target := PointerTo(b, d[pos + 1]);
      if target >= |d| {
        return Malformed;
      }
      return Pointer(target);
    }
    if b / 64 != 0 {
      return Malformed;
    }
    if b == 0 {
      return Terminator;
    }
    if pos + 1 + b > |d| {
      return Malformed;
    }
    part := Label(pos + 1 + b);
  }

  // ----- pointers that never end -------------------------------------------------------------

  /** From `pos`, exactly `k` pointers lead to a root. */
  predicate Reaches(d: seq<byte>, pos: nat, k: nat)
    decreases k
  {
    match StopOf(d, pos)
    case Bad => false
    case Root(_) => k == 0
    case Jump(_, target) => k > 0 && Reaches(d, target, k - 1)
  }

  /** From `pos`, `k` pointers lead to where the walk goes on at `to`. */
  predicate Leads(d: seq<byte>, pos: nat, k: nat, to: nat)
    decreases k
  {
    if k == 0 then pos == to
    else StopOf(d, pos).Jump? && Leads(d, StopOf(d, pos).target, k - 1, to)
  }

  lemma {:induction false} DecodesReaches(d: seq<byte>, pos: nat, jumps: nat) returns (k: nat)
    requires NameAt(d, pos, jumps).Some?
    ensures k <= jumps && Reaches(d, pos, k)
    decreases jumps
  {
    if StopOf(d, pos).Jump? {
      k := DecodesReaches(d, StopOf(d, pos).target, jumps - 1);
      k := k + 1;
    } else {
      k := 0;
    }
  }

  lemma {:induction false} ReachesDecodes(d: seq<byte>, pos: nat, jumps: nat, k: nat)
    requires k <= jumps && Reaches(d, pos, k)
    ensures NameAt(d, pos, jumps).Some?
    decreases k
  {
    if k > 0 {
      ReachesDecodes(d, StopOf(d, pos).target, jumps - 1, k - 1);
    }
  }

  ghost predicate ReachesWithin(d: seq<byte>, pos: nat, jumps: nat) {
    exists k: nat :: k <= jumps && Reaches(d, pos, k)
  }

  /** Decoding succeeds exactly when the pointers lead to a root within the budget. */
  lemma DecodesIff(d: seq<byte>, pos: nat, jumps: nat)
    ensures NameAt(d, pos, jumps).Some? <==> ReachesWithin(d, pos, jumps)
  {
    if NameAt(d, pos, jumps).Some? {
      var k := DecodesReaches(d, pos, jumps);
      assert k <= jumps && Reaches(d, pos, k);
    } else if ReachesWithin(d, pos, jumps) {
      var k: nat :| k <= jumps && Reaches(d, pos, k);
      ReachesDecodes(d, pos, jumps, k);
    }
  }

  lemma {:induction false} ReachesFrom(d: seq<byte>, pos: nat, n: nat, to: nat, k: nat)
    requires Leads(d, pos, n, to) && Reaches(d, pos, k)
    ensures k >= n && Reaches(d, to, k - n)
    decreases n
  {
    if n > 0 {
      ReachesFrom(d, StopOf(d, pos).target, n - 1, to, k - 1);
    }
  }

  lemma {:induction false} CycleNeverReaches(d: seq<byte>, pos: nat, n: nat, k: nat)
    requires n > 0 && Leads(d, pos, n, pos)
    ensures !Reaches(d, pos, k)
    decreases k
  {
    if Reaches(d, pos, k) {
      ReachesFrom(d, pos, n, pos, k);
      CycleNeverReaches(d, pos, n, k - n);
    }
  }

  /** A pointer to itself, or any cycle of pointers a name runs into, makes it undecodable,
      whatever the budget. */
  lemma CycleFails(d: seq<byte>, pos: nat, before: nat, at: nat, n: nat, jumps: nat)
    requires Leads(d, pos, before, at) && n > 0 && Leads(d, at, n, at)
    ensures NameAt(d, pos, jumps).None?
  {
    DecodesIff(d, pos, jumps);
    if k: nat :| k <= jumps && Reaches(d, pos, k) {
      ReachesFrom(d, pos, before, at, k);
      CycleNeverReaches(d, at, n, k - before);
    }
  }

  // ----- the walkers agree -------------------------------------------------------------------

  lemma {:induction false} StopAtPointer(d: seq<byte>, pos: nat)
    requires StopOf(d, pos).Jump?
    ensures StopOf(d, StopOf(d, pos).at) == StopOf(d, pos)
    decreases |d| - pos
  {
    if d[pos] / 64 == 0 {
      StopAtPointer(d, pos + 1 + d[pos]);
    }
  }

  /** Whenever a name decodes, skipping it succeeds, stays in bounds, and ends right behind its
      first pointer or its root. */
  lemma WalkersAgree(d: seq<byte>, offset: nat)
    requires NameAt(d, offset, MaxJumps).Some?
    ensures 0 < SkipLength(d, offset) && offset + SkipLength(d, offset) <= |d|
    ensures var end := offset + SkipLength(d, offset);
            match StopOf(d, offset)
            case Bad => false
            case Root(e) => end == e && d[e - 1] == 0
            case Jump(at, _) => end == at + 2 && IsPointer(d[at])
  {
    match StopOf(d, offset)
    case Bad =>
    case Root(_) => RootIsZero(d, offset);
    case Jump(at, target) =>
      StopAtPointer(d, offset);
      PointerByte(d, at);
      if target == at {
        assert Leads(d, offset, 1, at) && Leads(d, at, 1, at);
        CycleFails(d, offset, 1, at, 1, MaxJumps);
      }
  }

  lemma PointerByte(d: seq<byte>, at: nat)
    requires StopOf(d, at).Jump? && StopOf(d, at).at == at
    ensures at < |d| && IsPointer(d[at])
  {
  }

  lemma {:induction false} RootIsZero(d: seq<byte>, pos: nat)
    requires StopOf(d, pos).Root?
    ensures pos < StopOf(d, pos).end <= |d| && d[StopOf(d, pos).end - 1] == 0
    decreases |d| - pos
  {
    if d[pos] != 0 {
      RootIsZero(d, pos + 1 + d[pos]);
    }
  }
}
