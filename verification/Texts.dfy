/** Text as bytes: case, decimal numbers, separators. */
module Texts {
  import opened Bytes

  type Text = seq<byte>

  const Colon: byte := 58

  /** The bytes of a literal. */
  function Ascii(s: string): (r: Text)
    requires forall i | 0 <= i < |s| :: s[i] < 128 as char
    ensures |r| == |s|
  {
    seq(|s|, i requires 0 <= i < |s| => s[i] as int)
  }

  /** `tolower` in the C locale. */
  function Lower(b: byte): byte {
    if 65 <= b <= 90 then b + 32 else b
  }

  function LowerAll(s: Text): (r: Text)
    ensures |r| == |s|
  {
    seq(|s|, i requires 0 <= i < |s| => Lower(s[i]))
  }

  /** The letters change case and nothing else changes. */
  lemma LowerLetters(b: byte)
    ensures 'A' as int <= b <= 'Z' as int ==> Lower(b) - 'a' as int == b - 'A' as int
    ensures b < 'A' as int || 'Z' as int < b ==> Lower(b) == b
    ensures Lower(Lower(b)) == Lower(b)
  {
  }

  /** `std::to_string` of a number that is not negative. */
  function Decimal(n: nat): (s: Text)
    ensures s != [] && forall i | 0 <= i < |s| :: 48 <= s[i] <= 57
  {
    if n < 10 then [48 + n] else Decimal(n / 10) + [48 + n % 10]
  }

  lemma {:induction false} DecimalInjective(m: nat, n: nat)
    requires Decimal(m) == Decimal(n)
    ensures m == n
  {
    var s := Decimal(m);
    assert s[|s| - 1] == 48 + m % 10 == 48 + n % 10;
    if m >= 10 && n >= 10 {
      assert s[..|s| - 1] == Decimal(m / 10) == Decimal(n / 10);
      DecimalInjective(m / 10, n / 10);
    }
  }

  lemma SeparatorInTail(sep: byte, a: Text, b: Text, c: Text, d: Text)
    requires a + [sep] + b == c + [sep] + d && |a| < |c|
    ensures sep in b
  {
    assert (a + [sep] + b)[|c|] == sep;
    assert b[|c| - |a| - 1] == sep;
  }

  /** The part behind the last separator is determined. */
  lemma LastSeparator(sep: byte, a: Text, b: Text, c: Text, d: Text)
    requires a + [sep] + b == c + [sep] + d && sep !in b && sep !in d
    ensures a == c && b == d
  {
    if |a| < |c| {
      SeparatorInTail(sep, a, b, c, d);
    } else if |c| < |a| {
      SeparatorInTail(sep, c, d, a, b);
    } else {
      var s := a + [sep] + b;
      assert a == s[..|a|] == c && b == s[|a| + 1..] == d;
    }
  }

  /** The first position of any of `stops`, or the length. */
  function IndexOf(s: Text, stops: set<byte>): (i: nat)
    ensures i <= |s| && (forall k | 0 <= k < i :: s[k] !in stops) && (i < |s| ==> s[i] in stops)
  {
    if s == [] || s[0] in stops then 0
    else
      var i := IndexOf(s[1..], stops);
      assert forall k | 1 <= k < 1 + i :: s[k] == s[1..][k - 1];
      1 + i
  }

  lemma {:induction false} IndexOfAppend(a: Text, b: Text, stops: set<byte>)
    requires forall i | 0 <= i < |a| :: a[i] !in stops
    ensures IndexOf(a + b, stops) == |a| + IndexOf(b, stops)
  {
    if a == [] {
      assert a + b == b;
    } else {
      assert (a + b)[1..] == a[1..] + b;
      IndexOfAppend(a[1..], b, stops);
    }
  }
}
