/** The JavaScript string operations the source relies on: `indexOf`, `split` with a
    non-empty separator, and the decimal rendering of an index inside a template literal. */
module JsString {
  import opened Common

  /** `pat` occurs in `s` starting at index `i`. */
  predicate OccursAt(s: string, pat: string, i: nat) {
    i + |pat| <= |s| && s[i..i + |pat|] == pat
  }

  /** The first occurrence of `pat` in `s` at or after `from`. */
  function IndexFrom(s: string, pat: string, from: nat): (r: Option<nat>)
    requires from <= |s|
    ensures r.Some? ==> from <= r.value && OccursAt(s, pat, r.value)
    ensures r.Some? ==> forall k: nat :: from <= k < r.value ==> !OccursAt(s, pat, k)
    ensures r.None? ==> forall k: nat :: from <= k ==> !OccursAt(s, pat, k)
    decreases |s| - from
  {
    if OccursAt(s, pat, from) then Some(from)
    else if from == |s| then None
    else IndexFrom(s, pat, from + 1)
  }

  /** `s.indexOf(pat)`, with `None` where JavaScript answers -1. */
  function IndexOf(s: string, pat: string): (r: Option<nat>)
    ensures r.Some? ==> OccursAt(s, pat, r.value)
    ensures r.Some? ==> forall k: nat :: k < r.value ==> !OccursAt(s, pat, k)
    ensures r.None? ==> forall k: nat :: !OccursAt(s, pat, k)
  {
    IndexFrom(s, pat, 0)
  }

  /** `s` does not contain `pat` anywhere. */
  predicate Lacks(s: string, pat: string) {
    IndexOf(s, pat).None?
  }

  /** The text of `s` before the first `pat`, or all of `s` when `pat` does not occur. */
  function TextBefore(s: string, pat: string): (r: string)
    requires |pat| > 0
    ensures Lacks(r, pat)
    ensures r <= s
    ensures Lacks(s, pat) <==> r == s
  {
    match IndexOf(s, pat)
    case None => s
    case Some(i) =>
      PrefixLacks(s, pat, i);
      s[..i]
  }

  /** A prefix of `s` that ends before the first occurrence of `pat` does not contain it. */
  lemma PrefixLacks(s: string, pat: string, i: nat)
    requires |pat| > 0 && i <= |s|
    requires forall k: nat :: k < i ==> !OccursAt(s, pat, k)
    ensures Lacks(s[..i], pat)
  {
    var p := s[..i];
    if IndexOf(p, pat).Some? {
      var k := IndexOf(p, pat).value;
      assert p[k..k + |pat|] == s[k..k + |pat|];
      assert OccursAt(s, pat, k);
      assert false;
    }
  }

  /** The text before the first `c` of `a + [c] + b` is `a` when `a` has no `c`. */
  lemma TextBeforeFirst(a: string, c: char, b: string)
    requires c !in a
    ensures TextBefore(a + [c] + b, [c]) == a
  {
    var s := a + [c] + b;
    assert s[|a|..|a| + 1] == [c];
    assert OccursAt(s, [c], |a|);
    forall k: nat | k < |a|
      ensures !OccursAt(s, [c], k)
    {
      assert s[k] == a[k];
    }
    assert s[..|a|] == a;
  }

  /** `parts.join(sep)`. */
  function Join(parts: seq<string>, sep: string): string
    requires |parts| > 0
  {
    if |parts| == 1 then parts[0] else parts[0] + sep + Join(parts[1..], sep)
  }

  /** `s.split(sep)` for a non-empty separator: the maximal pieces of `s` between occurrences
      of `sep`, left to right. */
  function Split(s: string, sep: string): (parts: seq<string>)
    requires |sep| > 0
    ensures |parts| > 0
    ensures Join(parts, sep) == s
    ensures forall k :: 0 <= k < |parts| ==> Lacks(parts[k], sep)
    ensures parts[0] == TextBefore(s, sep)
    ensures |parts| == 1 <==> Lacks(s, sep)
    decreases |s|
  {
    match IndexOf(s, sep)
    case None => [s]
    case Some(i) =>
      var rest := Split(s[i + |sep|..], sep);
      SplitStep(s, sep, i, rest);
      [s[..i]] + rest
  }

  /** One step of `Split`: the piece before the first separator, then the split of the rest. */
  lemma SplitStep(s: string, sep: string, i: nat, rest: seq<string>)
    requires |sep| > 0 && IndexOf(s, sep) == Some(i)
    requires |rest| > 0 && Join(rest, sep) == s[i + |sep|..]
    requires forall k :: 0 <= k < |rest| ==> Lacks(rest[k], sep)
    ensures var parts := [s[..i]] + rest;
      && Join(parts, sep) == s
      && (forall k :: 0 <= k < |parts| ==> Lacks(parts[k], sep))
      && parts[0] == TextBefore(s, sep)
      && !Lacks(s, sep)
  {
    var parts := [s[..i]] + rest;
    PrefixLacks(s, sep, i);
    assert parts[1..] == rest;
    assert s == s[..i] + sep + s[i + |sep|..];
    forall k | 0 <= k < |parts|
      ensures Lacks(parts[k], sep)
    {
      if k > 0 {
        assert parts[k] == rest[k - 1];
      }
    }
  }

  /** The piece after the first separator is the text before the next one. */
  lemma SplitSecond(s: string, sep: string)
    requires |sep| > 0
    requires !Lacks(s, sep)
    ensures var i := IndexOf(s, sep).value;
      |Split(s, sep)| > 1 && Split(s, sep)[1] == TextBefore(s[i + |sep|..], sep)
  {
  }

  /** A one-character pattern is absent exactly when no character equals it. */
  lemma LacksChar(s: string, c: char)
    requires Lacks(s, [c])
    ensures c !in s
  {
    if c in s {
      var k :| 0 <= k < |s| && s[k] == c;
      assert s[k..k + 1] == [c];
      assert OccursAt(s, [c], k);
    }
  }

  /** The digit character for `d`. */
  function Digit(d: nat): char
    requires d < 10
  {
    "0123456789"[d]
  }

  /** The value of a digit character. */
  function DigitValue(c: char): nat
    requires '0' <= c <= '9'
  {
    (c as int - '0' as int) as nat
  }

  /** The decimal rendering of `n`, as `${n}` produces for a non-negative integer. */
  function DecimalString(n: nat): (r: string)
    ensures |r| > 0
    ensures forall k :: 0 <= k < |r| ==> '0' <= r[k] <= '9'
    ensures |r| > 1 ==> r[0] != '0'
  {
    if n < 10 then [Digit(n)] else DecimalString(n / 10) + [Digit(n % 10)]
  }

  /** Reading a decimal string back to its value. */
  function DecimalValue(s: string): nat
    requires forall k :: 0 <= k < |s| ==> '0' <= s[k] <= '9'
  {
    if |s| == 0 then 0 else 10 * DecimalValue(s[..|s| - 1]) + DigitValue(s[|s| - 1])
  }

  /** Rendering then reading gives the number back, so distinct indices render differently. */
  lemma {:induction false} DecimalRoundTrip(n: nat)
    ensures DecimalValue(DecimalString(n)) == n
  {
    var r := DecimalString(n);
    if n >= 10 {
      DecimalRoundTrip(n / 10);
      assert r[..|r| - 1] == DecimalString(n / 10);
    }
  }

  /** Distinct numbers have distinct decimal renderings. */
  lemma DecimalInjective(m: nat, n: nat)
    requires m != n
    ensures DecimalString(m) != DecimalString(n)
  {
    DecimalRoundTrip(m);
    DecimalRoundTrip(n);
  }
}
