/** The string operations of Python that the cache buster relies on:
    `str.startswith`, `str.replace(old, '')`, the slice `s[:-2]` and
    `str(int)` (which is what `'%s' % n` produces for an integer). */
module Text {

  /** `s.startswith(prefix)`: `s` is `prefix` followed by something. */
  predicate StartsWith(s: string, prefix: string)
    ensures StartsWith(s, prefix) <==> exists rest :: s == prefix + rest
  {
    assert |prefix| <= |s| ==> s == s[..|prefix|] + s[|prefix|..];
    |prefix| <= |s| && s[..|prefix|] == prefix
  }

  /** `p` occurs in `s` starting at index `i`. */
  predicate OccursAt(s: string, p: string, i: int) {
    0 <= i && i + |p| <= |s| && s[i..i + |p|] == p
  }

  /** `p` occurs somewhere inside `s`. */
  ghost predicate Occurs(s: string, p: string) {
    exists i :: OccursAt(s, p, i)
  }

  /** `s.replace(p, '')`: scanning from the left, every non-overlapping
      occurrence of `p` is cut out; the scan resumes after each cut, so
      text that only comes together after a cut is left in place. */
  function RemoveAll(s: string, p: string): (r: string)
    requires p != []
    ensures |r| <= |s|
    decreases |s|
  {
    if |s| < |p| then s
    else if s[..|p|] == p then RemoveAll(s[|p|..], p)
    else [s[0]] + RemoveAll(s[1..], p)
  }

  /** A string free of `p` stays free of it when its first character goes. */
  lemma NoOccurrenceInTail(s: string, p: string)
    requires s != []
    requires !Occurs(s, p)
    ensures !Occurs(s[1..], p)
  {
    forall i | 0 <= i && i + |p| <= |s[1..]|
      ensures !OccursAt(s[1..], p, i)
    {
      assert s[1..][i..i + |p|] == s[i + 1..i + 1 + |p|];
      assert !OccursAt(s, p, i + 1);
    }
  }

  /** Removing occurrences from a string that holds none changes nothing. */
  lemma {:induction false} RemoveAllWithoutOccurrence(s: string, p: string)
    requires p != []
    requires !Occurs(s, p)
    ensures RemoveAll(s, p) == s
    decreases |s|
  {
    if |s| >= |p| {
      assert s[0..0 + |p|] == s[..|p|] && !OccursAt(s, p, 0);
      NoOccurrenceInTail(s, p);
      RemoveAllWithoutOccurrence(s[1..], p);
      assert [s[0]] + s[1..] == s;
    }
  }

  /** A leading occurrence is cut and the scan goes on with what follows it. */
  lemma LeadingOccurrenceRemoved(p: string, rest: string)
    requires p != []
    ensures RemoveAll(p + rest, p) == RemoveAll(rest, p)
  {
    assert (p + rest)[..|p|] == p;
    assert (p + rest)[|p|..] == rest;
  }

  /** The first copy of `p`, wherever it stands, is cut and the scan goes on
      with what follows it; the text before it is kept. With
      `RemoveAllWithoutOccurrence` this fixes the result of `replace` on
      every string. */
  lemma {:induction false} FirstOccurrenceRemoved(a: string, p: string, b: string)
    requires p != []
    requires !Occurs(a + p[..|p| - 1], p)
    ensures RemoveAll(a + p + b, p) == a + RemoveAll(b, p)
    decreases |a|
  {
    var s := a + p + b;
    if a == [] {
      assert s == p + b;
      LeadingOccurrenceRemoved(p, b);
    } else {
      var q := a + p[..|p| - 1];
      assert q[0..0 + |p|] == s[..|p|];
      assert !OccursAt(q, p, 0);
      assert RemoveAll(s, p) == [s[0]] + RemoveAll(s[1..], p);
      NoOccurrenceInTail(q, p);
      assert q[1..] == a[1..] + p[..|p| - 1];
      assert s[1..] == a[1..] + p + b;
      FirstOccurrenceRemoved(a[1..], p, b);
      assert [a[0]] + a[1..] == a;
    }
  }

  /** Only whole copies of `p` are taken out: the length lost is a
      multiple of `|p|`. */
  lemma {:induction false} RemoveAllLosesWholeCopies(s: string, p: string)
    requires p != []
    ensures exists k: nat :: |s| == |RemoveAll(s, p)| + k * |p|
    decreases |s|
  {
    if |s| < |p| {
      assert |s| == |RemoveAll(s, p)| + 0 * |p|;
    } else if s[..|p|] == p {
      RemoveAllLosesWholeCopies(s[|p|..], p);
      var k: nat :| |s[|p|..]| == |RemoveAll(s[|p|..], p)| + k * |p|;
      assert |s| == |RemoveAll(s, p)| + (k + 1) * |p|;
    } else {
      RemoveAllLosesWholeCopies(s[1..], p);
      var k: nat :| |s[1..]| == |RemoveAll(s[1..], p)| + k * |p|;
      assert |s| == |RemoveAll(s, p)| + k * |p|;
    }
  }

  /** Python's `s[:-2]`: everything but the last two characters, and the
      empty string when `s` has fewer than two. */
  function DropLastTwo(s: string): (r: string)
    ensures |s| >= 2 ==> |r| == |s| - 2 && r + s[|s| - 2..] == s
    ensures |s| < 2 ==> r == []
  {
    if |s| >= 2 then s[..|s| - 2] else []
  }

  predicate IsDigit(c: char) {
    '0' <= c <= '9'
  }

  predicate AllDigits(s: string) {
    forall i :: 0 <= i < |s| ==> IsDigit(s[i])
  }

  function DigitChar(d: nat): (c: char)
    requires d < 10
    ensures IsDigit(c) && c as int - '0' as int == d
  {
    "0123456789"[d]
  }

  /** The value of a string of decimal digits, most significant first. */
  function DigitsValue(s: string): nat
    requires AllDigits(s)
  {
    if s == [] then 0
    else 10 * DigitsValue(s[..|s| - 1]) + (s[|s| - 1] as int - '0' as int)
  }

  /** `str(n)` for a natural number: decimal digits, no leading zero. */
  function NatToString(n: nat): (r: string)
    ensures |r| >= 1 && AllDigits(r)
    decreases n
  {
    if n < 10 then [DigitChar(n)] else NatToString(n / 10) + [DigitChar(n % 10)]
  }

  /** `str(n)` is a canonical decimal numeral that reads back as `n`. */
  lemma {:induction false} NatToStringRoundTrip(n: nat)
    ensures var s := NatToString(n);
      |s| >= 1 && AllDigits(s) && DigitsValue(s) == n && (s[0] == '0' ==> n == 0)
    decreases n
  {
    if n >= 10 {
      NatToStringRoundTrip(n / 10);
      var s := NatToString(n);
      assert s[..|s| - 1] == NatToString(n / 10);
      assert s[0] == NatToString(n / 10)[0];
    }
  }

  /** `str(i)` for any integer: a minus sign before the digits when negative. */
  function IntToString(i: int): (r: string)
    ensures |r| >= 1 && (r[0] == '-' <==> i < 0)
  {
    if i < 0 then "-" + NatToString(-i) else NatToString(i)
  }

  /** Different integers print differently. */
  lemma IntToStringInjective(a: int, b: int)
    requires IntToString(a) == IntToString(b)
    ensures a == b
  {
    NatToStringRoundTrip(if a < 0 then -a else a);
    NatToStringRoundTrip(if b < 0 then -b else b);
    if a < 0 && b < 0 {
      assert NatToString(-a) == IntToString(a)[1..];
      assert NatToString(-b) == IntToString(b)[1..];
    }
  }
}
