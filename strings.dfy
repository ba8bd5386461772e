/** Text operations the client relies on, each written to behave like the Python
    string method it stands for (ASCII only: `lower`, `isdigit` and `int` are not
    given their full Unicode meaning). */
module Strings {

  // ---------------------------------------------------------------------------
  // Prefixes and substrings
  // ---------------------------------------------------------------------------

  predicate StartsWith(s: string, prefix: string) {
    |prefix| <= |s| && s[..|prefix|] == prefix
  }

  /** `pat` occurs in `s` starting at index `i`. */
  ghost predicate OccursAt(s: string, pat: string, i: int) {
    0 <= i && i + |pat| <= |s| && s[i..i + |pat|] == pat
  }

  /** Python's `pat in s`. */
  predicate ContainsSub(s: string, pat: string)
    decreases |s|
  {
    StartsWith(s, pat) || (|s| > 0 && ContainsSub(s[1..], pat))
  }

  /** `ContainsSub` is exactly "occurs at some index". */
  lemma {:induction false} ContainsSubIff(s: string, pat: string)
    ensures ContainsSub(s, pat) <==> exists i :: OccursAt(s, pat, i)
    decreases |s|
  {
    if StartsWith(s, pat) {
      assert OccursAt(s, pat, 0);
    } else if |s| == 0 {
      assert forall i :: !OccursAt(s, pat, i);
    } else {
      var t := s[1..];
      ContainsSubIff(t, pat);
      assert ContainsSub(s, pat) == ContainsSub(t, pat);
      if exists i :: OccursAt(t, pat, i) {
        var i :| OccursAt(t, pat, i);
        assert t[i..i + |pat|] == s[i + 1..i + 1 + |pat|];
        assert OccursAt(s, pat, i + 1);
      }
      if exists i :: OccursAt(s, pat, i) {
        var i :| OccursAt(s, pat, i);
        assert i != 0;
        assert t[i - 1..i - 1 + |pat|] == s[i..i + |pat|];
        assert OccursAt(t, pat, i - 1);
      }
    }
  }

  // ---------------------------------------------------------------------------
  // str.lower (ASCII letters only)
  // ---------------------------------------------------------------------------

  function LowerChar(c: char): (r: char)
    ensures 'A' <= c <= 'Z' ==> 'a' <= r <= 'z' && r as int == c as int + 32
    ensures !('A' <= c <= 'Z') ==> r == c
  {
    if 'A' <= c <= 'Z' then (c as int + 32) as char else c
  }

  function Lower(s: string): (r: string)
    ensures |r| == |s|
    ensures forall i :: 0 <= i < |s| ==> r[i] == LowerChar(s[i])
  {
    if s == [] then [] else [LowerChar(s[0])] + Lower(s[1..])
  }

  // ---------------------------------------------------------------------------
  // Decimal digits: str.isdigit, int(...) of a digit string, str(n)
  // ---------------------------------------------------------------------------

  predicate IsDigit(c: char) { '0' <= c <= '9' }

  predicate AllDigits(s: string) { forall i :: 0 <= i < |s| ==> IsDigit(s[i]) }

  function DigitValue(c: char): (d: nat)
    requires IsDigit(c)
    ensures d < 10
  {
    c as int - '0' as int
  }

  function DigitChar(d: nat): (c: char)
    requires d < 10
    ensures IsDigit(c) && DigitValue(c) == d
  {
    ('0' as int + d) as char
  }

  /** `''.join(filter(str.isdigit, s))`: the digit characters of `s`, in order. */
  function Digits(s: string): (r: string)
    ensures AllDigits(r) && |r| <= |s|
  {
    if s == [] then []
    else (if IsDigit(s[0]) then [s[0]] else []) + Digits(s[1..])
  }

  /** Filtering distributes over concatenation, so every digit of `s` is kept,
      and kept in its original order. */
  lemma {:induction false} DigitsAppend(a: string, b: string)
    ensures Digits(a + b) == Digits(a) + Digits(b)
  {
    if a == [] {
      assert a + b == b;
    } else {
      var head := if IsDigit(a[0]) then [a[0]] else [];
      assert (a + b)[0] == a[0];
      assert (a + b)[1..] == a[1..] + b;
      assert Digits(a + b) == head + Digits(a[1..] + b);
      DigitsAppend(a[1..], b);
      assert head + (Digits(a[1..]) + Digits(b)) == (head + Digits(a[1..])) + Digits(b);
    }
  }

  /** A string made only of digits is its own digit filter. */
  lemma {:induction false} DigitsOfDigitString(s: string)
    requires AllDigits(s)
    ensures Digits(s) == s
  {
    if s != [] {
      DigitsOfDigitString(s[1..]);
    }
  }

  /** A string with no digit characters filters to nothing. */
  lemma {:induction false} DigitsOfDigitFree(s: string)
    requires forall i :: 0 <= i < |s| ==> !IsDigit(s[i])
    ensures Digits(s) == []
  {
    if s != [] {
      DigitsOfDigitFree(s[1..]);
    }
  }

  /** The filter is empty exactly when `s` has no digit character. */
  lemma {:induction false} DigitsEmptyIff(s: string)
    ensures Digits(s) == [] <==> forall i :: 0 <= i < |s| ==> !IsDigit(s[i])
  {
    if s != [] {
      DigitsEmptyIff(s[1..]);
      assert forall i :: 1 <= i < |s| ==> s[i] == s[1..][i - 1];
    }
  }

  /** Two digit strings separated and followed by digit-free text filter to
      the two digit strings joined. */
  lemma DigitsOfJoin(a: string, sep: string, b: string, suffix: string)
    requires AllDigits(a) && AllDigits(b)
    requires forall i :: 0 <= i < |sep| ==> !IsDigit(sep[i])
    requires forall i :: 0 <= i < |suffix| ==> !IsDigit(suffix[i])
    ensures Digits(a + sep + b + suffix) == a + b
  {
    var front := a + sep;
    DigitsAppend(a, sep);
    DigitsOfDigitString(a);
    DigitsOfDigitFree(sep);
    assert Digits(front) == a + [] == a;
    DigitsAppend(front, b);
    DigitsOfDigitString(b);
    assert Digits(front + b) == a + b;
    DigitsAppend(front + b, suffix);
    DigitsOfDigitFree(suffix);
    assert Digits(front + b + suffix) == (a + b) + [] == a + b;
  }

  /** `int(ds)` for a string of decimal digits (leading zeros allowed). */
  function DecimalValue(ds: string): (n: nat)
    requires AllDigits(ds)
  {
    if ds == [] then 0
    else 10 * DecimalValue(ds[..|ds| - 1]) + DigitValue(ds[|ds| - 1])
  }

  function Pow10(k: nat): (p: nat)
    ensures p >= 1
  {
    if k == 0 then 1 else 10 * Pow10(k - 1)
  }

  lemma AllDigitsAppend(a: string, b: string)
    requires AllDigits(a) && AllDigits(b)
    ensures AllDigits(a + b)
  {
    forall i | 0 <= i < |a + b| ensures IsDigit((a + b)[i]) {
      if i < |a| { assert (a + b)[i] == a[i]; } else { assert (a + b)[i] == b[i - |a|]; }
    }
  }

  lemma MulByTen(x: int, p: int)
    ensures x * (10 * p) == 10 * (x * p)
  {
  }

  /** Reading two digit strings written one after the other: the first is
      shifted left by the length of the second. */
  lemma {:induction false} DecimalValueAppend(a: string, b: string)
    requires AllDigits(a) && AllDigits(b)
    ensures AllDigits(a + b)
    ensures DecimalValue(a + b) == DecimalValue(a) * Pow10(|b|) + DecimalValue(b)
  {
    AllDigitsAppend(a, b);
    if b == [] {
      assert a + b == a;
    } else {
      var b' := b[..|b| - 1];
      assert (a + b)[..|a + b| - 1] == a + b';
      assert (a + b)[|a + b| - 1] == b[|b| - 1];
      DecimalValueAppend(a, b');
      var x, y, p, d := DecimalValue(a), DecimalValue(b'), Pow10(|b'|), DigitValue(b[|b| - 1]);
      assert DecimalValue(a + b) == 10 * DecimalValue(a + b') + d;
      assert DecimalValue(a + b') == x * p + y;
      assert DecimalValue(b) == 10 * y + d;
      assert Pow10(|b|) == 10 * p;
      MulByTen(x, p);
    }
  }

  /** `str(n)` for a natural number. */
  function NatToString(n: nat): (r: string)
    ensures |r| >= 1 && AllDigits(r)
    ensures r[0] == '0' ==> n == 0
    decreases n
  {
    if n < 10 then [DigitChar(n)]
    else NatToString(n / 10) + [DigitChar(n % 10)]
  }

  /** `str(n)` of the numbers of the forecast examples. */
  lemma NatToStringExamples()
    ensures NatToString(0) == "0" && NatToString(10) == "10" && NatToString(15) == "15"
  {
  }

  /** `str(i)` for any integer. */
  function IntToString(i: int): (r: string)
    ensures |r| >= 1
    ensures i >= 0 ==> AllDigits(r)
    ensures i < 0 ==> r[0] == '-' && AllDigits(r[1..])
  {
    if i < 0 then "-" + NatToString(-i) else NatToString(i)
  }

  /** Reading back what `NatToString` wrote gives the number: `int(str(n)) == n`. */
  lemma {:induction false} NatToStringRoundTrip(n: nat)
    ensures DecimalValue(NatToString(n)) == n
    decreases n
  {
    if n >= 10 {
      var s := NatToString(n);
      NatToStringRoundTrip(n / 10);
      assert s[..|s| - 1] == NatToString(n / 10);
    }
  }

  // ---------------------------------------------------------------------------
  // str.lstrip(c), str.split(sep)[-1], str.replace(pat, rep)
  // ---------------------------------------------------------------------------

  /** `s.lstrip(c)`: `s` without its leading run of `c`. */
  function LStrip(s: string, c: char): (r: string)
    ensures |r| <= |s| && r == s[|s| - |r|..]
    ensures forall i :: 0 <= i < |s| - |r| ==> s[i] == c
    ensures r == [] || r[0] != c
  {
    if s != [] && s[0] == c then LStrip(s[1..], c) else s
  }

  /** A leading `c` makes no difference to `lstrip(c)`. */
  lemma LStripLeading(s: string, c: char)
    ensures LStrip([c] + s, c) == LStrip(s, c)
  {
    assert ([c] + s)[1..] == s;
  }

  /** `s.split(sep)[-1]`: the text after the last `sep`, or all of `s` when it has none.
      The three ensures clauses determine the result uniquely (see LastSegmentUnique). */
  function LastSegment(s: string, sep: char): (r: string)
    ensures sep !in r
    ensures |r| <= |s| && r == s[|s| - |r|..]
    ensures |r| < |s| ==> s[|s| - |r| - 1] == sep
  {
    if s == [] then []
    else if s[|s| - 1] == sep then []
    else LastSegment(s[..|s| - 1], sep) + [s[|s| - 1]]
  }

  /** A suffix of `s` without `sep` covers positions of `s` that are not `sep`. */
  lemma SuffixWithoutSeparator(s: string, u: string, sep: char)
    requires sep !in u
    requires |u| <= |s| && u == s[|s| - |u|..]
    ensures forall j :: |s| - |u| <= j < |s| ==> s[j] != sep
  {
    forall j | |s| - |u| <= j < |s| ensures s[j] != sep {
      assert s[j] == u[j - (|s| - |u|)];
    }
  }

  /** Any suffix with no separator that is either all of `s` or preceded by a
      separator is the last segment. */
  lemma {:induction false} LastSegmentUnique(s: string, sep: char, t: string)
    requires sep !in t
    requires |t| <= |s| && t == s[|s| - |t|..]
    requires |t| < |s| ==> s[|s| - |t| - 1] == sep
    ensures LastSegment(s, sep) == t
    decreases |s|
  {
    if t != [] {
      var s', t', c := s[..|s| - 1], t[..|t| - 1], t[|t| - 1];
      assert t == t' + [c];
      assert c == s[|s| - 1] && c != sep;
      assert sep !in t';
      assert t' == s'[|s'| - |t'|..];
      assert |t'| < |s'| ==> s'[|s'| - |t'| - 1] == s[|s| - |t| - 1];
      LastSegmentUnique(s', sep, t');
      assert LastSegment(s, sep) == LastSegment(s', sep) + [c];
    }
  }

  /** The text after the last separator of `prefix + [sep] + tail`, when `tail`
      has none, is `tail`. */
  lemma LastSegmentAfter(prefix: string, sep: char, tail: string)
    requires sep !in tail
    ensures LastSegment(prefix + [sep] + tail, sep) == tail
  {
    var s := prefix + [sep] + tail;
    assert s[|s| - |tail|..] == tail;
    assert s[|s| - |tail| - 1] == sep;
    LastSegmentUnique(s, sep, tail);
  }

  /** `s.replace(pat, rep)`: every non-overlapping occurrence of `pat`, scanned left
      to right, replaced by `rep`; an empty `pat` inserts `rep` around every character. */
  function ReplaceAll(s: string, pat: string, rep: string): (r: string)
    ensures rep == [] ==> |r| <= |s|
    decreases |s|
  {
    if pat == [] then
      (if s == [] then rep else rep + [s[0]] + ReplaceAll(s[1..], pat, rep))
    else if |s| < |pat| then s
    else if StartsWith(s, pat) then rep + ReplaceAll(s[|pat|..], pat, rep)
    else [s[0]] + ReplaceAll(s[1..], pat, rep)
  }

  /** A one-character pattern occurs only where that character does. */
  lemma AbsentChar(s: string, c: char)
    requires c !in s
    ensures !ContainsSub(s, [c])
  {
    ContainsSubIff(s, [c]);
    forall i ensures !OccursAt(s, [c], i) {
      if 0 <= i && i + 1 <= |s| {
        assert s[i..i + 1] == [s[i]];
        assert s[i] in s;
      }
    }
  }

  /** Replacing a pattern that does not occur changes nothing. */
  lemma {:induction false} ReplaceAbsent(s: string, pat: string, rep: string)
    requires pat != []
    requires !ContainsSub(s, pat)
    ensures ReplaceAll(s, pat, rep) == s
    decreases |s|
  {
    if |s| >= |pat| {
      ReplaceAbsent(s[1..], pat, rep);
      assert [s[0]] + s[1..] == s;
    }
  }

  /** An occurrence at the front is replaced, and scanning resumes after it. */
  lemma ReplaceLeading(pat: string, tail: string, rep: string)
    requires pat != []
    ensures ReplaceAll(pat + tail, pat, rep) == rep + ReplaceAll(tail, pat, rep)
  {
    var s := pat + tail;
    assert s[..|pat|] == pat;
    assert s[|pat|..] == tail;
  }

  /** Removing the empty string changes nothing (Python: `s.replace("", "") == s`). */
  lemma {:induction false} ReplaceEmptyByEmpty(s: string)
    ensures ReplaceAll(s, [], []) == s
  {
    if s != [] {
      ReplaceEmptyByEmpty(s[1..]);
      assert [s[0]] + s[1..] == s;
    }
  }

  /** Replacement is a single left-to-right pass: removing "ab" from "aabb"
      leaves "ab", which contains the pattern again. */
  lemma ReplaceIsSinglePass()
    ensures ReplaceAll("aabb", "ab", "") == "ab"
    ensures ContainsSub("ab", "ab")
  {
    assert "aabb"[1..] == "abb";
    assert "abb" == "ab" + "b";
    ReplaceLeading("ab", "b", "");
    ReplaceAbsent("b", "ab", "");
    assert "" + "b" == "b";
    assert "a" + "b" == "ab";
  }
}
