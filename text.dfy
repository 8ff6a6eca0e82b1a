/**
 * The few Python string operations the modelled code relies on: `str()` of an
 * integer, the `:02d` format, `int()` of a decimal string, `str.split`,
 * `str.join`, slices with negative bounds, and lower-casing (Python's and
 * SQLite's, which differ).
 */
module Text {
  import opened Wrappers

  // ---------------------------------------------------------------------------
  // Decimal digits
  // ---------------------------------------------------------------------------

  predicate IsDigit(c: char) { '0' <= c <= '9' }

  predicate AllDigits(s: string) { forall k :: 0 <= k < |s| ==> IsDigit(s[k]) }

  function DigitChar(d: nat): (c: char)
    requires d < 10
    ensures IsDigit(c) && c as int - '0' as int == d
  {
    ('0' as int + d) as char
  }

  /** Python `str(n)` for a non-negative integer: no sign, no leading zero. */
  function NatToString(n: nat): (s: string)
    decreases n
  {
    if n < 10 then [DigitChar(n)] else NatToString(n / 10) + [DigitChar(n % 10)]
  }

  /** The value of a string of decimal digits, read most significant first. */
  function DigitsValue(s: string): nat
    requires AllDigits(s)
  {
    if s == [] then 0 else DigitsValue(s[..|s| - 1]) * 10 + (s[|s| - 1] as int - '0' as int)
  }

  /** `str(n)` is a non-empty digit string, starts with a non-zero digit when n > 0,
      and reading it back gives n. */
  lemma {:induction false} NatToStringRoundTrip(n: nat)
    ensures |NatToString(n)| >= 1 && AllDigits(NatToString(n))
    ensures DigitsValue(NatToString(n)) == n
    ensures n > 0 ==> NatToString(n)[0] != '0'
    ensures n >= 10 <==> |NatToString(n)| >= 2
    decreases n
  {
    if n >= 10 {
      NatToStringRoundTrip(n / 10);
      var s := NatToString(n / 10);
      var t := s + [DigitChar(n % 10)];
      assert t[..|t| - 1] == s;
      assert NatToString(n) == t;
    }
  }

  /** Distinct numbers print differently. */
  lemma NatToStringInjective(a: nat, b: nat)
    requires NatToString(a) == NatToString(b)
    ensures a == b
  {
    NatToStringRoundTrip(a);
    NatToStringRoundTrip(b);
  }

  /** Python `str(i)` for any integer. */
  function IntToString(i: int): string
  {
    if i < 0 then "-" + NatToString(-i) else NatToString(i)
  }

  /** Python `int(s)` for a string of an optional sign followed by decimal digits.
      Surrounding whitespace and `_` separators, which Python also accepts, are
      not part of this model. */
  function ParseInt(s: string): (r: Option<int>)
    ensures r.Some? ==> |s| >= 1
  {
    if |s| >= 2 && (s[0] == '-' || s[0] == '+') && AllDigits(s[1..]) then
      var v: int := DigitsValue(s[1..]);
      Some(if s[0] == '-' then -v else v)
    else if |s| >= 1 && AllDigits(s) then Some(DigitsValue(s))
    else None
  }

  /** `int(str(i)) == i`. */
  lemma IntToStringRoundTrip(i: int)
    ensures ParseInt(IntToString(i)) == Some(i)
  {
    if i < 0 {
      NatToStringRoundTrip(-i);
      assert IntToString(i)[1..] == NatToString(-i);
    } else {
      NatToStringRoundTrip(i);
    }
  }

  /** `str(i)` holds only digits and a leading minus sign. */
  lemma IntToStringChars(i: int)
    ensures forall k :: 0 <= k < |IntToString(i)| ==> IsDigit(IntToString(i)[k]) || IntToString(i)[k] == '-'
  {
    var n: nat := if i < 0 then -i else i;
    NatToStringRoundTrip(n);
    var s := NatToString(n);
    var t := IntToString(i);
    forall k | 0 <= k < |t| ensures IsDigit(t[k]) || t[k] == '-' {
      if i < 0 && k > 0 {
        assert t[k] == s[k - 1];
      }
    }
  }

  /** A leading zero does not change the value of a digit string. */
  lemma {:induction false} LeadingZero(s: string)
    requires AllDigits(s)
    ensures AllDigits("0" + s) && DigitsValue("0" + s) == DigitsValue(s)
    decreases |s|
  {
    if s != [] {
      var t := "0" + s;
      assert t[..|t| - 1] == "0" + s[..|s| - 1];
      LeadingZero(s[..|s| - 1]);
    }
  }

  /** Python `f"{n:02d}"` for n >= 0: at least two digits, zero-padded on the left. */
  function Pad2(n: nat): (s: string)
  {
    if n < 10 then "0" + NatToString(n) else NatToString(n)
  }

  /** The `:02d` form is a digit string of length at least two that reads back as n. */
  lemma Pad2RoundTrip(n: nat)
    ensures AllDigits(Pad2(n)) && |Pad2(n)| >= 2
    ensures DigitsValue(Pad2(n)) == n
  {
    NatToStringRoundTrip(n);
    if n < 10 {
      LeadingZero(NatToString(n));
    }
  }

  /** `f"{i:02d}"` for any int: a negative number keeps its sign, which counts towards
      the width. */
  function Fmt02(i: int): (s: string)
    ensures i >= 0 ==> s == Pad2(i)
    ensures i < 0 ==> |s| >= 1 && s[0] == '-'
  {
    if i >= 0 then Pad2(i) else "-" + NatToString(-i)
  }

  /** Two different numbers never share a `:02d` form. */
  lemma Pad2Injective(a: nat, b: nat)
    requires Pad2(a) == Pad2(b)
    ensures a == b
  {
    Pad2RoundTrip(a);
    Pad2RoundTrip(b);
  }

  // ---------------------------------------------------------------------------
  // str.split and str.join with a non-empty separator
  // ---------------------------------------------------------------------------

  /** True when `sep` occurs in `s` starting at index i. */
  predicate OccursAt(s: string, sep: string, i: nat)
  {
    i + |sep| <= |s| && s[i..i + |sep|] == sep
  }

  /** The scan behind `s.split(sep)`: look for the leftmost occurrence at or after i,
      cut there, and go on after the separator. */
  function SplitFrom(s: string, sep: string, i: nat): (parts: seq<string>)
    requires |sep| > 0
    ensures |parts| >= 1
    decreases |s|, |s| - i
  {
    if i + |sep| > |s| then [s]
    else if s[i..i + |sep|] == sep then [s[..i]] + SplitFrom(s[i + |sep|..], sep, 0)
    else SplitFrom(s, sep, i + 1)
  }

  /** Python `s.split(sep)`: never empty, `"".split(",") == [""]`. */
  function Split(s: string, sep: string): (parts: seq<string>)
    requires |sep| > 0
    ensures |parts| >= 1
  {
    SplitFrom(s, sep, 0)
  }

  /** Python `sep.join(parts)`. */
  function Join(sep: string, parts: seq<string>): string
  {
    if parts == [] then "" else if |parts| == 1 then parts[0] else parts[0] + sep + Join(sep, parts[1..])
  }

  lemma {:induction false} SplitFromJoin(s: string, sep: string, i: nat)
    requires |sep| > 0
    ensures Join(sep, SplitFrom(s, sep, i)) == s
    decreases |s|, |s| - i
  {
    if i + |sep| > |s| {
    } else if s[i..i + |sep|] == sep {
      var rest := s[i + |sep|..];
      SplitFromJoin(rest, sep, 0);
      assert s == s[..i] + sep + rest;
    } else {
      SplitFromJoin(s, sep, i + 1);
    }
  }

  /** Joining the pieces of a split with the same separator gives the string back. */
  lemma SplitJoin(s: string, sep: string)
    requires |sep| > 0
    ensures Join(sep, Split(s, sep)) == s
  {
    SplitFromJoin(s, sep, 0);
  }

  lemma {:induction false} SplitFromNone(s: string, sep: string, i: nat)
    requires |sep| > 0
    requires forall q :: i <= q ==> !OccursAt(s, sep, q)
    ensures SplitFrom(s, sep, i) == [s]
    decreases |s| - i
  {
    if i + |sep| <= |s| {
      assert !OccursAt(s, sep, i);
      SplitFromNone(s, sep, i + 1);
    }
  }

  lemma {:induction false} SplitFromFirst(s: string, sep: string, i: nat, p: nat)
    requires |sep| > 0 && i <= p
    requires forall q :: i <= q < p ==> !OccursAt(s, sep, q)
    requires OccursAt(s, sep, p)
    ensures SplitFrom(s, sep, i) == [s[..p]] + Split(s[p + |sep|..], sep)
    decreases p - i
  {
    if i < p {
      assert !OccursAt(s, sep, i);
      SplitFromFirst(s, sep, i + 1, p);
    }
  }

  /** A string with no occurrence of the separator splits into itself alone. */
  lemma SplitNoSeparator(s: string, sep: string)
    requires |sep| > 0
    requires forall q :: !OccursAt(s, sep, q)
    ensures Split(s, sep) == [s]
  {
    SplitFromNone(s, sep, 0);
  }

  /** Splitting at the first occurrence: the part before it, then the split of the rest. */
  lemma SplitFirst(s: string, sep: string, p: nat)
    requires |sep| > 0
    requires forall q: nat :: q < p ==> !OccursAt(s, sep, q)
    requires OccursAt(s, sep, p)
    ensures Split(s, sep) == [s[..p]] + Split(s[p + |sep|..], sep)
  {
    SplitFromFirst(s, sep, 0, p);
  }

  /** A character of the separator that occurs in it only once, at position p, and
      nowhere in x: then the first occurrence of the separator in x + sep + y is the
      one right after x. */
  predicate Marker(sep: string, p: nat)
  {
    p < |sep| && forall i :: 0 <= i < |sep| && i != p ==> sep[i] != sep[p]
  }

  lemma SplitAfterPrefix(x: string, sep: string, y: string, p: nat)
    requires Marker(sep, p) && sep[p] !in x
    ensures Split(x + sep + y, sep) == [x] + Split(y, sep)
  {
    var s := x + sep + y;
    assert s[|x|..|x| + |sep|] == sep;
    forall q: nat | q < |x| ensures !OccursAt(s, sep, q) {
      if q + p < |x| {
        assert s[q + p] == x[q + p];
      } else {
        assert s[q + p] == sep[q + p - |x|];
      }
      assert s[q + p] != sep[p];
      if q + |sep| <= |s| {
        assert s[q..q + |sep|][p] == s[q + p];
      }
    }
    SplitFirst(s, sep, |x|);
    assert s[..|x|] == x;
    assert s[|x| + |sep|..] == y;
  }

  /** A string without the marker character contains no separator and splits into itself. */
  lemma SplitWithoutMarker(x: string, sep: string, p: nat)
    requires Marker(sep, p) && sep[p] !in x
    ensures Split(x, sep) == [x]
  {
    forall q: nat | q + |sep| <= |x| ensures !OccursAt(x, sep, q) {
      assert x[q..q + |sep|][p] == x[q + p];
    }
    SplitNoSeparator(x, sep);
  }

  /** Two marker-free strings joined by the separator split back into the two. */
  lemma SplitPair(x: string, sep: string, y: string, p: nat)
    requires Marker(sep, p) && sep[p] !in x && sep[p] !in y
    ensures Split(x + sep + y, sep) == [x, y]
  {
    SplitAfterPrefix(x, sep, y, p);
    SplitWithoutMarker(y, sep, p);
  }

  /** Splitting a join gives the parts back when no part holds the marker character. */
  lemma {:induction false} JoinSplit(parts: seq<string>, sep: string, p: nat)
    requires |parts| >= 1 && Marker(sep, p)
    requires forall i :: 0 <= i < |parts| ==> sep[p] !in parts[i]
    ensures Split(Join(sep, parts), sep) == parts
    decreases |parts|
  {
    if |parts| == 1 {
      SplitWithoutMarker(parts[0], sep, p);
    } else {
      JoinSplit(parts[1..], sep, p);
      SplitAfterPrefix(parts[0], sep, Join(sep, parts[1..]), p);
      assert parts == [parts[0]] + parts[1..];
    }
  }

  /** Python `s.endswith(t)`. */
  predicate EndsWith(s: string, t: string)
  {
    |t| <= |s| && s[|s| - |t|..] == t
  }

  // ---------------------------------------------------------------------------
  // Python slices with negative bounds
  // ---------------------------------------------------------------------------

  /** Where a slice bound i lands in a sequence of length len: a negative bound counts
      from the end, and both kinds are clamped to 0..len. */
  function SliceBound(len: nat, i: int): (b: nat)
    ensures b <= len
  {
    if i < 0 then (if len + i < 0 then 0 else len + i) else if i > len then len else i
  }

  /** Python `s[:j]`. */
  function SliceTo<T>(s: seq<T>, j: int): seq<T> { s[..SliceBound(|s|, j)] }

  /** Python `s[i:]`. */
  function SliceFrom<T>(s: seq<T>, i: int): seq<T> { s[SliceBound(|s|, i)..] }

  /** Python `s[1:]` of a string: the string without its first character (empty stays empty). */
  function DropFirst(s: string): (r: string)
    ensures |s| >= 1 ==> s == [s[0]] + r
    ensures |s| == 0 ==> r == ""
  {
    SliceFrom(s, 1)
  }

  // ---------------------------------------------------------------------------
  // Counting and lower-casing
  // ---------------------------------------------------------------------------

  function CountChar(s: string, c: char): nat
  {
    if s == [] then 0 else (if s[0] == c then 1 else 0) + CountChar(s[1..], c)
  }

  lemma {:induction false} CountCharConcat(a: string, b: string, c: char)
    ensures CountChar(a + b, c) == CountChar(a, c) + CountChar(b, c)
    decreases |a|
  {
    if a == [] {
      assert a + b == b;
    } else {
      assert (a + b)[1..] == a[1..] + b;
      CountCharConcat(a[1..], b, c);
    }
  }

  lemma {:induction false} CountCharAbsent(s: string, c: char)
    requires c !in s
    ensures CountChar(s, c) == 0
    decreases |s|
  {
    if s != [] {
      assert s[1..] == s[1..] && forall k :: 0 <= k < |s[1..]| ==> s[1..][k] == s[k + 1];
      CountCharAbsent(s[1..], c);
    }
  }

  /** Lower-casing as SQLite's built-in LOWER() does it: ASCII letters only. */
  function SqlLowerChar(c: char): char
  {
    if 'A' <= c <= 'Z' then (c as int + 32) as char else c
  }

  /** Lower-casing as Python's str.lower() does it, for ASCII and the Latin-1 letters
      (U+00C0..U+00DE except U+00D7, which cover Portuguese accented capitals). */
  function PyLowerChar(c: char): char
  {
    if 'A' <= c <= 'Z' then (c as int + 32) as char
    else if '\U{00C0}' <= c <= '\U{00DE}' && c != '\U{00D7}' then (c as int + 32) as char
    else c
  }

  function SqlLower(s: string): (r: string)
    ensures |r| == |s|
  {
    seq(|s|, k requires 0 <= k < |s| => SqlLowerChar(s[k]))
  }

  function PyLower(s: string): (r: string)
    ensures |r| == |s|
  {
    seq(|s|, k requires 0 <= k < |s| => PyLowerChar(s[k]))
  }

  /** Python lower-casing is idempotent: lower-case text stays as it is. */
  lemma PyLowerIdempotent(s: string)
    ensures PyLower(PyLower(s)) == PyLower(s)
  {
    forall k | 0 <= k < |s| ensures PyLower(PyLower(s))[k] == PyLower(s)[k] {
      var c := s[k];
      assert PyLower(s)[k] == PyLowerChar(c);
    }
  }
}
