/**
 * The Python `str` operations the pipeline relies on: `isspace`, `strip`,
 * `split` on one separator, `endswith`, and the decimal text of integers
 * (`str(int)`, and integer fields of ASCII digits as `float()` reads them).
 */
module Text {
  import opened Wrappers

  /** Python's `str.isspace()` for one character. */
  predicate IsSpace(c: char) {
    var n := c as int;
    n == 0x20 || (0x09 <= n <= 0x0d) || (0x1c <= n <= 0x1f) || n == 0x85 || n == 0xa0 ||
    n == 0x1680 || (0x2000 <= n <= 0x200a) || n == 0x2028 || n == 0x2029 ||
    n == 0x202f || n == 0x205f || n == 0x3000
  }

  predicate AllSpace(s: string) {
    forall k :: 0 <= k < |s| ==> IsSpace(s[k])
  }

  /** The number of whitespace characters that start `s`. */
  function LeadingSpace(s: string): (n: nat)
    ensures n <= |s|
    ensures AllSpace(s[..n])
    ensures n < |s| ==> !IsSpace(s[n])
  {
    if |s| == 0 || !IsSpace(s[0]) then 0 else 1 + LeadingSpace(s[1..])
  }

  /** The number of whitespace characters that end `s`. */
  function TrailingSpace(s: string): (n: nat)
    ensures n <= |s|
    ensures AllSpace(s[|s| - n..])
    ensures n < |s| ==> !IsSpace(s[|s| - n - 1])
  {
    if |s| == 0 || !IsSpace(s[|s| - 1]) then 0 else 1 + TrailingSpace(s[..|s| - 1])
  }

  /** Python's `s.strip()`: `s` without its leading and trailing whitespace. */
  function Strip(s: string): (r: string)
    ensures |r| <= |s|
    ensures r == [] || (!IsSpace(r[0]) && !IsSpace(r[|r| - 1]))
    ensures r == [] ==> AllSpace(s)
  {
    var i := LeadingSpace(s);
    var t := s[i..];
    t[..|t| - TrailingSpace(t)]
  }

  /** Removing whitespace padding gives back exactly the padded text. */
  lemma {:induction false} StripPadding(pre: string, t: string, post: string)
    requires AllSpace(pre) && AllSpace(post)
    requires t == [] || (!IsSpace(t[0]) && !IsSpace(t[|t| - 1]))
    ensures Strip(pre + t + post) == t
  {
    var s := pre + t + post;
    if t == [] {
      assert s == pre + post;
      AllSpaceConcat(pre, post);
      AllSpaceLeading(s);
    } else {
      var u := t + post;
      assert s == pre + u;
      LeadingSpaceOfPadded(pre, u);
      assert s[|pre|..] == u;
      TrailingSpaceOfPadded(t, post);
      assert u[..|u| - |post|] == t;
    }
  }

  lemma AllSpaceConcat(a: string, b: string)
    requires AllSpace(a) && AllSpace(b)
    ensures AllSpace(a + b)
  {
    forall k | 0 <= k < |a + b| ensures IsSpace((a + b)[k]) {
      if k < |a| { assert (a + b)[k] == a[k]; } else { assert (a + b)[k] == b[k - |a|]; }
    }
  }

  lemma {:induction false} AllSpaceLeading(s: string)
    requires AllSpace(s)
    ensures LeadingSpace(s) == |s|
  {
    if |s| > 0 {
      assert AllSpace(s[1..]) by {
        forall k | 0 <= k < |s| - 1 ensures IsSpace(s[1..][k]) { assert s[1..][k] == s[k + 1]; }
      }
      AllSpaceLeading(s[1..]);
    }
  }

  lemma {:induction false} LeadingSpaceOfPadded(pre: string, u: string)
    requires AllSpace(pre)
    requires u != [] && !IsSpace(u[0])
    ensures LeadingSpace(pre + u) == |pre|
  {
    if pre == [] {
      assert pre + u == u;
    } else {
      assert (pre + u)[1..] == pre[1..] + u;
      assert AllSpace(pre[1..]) by {
        forall k | 0 <= k < |pre| - 1 ensures IsSpace(pre[1..][k]) { assert pre[1..][k] == pre[k + 1]; }
      }
      LeadingSpaceOfPadded(pre[1..], u);
    }
  }

  lemma {:induction false} TrailingSpaceOfPadded(u: string, post: string)
    requires AllSpace(post)
    requires u != [] && !IsSpace(u[|u| - 1])
    ensures TrailingSpace(u + post) == |post|
  {
    var s := u + post;
    if post == [] {
      assert s == u;
    } else {
      var p := post[..|post| - 1];
      assert s[..|s| - 1] == u + p;
      assert AllSpace(p) by {
        forall k | 0 <= k < |p| ensures IsSpace(p[k]) { assert p[k] == post[k]; }
      }
      TrailingSpaceOfPadded(u, p);
    }
  }

  /** Python's `s.endswith(suffix)`. */
  predicate EndsWith(s: string, suffix: string) {
    |suffix| <= |s| && s[|s| - |suffix|..] == suffix
  }

  /** How often `c` occurs in `s`. */
  function Count(s: string, c: char): nat {
    if s == [] then 0 else (if s[0] == c then 1 else 0) + Count(s[1..], c)
  }

  lemma {:induction false} CountConcat(a: string, b: string, c: char)
    ensures Count(a + b, c) == Count(a, c) + Count(b, c)
  {
    if a == [] {
      assert a + b == b;
    } else {
      assert (a + b)[1..] == a[1..] + b;
      CountConcat(a[1..], b, c);
    }
  }

  lemma {:induction false} CountAllSpace(s: string, c: char)
    requires AllSpace(s) && !IsSpace(c)
    ensures Count(s, c) == 0
  {
    if s != [] {
      assert AllSpace(s[1..]) by {
        forall k | 0 <= k < |s| - 1 ensures IsSpace(s[1..][k]) { assert s[1..][k] == s[k + 1]; }
      }
      CountAllSpace(s[1..], c);
    }
  }

  /** Stripping whitespace never removes a character that is not whitespace. */
  lemma CountStrip(s: string, c: char)
    requires !IsSpace(c)
    ensures Count(Strip(s), c) == Count(s, c)
  {
    var i := LeadingSpace(s);
    var t := s[i..];
    CountDropSpace(s, i, c);
    CountKeepFront(t, |t| - TrailingSpace(t), c);
  }

  /** Dropping `i` leading whitespace characters keeps the count of a non-space. */
  lemma CountDropSpace(s: string, i: nat, c: char)
    requires !IsSpace(c) && i <= |s| && AllSpace(s[..i])
    ensures Count(s[i..], c) == Count(s, c)
  {
    assert s == s[..i] + s[i..];
    CountConcat(s[..i], s[i..], c);
    CountAllSpace(s[..i], c);
  }

  /** Keeping only the first `j` characters, when the rest is whitespace, keeps the count of a non-space. */
  lemma CountKeepFront(t: string, j: nat, c: char)
    requires !IsSpace(c) && j <= |t| && AllSpace(t[j..])
    ensures Count(t[..j], c) == Count(t, c)
  {
    assert t == t[..j] + t[j..];
    CountConcat(t[..j], t[j..], c);
    CountAllSpace(t[j..], c);
  }

  /** The inverse of `Split`: the parts glued back together with `sep` between them. */
  function Join(parts: seq<string>, sep: char): string
    requires |parts| > 0
  {
    if |parts| == 1 then parts[0] else parts[0] + [sep] + Join(parts[1..], sep)
  }

  /** Python's `s.split(sep)` for a one-character separator. */
  function Split(s: string, sep: char): (parts: seq<string>)
    ensures |parts| == Count(s, sep) + 1
    ensures forall k :: 0 <= k < |parts| ==> sep !in parts[k]
    ensures Join(parts, sep) == s
  {
    if s == [] then [""]
    else
      var rest := Split(s[1..], sep);
      if s[0] == sep then
        assert Join([""] + rest, sep) == s by {
          assert ([""] + rest)[1..] == rest;
          assert s == [sep] + s[1..];
        }
        [""] + rest
      else
        var parts := [[s[0]] + rest[0]] + rest[1..];
        assert Join(parts, sep) == s by { JoinConsChar(s[0], rest, sep); }
        parts
  }

  lemma {:induction false} JoinConsChar(c: char, parts: seq<string>, sep: char)
    requires |parts| > 0
    ensures Join([[c] + parts[0]] + parts[1..], sep) == [c] + Join(parts, sep)
  {
    var ps := [[c] + parts[0]] + parts[1..];
    if |parts| > 1 {
      assert ps[1..] == parts[1..];
    }
  }

  /** Splitting a text at a separator occurrence splits each side on its own. */
  lemma {:induction false} SplitAround(a: string, b: string, sep: char)
    ensures Split(a + [sep] + b, sep) == Split(a, sep) + Split(b, sep)
  {
    if a == [] {
      assert a + [sep] + b == [sep] + b;
      assert ([sep] + b)[1..] == b;
    } else {
      var s := a + [sep] + b;
      assert s[1..] == a[1..] + [sep] + b;
      SplitAround(a[1..], b, sep);
    }
  }

  /** A text without the separator splits into itself alone. */
  lemma {:induction false} SplitNoSeparator(a: string, sep: char)
    requires sep !in a
    ensures Split(a, sep) == [a]
  {
    if a != [] {
      SplitNoSeparator(a[1..], sep);
      assert [a[0]] + a[1..] == a;
    }
  }

  /** Split undoes Join whenever no part holds the separator. */
  lemma {:induction false} SplitJoin(parts: seq<string>, sep: char)
    requires |parts| > 0
    requires forall k :: 0 <= k < |parts| ==> sep !in parts[k]
    ensures Split(Join(parts, sep), sep) == parts
  {
    SplitNoSeparator(parts[0], sep);
    if |parts| > 1 {
      SplitJoin(parts[1..], sep);
      SplitAround(parts[0], Join(parts[1..], sep), sep);
      assert [parts[0]] + parts[1..] == parts;
    }
  }

  // ---------------------------------------------------------------------
  // Decimal text of integers

  predicate IsDigit(c: char) {
    '0' <= c <= '9'
  }

  predicate AllDigits(s: string) {
    forall k :: 0 <= k < |s| ==> IsDigit(s[k])
  }

  function DigitChar(d: nat): (c: char)
    requires d < 10
    ensures IsDigit(c)
  {
    ((d + '0' as int) as char)
  }

  function DigitValue(c: char): (d: nat)
    requires IsDigit(c)
    ensures d < 10 && DigitChar(d) == c
  {
    (c as int - '0' as int)
  }

  /** Python's `str(n)` for a non-negative integer. */
  function Show(n: nat): (s: string)
    ensures |s| > 0 && AllDigits(s)
  {
    if n < 10 then [DigitChar(n)] else Show(n / 10) + [DigitChar(n % 10)]
  }

  /** Python's `str(i)` for any integer. */
  function ShowInt(i: int): (s: string)
    ensures |s| > 0 && !IsSpace(s[0]) && !IsSpace(s[|s| - 1])
    ensures '/' !in s
  {
    if i < 0 then "-" + Show(-i) else Show(i)
  }

  /** The number a string of decimal digits denotes; leading zeros are allowed. */
  function DigitsValue(s: string): nat
    requires AllDigits(s)
  {
    if s == [] then 0 else DigitsValue(s[..|s| - 1]) * 10 + DigitValue(s[|s| - 1])
  }

  lemma {:induction false} DigitsValueShow(n: nat)
    ensures DigitsValue(Show(n)) == n
  {
    if n >= 10 {
      var s := Show(n);
      assert s[..|s| - 1] == Show(n / 10);
      DigitsValueShow(n / 10);
    }
  }

  /**
   * The information separators U+001C to U+001F: `isspace()` holds for
   * them, but `float()` strips only the other whitespace, so a field that
   * holds one of them is never a number.
   */
  predicate IsSeparatorControl(c: char) {
    0x1c <= c as int <= 0x1f
  }

  /** Whitespace that `float()` strips from around a field. */
  predicate FloatPadding(s: string) {
    forall k :: 0 <= k < |s| ==> IsSpace(s[k]) && !IsSeparatorControl(s[k])
  }

  /**
   * An integer field as Python's `float()` accepts it, restricted to
   * integers: optional surrounding whitespace other than the separator
   * controls, an optional sign, then one or more ASCII decimal digits.
   * Anything else is rejected.
   */
  function ParseInt(field: string): (r: Option<int>)
    ensures r.Some? ==> |Strip(field)| > 0
    ensures r.Some? ==> forall k :: 0 <= k < |field| ==> !IsSeparatorControl(field[k])
  {
    if exists k :: 0 <= k < |field| && IsSeparatorControl(field[k]) then None
    else ParseDigits(Strip(field))
  }

  /** A field holding a separator control anywhere is rejected. */
  lemma SeparatorControlRejected(field: string, k: nat)
    requires k < |field| && IsSeparatorControl(field[k])
    ensures ParseInt(field).None?
  {
  }

  /** The stripped field: an optional sign, then one or more decimal digits. */
  function ParseDigits(t: string): (r: Option<int>)
    ensures r.Some? ==> |t| > 0
  {
    if |t| > 0 && (t[0] == '+' || t[0] == '-') then
      var digits := t[1..];
      if |digits| > 0 && AllDigits(digits) then
        var v: int := DigitsValue(digits);
        Some(if t[0] == '-' then -v else v)
      else None
    else if |t| > 0 && AllDigits(t) then Some(DigitsValue(t))
    else None
  }

  /** `str(i)` with nothing around it reads back as `i`. */
  lemma ParseDigitsShow(i: int)
    ensures ParseDigits(ShowInt(i)) == Some(i)
  {
    var t := ShowInt(i);
    if i < 0 {
      assert t[1..] == Show(-i);
      DigitsValueShow(-i);
    } else {
      DigitsValueShow(i);
    }
  }

  /** What `str(i)` writes, `float()` reads back as the same number, whitespace around it or not. */
  lemma ParseShowInt(pre: string, i: int, post: string)
    requires FloatPadding(pre) && FloatPadding(post)
    ensures ParseInt(pre + ShowInt(i) + post) == Some(i)
  {
    var t := ShowInt(i);
    var field := pre + t + post;
    forall k | 0 <= k < |field|
      ensures !IsSeparatorControl(field[k])
    {
      if |pre| <= k < |pre| + |t| {
        ShowIntChars(i, k - |pre|);
        assert field[k] == t[k - |pre|];
      }
    }
    StripPadding(pre, t, post);
    ParseDigitsShow(i);
  }

  /** `str(i)` is made of a sign and digits only. */
  lemma ShowIntChars(i: int, k: nat)
    requires k < |ShowInt(i)|
    ensures ShowInt(i)[k] == '-' || IsDigit(ShowInt(i)[k])
  {
    if i < 0 && k > 0 {
      assert ShowInt(i)[k] == Show(-i)[k - 1];
    }
  }
}
