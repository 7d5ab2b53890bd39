/**
 * The pieces of Rust's string library that the tab-naming code relies on:
 * `trim`, `rfind`, `find`/`split_once` on one character, and `parse::<usize>`.
 * Strings are sequences of Unicode scalar values, so every index here counts
 * codepoints. The markers searched for (`": "`, `":"`, `"|"`, `"/"`) are ASCII,
 * so a codepoint index of a match is also a character boundary in UTF-8.
 */
module Text {
  import opened Wrappers

  /** The characters with the Unicode White_Space property, which `str::trim` removes. */
  predicate IsWhitespace(c: char) {
    ('\t' <= c <= '\r') || c == ' ' || c == '\U{0085}' || c == '\U{00A0}' || c == '\U{1680}'
    || ('\U{2000}' <= c <= '\U{200A}') || c == '\U{2028}' || c == '\U{2029}'
    || c == '\U{202F}' || c == '\U{205F}' || c == '\U{3000}'
  }

  /**
   * On ASCII the White_Space set is exactly space, tab, line feed, vertical
   * tab, form feed and carriage return; beyond ASCII it takes in the no-break
   * and ideographic spaces but not the zero-width space.
   */
  lemma WhitespaceOnAscii(c: char)
    requires c < '\U{0080}'
    ensures IsWhitespace(c) <==> c == ' ' || c == '\t' || c == '\n' || c == '\U{000B}' || c == '\U{000C}' || c == '\r'
    ensures IsWhitespace('\U{00A0}') && IsWhitespace('\U{3000}') && !IsWhitespace('\U{200B}')
  {
  }

  predicate IsSuffix(a: string, b: string) {
    |a| <= |b| && a == b[|b| - |a|..]
  }

  /** Neither end of `s` is whitespace: what `trim` leaves behind. */
  predicate IsTrimmed(s: string) {
    s == [] || (!IsWhitespace(s[0]) && !IsWhitespace(s[|s| - 1]))
  }

  /** `str::trim_start`: drops the longest all-whitespace prefix. */
  function TrimStart(s: string): (r: string)
    ensures |r| <= |s|
    ensures r == [] || !IsWhitespace(r[0])
    ensures forall i :: 0 <= i < |s| - |r| ==> IsWhitespace(s[i])
  {
    if s != [] && IsWhitespace(s[0]) then TrimStart(s[1..]) else s
  }

  /** What `trim_start` leaves is a tail of its input. */
  lemma {:induction false} TrimStartIsSuffix(s: string)
    ensures IsSuffix(TrimStart(s), s)
  {
    if s != [] && IsWhitespace(s[0]) {
      TrimStartIsSuffix(s[1..]);
    }
  }

  /** `str::trim_end`: drops the longest all-whitespace suffix. */
  function TrimEnd(s: string): (r: string)
    ensures r <= s
    ensures r == [] || !IsWhitespace(r[|r| - 1])
    ensures forall i :: |r| <= i < |s| ==> IsWhitespace(s[i])
  {
    if s != [] && IsWhitespace(s[|s| - 1]) then TrimEnd(s[..|s| - 1]) else s
  }

  /**
   * `str::trim`: `trim_end` applied to what `trim_start` leaves. The result
   * has whitespace at neither end and is empty exactly when `s` is
   * whitespace only.
   */
  function Trim(s: string): (r: string)
    ensures IsTrimmed(r)
    ensures r == [] <==> forall i :: 0 <= i < |s| ==> IsWhitespace(s[i])
  {
    var t := TrimStart(s);
    assert t != [] ==> !IsWhitespace(s[|s| - |t|]) by {
      TrimStartIsSuffix(s);
      if t != [] {
        assert t[0] == s[|s| - |t|];
      }
    }
    TrimEnd(t)
  }

  /** Trimming a string with no whitespace at either end changes nothing. */
  lemma TrimOfTrimmed(s: string)
    requires IsTrimmed(s)
    ensures Trim(s) == s
  {
  }

  /** `trim` is idempotent. */
  lemma TrimIdempotent(s: string)
    ensures Trim(Trim(s)) == Trim(s)
  {
    TrimOfTrimmed(Trim(s));
  }

  /**
   * Trimming a tail of a string whose last character is not whitespace only
   * removes leading whitespace, so the outcome is still a tail of the string.
   */
  lemma {:induction false} TrimOfTailIsSuffix(t: string, k: nat)
    requires t == [] || !IsWhitespace(t[|t| - 1])
    requires k <= |t|
    ensures IsSuffix(Trim(t[k..]), t)
  {
    var u := TrimStart(t[k..]);
    TrimStartIsSuffix(t[k..]);
    if u != [] {
      assert u[|u| - 1] == t[|t| - 1];
    }
    assert TrimEnd(u) == u;
    assert u == t[|t| - |u|..];
  }

  /** Whitespace in front of a string that starts with a non-blank is all `trim_start` removes. */
  lemma {:induction false} TrimStartSkipsWhitespace(pre: string, s: string)
    requires forall i :: 0 <= i < |pre| ==> IsWhitespace(pre[i])
    requires s != [] && !IsWhitespace(s[0])
    ensures TrimStart(pre + s) == s
  {
    if pre != [] {
      assert (pre + s)[1..] == pre[1..] + s;
      TrimStartSkipsWhitespace(pre[1..], s);
    }
  }

  /** Whitespace after a string that ends with a non-blank is all `trim_end` removes. */
  lemma {:induction false} TrimEndSkipsWhitespace(s: string, post: string)
    requires forall i :: 0 <= i < |post| ==> IsWhitespace(post[i])
    requires s != [] && !IsWhitespace(s[|s| - 1])
    ensures TrimEnd(s + post) == s
  {
    if post != [] {
      assert (s + post)[..|s + post| - 1] == s + post[..|post| - 1];
      TrimEndSkipsWhitespace(s, post[..|post| - 1]);
    }
  }

  /** `trim` removes exactly the whitespace around a non-blank trimmed string. */
  lemma TrimSurrounded(pre: string, s: string, post: string)
    requires forall i :: 0 <= i < |pre| ==> IsWhitespace(pre[i])
    requires forall i :: 0 <= i < |post| ==> IsWhitespace(post[i])
    requires s != [] && IsTrimmed(s)
    ensures Trim(pre + s + post) == s
  {
    assert pre + s + post == pre + (s + post);
    TrimStartSkipsWhitespace(pre, s + post);
    TrimEndSkipsWhitespace(s, post);
  }

  /** `pat` occurs in `s` starting at codepoint `i`. */
  predicate OccursAt(s: string, pat: string, i: nat) {
    i + |pat| <= |s| && s[i..i + |pat|] == pat
  }

  /** `i` is the start of the last occurrence of `pat` in `s`. */
  predicate IsLastOccurrence(s: string, pat: string, i: nat) {
    OccursAt(s, pat, i) && forall j: nat :: i < j <= |s| ==> !OccursAt(s, pat, j)
  }

  /** `str::rfind` with a string pattern: the start of the last occurrence, if any. */
  function LastIndexOf(s: string, pat: string): (r: Option<nat>)
    ensures r.Some? ==> IsLastOccurrence(s, pat, r.value)
    ensures r.None? ==> forall j: nat :: !OccursAt(s, pat, j)
    decreases |s|
  {
    if |s| < |pat| then None
    else if s[|s| - |pat|..] == pat then Some(|s| - |pat|)
    else
      var r := LastIndexOf(s[..|s| - 1], pat);
      assert forall j: nat :: j + |pat| < |s| ==> (OccursAt(s[..|s| - 1], pat, j) <==> OccursAt(s, pat, j)) by {
        forall j: nat | j + |pat| < |s|
          ensures OccursAt(s[..|s| - 1], pat, j) <==> OccursAt(s, pat, j)
        {
          assert s[..|s| - 1][j..j + |pat|] == s[j..j + |pat|];
        }
      }
      r
  }

  /**
   * In `a + m + b`, the `m` after `a` is the last occurrence of `m` when the
   * first character of `m` appears neither later in `m` nor in `b`.
   */
  lemma LastOccurrenceAfter(a: string, m: string, b: string)
    requires |m| > 0 && m[0] !in m[1..] + b
    ensures IsLastOccurrence(a + m + b, m, |a|)
  {
    var s := a + m + b;
    assert s[|a|..|a| + |m|] == m;
    forall j: nat | |a| < j <= |s|
      ensures !OccursAt(s, m, j)
    {
      if j + |m| <= |s| {
        assert s[j..j + |m|][0] == s[j];
        assert s[j] == (m[1..] + b)[j - |a| - 1];
      }
    }
  }

  /** A pattern whose first character is absent from `s` occurs nowhere in `s`. */
  lemma NoOccurrence(s: string, m: string)
    requires |m| > 0 && m[0] !in s
    ensures LastIndexOf(s, m) == None
  {
    forall j: nat
      ensures !OccursAt(s, m, j)
    {
      if j + |m| <= |s| {
        assert s[j..j + |m|][0] == s[j];
      }
    }
  }

  /** There is only one last occurrence. */
  lemma LastOccurrenceIsUnique(s: string, pat: string, i: nat, j: nat)
    requires IsLastOccurrence(s, pat, i) && IsLastOccurrence(s, pat, j)
    ensures i == j
  {
  }

  /** The last occurrence is the only position that is a last occurrence. */
  lemma LastOccurrenceIsOnly(s: string, pat: string, k: nat)
    requires IsLastOccurrence(s, pat, k)
    ensures forall i: nat :: IsLastOccurrence(s, pat, i) ==> i == k
  {
    forall i: nat | IsLastOccurrence(s, pat, i)
      ensures i == k
    {
      LastOccurrenceIsUnique(s, pat, i, k);
    }
  }

  /** `rfind` returns the last occurrence whenever there is one. */
  lemma LastOccurrenceFound(s: string, pat: string, i: nat)
    requires IsLastOccurrence(s, pat, i)
    ensures LastIndexOf(s, pat) == Some(i)
  {
    match LastIndexOf(s, pat)
    case Some(k) => LastOccurrenceIsUnique(s, pat, i, k);
  }

  /** `str::find` with a character pattern: the position of the first `c`, if any. */
  function IndexOf(s: string, c: char): (r: Option<nat>)
    ensures r.Some? ==> r.value < |s| && s[r.value] == c && c !in s[..r.value]
    ensures r.None? <==> c !in s
  {
    if s == [] then None
    else if s[0] == c then Some(0)
    else
      match IndexOf(s[1..], c)
      case None => None
      case Some(i) =>
        assert s[..i + 1] == [s[0]] + s[1..][..i];
        Some(i + 1)
  }

  /** In `a + [c] + b` with no `c` in `a`, the first `c` is the one after `a`. */
  lemma {:induction false} IndexOfJoin(a: string, c: char, b: string)
    requires c !in a
    ensures IndexOf(a + [c] + b, c) == Some(|a|)
  {
    if a != [] {
      assert (a + [c] + b)[1..] == a[1..] + [c] + b;
      IndexOfJoin(a[1..], c, b);
    }
  }

  /** In `a + [c] + b` with no `c` in `b`, the last `c` is the one after `a`. */
  lemma {:induction false} LastIndexOfJoin(a: string, c: char, b: string)
    requires c !in b
    ensures LastIndexOf(a + [c] + b, [c]) == Some(|a|)
  {
    var s := a + [c] + b;
    assert OccursAt(s, [c], |a|);
    forall j: nat | |a| < j <= |s|
      ensures !OccursAt(s, [c], j)
    {
      if j < |s| {
        assert s[j] == b[j - |a| - 1];
        assert s[j..j + 1] == [s[j]];
      }
    }
    var k := LastIndexOf(s, [c]).value;
    assert k <= |a|;
    assert k >= |a|;
  }

  /** `str::split_once` on one character: the text before and after its first occurrence. */
  function SplitOnce(s: string, c: char): (r: Option<(string, string)>)
    ensures r.None? <==> c !in s
    ensures r.Some? ==> c !in r.value.0 && s == r.value.0 + [c] + r.value.1
  {
    match IndexOf(s, c)
    case None => None
    case Some(i) =>
      assert s == s[..i] + [c] + s[i + 1..];
      Some((s[..i], s[i + 1..]))
  }

  /** Splitting `a + [c] + b` on `c`, when `a` has no `c`, gives back `a` and `b`. */
  lemma SplitOnceJoin(a: string, c: char, b: string)
    requires c !in a
    ensures SplitOnce(a + [c] + b, c) == Some((a, b))
  {
    IndexOfJoin(a, c, b);
    assert (a + [c] + b)[..|a|] == a;
    assert (a + [c] + b)[|a| + 1..] == b;
  }

  predicate IsDigit(c: char) {
    '0' <= c <= '9'
  }

  predicate AllDigits(s: string) {
    forall i :: 0 <= i < |s| ==> IsDigit(s[i])
  }

  /** The value of a run of decimal digits, most significant first. */
  function DecimalValue(d: string): nat
    requires AllDigits(d)
    decreases |d|
  {
    if d == [] then 0 else DecimalValue(d[..|d| - 1]) * 10 + (d[|d| - 1] as int - '0' as int)
  }

  /**
   * `str::parse::<usize>`: an optional single leading `+` followed by one or
   * more ASCII digits. The empty string, a lone `+`, a `-` sign, whitespace and
   * any other character are rejected.
   */
  function ParseUsize(s: string): (r: Option<nat>)
    ensures r.Some? <==> |s| > 0 && (AllDigits(s) || (s[0] == '+' && |s| > 1 && AllDigits(s[1..])))
    ensures r.Some? && s[0] == '+' ==> r.value == DecimalValue(s[1..])
    ensures r.Some? && s[0] != '+' ==> r.value == DecimalValue(s)
  {
    if s == [] then None
    else
      var digits := if s[0] == '+' && |s| > 1 then s[1..] else s;
      if AllDigits(digits) then Some(DecimalValue(digits)) else None
  }

  /** The canonical decimal spelling of `n`: digits only, no leading zero. */
  function ToDecimal(n: nat): (d: string)
    ensures |d| > 0 && AllDigits(d)
    ensures d[0] == '0' ==> n == 0
    decreases n
  {
    if n < 10 then ['0' + n as char] else ToDecimal(n / 10) + ['0' + (n % 10) as char]
  }

  /** Reading back the decimal spelling of `n` gives `n`. */
  lemma {:induction false} DecimalRoundTrip(n: nat)
    ensures DecimalValue(ToDecimal(n)) == n
  {
    if n >= 10 {
      var d := ToDecimal(n);
      assert d[..|d| - 1] == ToDecimal(n / 10);
      DecimalRoundTrip(n / 10);
    }
  }

  /** `parse::<usize>` accepts every canonical decimal spelling and returns its value. */
  lemma ParseUsizeRoundTrip(n: nat)
    ensures ParseUsize(ToDecimal(n)) == Some(n)
  {
    DecimalRoundTrip(n);
  }
}
