/** String helpers with the meaning Python gives them: substring search
    (`pat in s`, `str.find`), the regex classes `\s` and `\w`, `str.strip()`,
    `str.upper()` and `str(int)`. Characters outside ASCII are not modelled. */
module Text {
  import opened Base

  /** `c.isspace()` (and regex `\s`) on the ASCII range. */
  predicate IsSpace(c: char) {
    c == ' ' || c == '\t' || c == '\n' || c == '\r' || c == '\U{0B}' || c == '\U{0C}'
    || c == '\U{1C}' || c == '\U{1D}' || c == '\U{1E}' || c == '\U{1F}'
  }

  /** Regex `\w` on the ASCII range. */
  predicate IsWordChar(c: char) {
    ('a' <= c <= 'z') || ('A' <= c <= 'Z') || ('0' <= c <= '9') || c == '_'
  }

  predicate AllSpaces(s: string) {
    forall i :: 0 <= i < |s| ==> IsSpace(s[i])
  }

  /** A string `str.strip()` leaves as it is. */
  predicate Trimmed(s: string) {
    s == [] || (!IsSpace(s[0]) && !IsSpace(s[|s| - 1]))
  }

  function UpperChar(c: char): char {
    if 'a' <= c <= 'z' then (c as int - 32) as char else c
  }

  /** `s.upper()` on the ASCII range. */
  function Upper(s: string): (r: string)
    ensures |r| == |s|
  {
    seq(|s|, i requires 0 <= i < |s| => UpperChar(s[i]))
  }

  /** `pat` occurs in `s` starting at index `k`. */
  predicate OccursAt(s: string, pat: string, k: nat) {
    k + |pat| <= |s| && s[k..k + |pat|] == pat
  }

  /** The first index at or after `from` where `pat` occurs (`s.find(pat, from)`). */
  function IndexOf(s: string, pat: string, from: nat): (r: Option<nat>)
    ensures r.Some? ==> from <= r.value && OccursAt(s, pat, r.value)
    ensures r.Some? ==> forall k :: from <= k < r.value ==> !OccursAt(s, pat, k)
    ensures r.None? ==> forall k :: from <= k ==> !OccursAt(s, pat, k)
    decreases |s| - from
  {
    if from + |pat| > |s| then None
    else if s[from..from + |pat|] == pat then Some(from)
    else IndexOf(s, pat, from + 1)
  }

  /** `pat in s`. */
  predicate Contains(s: string, pat: string) {
    IndexOf(s, pat, 0).Some?
  }

  lemma {:induction false} ContainsWhenOccurs(s: string, pat: string, k: nat)
    requires OccursAt(s, pat, k)
    ensures Contains(s, pat)
  {
  }

  lemma {:induction false} OccursWhenContains(s: string, pat: string) returns (k: nat)
    requires Contains(s, pat)
    ensures OccursAt(s, pat, k)
  {
    k := IndexOf(s, pat, 0).value;
  }

  /** A string that contains `pat` still does after a prefix is put before it. */
  lemma {:induction false} ContainsAfterPrefix(a: string, b: string, pat: string)
    requires Contains(b, pat)
    ensures Contains(a + b, pat)
  {
    var k := OccursWhenContains(b, pat);
    assert (a + b)[|a| + k..|a| + k + |pat|] == b[k..k + |pat|];
    ContainsWhenOccurs(a + b, pat, |a| + k);
  }

  /** The first occurrence is the one no earlier occurrence precedes. */
  lemma {:induction false} FirstOccurrence(s: string, pat: string, k: nat)
    requires OccursAt(s, pat, k)
    requires forall q :: 0 <= q < k ==> !OccursAt(s, pat, q)
    ensures IndexOf(s, pat, 0) == Some(k)
  {
  }

  /** An occurrence that fits inside `a` is an occurrence in `a + b` and
      conversely. */
  lemma {:induction false} OccursInPrefix(a: string, b: string, pat: string, q: nat)
    requires q + |pat| <= |a|
    ensures OccursAt(a + b, pat, q) <==> OccursAt(a, pat, q)
  {
    assert (a + b)[q..q + |pat|] == a[q..q + |pat|];
  }

  /** An occurrence past the end of `a` is an occurrence in `b`, shifted. */
  lemma {:induction false} OccursShift(a: string, b: string, pat: string, q: nat)
    requires |a| <= q
    ensures OccursAt(a + b, pat, q) <==> OccursAt(b, pat, q - |a|)
  {
    if q + |pat| <= |a| + |b| {
      assert (a + b)[q..q + |pat|] == b[q - |a|..q - |a| + |pat|];
    }
  }

  /** Putting text after a string does not move its first occurrence of `pat`. */
  lemma {:induction false} IndexOfAfterSuffix(a: string, b: string, pat: string)
    requires IndexOf(a, pat, 0).Some?
    ensures IndexOf(a + b, pat, 0) == IndexOf(a, pat, 0)
  {
    var k := IndexOf(a, pat, 0).value;
    OccursInPrefix(a, b, pat, k);
    forall q | 0 <= q < k ensures !OccursAt(a + b, pat, q) {
      OccursInPrefix(a, b, pat, q);
    }
    FirstOccurrence(a + b, pat, k);
  }

  /** A found position moved `n` further on. */
  function Shifted(r: Option<nat>, n: nat): (r': Option<nat>)
    ensures r'.Some? <==> r.Some?
    ensures r.Some? ==> r'.value == n + r.value
  {
    match r
    case Some(k) => Some(n + k)
    case None => None
  }

  /** Searching `a + b` from inside `b` is searching `b`, shifted by `|a|`. */
  lemma {:induction false} IndexOfShift(a: string, b: string, pat: string, from: nat)
    ensures IndexOf(a + b, pat, |a| + from) == Shifted(IndexOf(b, pat, from), |a|)
  {
    forall q | |a| + from <= q ensures OccursAt(a + b, pat, q) <==> OccursAt(b, pat, q - |a|) {
      OccursShift(a, b, pat, q);
    }
    match IndexOf(b, pat, from)
    case Some(k) =>
      assert OccursAt(a + b, pat, |a| + k);
    case None =>
  }

  /** A search starting where `pat` does not occur goes on one further. */
  lemma {:induction false} IndexOfSkip(s: string, pat: string, from: nat)
    requires !OccursAt(s, pat, from)
    ensures IndexOf(s, pat, from) == IndexOf(s, pat, from + 1)
  {
  }

  /** When `pat` does not start inside `a`, searching `a + b` is searching
      `b`, shifted by `|a|`. */
  lemma {:induction false} IndexOfBehind(a: string, b: string, pat: string)
    requires forall q :: 0 <= q < |a| ==> !OccursAt(a + b, pat, q)
    ensures IndexOf(a + b, pat, 0) == Shifted(IndexOf(b, pat, 0), |a|)
  {
    IndexOfPast(a + b, pat, 0, |a|);
    IndexOfShift(a, b, pat, 0);
  }

  /** A search that can find nothing in `[from, to)` may as well start at `to`. */
  lemma {:induction false} IndexOfPast(s: string, pat: string, from: nat, to: nat)
    requires from <= to
    requires forall q :: from <= q < to ==> !OccursAt(s, pat, q)
    ensures IndexOf(s, pat, from) == IndexOf(s, pat, to)
  {
  }

  /** A window inside the left part of a concatenation. */
  lemma {:induction false} SliceLeft(a: string, b: string, i: nat, j: nat)
    requires i <= j <= |a|
    ensures (a + b)[i..j] == a[i..j]
  {
  }

  /** A window inside the right part of a concatenation. */
  lemma {:induction false} SliceRight(a: string, b: string, i: nat, j: nat)
    requires i <= j <= |b|
    ensures (a + b)[|a| + i..|a| + j] == b[i..j]
  {
  }

  /** Every character of an occurrence is a character of the pattern: a window
      of `s` holding a character foreign to `pat` is not an occurrence. */
  lemma {:induction false} OccurrenceChar(s: string, pat: string, k: nat, q: nat)
    requires OccursAt(s, pat, k) && k <= q < k + |pat|
    ensures s[q] == pat[q - k]
  {
    assert s[k..k + |pat|][q - k] == s[q];
  }

  /** An occurrence inside the slice `s[lo..hi]` is an occurrence of that slice. */
  lemma {:induction false} OccurrenceInSlice(s: string, pat: string, k: nat, lo: nat, hi: nat)
    requires OccursAt(s, pat, k) && lo <= k && k + |pat| <= hi <= |s|
    ensures OccursAt(s[lo..hi], pat, k - lo)
  {
    var w := s[lo..hi];
    var a: nat := k - lo;
    forall j | 0 <= j < |pat| ensures w[a..a + |pat|][j] == pat[j] {
      assert w[a..a + |pat|][j] == w[a + j] == s[k + j];
      assert s[k..k + |pat|][j] == s[k + j];
    }
    assert w[a..a + |pat|] == pat;
  }

  /** An occurrence starting in `a` cannot reach past a last character of
      `a` that the pattern does not contain. */
  lemma {:induction false} NoStraddle(a: string, b: string, pat: string, q: nat)
    requires q < |a| && OccursAt(a + b, pat, q)
    requires forall j :: 0 <= j < |pat| ==> pat[j] != a[|a| - 1]
    ensures q + |pat| < |a|
  {
    if q + |pat| >= |a| {
      OccurrenceChar(a + b, pat, q, |a| - 1);
    }
  }

  /** The end of the run of whitespace starting at `from`. */
  function SkipSpaces(s: string, from: nat): (r: nat)
    requires from <= |s|
    ensures from <= r <= |s|
    ensures forall j {:trigger IsSpace(s[j])} :: from <= j < r ==> IsSpace(s[j])
    ensures r < |s| ==> !IsSpace(s[r])
    decreases |s| - from
  {
    if from < |s| && IsSpace(s[from]) then SkipSpaces(s, from + 1) else from
  }

  /** The end of the run of word characters starting at `from`. */
  function WordEnd(s: string, from: nat): (r: nat)
    requires from <= |s|
    ensures from <= r <= |s|
    ensures forall j {:trigger IsWordChar(s[j])} :: from <= j < r ==> IsWordChar(s[j])
    ensures r < |s| ==> !IsWordChar(s[r])
    decreases |s| - from
  {
    if from < |s| && IsWordChar(s[from]) then WordEnd(s, from + 1) else from
  }

  /** Skipping whitespace inside the right part of a concatenation. */
  lemma {:induction false} SkipSpacesShift(a: string, b: string, from: nat)
    requires from <= |b|
    ensures SkipSpaces(a + b, |a| + from) == |a| + SkipSpaces(b, from)
    decreases |b| - from
  {
    if from < |b| {
      assert (a + b)[|a| + from] == b[from];
      if IsSpace(b[from]) {
        SkipSpacesShift(a, b, from + 1);
      }
    }
  }

  /** Reading a word inside the right part of a concatenation. */
  lemma {:induction false} WordEndShift(a: string, b: string, from: nat)
    requires from <= |b|
    ensures WordEnd(a + b, |a| + from) == |a| + WordEnd(b, from)
    decreases |b| - from
  {
    if from < |b| {
      assert (a + b)[|a| + from] == b[from];
      if IsWordChar(b[from]) {
        WordEndShift(a, b, from + 1);
      }
    }
  }

  /** The run of word characters after the whitespace from `from` on, as
      `\s*(\w+)` reads it greedily (empty when no word follows). */
  function WordAfter(s: string, from: nat): (w: string)
    requires from <= |s|
    ensures forall i :: 0 <= i < |w| ==> IsWordChar(w[i])
  {
    var j := SkipSpaces(s, from);
    s[j..WordEnd(s, j)]
  }

  /** The word after a position inside the right part of a concatenation
      is the word read in that part. */
  lemma {:induction false} WordAfterShift(a: string, b: string, from: nat)
    requires from <= |b|
    ensures WordAfter(a + b, |a| + from) == WordAfter(b, from)
  {
    var j := SkipSpaces(b, from);
    SkipSpacesShift(a, b, from);
    WordEndShift(a, b, j);
    SliceRight(a, b, j, WordEnd(b, j));
  }

  /** A string lacking one of the pattern's characters does not contain it. */
  lemma {:induction false} CharExcludes(s: string, pat: string, j: nat)
    requires j < |pat| && pat[j] !in s
    ensures !Contains(s, pat)
  {
    if Contains(s, pat) {
      var k := OccursWhenContains(s, pat);
      OccurrenceChar(s, pat, k, k + j);
    }
  }

  /** Two strings without `pat`, joined where one of them has a character
      foreign to `pat` at the seam, do not contain it either. */
  lemma {:induction false} NotContainsJoin(a: string, b: string, pat: string)
    requires !Contains(a, pat) && !Contains(b, pat)
    requires (|a| > 0 && a[|a| - 1] !in pat) || (|b| > 0 && b[0] !in pat)
    ensures !Contains(a + b, pat)
  {
    if Contains(a + b, pat) {
      var k := OccursWhenContains(a + b, pat);
      if k + |pat| <= |a| {
        OccursInPrefix(a, b, pat, k);
        ContainsWhenOccurs(a, pat, k);
      } else if k >= |a| {
        OccursShift(a, b, pat, k);
      } else if |a| > 0 && a[|a| - 1] !in pat {
        OccurrenceChar(a + b, pat, k, |a| - 1);
      } else {
        OccurrenceChar(a + b, pat, k, |a|);
      }
    }
  }

  /** When `a` ends with a character foreign to `pat` and does not contain
      it, no occurrence of `pat` starts inside `a`, whatever follows. */
  lemma {:induction false} NoOccurrenceBefore(a: string, b: string, pat: string)
    requires |a| > 0 && !Contains(a, pat) && a[|a| - 1] !in pat
    ensures forall q :: 0 <= q < |a| ==> !OccursAt(a + b, pat, q)
  {
    assert forall j :: 0 <= j < |pat| ==> pat[j] != a[|a| - 1];
    forall q | 0 <= q < |a| ensures !OccursAt(a + b, pat, q) {
      if OccursAt(a + b, pat, q) {
        NoStraddle(a, b, pat, q);
        OccursInPrefix(a, b, pat, q);
        ContainsWhenOccurs(a, pat, q);
      }
    }
  }

  /** The start of the run of whitespace that ends `s[lo..hi]`. */
  function TrimEnd(s: string, lo: nat, hi: nat): (r: nat)
    requires lo <= hi <= |s|
    ensures lo <= r <= hi
    ensures forall j {:trigger IsSpace(s[j])} :: r <= j < hi ==> IsSpace(s[j])
    ensures r > lo ==> !IsSpace(s[r - 1])
    decreases hi
  {
    if hi > lo && IsSpace(s[hi - 1]) then TrimEnd(s, lo, hi - 1) else hi
  }

  /** `s.strip()`: the slice between the first and the last non-space character. */
  function Strip(s: string): (r: string)
    ensures Trimmed(r)
    ensures |r| <= |s|
  {
    var i := SkipSpaces(s, 0);
    var j := TrimEnd(s, i, |s|);
    s[i..j]
  }

  /** Whitespace around a trimmed string is exactly what `strip()` removes. */
  lemma {:induction false} StripPadded(left: string, t: string, right: string)
    requires AllSpaces(left) && AllSpaces(right) && Trimmed(t)
    ensures Strip(left + t + right) == t
  {
    var s := left + t + right;
    var i := SkipSpaces(s, 0);
    if t == [] {
      assert AllSpaces(s) by {
        forall j | 0 <= j < |s| ensures IsSpace(s[j]) {
          if j < |left| { assert s[j] == left[j]; } else { assert s[j] == right[j - |left|]; }
        }
      }
      assert i == |s|;
    } else {
      assert s[|left|] == t[0];
      forall j | 0 <= j < |left| ensures IsSpace(s[j]) { assert s[j] == left[j]; }
      assert i == |left|;
      var e := |left| + |t|;
      assert s[e - 1] == t[|t| - 1];
      forall j | e <= j < |s| ensures IsSpace(s[j]) { assert s[j] == right[j - e]; }
      var k := TrimEnd(s, i, |s|);
      assert k == e;
      assert s[i..k] == t;
    }
  }

  /** `upper()` leaves a string without lower-case letters unchanged. */
  lemma {:induction false} UpperUnchanged(s: string)
    requires forall i :: 0 <= i < |s| ==> !('a' <= s[i] <= 'z')
    ensures Upper(s) == s
  {
  }

  function DigitChar(d: nat): char
    requires d < 10
  {
    "0123456789"[d]
  }

  /** `str(n)` for a natural number. */
  function NatToString(n: nat): (r: string)
    ensures |r| > 0
    decreases n
  {
    if n < 10 then [DigitChar(n)] else NatToString(n / 10) + [DigitChar(n % 10)]
  }

  /** `str(i)` for an integer. */
  function IntToString(i: int): string {
    if i < 0 then "-" + NatToString(-i) else NatToString(i)
  }
}
