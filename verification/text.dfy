/**
 * The handful of Python `str` operations the audit pipeline relies on:
 * substring tests (`pat in s`), `strip()`, `strip(ch)`, `rstrip(ch)`,
 * `lower()`, `sep.join(parts)` and `" " * n`.
 */
module Text {
  import opened Wrappers

  /** Python truthiness of an optional string: present and non-empty. */
  predicate Given(x: Option<string>) {
    x.Some? && x.value != ""
  }

  /** `pat` occurs in `s` starting at index `i`. */
  predicate OccursAt(s: string, pat: string, i: nat) {
    i + |pat| <= |s| && s[i..i + |pat|] == pat
  }

  predicate StartsWith(s: string, prefix: string) {
    |prefix| <= |s| && s[..|prefix|] == prefix
  }

  /** Python's `pat in s`. */
  predicate Contains(s: string, pat: string) {
    exists i: nat :: i <= |s| && OccursAt(s, pat, i)
  }

  /** Index of the first occurrence of `pat` in `s` at or after `from` (Python's `s.find(pat, from)`). */
  function FindFrom(s: string, pat: string, from: nat): (r: Option<nat>)
    ensures r.Some? ==> from <= r.value && OccursAt(s, pat, r.value)
    ensures r.Some? ==> forall i: nat :: from <= i < r.value ==> !OccursAt(s, pat, i)
    ensures r.None? ==> forall i: nat :: from <= i ==> !OccursAt(s, pat, i)
    decreases |s| - from
  {
    if from + |pat| > |s| then None
    else if OccursAt(s, pat, from) then Some(from)
    else FindFrom(s, pat, from + 1)
  }

  /** Index of the first occurrence of `pat` in `s`. */
  function Find(s: string, pat: string): (r: Option<nat>)
    ensures r.Some? <==> Contains(s, pat)
    ensures r.Some? ==> OccursAt(s, pat, r.value) && forall i: nat :: i < r.value ==> !OccursAt(s, pat, i)
  {
    FindFrom(s, pat, 0)
  }

  /** Python's `str.isspace()` for one code point. */
  predicate IsSpace(c: char) {
    c == ' ' || ('\t' <= c <= '\r') || ('\U{1C}' <= c <= '\U{1F}') || c == '\U{85}' || c == '\U{A0}'
    || c == '\U{1680}' || ('\U{2000}' <= c <= '\U{200A}') || c == '\U{2028}' || c == '\U{2029}'
    || c == '\U{202F}' || c == '\U{205F}' || c == '\U{3000}'
  }

  /** Neither starts nor ends with white space (what `strip()` guarantees of a non-empty result). */
  predicate Trimmed(r: string) {
    r != [] && !IsSpace(r[0]) && !IsSpace(r[|r| - 1])
  }

  /** Drop every leading character satisfying `drop`. */
  function LStripBy(s: string, drop: char -> bool): (r: string)
    ensures |r| <= |s| && r == s[|s| - |r|..]
    ensures forall k :: 0 <= k < |s| - |r| ==> drop(s[k])
    ensures r == [] || !drop(r[0])
  {
    if s != [] && drop(s[0]) then
      var r := LStripBy(s[1..], drop);
      assert s[1..][|s| - 1 - |r|..] == s[|s| - |r|..];
      assert forall k :: 1 <= k < |s| - |r| ==> s[k] == s[1..][k - 1];
      r
    else s
  }

  /** Drop every trailing character satisfying `drop`. */
  function RStripBy(s: string, drop: char -> bool): (r: string)
    ensures |r| <= |s| && r == s[..|r|]
    ensures forall k :: |r| <= k < |s| ==> drop(s[k])
    ensures r == [] || !drop(r[|r| - 1])
  {
    if s != [] && drop(s[|s| - 1]) then RStripBy(s[..|s| - 1], drop) else s
  }

  /** `s` is `r` with a prefix of length `a` and a suffix, both made only of characters satisfying `drop`. */
  predicate PaddedBy(s: string, r: string, a: int, drop: char -> bool) {
    0 <= a && a + |r| <= |s| && r == s[a..a + |r|] &&
    (forall k :: 0 <= k < a ==> drop(s[k])) && (forall k :: a + |r| <= k < |s| ==> drop(s[k]))
  }

  /** `PaddedBy` for the padding character `ch`. */
  predicate PaddedWith(s: string, r: string, a: int, ch: char) {
    0 <= a && a + |r| <= |s| && r == s[a..a + |r|] &&
    (forall k :: 0 <= k < a ==> s[k] == ch) && (forall k :: a + |r| <= k < |s| ==> s[k] == ch)
  }

  /** Python's `s.strip()`. */
  function Strip(s: string): (r: string)
    ensures |r| <= |s|
    ensures r == [] || (!IsSpace(r[0]) && !IsSpace(r[|r| - 1]))
    ensures (s == [] || (!IsSpace(s[0]) && !IsSpace(s[|s| - 1]))) ==> r == s
    ensures exists a :: PaddedBy(s, r, a, IsSpace)
  {
    var l := LStripBy(s, IsSpace);
    var r := RStripBy(l, IsSpace);
    StripWitness(s, l, r, IsSpace);
    r
  }

  /** Python's `s.strip(ch)` for a one-character argument. */
  function StripChar(s: string, ch: char): (r: string)
    ensures |r| <= |s|
    ensures r == [] || (r[0] != ch && r[|r| - 1] != ch)
    ensures (s == [] || (s[0] != ch && s[|s| - 1] != ch)) ==> r == s
    ensures exists a :: PaddedWith(s, r, a, ch)
  {
    var l := LStripBy(s, c => c == ch);
    var r := RStripBy(l, c => c == ch);
    StripCharWitness(s, l, r, ch);
    r
  }

  /** A left strip to `l` followed by a right strip to `r` leaves `r` padded in `s` at `|s| - |l|`. */
  lemma StripWitness(s: string, l: string, r: string, drop: char -> bool)
    requires |l| <= |s| && l == s[|s| - |l|..] && forall k :: 0 <= k < |s| - |l| ==> drop(s[k])
    requires |r| <= |l| && r == l[..|r|] && forall k :: |r| <= k < |l| ==> drop(l[k])
    ensures PaddedBy(s, r, |s| - |l|, drop)
  {
    var a := |s| - |l|;
    TakeOfDrop(s, a, |r|);
    forall k | a + |r| <= k < |s| ensures drop(s[k]) {
      assert s[k] == l[k - a];
    }
  }

  /** The same as `StripWitness`, for a single padding character. */
  lemma StripCharWitness(s: string, l: string, r: string, ch: char)
    requires |l| <= |s| && l == s[|s| - |l|..] && forall k :: 0 <= k < |s| - |l| ==> s[k] == ch
    requires |r| <= |l| && r == l[..|r|] && forall k :: |r| <= k < |l| ==> l[k] == ch
    ensures PaddedWith(s, r, |s| - |l|, ch)
  {
    var a := |s| - |l|;
    TakeOfDrop(s, a, |r|);
    forall k | a + |r| <= k < |s| ensures s[k] == ch {
      assert s[k] == l[k - a];
    }
  }

  /** Taking `n` elements after dropping `a` is the slice `[a..a + n]`. */
  lemma TakeOfDrop<T>(s: seq<T>, a: int, n: int)
    requires 0 <= a && 0 <= n && a + n <= |s|
    ensures s[a..][..n] == s[a..a + n]
  {
  }

  /** Python's `s.rstrip(ch)` for a one-character argument. */
  function RStripChar(s: string, ch: char): (r: string)
    ensures r == [] || r[|r| - 1] != ch
    ensures StartsWith(s, r) && forall k :: |r| <= k < |s| ==> s[k] == ch
  {
    RStripBy(s, c => c == ch)
  }

  function LowerChar(c: char): char {
    if 'A' <= c <= 'Z' then (c as int - 'A' as int + 'a' as int) as char else c
  }

  /** Python's `s.lower()`, restricted to the ASCII letters. */
  function Lower(s: string): (r: string)
    ensures |r| == |s|
    ensures forall k :: 0 <= k < |s| ==> r[k] == LowerChar(s[k])
  {
    seq(|s|, k requires 0 <= k < |s| => LowerChar(s[k]))
  }

  predicate IsLower(s: string) {
    forall k :: 0 <= k < |s| ==> !('A' <= s[k] <= 'Z')
  }

  lemma LowerIsLower(s: string)
    ensures IsLower(Lower(s))
    ensures IsLower(s) ==> Lower(s) == s
  {
  }

  /** Characters removed by `drop` after `s` are all stripped again. */
  lemma {:induction false} RStripByPadding(s: string, pad: string, drop: char -> bool)
    requires forall k :: 0 <= k < |pad| ==> drop(pad[k])
    ensures RStripBy(s + pad, drop) == RStripBy(s, drop)
  {
    if pad == [] {
      assert s + pad == s;
    } else {
      var t := s + pad;
      assert t[|t| - 1] == pad[|pad| - 1];
      assert t[..|t| - 1] == s + pad[..|pad| - 1];
      RStripByPadding(s, pad[..|pad| - 1], drop);
    }
  }

  /** Stripping never introduces a character. */
  lemma AbsentAfterStrip(s: string, ch: char, c: char)
    requires c !in s
    ensures c !in Strip(s) && c !in StripChar(s, ch)
  {
    var a := LStripBy(s, IsSpace);
    assert a == s[|s| - |a|..];
    assert c !in a;
    var b := LStripBy(s, x => x == ch);
    assert b == s[|s| - |b|..];
    assert c !in b;
  }

  /** Python's `sep.join(parts)`. */
  function Join(sep: string, parts: seq<string>): string
  {
    if |parts| == 0 then ""
    else if |parts| == 1 then parts[0]
    else parts[0] + sep + Join(sep, parts[1..])
  }

  /** Python's `" " * n`. */
  function Spaces(n: nat): (r: string)
    ensures |r| == n && forall k :: 0 <= k < n ==> r[k] == ' '
  {
    seq(n, _ => ' ')
  }

  predicate IsDigit(c: char) {
    '0' <= c <= '9'
  }

  /** Python's `str(n)` for a natural number: its decimal digits. */
  function NatToString(n: nat): (r: string)
    ensures r != [] && forall k :: 0 <= k < |r| ==> IsDigit(r[k])
  {
    var d := ['0', '1', '2', '3', '4', '5', '6', '7', '8', '9'][n % 10];
    if n < 10 then [d] else NatToString(n / 10) + [d]
  }

  /** The number a string of decimal digits denotes, most significant digit first. */
  function DigitsValue(s: string): nat
    requires forall k :: 0 <= k < |s| ==> IsDigit(s[k])
  {
    if s == [] then 0
    else
      assert IsDigit(s[|s| - 1]);
      10 * DigitsValue(s[..|s| - 1]) + (s[|s| - 1] as int - '0' as int)
  }

  /** `str(n)` reads back as `n` and has no leading zero. */
  lemma {:induction false} NatToStringReadsBack(n: nat)
    ensures DigitsValue(NatToString(n)) == n
    ensures NatToString(n)[0] != '0' || n == 0
  {
    var r := NatToString(n);
    if n >= 10 {
      NatToStringReadsBack(n / 10);
      assert r[..|r| - 1] == NatToString(n / 10);
      assert r[0] == NatToString(n / 10)[0];
    }
  }

  lemma JoinStartsWith(sep: string, parts: seq<string>)
    requires |parts| > 0
    ensures StartsWith(Join(sep, parts), parts[0])
  {
  }

  lemma OccursShift(pre: string, s: string, post: string, pat: string, i: nat)
    requires OccursAt(s, pat, i)
    ensures OccursAt(pre + s + post, pat, |pre| + i)
  {
    var w := pre + s + post;
    assert w[|pre| + i..|pre| + i + |pat|] == s[i..i + |pat|];
  }

  lemma {:induction false} JoinContains(sep: string, parts: seq<string>, k: nat, pat: string)
    requires k < |parts| && Contains(parts[k], pat)
    ensures Contains(Join(sep, parts), pat)
  {
    if |parts| > 1 {
      var rest := Join(sep, parts[1..]);
      assert Join(sep, parts) == parts[0] + (sep + rest);
      if k == 0 {
        var i: nat :| i <= |parts[0]| && OccursAt(parts[0], pat, i);
        OccursInLeft(parts[0], sep + rest, pat, i);
      } else {
        JoinContains(sep, parts[1..], k - 1, pat);
        var j: nat :| j <= |rest| && OccursAt(rest, pat, j);
        OccursInRight(sep, rest, pat, j);
        OccursInRight(parts[0], sep + rest, pat, |sep| + j);
      }
    }
  }

  lemma OccursInLeft(a: string, b: string, pat: string, i: nat)
    requires OccursAt(a, pat, i)
    ensures OccursAt(a + b, pat, i)
  {
    assert (a + b)[i..i + |pat|] == a[i..i + |pat|];
  }

  lemma OccursInRight(a: string, b: string, pat: string, j: nat)
    requires OccursAt(b, pat, j)
    ensures OccursAt(a + b, pat, |a| + j)
  {
    assert (a + b)[|a| + j..|a| + j + |pat|] == b[j..j + |pat|];
  }
}
