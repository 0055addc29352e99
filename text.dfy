/**
 * The few Python string operations the analyzers rely on, over `string` (a sequence of
 * Unicode scalar values, so `|s|` is Python's `len(s)`): prefix and suffix tests, substring
 * containment, slicing, `strip()`, `split(c)[0]`, `join`, `replace(w, "")`, the two
 * digit patterns the timeline extracts with `re.findall`, and decimal numerals.
 */
module Text {

  // ---------------------------------------------------------------------------
  // Prefixes, suffixes, containment
  // ---------------------------------------------------------------------------

  /** `s.startswith(p)` */
  predicate StartsWith(s: string, p: string) {
    |p| <= |s| && s[..|p|] == p
  }

  /** `s.endswith(p)` */
  predicate EndsWith(s: string, p: string) {
    |p| <= |s| && s[|s| - |p|..] == p
  }

  /** `w` occurs in `s` starting at index `i`. */
  predicate OccursAt(s: string, w: string, i: nat) {
    i + |w| <= |s| && s[i..i + |w|] == w
  }

  /** `w in s` for two strings. */
  predicate Contains(s: string, w: string) {
    exists i: nat | i <= |s| :: OccursAt(s, w, i)
  }

  /** `any(w in s for w in ws)` */
  predicate ContainsAny(s: string, ws: seq<string>) {
    exists k :: 0 <= k < |ws| && Contains(s, ws[k])
  }

  lemma ContainsWitness(s: string, w: string, i: nat)
    requires OccursAt(s, w, i)
    ensures Contains(s, w)
  {
  }

  /** A string begins with each of its parts' prefixes: `a` and what `a` begins with. */
  lemma StartsWithConcat(a: string, b: string, p: string)
    requires StartsWith(a, p)
    ensures StartsWith(a + b, p) && StartsWith(a + b, a)
  {
    assert (a + b)[..|a|] == a;
    assert (a + b)[..|p|] == a[..|p|];
  }

  lemma PrefixTransitive(s: string, p: string, q: string)
    requires StartsWith(s, p) && StartsWith(p, q)
    ensures StartsWith(s, q)
  {
    assert s[..|q|] == s[..|p|][..|q|];
  }

  /** Whatever contains `w` contains every prefix of `w`: "发布会" in s implies "发布" in s. */
  lemma ContainsPrefixOf(s: string, w: string, v: string)
    requires Contains(s, w) && StartsWith(w, v)
    ensures Contains(s, v)
  {
    var i: nat :| i <= |s| && OccursAt(s, w, i);
    assert s[i..i + |v|] == s[i..i + |w|][..|v|];
    assert OccursAt(s, v, i);
  }

  /** A word list none of whose first characters occurs in `s` has no member in `s`. */
  lemma NoneContained(s: string, ws: seq<string>)
    requires forall k :: 0 <= k < |ws| ==> ws[k] != [] && ws[k][0] !in s
    ensures !ContainsAny(s, ws)
  {
    forall k | 0 <= k < |ws| ensures !Contains(s, ws[k]) {
      FirstCharAbsent(s, ws[k]);
    }
  }

  /** A string longer than `s` never occurs in it. */
  lemma TooLongNotContained(s: string, w: string)
    requires |s| < |w|
    ensures !Contains(s, w)
  {
  }

  /** A string whose first character does not appear in `s` does not occur in it. */
  lemma FirstCharAbsent(s: string, w: string)
    requires w != [] && w[0] !in s
    ensures !Contains(s, w)
  {
    forall p: nat | p <= |s| ensures !OccursAt(s, w, p) {
      if p + |w| <= |s| { assert s[p..p + |w|][0] == s[p]; }
    }
  }

  /** More generally, a string with any character absent from `s` does not occur in it. */
  lemma CharAbsent(s: string, w: string, k: nat)
    requires k < |w| && w[k] !in s
    ensures !Contains(s, w)
  {
    forall p: nat | p <= |s| ensures !OccursAt(s, w, p) {
      if p + |w| <= |s| { assert s[p..p + |w|][k] == s[p + k]; }
    }
  }

  /** What occurs in a part of a concatenation occurs in the whole. */
  lemma ContainsInConcat(a: string, b: string, w: string)
    requires Contains(b, w)
    ensures Contains(a + b, w)
  {
    var i: nat :| i <= |b| && OccursAt(b, w, i);
    assert (a + b)[|a| + i..|a| + i + |w|] == b[i..i + |w|];
    assert OccursAt(a + b, w, |a| + i);
  }

  lemma ContainsInPrefix(a: string, b: string, w: string)
    requires Contains(a, w)
    ensures Contains(a + b, w)
  {
    var i: nat :| i <= |a| && OccursAt(a, w, i);
    assert (a + b)[i..i + |w|] == a[i..i + |w|];
    assert OccursAt(a + b, w, i);
  }

  // ---------------------------------------------------------------------------
  // Slicing and whitespace
  // ---------------------------------------------------------------------------

  /** `s[:n]` for `n >= 0`: the first `n` elements, or all of `s` when it is shorter. */
  function Take<T>(s: seq<T>, n: nat): (r: seq<T>)
    ensures |r| == if n <= |s| then n else |s|
    ensures r == s[..|r|]
  {
    if n <= |s| then s[..n] else s
  }

  /** Python's `str.isspace()` for one character. */
  predicate IsSpace(c: char) {
    || c == ' '
    || ('\t' <= c <= '\r')
    || ('\U{1C}' <= c <= '\U{1F}')
    || c == '\U{85}' || c == '\U{A0}' || c == '\U{1680}'
    || ('\U{2000}' <= c <= '\U{200A}')
    || c == '\U{2028}' || c == '\U{2029}' || c == '\U{202F}' || c == '\U{205F}' || c == '\U{3000}'
  }

  /** `s.lstrip()`: the suffix of `s` left after dropping its leading whitespace. */
  function StripLeft(s: string): (r: string)
    ensures |r| <= |s| && r == s[|s| - |r|..]
    ensures forall k :: 0 <= k < |s| - |r| ==> IsSpace(s[k])
    ensures r != [] ==> !IsSpace(r[0])
  {
    if s != [] && IsSpace(s[0]) then StripLeft(s[1..]) else s
  }

  /** `s.rstrip()`: the prefix of `s` left after dropping its trailing whitespace. */
  function StripRight(s: string): (r: string)
    ensures |r| <= |s| && r == s[..|r|]
    ensures forall k :: |r| <= k < |s| ==> IsSpace(s[k])
    ensures r != [] ==> !IsSpace(r[|r| - 1])
  {
    if s != [] && IsSpace(s[|s| - 1]) then StripRight(s[..|s| - 1]) else s
  }

  /** How much leading whitespace `s.strip()` removes. */
  function LeadingSpaces(s: string): (n: nat)
    ensures n <= |s| && forall k :: 0 <= k < n ==> IsSpace(s[k])
    ensures n < |s| ==> !IsSpace(s[n])
  {
    |s| - |StripLeft(s)|
  }

  /** `s.strip()` */
  function Strip(s: string): (r: string)
    ensures |r| <= |s|
    ensures r != [] ==> !IsSpace(r[0]) && !IsSpace(r[|r| - 1])
  {
    StripRight(StripLeft(s))
  }

  predicate AllSpace(t: string) {
    forall k :: 0 <= k < |t| ==> IsSpace(t[k])
  }

  /**
   * `s.strip()` removes the leading and the trailing whitespace of `s` and nothing else: `s` is
   * its leading whitespace, then `s.strip()`, then whitespace.
   */
  lemma StripExact(s: string)
    ensures LeadingSpaces(s) + |Strip(s)| <= |s|
    ensures s == s[..LeadingSpaces(s)] + Strip(s) + s[LeadingSpaces(s) + |Strip(s)|..]
    ensures AllSpace(s[..LeadingSpaces(s)]) && AllSpace(s[LeadingSpaces(s) + |Strip(s)|..])
    ensures Strip(s) != [] ==> !IsSpace(Strip(s)[0]) && !IsSpace(Strip(s)[|Strip(s)| - 1])
  {
    var left := StripLeft(s);
    ThreeParts(s, LeadingSpaces(s), left, Strip(s));
    AllSpacePrefix(s, LeadingSpaces(s));
    AllSpaceSuffix(left, |Strip(s)|);
  }

  /** `s` cut at `i` and, after `i`, at `|r|`, where `r` opens the suffix `left` of `s`. */
  lemma ThreeParts(s: string, i: nat, left: string, r: string)
    requires i <= |s| && left == s[i..] && |r| <= |left| && r == left[..|r|]
    ensures i + |r| <= |s|
    ensures s == s[..i] + r + s[i + |r|..]
    ensures s[i + |r|..] == left[|r|..]
  {
    assert s == s[..i] + left;
    assert left == r + left[|r|..];
  }

  lemma AllSpacePrefix(s: string, n: nat)
    requires n <= |s| && forall k :: 0 <= k < n ==> IsSpace(s[k])
    ensures AllSpace(s[..n])
  {
  }

  lemma AllSpaceSuffix(t: string, n: nat)
    requires n <= |t| && forall k :: n <= k < |t| ==> IsSpace(t[k])
    ensures AllSpace(t[n..])
  {
    forall k | 0 <= k < |t| - n
      ensures IsSpace(t[n..][k])
    {
      assert t[n..][k] == t[n + k];
    }
  }

  /** A string that neither begins nor ends with whitespace is left as it is by `strip()`. */
  lemma StripUnpadded(s: string)
    requires s != [] ==> !IsSpace(s[0]) && !IsSpace(s[|s| - 1])
    ensures Strip(s) == s
  {
  }

  /** `s.split(c)[0]`: the part of `s` before its first `c`, or all of `s` when it has none. */
  function BeforeFirst(s: string, c: char): (r: string)
    ensures StartsWith(s, r)
    ensures c !in r
    ensures |r| < |s| ==> s[|r|] == c
  {
    if s == [] then []
    else if s[0] == c then []
    else [s[0]] + BeforeFirst(s[1..], c)
  }

  /** `sep.join(parts)` */
  function Join(sep: string, parts: seq<string>): string {
    if |parts| == 0 then ""
    else if |parts| == 1 then parts[0]
    else parts[0] + sep + Join(sep, parts[1..])
  }

  /** A join opens with its first part. */
  lemma JoinStartsWith(sep: string, parts: seq<string>)
    requires |parts| >= 1
    ensures StartsWith(Join(sep, parts), parts[0])
  {
    if |parts| > 1 {
      StartsWithConcat(parts[0], sep + Join(sep, parts[1..]), parts[0]);
      assert Join(sep, parts) == parts[0] + (sep + Join(sep, parts[1..]));
    }
  }

  /** `s.replace(w, "")`: every non-overlapping occurrence of `w`, scanning left to right, deleted. */
  function RemoveAll(s: string, w: string): (r: string)
    ensures |r| <= |s|
    decreases |s|
  {
    if w == [] || |s| < |w| then s
    else if s[..|w|] == w then RemoveAll(s[|w|..], w)
    else [s[0]] + RemoveAll(s[1..], w)
  }

  // ---------------------------------------------------------------------------
  // Digits: `re.findall(r'\d+', s)`, `re.findall(r'\d+\.?\d*', s)`, `int(...)`, `str(n)`
  // ---------------------------------------------------------------------------

  predicate IsDigit(c: char) {
    '0' <= c <= '9'
  }

  predicate AllDigits(s: string) {
    forall k :: 0 <= k < |s| ==> IsDigit(s[k])
  }

  /** The length of the longest run of digits in `s` that starts at `i`. */
  function DigitRun(s: string, i: nat): (n: nat)
    requires i <= |s|
    ensures i + n <= |s|
    ensures forall k :: i <= k < i + n ==> IsDigit(s[k])
    ensures i + n < |s| ==> !IsDigit(s[i + n])
    decreases |s| - i
  {
    if i < |s| && IsDigit(s[i]) then 1 + DigitRun(s, i + 1) else 0
  }

  /** The length of the match of `\d+\.?\d*` at `i`, or 0 when there is none. */
  function NumberLen(s: string, i: nat): (n: nat)
    requires i <= |s|
    ensures i + n <= |s|
    ensures n > 0 <==> i < |s| && IsDigit(s[i])
    ensures i + n < |s| ==> !IsDigit(s[i + n])
  {
    var d := DigitRun(s, i);
    if d > 0 && i + d < |s| && s[i + d] == '.' then d + 1 + DigitRun(s, i + d + 1) else d
  }

  /** `re.findall(r'\d+', s[i:])`: the maximal digit runs of `s` from `i` on, left to right. */
  function FindDigitRuns(s: string, i: nat): (r: seq<string>)
    requires i <= |s|
    ensures forall k :: 0 <= k < |r| ==> r[k] != [] && AllDigits(r[k]) && Contains(s, r[k])
    decreases |s| - i
  {
    if i == |s| then []
    else if IsDigit(s[i]) then
      var n := DigitRun(s, i);
      assert OccursAt(s, s[i..i + n], i);
      [s[i..i + n]] + FindDigitRuns(s, i + n)
    else FindDigitRuns(s, i + 1)
  }

  /**
   * A place where `re.findall(r'\d+\.?\d*', s[i:])` starts a match: a digit at `j >= i` that
   * does not continue a run of digits begun before it.
   */
  predicate NumberStart(s: string, i: nat, j: nat) {
    i <= j < |s| && IsDigit(s[j]) && (j == i || !IsDigit(s[j - 1]))
  }

  /** `re.findall(r'\d+\.?\d*', s[i:])`: digit runs, each with an optional decimal part. */
  function FindNumbers(s: string, i: nat): (r: seq<string>)
    requires i <= |s|
    ensures forall k :: 0 <= k < |r| ==> r[k] != [] && IsDigit(r[k][0])
    decreases |s| - i
  {
    if i == |s| then []
    else if IsDigit(s[i]) then
      var n := NumberLen(s, i);
      assert OccursAt(s, s[i..i + n], i);
      [s[i..i + n]] + FindNumbers(s, i + n)
    else FindNumbers(s, i + 1)
  }

  /**
   * What `re.findall(r'\d+\.?\d*', s[i:])` returns: nothing exactly when `s[i:]` holds no digit,
   * and otherwise only whole, maximal matches, each at a place where a match can start.
   */
  lemma {:induction false} FindNumbersExact(s: string, i: nat)
    requires i <= |s|
    ensures FindNumbers(s, i) == [] <==> forall k :: i <= k < |s| ==> !IsDigit(s[k])
    ensures forall k :: 0 <= k < |FindNumbers(s, i)| ==>
              exists j: nat :: NumberStart(s, i, j) && FindNumbers(s, i)[k] == s[j..j + NumberLen(s, j)]
    decreases |s| - i
  {
    if i < |s| {
      var n := if IsDigit(s[i]) then NumberLen(s, i) else 1;
      FindNumbersExact(s, i + n);
      assert forall j: nat :: NumberStart(s, i + n, j) ==> NumberStart(s, i, j);
      if IsDigit(s[i]) {
        assert NumberStart(s, i, i);
      }
    }
  }

  /** A stretch without digits contributes nothing to `re.findall(r'\d+\.?\d*', ...)`. */
  lemma {:induction false} FindNumbersSkip(s: string, i: nat, j: nat)
    requires i <= j <= |s|
    requires forall k :: i <= k < j ==> !IsDigit(s[k])
    ensures FindNumbers(s, i) == FindNumbers(s, j)
    decreases j - i
  {
    if i < j {
      FindNumbersSkip(s, i + 1, j);
    }
  }

  /** A run of `n` digits followed by a non-digit, or by the end, is the maximal run. */
  lemma {:induction false} DigitRunExact(s: string, i: nat, n: nat)
    requires i + n <= |s|
    requires forall k :: i <= k < i + n ==> IsDigit(s[k])
    requires i + n == |s| || !IsDigit(s[i + n])
    ensures DigitRun(s, i) == n
    decreases n
  {
    if n > 0 {
      DigitRunExact(s, i + 1, n - 1);
    }
  }

  function DigitChar(d: nat): (c: char)
    requires d < 10
    ensures IsDigit(c)
  {
    ('0' as int + d) as char
  }

  function DigitValue(c: char): nat
    requires IsDigit(c)
  {
    c as int - '0' as int
  }

  /** `str(n)` for a natural number. */
  function NatToString(n: nat): (r: string)
    ensures r != [] && AllDigits(r)
  {
    if n < 10 then [DigitChar(n)] else NatToString(n / 10) + [DigitChar(n % 10)]
  }

  /** `int(s)` for a string of ASCII digits. */
  function DigitsValue(s: string): nat
    requires AllDigits(s)
  {
    if s == [] then 0 else DigitsValue(s[..|s| - 1]) * 10 + DigitValue(s[|s| - 1])
  }

  /** `int(str(n)) == n` */
  lemma {:induction false} NatToStringRoundTrip(n: nat)
    ensures DigitsValue(NatToString(n)) == n
  {
    var r := NatToString(n);
    if n >= 10 {
      NatToStringRoundTrip(n / 10);
      assert r[..|r| - 1] == NatToString(n / 10);
    }
  }
}
