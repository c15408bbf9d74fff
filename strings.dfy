/**
 * The JavaScript string built-ins the application relies on, over Dafny strings
 * (sequences of Unicode scalar values): `startsWith`, `includes`/`indexOf`,
 * `split(sep)[0]`, `split(sep)[1]`, `split('/').pop()`, `toLowerCase`, `trim`,
 * `length` (counted in UTF-16 code units, as JavaScript does), string truthiness,
 * and the decimal rendering of a non-negative integer in a template literal.
 */
module Strings {
  import opened Wrappers

  /** `s.startsWith(p)`. */
  predicate StartsWith(s: string, p: string) {
    |p| <= |s| && s[..|p|] == p
  }

  /** `t` occurs in `s` starting at index `i`. */
  predicate OccursAt(s: string, t: string, i: nat) {
    i + |t| <= |s| && s[i..i + |t|] == t
  }

  lemma OccursAtTail(s: string, t: string, j: nat)
    requires |s| > 0
    ensures OccursAt(s, t, j + 1) <==> OccursAt(s[1..], t, j)
  {
    if j + 1 + |t| <= |s| {
      assert s[j + 1..j + 1 + |t|] == s[1..][j..j + |t|];
    }
  }

  /** `s.indexOf(t)`: the first index at which `t` occurs in `s`, if any. */
  function IndexOf(s: string, t: string): (r: Option<nat>)
    ensures r.Some? ==> OccursAt(s, t, r.value)
    ensures r.Some? ==> forall j: nat :: j < r.value ==> !OccursAt(s, t, j)
    ensures r.None? ==> forall j: nat :: !OccursAt(s, t, j)
    decreases |s|
  {
    if StartsWith(s, t) then Some(0)
    else if |s| == 0 then None
    else
      var rest := IndexOf(s[1..], t);
      assert forall j: nat :: OccursAt(s, t, j + 1) <==> OccursAt(s[1..], t, j) by {
        forall j: nat ensures OccursAt(s, t, j + 1) <==> OccursAt(s[1..], t, j) {
          OccursAtTail(s, t, j);
        }
      }
      assert forall j: nat :: j > 0 ==> OccursAt(s, t, j) == OccursAt(s[1..], t, j - 1);
      match rest
      case Some(k) => Some(k + 1)
      case None => None
  }

  /** `s.includes(t)`. */
  predicate Contains(s: string, t: string) {
    IndexOf(s, t).Some?
  }

  /** An occurrence at any index makes `includes` true. */
  lemma OccursContains(s: string, t: string, i: nat)
    ensures OccursAt(s, t, i) ==> Contains(s, t)
  {
  }

  /** `s.split(sep)[0]` for a non-empty separator: the text before the first occurrence of `sep`, or all of `s`. */
  function BeforeFirst(s: string, sep: string): (r: string)
    ensures StartsWith(s, r)
    ensures r == s || OccursAt(s, sep, |r|)
    ensures forall j: nat :: j < |r| ==> !OccursAt(s, sep, j)
    ensures !Contains(s, sep) ==> r == s
  {
    match IndexOf(s, sep)
    case Some(i) => s[..i]
    case None => s
  }

  /** The text before the first separator contains no separator: cutting it again changes nothing. */
  lemma BeforeFirstIdempotent(s: string, sep: string)
    ensures BeforeFirst(BeforeFirst(s, sep), sep) == BeforeFirst(s, sep)
  {
    var r := BeforeFirst(s, sep);
    var r2 := BeforeFirst(r, sep);
    if r2 != r {
      var j := |r2|;
      assert OccursAt(r, sep, j);
      assert j < |r|;
      assert s[j..j + |sep|] == r[j..j + |sep|];
      assert OccursAt(s, sep, j);
      assert false;
    }
  }

  /** `s.split(sep)[1]` when `s` starts with a non-empty `sep`: the text between the first and the second occurrence. */
  function SecondPart(s: string, sep: string): (r: string)
    requires StartsWith(s, sep)
    ensures StartsWith(s[|sep|..], r)
    ensures r == s[|sep|..] || OccursAt(s[|sep|..], sep, |r|)
    ensures forall j: nat :: j < |r| ==> !OccursAt(s[|sep|..], sep, j)
    ensures !Contains(s[|sep|..], sep) ==> r == s[|sep|..]
  {
    BeforeFirst(s[|sep|..], sep)
  }

  /** `s.split([c]).pop()`: the text after the last occurrence of `c`, or all of `s`. */
  function AfterLast(s: string, c: char): (r: string)
    ensures |r| <= |s| && s[|s| - |r|..] == r
    ensures c !in r
    ensures |r| < |s| ==> s[|s| - |r| - 1] == c
    decreases |s|
  {
    if |s| == 0 then ""
    else if s[|s| - 1] == c then ""
    else
      var front := s[..|s| - 1];
      var r := AfterLast(front, c) + [s[|s| - 1]];
      assert front[|front| - (|r| - 1)..] == r[..|r| - 1];
      assert s[|s| - |r|..] == front[|front| - (|r| - 1)..] + [s[|s| - 1]];
      r
  }

  /** A text without `c` is its own last segment. */
  lemma AfterLastWithout(s: string, c: char)
    ensures c !in s ==> AfterLast(s, c) == s
  {
  }

  /** One character of `toLowerCase` (ASCII letters only). */
  function LowerChar(c: char): char {
    if 'A' <= c <= 'Z' then (c as int + 32) as char else c
  }

  /** `s.toLowerCase()` restricted to ASCII letters. */
  function ToLower(s: string): (r: string)
    ensures |r| == |s|
    ensures forall i :: 0 <= i < |s| ==> r[i] == LowerChar(s[i])
  {
    seq(|s|, i requires 0 <= i < |s| => LowerChar(s[i]))
  }

  /** The characters `trim` removes: ECMAScript WhiteSpace and LineTerminator. */
  predicate IsWhitespace(c: char) {
    c == ' ' || c == '\t' || c == '\n' || c == '\r' || c == '\U{B}' || c == '\U{C}'
    || c == '\U{A0}' || c == '\U{1680}' || ('\U{2000}' <= c <= '\U{200A}')
    || c == '\U{2028}' || c == '\U{2029}' || c == '\U{202F}' || c == '\U{205F}'
    || c == '\U{3000}' || c == '\U{FEFF}'
  }

  /** `s.trimStart()`. */
  function TrimStart(s: string): (r: string)
    ensures |r| <= |s| && s[|s| - |r|..] == r
    ensures r == "" || !IsWhitespace(r[0])
    ensures forall i :: 0 <= i < |s| - |r| ==> IsWhitespace(s[i])
    decreases |s|
  {
    if |s| > 0 && IsWhitespace(s[0]) then TrimStart(s[1..]) else s
  }

  /** `s.trimEnd()`. */
  function TrimEnd(s: string): (r: string)
    ensures |r| <= |s| && s[..|r|] == r
    ensures r == "" || !IsWhitespace(r[|r| - 1])
    ensures forall i :: |r| <= i < |s| ==> IsWhitespace(s[i])
    decreases |s|
  {
    if |s| > 0 && IsWhitespace(s[|s| - 1]) then TrimEnd(s[..|s| - 1]) else s
  }

  /** The number of whitespace characters `s` starts with. */
  function LeadingSpace(s: string): (k: nat)
    ensures k <= |s|
    ensures forall i :: 0 <= i < k ==> IsWhitespace(s[i])
    ensures k == |s| || !IsWhitespace(s[k])
    decreases |s|
  {
    if |s| > 0 && IsWhitespace(s[0]) then
      var k := 1 + LeadingSpace(s[1..]);
      assert forall i :: 1 <= i < k ==> s[i] == s[1..][i - 1];
      k
    else 0
  }

  /**
   * `s.trim()`: the infix of `s` that starts after its leading whitespace and
   * is followed by whitespace only, and that neither starts nor ends with
   * whitespace.
   */
  function Trim(s: string): (r: string)
    ensures r == "" || (!IsWhitespace(r[0]) && !IsWhitespace(r[|r| - 1]))
    ensures LeadingSpace(s) + |r| <= |s| && s[LeadingSpace(s)..LeadingSpace(s) + |r|] == r
    ensures forall i :: LeadingSpace(s) + |r| <= i < |s| ==> IsWhitespace(s[i])
    ensures s == "" || (!IsWhitespace(s[0]) && !IsWhitespace(s[|s| - 1])) ==> r == s
  {
    TrimFacts(s);
    TrimEnd(TrimStart(s))
  }

  /** The facts `Trim` promises, about the composition it computes. */
  lemma TrimFacts(s: string)
    ensures var r := TrimEnd(TrimStart(s));
      && LeadingSpace(s) + |r| <= |s| && s[LeadingSpace(s)..LeadingSpace(s) + |r|] == r
      && (forall i :: LeadingSpace(s) + |r| <= i < |s| ==> IsWhitespace(s[i]))
      && (s == "" || (!IsWhitespace(s[0]) && !IsWhitespace(s[|s| - 1])) ==> r == s)
  {
    TrimInfix(s);
    TrimTail(s);
    TrimUnchanged(s);
  }

  /** What survives trimming sits right after the leading whitespace. */
  lemma TrimInfix(s: string)
    ensures var r := TrimEnd(TrimStart(s));
      LeadingSpace(s) + |r| <= |s| && s[LeadingSpace(s)..LeadingSpace(s) + |r|] == r
  {
    TrimStartDrops(s);
    PrefixOfSuffix(s, LeadingSpace(s), TrimStart(s), TrimEnd(TrimStart(s)));
  }

  /** Everything after what survives trimming is whitespace. */
  lemma TrimTail(s: string)
    ensures var r := TrimEnd(TrimStart(s));
      forall i :: LeadingSpace(s) + |r| <= i < |s| ==> IsWhitespace(s[i])
  {
    TrimStartDrops(s);
    SpaceAfterShift(s, LeadingSpace(s), |TrimEnd(TrimStart(s))|);
  }

  /** Whitespace from index `m` of the suffix `s[k..]` is whitespace from index `k + m` of `s`. */
  lemma SpaceAfterShift(s: string, k: nat, m: nat)
    requires k <= |s|
    requires forall i :: m <= i < |s| - k ==> IsWhitespace(s[k..][i])
    ensures forall i :: k + m <= i < |s| ==> IsWhitespace(s[i])
  {
    forall i | k + m <= i < |s| ensures IsWhitespace(s[i]) {
      assert s[i] == s[k..][i - k];
    }
  }

  /** A prefix of a suffix is an infix. */
  lemma PrefixOfSuffix(s: string, k: nat, t: string, r: string)
    requires k <= |s| && t == s[k..]
    requires |r| <= |t| && t[..|r|] == r
    ensures k + |r| <= |s| && s[k..k + |r|] == r
  {
  }

  /** A string with no whitespace at either end is its own trim. */
  lemma TrimUnchanged(s: string)
    ensures s == "" || (!IsWhitespace(s[0]) && !IsWhitespace(s[|s| - 1])) ==> TrimEnd(TrimStart(s)) == s
  {
    if s != "" && !IsWhitespace(s[0]) && !IsWhitespace(s[|s| - 1]) {
      assert TrimStart(s) == s;
      assert TrimEnd(s) == s;
    }
  }

  /** `trimStart` drops exactly the leading whitespace. */
  lemma TrimStartDrops(s: string)
    ensures TrimStart(s) == s[LeadingSpace(s)..]
  {
  }

  /** A string trims to nothing exactly when it is whitespace throughout. */
  lemma TrimEmptyIffSpace(s: string)
    ensures Trim(s) == "" <==> forall i :: 0 <= i < |s| ==> IsWhitespace(s[i])
  {
    if forall i :: 0 <= i < |s| ==> IsWhitespace(s[i]) {
      assert LeadingSpace(s) == |s|;
    }
  }

  /** A whitespace character in front does not change the trim. */
  lemma TrimSpaceBefore(c: char, s: string)
    requires IsWhitespace(c)
    ensures Trim([c] + s) == Trim(s)
  {
    assert ([c] + s)[1..] == s;
  }

  /** Trimming twice is trimming once. */
  lemma TrimIdempotent(s: string)
    ensures Trim(Trim(s)) == Trim(s)
  {
  }

  /** A string is truthy in JavaScript exactly when it is non-empty. */
  predicate Truthy(s: string) {
    s != ""
  }

  /** An optional string is truthy when it is present and non-empty. */
  predicate OptTruthy(o: Option<string>) {
    o.Some? && o.value != ""
  }

  /** `o || d` for an optional string `o`. */
  function OrElse(o: Option<string>, d: string): (r: string)
    ensures OptTruthy(o) ==> r == o.value
    ensures !OptTruthy(o) ==> r == d
  {
    if OptTruthy(o) then o.value else d
  }

  /** `s.length`: JavaScript counts UTF-16 code units, so a character outside the Basic Multilingual Plane counts twice. */
  function JsLength(s: string): (n: nat)
    ensures |s| <= n <= 2 * |s|
    ensures (forall i :: 0 <= i < |s| ==> s[i] as int <= 0xFFFF) ==> n == |s|
  {
    if |s| == 0 then 0
    else (if s[0] as int > 0xFFFF then 2 else 1) + JsLength(s[1..])
  }

  function DigitChar(d: nat): (c: char)
    requires d < 10
    ensures '0' <= c <= '9'
  {
    ('0' as int + d) as char
  }

  /** The number a string of decimal digits denotes, most significant digit first. */
  function DecimalValue(r: string): int
    decreases |r|
  {
    if r == [] then 0 else DecimalValue(r[..|r| - 1]) * 10 + (r[|r| - 1] as int - '0' as int)
  }

  /** The decimal digits of `n`, as a template literal renders a non-negative integer. */
  function NatToString(n: nat): (r: string)
    ensures |r| >= 1
    ensures forall i :: 0 <= i < |r| ==> '0' <= r[i] <= '9'
    ensures n > 0 ==> r[0] != '0'
    ensures DecimalValue(r) == n
  {
    if n < 10 then
      assert [DigitChar(n)][..0] == [];
      [DigitChar(n)]
    else
      var r := NatToString(n / 10) + [DigitChar(n % 10)];
      assert r[..|r| - 1] == NatToString(n / 10);
      r
  }

  /** Different numbers render differently, so ids built from different clock readings differ. */
  lemma NatToStringInjective(a: nat, b: nat)
    ensures NatToString(a) == NatToString(b) ==> a == b
  {
  }
}
