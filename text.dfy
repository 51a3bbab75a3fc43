/**
 * The JavaScript string operations the dashboard relies on, on `seq<char>`:
 * whitespace as `String.prototype.trim` and the regular-expression class `\s`
 * see it, trimming, splitting, joining, substring search and ASCII case mapping.
 */
module Text {

  /** The characters JavaScript treats as white space or line terminators. */
  const Whitespace: set<char> := {
    '\t', '\n', '\U{000B}', '\U{000C}', '\r', ' ', '\U{00A0}', '\U{1680}',
    '\U{2000}', '\U{2001}', '\U{2002}', '\U{2003}', '\U{2004}', '\U{2005}',
    '\U{2006}', '\U{2007}', '\U{2008}', '\U{2009}', '\U{200A}',
    '\U{2028}', '\U{2029}', '\U{202F}', '\U{205F}', '\U{3000}', '\U{FEFF}'
  }

  predicate IsSpace(c: char) {
    c in Whitespace
  }

  /** ASCII decimal digit, the class `\d`. */
  predicate IsDigit(c: char) {
    '0' <= c <= '9'
  }

  /** `part` occurs in `s` starting at position `a`. */
  predicate OccursAt(s: string, part: string, a: int) {
    0 <= a && a + |part| <= |s| && s[a..a + |part|] == part
  }

  /** Drops the longest prefix whose characters all satisfy `p`. */
  function DropWhile(s: string, p: char -> bool): (r: string)
    ensures |r| <= |s| && r == s[|s| - |r|..]
    ensures forall i :: 0 <= i < |s| - |r| ==> p(s[i])
    ensures |r| > 0 ==> !p(r[0])
    decreases |s|
  {
    if |s| > 0 && p(s[0]) then
      var r := DropWhile(s[1..], p);
      assert s[|s| - |r|..] == s[1..][|s| - 1 - |r|..];
      assert forall i :: 1 <= i < |s| - |r| ==> s[i] == s[1..][i - 1];
      r
    else s
  }

  /**
   * A prefix `r` of the suffix `t` of `s` that starts at `n` is the slice of
   * `s` at `n`, and what `t` has after `r` is what `s` has after that slice.
   */
  lemma SliceOfSuffix(s: string, n: nat, t: string, r: string, p: char -> bool)
    requires n <= |s| && t == s[n..] && |r| <= |t| && r == t[..|r|]
    requires forall i :: |r| <= i < |t| ==> p(t[i])
    ensures n + |r| <= |s| && r == s[n..n + |r|]
    ensures forall i :: n + |r| <= i < |s| ==> p(s[i])
  {
    assert forall i :: n + |r| <= i < |s| ==> s[i] == t[i - n];
  }

  /** Drops the longest suffix whose characters are white space. */
  function TrimEnd(s: string): (r: string)
    ensures |r| <= |s| && r == s[..|r|]
    ensures forall i :: |r| <= i < |s| ==> IsSpace(s[i])
    ensures |r| > 0 ==> !IsSpace(r[|r| - 1])
    decreases |s|
  {
    if |s| > 0 && IsSpace(s[|s| - 1]) then TrimEnd(s[..|s| - 1]) else s
  }

  /** `part` occurs in `s` at position `a` with only white space before and after it. */
  predicate TrimmedAt(s: string, part: string, a: int) {
    && OccursAt(s, part, a)
    && (forall i :: 0 <= i < a ==> IsSpace(s[i]))
    && (forall i :: a + |part| <= i < |s| ==> IsSpace(s[i]))
  }

  /** `s.trim()`: the part of `s` between its leading and trailing white space. */
  function Trim(s: string): (r: string)
    ensures exists a :: OccursAt(s, r, a)
    ensures |r| > 0 ==> !IsSpace(r[0]) && !IsSpace(r[|r| - 1])
  {
    var t := DropWhile(s, IsSpace);
    var r := TrimEnd(t);
    assert r == s[|s| - |t|..][..|r|] == s[|s| - |t|..|s| - |t| + |r|];
    assert OccursAt(s, r, |s| - |t|);
    r
  }

  /** Trimming cuts only white space: what precedes and what follows the result in `s` is all white space. */
  lemma {:induction false} TrimSpec(s: string)
    ensures exists a :: TrimmedAt(s, Trim(s), a)
  {
    var t := DropWhile(s, IsSpace);
    var r, a := TrimEnd(t), |s| - |t|;
    SliceOfSuffix(s, a, t, r, IsSpace);
    assert Trim(s) == r;
    assert TrimmedAt(s, Trim(s), a);
  }

  /** `part` is the slice of `s` starting at `n`, and only white space follows it. */
  predicate EndTrimmedAt(s: string, n: nat, part: string) {
    && n + |part| <= |s| && part == s[n..n + |part|]
    && (forall i :: n + |part| <= i < |s| ==> IsSpace(s[i]))
  }

  /** Trimming the end of the suffix of `s` at `n` leaves a slice of `s` at `n` followed only by white space. */
  lemma TrimEndOfSuffix(s: string, n: nat)
    requires n <= |s|
    ensures EndTrimmedAt(s, n, TrimEnd(s[n..]))
  {
    SliceOfSuffix(s, n, s[n..], TrimEnd(s[n..]), IsSpace);
  }

  /** A text that does not start with white space only loses its trailing white space. */
  lemma TrimNoLeadingSpace(s: string)
    requires |s| == 0 || !IsSpace(s[0])
    ensures Trim(s) == TrimEnd(s)
  {
    assert DropWhile(s, IsSpace) == s;
  }

  /** `s.endsWith(suffix)`. */
  predicate EndsWith(s: string, suffix: string) {
    |suffix| <= |s| && s[|s| - |suffix|..] == suffix
  }

  /** `s.includes(sub)`. */
  function Contains(s: string, sub: string): (r: bool)
    ensures r <==> exists i :: OccursAt(s, sub, i)
    decreases |s|
  {
    if |sub| > |s| then false
    else if s[..|sub|] == sub then assert OccursAt(s, sub, 0); true
    else if |s| == 0 then false
    else
      var r := Contains(s[1..], sub);
      assert forall i :: OccursAt(s, sub, i) && i >= 1 ==> OccursAt(s[1..], sub, i - 1);
      assert forall i :: OccursAt(s[1..], sub, i) ==> OccursAt(s, sub, i + 1);
      assert !OccursAt(s, sub, 0);
      r
  }

  /** The part of `s` before the first `c`, i.e. `s.split(c)[0]`. */
  function BeforeFirst(s: string, c: char): (r: string)
    ensures |r| <= |s| && r == s[..|r|]
    ensures c !in r
    ensures |r| < |s| ==> s[|r|] == c
    decreases |s|
  {
    if |s| == 0 then ""
    else if s[0] == c then ""
    else [s[0]] + BeforeFirst(s[1..], c)
  }

  /** `s.split(c)` for a one-character separator. */
  function Split(s: string, c: char): (r: seq<string>)
    ensures |r| >= 1
    ensures forall k :: 0 <= k < |r| ==> c !in r[k]
    decreases |s|
  {
    var head := BeforeFirst(s, c);
    if |head| == |s| then [s]
    else [head] + Split(s[|head| + 1..], c)
  }

  /** `parts.join(sep)`. */
  function Join(parts: seq<string>, sep: string): string
  {
    if |parts| == 0 then ""
    else if |parts| == 1 then parts[0]
    else parts[0] + sep + Join(parts[1..], sep)
  }

  /** Splitting on `c` and joining with `c` gives the original text back. */
  lemma {:induction false} JoinSplit(s: string, c: char)
    ensures Join(Split(s, c), [c]) == s
    decreases |s|
  {
    var head := BeforeFirst(s, c);
    if |head| < |s| {
      var rest := s[|head| + 1..];
      JoinSplit(rest, c);
      assert Split(s, c) == [head] + Split(rest, c);
      assert s == head + [c] + rest;
    }
  }

  function UpperChar(c: char): char {
    if 'a' <= c <= 'z' then (c as int - 32) as char else c
  }

  function LowerChar(c: char): char {
    if 'A' <= c <= 'Z' then (c as int + 32) as char else c
  }

  /** `s.toUpperCase()` on the ASCII letters. */
  function ToUpper(s: string): (r: string)
    ensures |r| == |s|
    ensures forall i :: 0 <= i < |s| ==> r[i] == UpperChar(s[i])
  {
    seq(|s|, i requires 0 <= i < |s| => UpperChar(s[i]))
  }

  /** `s.toLowerCase()` on the ASCII letters. */
  function ToLower(s: string): (r: string)
    ensures |r| == |s|
    ensures forall i :: 0 <= i < |s| ==> r[i] == LowerChar(s[i])
  {
    seq(|s|, i requires 0 <= i < |s| => LowerChar(s[i]))
  }

  /** Upper-casing twice is upper-casing once. */
  lemma ToUpperIdempotent(s: string)
    ensures ToUpper(ToUpper(s)) == ToUpper(s)
  {
    assert forall i :: 0 <= i < |s| ==> UpperChar(UpperChar(s[i])) == UpperChar(s[i]);
  }

  /** A text without ASCII capitals is its own lower case. */
  lemma ToLowerNoCapitals(s: string)
    requires forall i :: 0 <= i < |s| ==> !('A' <= s[i] <= 'Z')
    ensures ToLower(s) == s
  {
  }

  /** Lower-casing twice is lower-casing once. */
  lemma ToLowerIdempotent(s: string)
    ensures ToLower(ToLower(s)) == ToLower(s)
  {
    assert forall i :: 0 <= i < |s| ==> LowerChar(LowerChar(s[i])) == LowerChar(s[i]);
  }
}
