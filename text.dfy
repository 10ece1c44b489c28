/**
 * Character classes and the string tests used by the output-line
 * classifiers. Strings are sequences of UTF-16 code units, as in .NET;
 * the model's `\d` and `\s` are the ASCII ones.
 */
module Text {

  /** The model's `\d`: an ASCII decimal digit. */
  predicate IsDigit(c: char) {
    '0' <= c <= '9'
  }

  /** The model's `\s`: ASCII space, tab, line feed, vertical tab, form feed, carriage return. */
  predicate IsSpace(c: char) {
    c == ' ' || c == '\t' || c == '\n' || c == '\U{B}' || c == '\U{C}' || c == '\r'
  }

  /**
   * `s.StartsWith(p)`. .NET compares by the current culture here; the model
   * compares code unit by code unit, which agrees for text without
   * characters the culture ignores.
   */
  predicate StartsWith(s: string, p: string) {
    |p| <= |s| && s[..|p|] == p
  }

  /** `s.EndsWith(p)`, compared code unit by code unit like `StartsWith`. */
  predicate EndsWith(s: string, p: string) {
    |p| <= |s| && s[|s| - |p|..] == p
  }

  /** `p` occurs in `s` starting at index `i`. */
  predicate OccursAt(s: string, p: string, i: nat) {
    i + |p| <= |s| && s[i..i + |p|] == p
  }

  /** `s.Contains(p)` (ordinal). */
  predicate Contains(s: string, p: string) {
    exists i: nat | i <= |s| :: OccursAt(s, p, i)
  }

  /** ASCII lower-casing, the case folding of a case-insensitive regex on ASCII text. */
  function Lower(c: char): (r: char)
    ensures 'A' <= c <= 'Z' ==> 'a' <= r <= 'z' && r as int - 'a' as int == c as int - 'A' as int
    ensures !('A' <= c <= 'Z') ==> r == c
  {
    if 'A' <= c <= 'Z' then (c as int - 'A' as int + 'a' as int) as char else c
  }

  /** The line with every ASCII capital replaced by its small letter. */
  function Folded(s: string): (r: string)
    ensures |r| == |s|
    ensures forall i :: 0 <= i < |s| ==> r[i] == Lower(s[i])
  {
    seq(|s|, i requires 0 <= i < |s| => Lower(s[i]))
  }

  /** Length of the maximal run of digits that starts at `i` (what a greedy `\d+` or `\d*` consumes). */
  function DigitSpan(s: string, i: nat): (n: nat)
    requires i <= |s|
    ensures i + n <= |s|
    ensures forall k :: i <= k < i + n ==> IsDigit(s[k])
    ensures i + n == |s| || !IsDigit(s[i + n])
    decreases |s| - i
  {
    if i < |s| && IsDigit(s[i]) then 1 + DigitSpan(s, i + 1) else 0
  }

  /** Length of the maximal run of white space that starts at `i` (what a greedy `\s*` consumes). */
  function SpaceSpan(s: string, i: nat): (n: nat)
    requires i <= |s|
    ensures i + n <= |s|
    ensures forall k :: i <= k < i + n ==> IsSpace(s[k])
    ensures i + n == |s| || !IsSpace(s[i + n])
    decreases |s| - i
  {
    if i < |s| && IsSpace(s[i]) then 1 + SpaceSpan(s, i + 1) else 0
  }

  /** A digit run that is followed by a non-digit (or the end) has exactly that length. */
  lemma {:induction false} DigitSpanIs(s: string, i: nat, k: nat)
    requires i + k <= |s|
    requires forall q :: i <= q < i + k ==> IsDigit(s[q])
    requires i + k == |s| || !IsDigit(s[i + k])
    ensures DigitSpan(s, i) == k
    decreases k
  {
    if k > 0 {
      DigitSpanIs(s, i + 1, k - 1);
    }
  }

  /** A white-space run that is followed by a non-space (or the end) has exactly that length. */
  lemma {:induction false} SpaceSpanIs(s: string, i: nat, k: nat)
    requires i + k <= |s|
    requires forall q :: i <= q < i + k ==> IsSpace(s[q])
    requires i + k == |s| || !IsSpace(s[i + k])
    ensures SpaceSpan(s, i) == k
    decreases k
  {
    if k > 0 {
      SpaceSpanIs(s, i + 1, k - 1);
    }
  }

  /** A sequence of digits only. */
  predicate AllDigits(ds: string) {
    forall k :: 0 <= k < |ds| ==> IsDigit(ds[k])
  }

  /** The value of a decimal digit string, as `int.Parse` reads it (leading zeros allowed). */
  function Number(ds: string): (n: nat)
    requires AllDigits(ds)
    ensures n < Pow10(|ds|)
  {
    if ds == [] then 0
    else 10 * Number(ds[..|ds| - 1]) + (ds[|ds| - 1] as int - '0' as int)
  }

  function Pow10(k: nat): (r: nat)
    ensures r >= 1
  {
    if k == 0 then 1 else 10 * Pow10(k - 1)
  }

  /** The value of the maximal digit run starting at `i`. */
  function NumberAt(s: string, i: nat): nat
    requires i <= |s|
  {
    Number(s[i..i + DigitSpan(s, i)])
  }

  /** Where the pieces of a line put together from three pieces lie. */
  lemma Pieces3(a: string, b: string, c: string)
    ensures (a + b + c)[..|a|] == a && (a + b + c)[|a|..|a| + |b|] == b
    ensures c != [] ==> (a + b + c)[|a| + |b|] == c[0]
  {
  }

  /** Where the pieces of a line put together from four pieces lie. */
  lemma Pieces4(a: string, b: string, c: string, d: string)
    ensures var s := a + b + c + d;
      s[..|a|] == a && s[|a|..|a| + |b|] == b && s[|a| + |b|..|a| + |b| + |c|] == c
    ensures d != [] ==> (a + b + c + d)[|a| + |b| + |c|] == d[0]
  {
    Pieces3(a + b, c, d);
    assert (a + b + c + d)[..|a + b|] == a + b;
  }

  /** Where the pieces of a line put together from five pieces lie. */
  lemma Pieces5(a: string, b: string, c: string, d: string, e: string)
    ensures var s := a + b + c + d + e;
      s[..|a|] == a && s[|a|..|a| + |b|] == b && s[|a| + |b|..|a| + |b| + |c|] == c &&
      s[|a| + |b| + |c|..|a| + |b| + |c| + |d|] == d
    ensures e != [] ==> (a + b + c + d + e)[|a| + |b| + |c| + |d|] == e[0]
  {
    Pieces3(a + b + c, d, e);
    Pieces3(a, b, c);
    assert (a + b + c + d + e)[..|a + b + c|] == a + b + c;
  }
}
