/**
 * The three progress regexes of the main form, as leftmost-match searches:
 *   VapourSynth  `Frame: (?<processed>\d+)/(?<total>\d+)`
 *   FFmpeg       `NUMBER_OF_FRAMES: (?<frame>\d+)`
 *   FFmpeg       `frame=\s*(?<processed>\d+)`
 * `Regex.Match` tries start positions from left to right and takes the first
 * one at which the pattern matches; the greedy groups then take the whole
 * digit run.
 */
module Patterns {
  import opened Options
  import opened Text

  datatype Pattern = VsFrame | FfTotal | FfFrame

  const FrameLabel: string := "Frame: "
  const TotalLabel: string := "NUMBER_OF_FRAMES: "
  const ProgressLabel: string := "frame="

  /** Index of the first digit of the (last) numeric group when `p` matches at `i`. */
  function GroupStart(p: Pattern, s: string, i: nat): (j: nat)
    requires i <= |s|
    ensures j <= |s| || p.VsFrame?
  {
    match p
    case VsFrame => i + |FrameLabel|
    case FfTotal => if i + |TotalLabel| <= |s| then i + |TotalLabel| else |s|
    case FfFrame =>
      if i + |ProgressLabel| <= |s| then i + |ProgressLabel| + SpaceSpan(s, i + |ProgressLabel|) else |s|
  }

  /** The pattern `p` matches `s` at start index `i` (greedy groups, no backtracking needed). */
  predicate MatchAt(p: Pattern, s: string, i: nat) {
    i <= |s| &&
    match p
    case VsFrame =>
      OccursAt(s, FrameLabel, i) &&
      var j := i + |FrameLabel|;
      var d := DigitSpan(s, j);
      d > 0 && j + d < |s| && s[j + d] == '/' && DigitSpan(s, j + d + 1) > 0
    case FfTotal =>
      OccursAt(s, TotalLabel, i) && DigitSpan(s, i + |TotalLabel|) > 0
    case FfFrame =>
      OccursAt(s, ProgressLabel, i) && DigitSpan(s, GroupStart(FfFrame, s, i)) > 0
  }

  /** For each start index `0 ..= |s|`, whether `p` matches `s` there. */
  function Hits(p: Pattern, s: string): (h: seq<bool>)
    ensures |h| == |s| + 1
    ensures forall k :: 0 <= k <= |s| ==> (h[k] <==> MatchAt(p, s, k))
  {
    seq(|s| + 1, (k: nat) => MatchAt(p, s, k))
  }

  /** A left-to-right scan: the first index at or after `from` whose flag is set. */
  function FirstSet(hits: seq<bool>, from: nat): (r: Option<nat>)
    requires from <= |hits|
    ensures r.Some? ==> from <= r.value < |hits| && hits[r.value]
    decreases |hits| - from
  {
    if from == |hits| then None
    else if hits[from] then Some(from)
    else FirstSet(hits, from + 1)
  }

  /** The scan skips no set flag: none before its result, and none at all when it finds nothing. */
  lemma {:induction false} FirstSetIsFirst(hits: seq<bool>, from: nat)
    requires from <= |hits|
    ensures var r := FirstSet(hits, from);
      (r.Some? ==> forall k :: from <= k < r.value ==> !hits[k]) &&
      (r.None? ==> forall k :: from <= k < |hits| ==> !hits[k])
    decreases |hits| - from
  {
    if from < |hits| && !hits[from] {
      FirstSetIsFirst(hits, from + 1);
    }
  }

  /** `Regex.Match(s)`: the index of the leftmost match, if any. */
  function FirstMatch(p: Pattern, s: string): (r: Option<nat>)
    ensures r.Some? ==> MatchAt(p, s, r.value) && forall k :: 0 <= k < r.value ==> !MatchAt(p, s, k)
    ensures r.None? <==> forall k :: 0 <= k <= |s| ==> !MatchAt(p, s, k)
  {
    var h := Hits(p, s);
    FirstSetIsFirst(h, 0);
    FirstSet(h, 0)
  }

  /** `Frame: P/T`: the values of the `processed` and `total` groups of the leftmost match. */
  function MatchVsFrame(s: string): Option<(nat, nat)> {
    match FirstMatch(VsFrame, s)
    case None => None
    case Some(i) =>
      var j := i + |FrameLabel|;
      var d := DigitSpan(s, j);
      Some((NumberAt(s, j), NumberAt(s, j + d + 1)))
  }

  /** `NUMBER_OF_FRAMES: N`: the value of the `frame` group of the leftmost match. */
  function MatchFfTotal(s: string): Option<nat> {
    match FirstMatch(FfTotal, s)
    case None => None
    case Some(i) => Some(NumberAt(s, i + |TotalLabel|))
  }

  /** `frame=\s*P`: the value of the `processed` group of the leftmost match. */
  function MatchFfFrame(s: string): Option<nat> {
    match FirstMatch(FfFrame, s)
    case None => None
    case Some(i) => Some(NumberAt(s, GroupStart(FfFrame, s, i)))
  }

  /**
   * `Frame: \d+/\d+` read as a backtracking regex at start `i`: after the
   * label some non-empty digit run of length `k`, then `/`, then a digit.
   */
  predicate VsFrameSplit(s: string, i: nat, k: nat) {
    var j := i + |FrameLabel|;
    1 <= k && j + k + 1 < |s| &&
    (forall q :: j <= q < j + k ==> IsDigit(s[q])) &&
    s[j + k] == '/' && IsDigit(s[j + k + 1])
  }

  ghost predicate VsFrameRegexAt(s: string, i: nat) {
    OccursAt(s, FrameLabel, i) && exists k: nat :: VsFrameSplit(s, i, k)
  }

  /** The greedy reading of MatchAt accepts exactly the start positions the backtracking regex accepts. */
  lemma VsFrameMatchIsRegex(s: string, i: nat)
    requires i <= |s|
    ensures MatchAt(VsFrame, s, i) <==> VsFrameRegexAt(s, i)
  {
    var j := i + |FrameLabel|;
    if MatchAt(VsFrame, s, i) {
      assert VsFrameSplit(s, i, DigitSpan(s, j));
    }
    if VsFrameRegexAt(s, i) {
      var k: nat :| VsFrameSplit(s, i, k);
      DigitSpanIs(s, j, k);
      DigitSpanIs(s, j + k + 1, DigitSpan(s, j + k + 1));
    }
  }

  /**
   * `frame=\s*\d` read as a backtracking regex at start `i`: after the label
   * a run of `a` white-space characters, then a digit.
   */
  predicate FfFrameSplit(s: string, i: nat, a: nat) {
    var j := i + |ProgressLabel|;
    j + a < |s| && (forall q :: j <= q < j + a ==> IsSpace(s[q])) && IsDigit(s[j + a])
  }

  ghost predicate FfFrameRegexAt(s: string, i: nat) {
    OccursAt(s, ProgressLabel, i) && exists a: nat :: FfFrameSplit(s, i, a)
  }

  /** The greedy reading of MatchAt accepts exactly the start positions the backtracking regex accepts. */
  lemma FfFrameMatchIsRegex(s: string, i: nat)
    requires i <= |s|
    ensures MatchAt(FfFrame, s, i) <==> FfFrameRegexAt(s, i)
  {
    var j := i + |ProgressLabel|;
    if MatchAt(FfFrame, s, i) {
      assert FfFrameSplit(s, i, SpaceSpan(s, j));
    }
    if FfFrameRegexAt(s, i) {
      var a: nat :| FfFrameSplit(s, i, a);
      assert !IsSpace(s[j + a]);
      SpaceSpanIs(s, j, a);
    }
  }

  /** A digit string placed at `i` and followed by a non-digit (or the end) is the whole run there and reads as its number. */
  lemma DigitsAt(s: string, i: nat, ds: string)
    requires AllDigits(ds)
    requires i + |ds| <= |s| && s[i..i + |ds|] == ds
    requires i + |ds| == |s| || !IsDigit(s[i + |ds|])
    ensures DigitSpan(s, i) == |ds| && NumberAt(s, i) == Number(ds)
  {
    forall q | i <= q < i + |ds| ensures IsDigit(s[q]) {
      assert s[q] == s[i..i + |ds|][q - i];
    }
    DigitSpanIs(s, i, |ds|);
  }

  /** A white-space string placed at `i` and followed by a non-space (or the end) is the whole run there. */
  lemma SpacesAt(s: string, i: nat, sp: string)
    requires forall k :: 0 <= k < |sp| ==> IsSpace(sp[k])
    requires i + |sp| <= |s| && s[i..i + |sp|] == sp
    requires i + |sp| == |s| || !IsSpace(s[i + |sp|])
    ensures SpaceSpan(s, i) == |sp|
  {
    forall q | i <= q < i + |sp| ensures IsSpace(s[q]) {
      assert s[q] == s[i..i + |sp|][q - i];
    }
    SpaceSpanIs(s, i, |sp|);
  }

  /** A pattern that matches at the very start is the leftmost match. */
  lemma MatchAtStart(p: Pattern, s: string)
    requires MatchAt(p, s, 0)
    ensures FirstMatch(p, s) == Some(0)
  {
  }

  /** A line that starts with `Frame: P/T`, the digit strings followed by a non-digit, reads as `(P, T)`. */
  lemma VsFrameLineReads(ds1: string, ds2: string, rest: string)
    requires |ds1| > 0 && AllDigits(ds1) && |ds2| > 0 && AllDigits(ds2)
    requires rest == [] || !IsDigit(rest[0])
    ensures MatchVsFrame(FrameLabel + ds1 + "/" + ds2 + rest) == Some((Number(ds1), Number(ds2)))
  {
    var s := FrameLabel + ds1 + "/" + ds2 + rest;
    var j := |FrameLabel|;
    Pieces5(FrameLabel, ds1, "/", ds2, rest);
    assert s[j + |ds1|] == "/"[0] by {
      assert s[j + |ds1|..j + |ds1| + 1] == "/";
    }
    DigitsAt(s, j, ds1);
    DigitsAt(s, j + |ds1| + 1, ds2);
    MatchAtStart(VsFrame, s);
  }

  /** A line that starts with `NUMBER_OF_FRAMES: N`, the digit string followed by a non-digit, reads as `N`. */
  lemma FfTotalLineReads(ds: string, rest: string)
    requires |ds| > 0 && AllDigits(ds)
    requires rest == [] || !IsDigit(rest[0])
    ensures MatchFfTotal(TotalLabel + ds + rest) == Some(Number(ds))
  {
    var s := TotalLabel + ds + rest;
    Pieces3(TotalLabel, ds, rest);
    DigitsAt(s, |TotalLabel|, ds);
    MatchAtStart(FfTotal, s);
  }

  /** `frame=` at the start, then a white-space run, then a digit run: the progress group is that digit run. */
  lemma FfFrameAtStart(s: string, g: nat)
    requires OccursAt(s, ProgressLabel, 0) && |ProgressLabel| + SpaceSpan(s, |ProgressLabel|) == g
    requires g <= |s| && DigitSpan(s, g) > 0
    ensures MatchFfFrame(s) == Some(NumberAt(s, g))
  {
    MatchAtStart(FfFrame, s);
  }

  /** A white-space string then a digit string followed by a non-digit, placed at `i`, are the two runs there. */
  lemma SpacesThenDigitsAt(s: string, i: nat, sp: string, ds: string)
    requires forall k :: 0 <= k < |sp| ==> IsSpace(sp[k])
    requires |ds| > 0 && AllDigits(ds)
    requires i + |sp| + |ds| <= |s|
    requires s[i..i + |sp|] == sp && s[i + |sp|..i + |sp| + |ds|] == ds
    requires i + |sp| + |ds| == |s| || !IsDigit(s[i + |sp| + |ds|])
    ensures SpaceSpan(s, i) == |sp|
    ensures DigitSpan(s, i + |sp|) == |ds| && NumberAt(s, i + |sp|) == Number(ds)
  {
    var g := i + |sp|;
    assert !IsSpace(s[g]) by {
      assert s[g] == s[g..g + |ds|][0];
    }
    SpacesAt(s, i, sp);
    DigitsAt(s, g, ds);
  }

  /** A line that starts with `frame=`, white space and a digit string `P` followed by a non-digit, reads as `P`. */
  lemma FfFrameLineReads(sp: string, ds: string, rest: string)
    requires forall k :: 0 <= k < |sp| ==> IsSpace(sp[k])
    requires |ds| > 0 && AllDigits(ds)
    requires rest == [] || !IsDigit(rest[0])
    ensures MatchFfFrame(ProgressLabel + sp + ds + rest) == Some(Number(ds))
  {
    var s := ProgressLabel + sp + ds + rest;
    Pieces4(ProgressLabel, sp, ds, rest);
    SpacesThenDigitsAt(s, |ProgressLabel|, sp, ds);
    FfFrameAtStart(s, |ProgressLabel| + |sp|);
  }
}
