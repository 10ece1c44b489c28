/**
 * The per-job output-line state machine of the main form, lifted out of the
 * UI: what one stderr line does to the inferred-failure flag, the
 * "remediation notice already shown" flag, the progress-bar value and the
 * FFmpeg total frame count, for the VapourSynth backend (`VsUpdateProgress`)
 * and the FFmpeg backends (`FFmpegUpdateProgress`), and how `ProgressUpdated`
 * routes a line to one of them.
 */
module Classifier {
  import opened Options
  import opened Text
  import opened Patterns
  import opened Samples

  const Int32Max: int := 0x7FFF_FFFF
  const Int32Min: int := -0x8000_0000

  /** `_ffmpegTotalFrame == int.MaxValue`: no `NUMBER_OF_FRAMES` captured yet. */
  const NoTotal: int := Int32Max

  /** The measurement process kinds: VapourSynth pipe PSNR, FFmpeg PSNR, FFmpeg SSIM. */
  datatype Backend = VsPsnr | FfPsnr | FfSsim

  /** The four remediation notices of the VapourSynth backend. */
  datatype Hint = LsmasMissing | MvsfuncMissing | MvsfuncOutdated | MuvsfuncMissing

  /** Exceptions a line handler can raise: `int.Parse` overflow, or an out-of-range progress-bar value. */
  datatype Fault = ParseOverflow | ValueOutOfRange

  /** What a line does besides changing state: nothing, a notice box, or an exception. */
  datatype Signal = Quiet | Notice(hint: Hint) | Throws(fault: Fault)

  /**
   * The form state the line handlers touch: `_currentBuffer.Inf`,
   * `_errorDialogShowed`, `toolStripProgressBar1.Value`, `_ffmpegTotalFrame`.
   */
  datatype Monitor = Monitor(inf: bool, shown: bool, progress: int, ffTotal: int)

  datatype Reaction = Reaction(next: Monitor, signal: Signal)

  /**
   * One line of process output: a stderr line (delivered to `ProgressUpdated`)
   * or a stdout line (delivered to `ValueUpdated`) together with the sample
   * the process object's own parser takes from it, if any.
   */
  datatype Event = ProgressLine(text: string) | ValueLine(text: string, parsed: Option<Sample>)

  const LsmasText: string := "No attribute with the name lsmas exists"
  const MvsfuncText: string := "No module named 'mvsfunc'"
  const PlaneAverageText: string := "There is no function named PlaneAverage"
  const MuvsfuncText: string := "ModuleNotFoundError: No module named 'muvsfunc'"
  const ParsedMarker: string := "[Parsed_"

  /** The first entry of the known-failure table the line shows (`lsmas` by containment, the rest by suffix). */
  function KnownFailure(line: string): Option<Hint> {
    if Contains(line, LsmasText) then Some(LsmasMissing)
    else if EndsWith(line, MvsfuncText) then Some(MvsfuncMissing)
    else if EndsWith(line, PlaneAverageText) then Some(MvsfuncOutdated)
    else if EndsWith(line, MuvsfuncText) then Some(MuvsfuncMissing)
    else None
  }

  /** `Failed|Error` matched case-insensitively anywhere in the line. */
  predicate VsFailure(line: string) {
    Contains(Folded(line), "failed") || Contains(Folded(line), "error")
  }

  /** The FFmpeg filter summary line, which ends progress parsing for the job. */
  predicate FfFailure(line: string) {
    StartsWith(line, ParsedMarker)
  }

  predicate Fails(b: Backend, line: string) {
    if b.VsPsnr? then VsFailure(line) else FfFailure(line)
  }

  /**
   * `(int)Math.Floor(processed * 100.0 / total)`. With `total == 0` the double
   * is NaN or infinite and the conversion yields `int.MinValue`. When
   * `processed > total` the value is computed but never used.
   */
  function NewValue(p: nat, t: nat): int {
    if t == 0 then Int32Min else p * 100 / t
  }

  /** A frame count no larger than the total gives a percentage in 0..100. */
  lemma PercentInRange(p: nat, t: int)
    ensures 0 < t && p <= t ==> 0 <= p * 100 / t <= 100
  {
    if 0 < t && p <= t {
      var q := p * 100 / t;
      assert q * t + p * 100 % t == p * 100;
      assert q * t <= 100 * t;
      assert (100 - q) * t >= 0;
    }
  }

  /**
   * `if (apply && bar.Value != v) bar.Value = v;` where the bar accepts
   * 0..100 and throws for anything else.
   */
  function Redraw(m: Monitor, apply: bool, v: int): (r: Reaction)
    ensures r.next.inf == m.inf && r.next.shown == m.shown && r.next.ffTotal == m.ffTotal
    ensures r.signal.Throws? ==> r.next == m
    ensures !r.signal.Notice?
    ensures 0 <= m.progress <= 100 ==> 0 <= r.next.progress <= 100
    ensures apply && 0 <= v <= 100 ==> r == Reaction(m.(progress := v), Quiet)
    ensures apply && m.progress != v && !(0 <= v <= 100) ==> r == Reaction(m, Throws(ValueOutOfRange))
    ensures !apply || m.progress == v ==> r == Reaction(m, Quiet)
  {
    if apply && m.progress != v then
      if 0 <= v <= 100 then Reaction(m.(progress := v), Quiet)
      else Reaction(m, Throws(ValueOutOfRange))
    else Reaction(m, Quiet)
  }

  /**
   * The shared tail of both handlers: compute the new value from `processed`
   * and `total` and redraw the bar when `processed <= total`.
   */
  function FrameUpdate(m: Monitor, p: nat, t: int): (r: Reaction)
    ensures r.next.inf == m.inf && r.next.shown == m.shown && r.next.ffTotal == m.ffTotal
    ensures r.signal.Throws? ==> r.next == m
    ensures !r.signal.Notice?
    ensures 0 <= m.progress <= 100 ==> 0 <= r.next.progress <= 100
    ensures 0 < t && p <= t ==> r == Reaction(m.(progress := p * 100 / t), Quiet)
    ensures t < p ==> r == Reaction(m, Quiet)
    ensures t == 0 && p == 0 && 0 <= m.progress <= 100 ==> r == Reaction(m, Throws(ValueOutOfRange))
  {
    if t <= 0 then Redraw(m, p <= t, NewValue(p, 0))
    else
      PercentInRange(p, t);
      Redraw(m, p <= t, NewValue(p, t))
  }

  /** `VsUpdateProgress`: one stderr line of the VapourSynth backend. */
  function VsStep(m: Monitor, line: string): (r: Reaction)
    ensures r.next.inf == (m.inf || VsFailure(line))
    ensures r.next.ffTotal == m.ffTotal
    ensures r.next.inf ==> r.next.progress == m.progress && !r.signal.Throws?
    ensures m.shown ==> r.next.shown
    ensures r.signal.Notice? <==> !m.shown && r.next.shown
    ensures r.signal.Notice? ==> r.next.inf && KnownFailure(line) == Some(r.signal.hint)
    ensures r.next.inf && !m.shown && KnownFailure(line).Some? ==> r.signal.Notice?
    ensures r.signal.Throws? ==> r.next == m
    ensures 0 <= m.progress <= 100 ==> 0 <= r.next.progress <= 100
    ensures !r.next.inf && MatchVsFrame(line).None? ==> r == Reaction(m, Quiet)
    ensures !r.next.inf && MatchVsFrame(line).Some? ==>
      var (p, t) := MatchVsFrame(line).value;
      (p > Int32Max || t > Int32Max ==> r == Reaction(m, Throws(ParseOverflow))) &&
      (0 < t <= Int32Max && p <= t ==> r == Reaction(m.(progress := p * 100 / t), Quiet)) &&
      (t < p <= Int32Max ==> r == Reaction(m, Quiet)) &&
      (t == 0 && p == 0 && 0 <= m.progress <= 100 ==> r == Reaction(m, Throws(ValueOutOfRange)))
  {
    if m.inf || VsFailure(line) then
      var hint := if m.shown then None else KnownFailure(line);
      Reaction(m.(inf := true, shown := m.shown || hint.Some?),
               if hint.Some? then Notice(hint.value) else Quiet)
    else
      match MatchVsFrame(line)
      case None => Reaction(m, Quiet)
      case Some((p, t)) =>
        if p > Int32Max || t > Int32Max then Reaction(m, Throws(ParseOverflow))
        else FrameUpdate(m, p, t)
  }

  /** `FFmpegUpdateProgress`: one stderr line of an FFmpeg backend. */
  function FfStep(m: Monitor, line: string): (r: Reaction)
    ensures r.next.inf == (m.inf || FfFailure(line))
    ensures r.next.shown == m.shown && !r.signal.Notice?
    ensures r.next.inf ==> r == Reaction(m.(inf := true), Quiet)
    ensures m.ffTotal != NoTotal ==> r.next.ffTotal == m.ffTotal
    ensures m.ffTotal == NoTotal ==> r.next.progress == m.progress
    ensures r.next.ffTotal != m.ffTotal ==> MatchFfTotal(line) == Some(r.next.ffTotal)
    ensures m.ffTotal == NoTotal && !r.next.inf ==>
      match MatchFfTotal(line)
      case None => r == Reaction(m, Quiet)
      case Some(n) => r == if n <= Int32Max then Reaction(m.(ffTotal := n), Quiet)
                           else Reaction(m, Throws(ParseOverflow))
    ensures r.signal.Throws? ==> r.next == m
    ensures 0 <= m.progress <= 100 ==> 0 <= r.next.progress <= 100
    ensures m.ffTotal != NoTotal && !r.next.inf && MatchFfFrame(line).None? ==> r == Reaction(m, Quiet)
    ensures m.ffTotal != NoTotal && !r.next.inf && MatchFfFrame(line).Some? ==>
      var p := MatchFfFrame(line).value;
      (p > Int32Max ==> r == Reaction(m, Throws(ParseOverflow))) &&
      (0 < m.ffTotal < NoTotal && p <= m.ffTotal ==> r == Reaction(m.(progress := p * 100 / m.ffTotal), Quiet)) &&
      (m.ffTotal < p <= Int32Max ==> r == Reaction(m, Quiet)) &&
      (m.ffTotal == 0 && p == 0 && 0 <= m.progress <= 100 ==> r == Reaction(m, Throws(ValueOutOfRange)))
  {
    if m.inf || FfFailure(line) then Reaction(m.(inf := true), Quiet)
    else if m.ffTotal == NoTotal then
      match MatchFfTotal(line)
      case None => Reaction(m, Quiet)
      case Some(n) =>
        if n > Int32Max then Reaction(m, Throws(ParseOverflow)) else Reaction(m.(ffTotal := n), Quiet)
    else
      match MatchFfFrame(line)
      case None => Reaction(m, Quiet)
      case Some(p) =>
        if p > Int32Max then Reaction(m, Throws(ParseOverflow))
        else FrameUpdate(m, p, m.ffTotal)
  }

  /** The stderr line `e` counts as a failure for backend `b`. */
  predicate FailureEvent(b: Backend, e: Event) {
    e.ProgressLine? && Fails(b, e.text)
  }

  /**
   * `ProgressUpdated` (for stderr lines) and `ValueUpdated` (for stdout lines)
   * as far as the monitor is concerned: empty lines are dropped, stdout lines
   * leave the monitor alone, stderr lines go to the backend's classifier.
   */
  function Handle(b: Backend, m: Monitor, e: Event): (r: Reaction)
    ensures e.ValueLine? || e.text == [] ==> r == Reaction(m, Quiet)
    ensures r.next.inf == (m.inf || FailureEvent(b, e))
    ensures m.shown ==> r.next.shown
    ensures r.signal.Notice? ==> !m.shown && r.next.shown
    ensures b != VsPsnr ==> !r.signal.Notice?
    ensures e.ProgressLine? && e.text != [] ==> r == if b.VsPsnr? then VsStep(m, e.text) else FfStep(m, e.text)
  {
    match e
    case ValueLine(_, _) => Reaction(m, Quiet)
    case ProgressLine(line) =>
      if line == [] then
        assert !OccursAt(Folded(line), "failed", 0) && !OccursAt(Folded(line), "error", 0);
        Reaction(m, Quiet)
      else if b.VsPsnr? then VsStep(m, line)
      else FfStep(m, line)
  }

  /** The monitor after a run of lines, or None when some line's handler throws. */
  function Feed(b: Backend, m: Monitor, es: seq<Event>): Option<Monitor>
    decreases |es|
  {
    if es == [] then Some(m)
    else
      var r := Handle(b, m, es[0]);
      if r.signal.Throws? then None else Feed(b, r.next, es[1..])
  }

  /** The remediation notices shown during a run of lines, in order (up to a throwing line). */
  function Notices(b: Backend, m: Monitor, es: seq<Event>): seq<Hint>
    decreases |es|
  {
    if es == [] then []
    else
      var r := Handle(b, m, es[0]);
      if r.signal.Throws? then []
      else (if r.signal.Notice? then [r.signal.hint] else []) + Notices(b, r.next, es[1..])
  }
}
