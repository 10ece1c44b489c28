/**
 * What a whole run of output lines does to one job's monitor: the
 * inferred-failure flag is sticky and freezes progress, at most one
 * remediation notice appears per job, a captured FFmpeg total is never
 * overwritten, and the progress value stays within the bar's range.
 */
module LineProperties {
  import opened Options
  import opened Text
  import opened Patterns
  import opened Classifier

  /** Once inferred failure is set, no later line throws or moves the progress value or the total. */
  lemma {:induction false} InfFreezesProgress(b: Backend, m: Monitor, es: seq<Event>)
    requires m.inf
    ensures Feed(b, m, es).Some?
    ensures Feed(b, m, es).value.inf
    ensures Feed(b, m, es).value.progress == m.progress
    ensures Feed(b, m, es).value.ffTotal == m.ffTotal
    decreases |es|
  {
    if es != [] {
      InfFreezesProgress(b, Handle(b, m, es[0]).next, es[1..]);
    }
  }

  /** After a run that did not throw, inferred failure is set exactly when it was set before or some stderr line was a failure line. */
  lemma {:induction false} InfTracksFailureLines(b: Backend, m: Monitor, es: seq<Event>)
    requires Feed(b, m, es).Some?
    ensures Feed(b, m, es).value.inf <==> m.inf || exists k :: 0 <= k < |es| && FailureEvent(b, es[k])
    decreases |es|
  {
    if es != [] {
      var r := Handle(b, m, es[0]);
      InfTracksFailureLines(b, r.next, es[1..]);
      if exists k :: 0 <= k < |es| - 1 && FailureEvent(b, es[1..][k]) {
        var k :| 0 <= k < |es| - 1 && FailureEvent(b, es[1..][k]);
        assert FailureEvent(b, es[k + 1]);
      }
      if exists k :: 0 <= k < |es| && FailureEvent(b, es[k]) {
        var k :| 0 <= k < |es| && FailureEvent(b, es[k]);
        if k > 0 {
          assert es[1..][k - 1] == es[k];
        }
      }
    }
  }

  /** `Failed|Error` ignores case: any spelling of either word, anywhere in the line, is a VapourSynth failure line. */
  lemma FailureWordInAnyCase(s: string, i: nat, w: string)
    requires w == "failed" || w == "error"
    requires i + |w| <= |s| && Folded(s[i..i + |w|]) == w
    ensures VsFailure(s)
  {
    var f := Folded(s);
    assert f[i..i + |w|] == Folded(s[i..i + |w|]);
    assert OccursAt(f, w, i);
  }

  /** Feeding a run of lines is handling its first line and feeding the rest from there. */
  lemma FeedFirstLine(b: Backend, m: Monitor, es: seq<Event>, r: Reaction)
    requires es != [] && r == Handle(b, m, es[0])
    ensures r.signal.Throws? ==> Feed(b, m, es).None? && Notices(b, m, es) == []
    ensures !r.signal.Throws? ==> Feed(b, m, es) == Feed(b, r.next, es[1..])
    ensures !r.signal.Throws? ==>
      Notices(b, m, es) == (if r.signal.Notice? then [r.signal.hint] else []) + Notices(b, r.next, es[1..])
  {
  }

  /** At most one remediation notice per job, and none once one has been shown. */
  lemma {:induction false} NoticeAtMostOnce(b: Backend, m: Monitor, es: seq<Event>)
    ensures |Notices(b, m, es)| <= if m.shown then 0 else 1
    decreases |es|
  {
    if es != [] {
      var r := Handle(b, m, es[0]);
      NoticeAtMostOnce(b, r.next, es[1..]);
    }
  }

  /** The FFmpeg backends never show a remediation notice. */
  lemma {:induction false} FFmpegNeverNotices(b: Backend, m: Monitor, es: seq<Event>)
    requires b != VsPsnr
    ensures Notices(b, m, es) == []
    decreases |es|
  {
    if es != [] {
      FFmpegNeverNotices(b, Handle(b, m, es[0]).next, es[1..]);
    }
  }

  /**
   * A VapourSynth failure line that shows a known signature produces exactly
   * that one notice in a fresh job, however often it (or any other signature)
   * is repeated afterwards.
   */
  lemma SignatureNoticedOnce(m: Monitor, line: string, h: Hint, rest: seq<Event>)
    requires !m.shown
    requires VsFailure(line) && KnownFailure(line) == Some(h)
    ensures Notices(VsPsnr, m, [ProgressLine(line)] + rest) == [h]
  {
    var es := [ProgressLine(line)] + rest;
    assert line != [] by {
      assert Contains(Folded(line), "failed") || Contains(Folded(line), "error");
    }
    var r := Handle(VsPsnr, m, es[0]);
    assert r == VsStep(m, line);
    assert es[1..] == rest;
    NoticeAtMostOnce(VsPsnr, r.next, rest);
  }

  /** A captured FFmpeg total survives every later line of the job. */
  lemma {:induction false} TotalNeverOverwritten(b: Backend, m: Monitor, es: seq<Event>)
    requires m.ffTotal != NoTotal
    requires Feed(b, m, es).Some?
    ensures Feed(b, m, es).value.ffTotal == m.ffTotal
    decreases |es|
  {
    if es != [] {
      TotalNeverOverwritten(b, Handle(b, m, es[0]).next, es[1..]);
    }
  }

  /** On an FFmpeg backend, progress does not move until a total has been captured. */
  lemma {:induction false} NoProgressBeforeTotal(b: Backend, m: Monitor, es: seq<Event>)
    requires b != VsPsnr && m.ffTotal == NoTotal
    requires Feed(b, m, es).Some? && Feed(b, m, es).value.ffTotal == NoTotal
    ensures Feed(b, m, es).value.progress == m.progress
    decreases |es|
  {
    if es != [] {
      var r := Handle(b, m, es[0]);
      if r.next.ffTotal != NoTotal {
        TotalNeverOverwritten(b, r.next, es[1..]);
      } else {
        NoProgressBeforeTotal(b, r.next, es[1..]);
      }
    }
  }

  /** The progress value stays within the bar's range 0..100 over any run of lines. */
  lemma {:induction false} ProgressStaysInRange(b: Backend, m: Monitor, es: seq<Event>)
    requires 0 <= m.progress <= 100
    requires Feed(b, m, es).Some?
    ensures 0 <= Feed(b, m, es).value.progress <= 100
    decreases |es|
  {
    if es != [] {
      var r := Handle(b, m, es[0]);
      ProgressStaysInRange(b, r.next, es[1..]);
    }
  }

  /** Feeding the same VapourSynth line twice leaves the state of feeding it once, and notices nothing new. */
  lemma VsStepIdempotent(m: Monitor, line: string)
    ensures VsStep(VsStep(m, line).next, line).next == VsStep(m, line).next
    ensures !VsStep(VsStep(m, line).next, line).signal.Notice?
  {
  }

  /**
   * A `Frame: P/T` line without a failure word, with `0 < T` and `P <= T`,
   * moves the bar to the floored percentage `P * 100 / T`.
   */
  lemma VsFrameLineMovesBar(m: Monitor, ds1: string, ds2: string, rest: string)
    requires |ds1| > 0 && AllDigits(ds1) && |ds2| > 0 && AllDigits(ds2)
    requires rest == [] || !IsDigit(rest[0])
    requires !m.inf && !VsFailure(FrameLabel + ds1 + "/" + ds2 + rest)
    requires 0 < Number(ds2) <= Int32Max && Number(ds1) <= Number(ds2)
    ensures VsStep(m, FrameLabel + ds1 + "/" + ds2 + rest)
         == Reaction(m.(progress := Number(ds1) * 100 / Number(ds2)), Quiet)
    ensures 0 <= Number(ds1) * 100 / Number(ds2) <= 100
  {
    var line := FrameLabel + ds1 + "/" + ds2 + rest;
    assert MatchVsFrame(line) == Some((Number(ds1), Number(ds2))) by {
      VsFrameLineReads(ds1, ds2, rest);
    }
    VsFrameReadMovesBar(m, line, Number(ds1), Number(ds2));
    PercentInRange(Number(ds1), Number(ds2));
  }

  /** The frame-line step of `VsStep`, for any line whose frame and total have been read. */
  lemma VsFrameReadMovesBar(m: Monitor, line: string, p: nat, t: nat)
    requires !m.inf && !VsFailure(line) && 0 < t <= Int32Max && p <= t
    requires MatchVsFrame(line) == Some((p, t))
    ensures VsStep(m, line) == Reaction(m.(progress := p * 100 / t), Quiet)
  {
  }

  /**
   * `Frame: 0/0`: zero frames of zero. The percentage is NaN, its conversion
   * to `int` is out of the bar's range, and the bar's setter throws.
   */
  lemma VsZeroOfZeroThrows(m: Monitor, ds1: string, ds2: string, rest: string)
    requires |ds1| > 0 && AllDigits(ds1) && |ds2| > 0 && AllDigits(ds2)
    requires rest == [] || !IsDigit(rest[0])
    requires !m.inf && !VsFailure(FrameLabel + ds1 + "/" + ds2 + rest) && 0 <= m.progress <= 100
    requires Number(ds1) == 0 && Number(ds2) == 0
    ensures VsStep(m, FrameLabel + ds1 + "/" + ds2 + rest) == Reaction(m, Throws(ValueOutOfRange))
  {
    VsFrameLineReads(ds1, ds2, rest);
  }

  /** Before a total is known, a `NUMBER_OF_FRAMES: N` line with `N` in range captures `N`. */
  lemma FfTotalLineCaptures(m: Monitor, ds: string, rest: string)
    requires |ds| > 0 && AllDigits(ds) && (rest == [] || !IsDigit(rest[0]))
    requires !m.inf && m.ffTotal == NoTotal && Number(ds) <= Int32Max
    ensures FfStep(m, TotalLabel + ds + rest) == Reaction(m.(ffTotal := Number(ds)), Quiet)
  {
    var line := TotalLabel + ds + rest;
    assert !FfFailure(line) by {
      assert line[0] != ParsedMarker[0];
    }
    assert MatchFfTotal(line) == Some(Number(ds)) by {
      FfTotalLineReads(ds, rest);
    }
    TotalReadCaptured(m, line, Number(ds));
  }

  /** The total-line step of `FfStep`, for any line whose total has been read. */
  lemma TotalReadCaptured(m: Monitor, line: string, n: nat)
    requires !m.inf && m.ffTotal == NoTotal && n <= Int32Max
    requires !FfFailure(line) && MatchFfTotal(line) == Some(n)
    ensures FfStep(m, line) == Reaction(m.(ffTotal := n), Quiet)
  {
  }

  /**
   * Once a positive total `T` is known, a `frame= P` line with `P <= T` moves
   * the bar to the floored percentage `P * 100 / T`.
   */
  lemma FfFrameLineMovesBar(m: Monitor, sp: string, ds: string, rest: string)
    requires forall k :: 0 <= k < |sp| ==> IsSpace(sp[k])
    requires |ds| > 0 && AllDigits(ds) && (rest == [] || !IsDigit(rest[0]))
    requires !m.inf && 0 < m.ffTotal < NoTotal && Number(ds) <= m.ffTotal
    ensures FfStep(m, ProgressLabel + sp + ds + rest)
         == Reaction(m.(progress := Number(ds) * 100 / m.ffTotal), Quiet)
  {
    var line := ProgressLabel + sp + ds + rest;
    assert !FfFailure(line) by {
      assert line[0] != ParsedMarker[0];
    }
    assert MatchFfFrame(line) == Some(Number(ds)) by {
      FfFrameLineReads(sp, ds, rest);
    }
    FrameReadMovesBar(m, line, Number(ds));
  }

  /** The frame-line step of `FfStep`, for any line whose frame has been read. */
  lemma FrameReadMovesBar(m: Monitor, line: string, p: nat)
    requires !m.inf && 0 < m.ffTotal < NoTotal && p <= m.ffTotal
    requires !FfFailure(line) && MatchFfFrame(line) == Some(p)
    ensures FfStep(m, line) == Reaction(m.(progress := p * 100 / m.ffTotal), Quiet)
  {
  }

  /** A line without the letters `l` and `o` (in either case) shows neither `Failed` nor `Error`. */
  lemma NoFailureWord(s: string)
    requires forall i :: 0 <= i < |s| ==> Lower(s[i]) != 'l' && Lower(s[i]) != 'o'
    ensures !VsFailure(s)
  {
    var f := Folded(s);
    forall i: nat | i <= |s| ensures !OccursAt(f, "failed", i) && !OccursAt(f, "error", i) {
      if i + 4 <= |s| {
        assert f[i + 3] != 'l' && f[i + 3] != 'o';
        assert f[i..i + 4][3] == f[i + 3];
      }
    }
  }

  /** `NUMBER_OF_FRAMES: 100` on a fresh FFmpeg job captures the total 100. */
  lemma FfTotalExample(l: string)
    requires l == "NUMBER_OF_FRAMES: 100"
    ensures FfStep(Monitor(false, false, 0, NoTotal), l) == Reaction(Monitor(false, false, 0, 100), Quiet)
  {
    assert Number("100") == 100 by {
      assert Number("1") == 1 && Number("10") == 10;
    }
    assert TotalLabel + "100" + "" == l;
    FfTotalLineCaptures(Monitor(false, false, 0, NoTotal), "100", "");
  }

  /** With the total 100 known, `frame=  50 ...` moves the bar to 50. */
  lemma FfFrameExample(l: string)
    requires l == "frame=  50 fps= 25"
    ensures FfStep(Monitor(false, false, 0, 100), l) == Reaction(Monitor(false, false, 50, 100), Quiet)
  {
    assert Number("50") == 50 by {
      assert Number("5") == 5;
    }
    assert ProgressLabel + "  " + "50" + " fps= 25" == l;
    FfFrameLineMovesBar(Monitor(false, false, 0, 100), "  ", "50", " fps= 25");
  }

  /** `Frame: 12/24` moves a fresh bar to 50. */
  lemma VsFrameExample(l: string)
    requires l == "Frame: 12/24"
    ensures VsStep(Monitor(false, false, 0, NoTotal), l) == Reaction(Monitor(false, false, 50, NoTotal), Quiet)
  {
    assert !VsFailure(l) by {
      NoFailureWord(l);
    }
    assert FrameLabel + "12" + "/" + "24" + "" == l;
    assert Number("12") == 12 && Number("24") == 24 by {
      assert Number("1") == 1 && Number("2") == 2;
    }
    VsFrameLineMovesBar(Monitor(false, false, 0, NoTotal), "12", "24", "");
  }

  /** `Frame: 0/0` makes the bar's setter throw. */
  lemma VsZeroOfZeroExample(l: string)
    requires l == "Frame: 0/0"
    ensures VsStep(Monitor(false, false, 50, NoTotal), l) == Reaction(Monitor(false, false, 50, NoTotal), Throws(ValueOutOfRange))
  {
    assert !VsFailure(l) by {
      NoFailureWord(l);
    }
    assert FrameLabel + "0" + "/" + "0" + "" == l;
    assert Number("0") == 0;
    VsZeroOfZeroThrows(Monitor(false, false, 50, NoTotal), "0", "0", "");
  }
}
