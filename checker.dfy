/**
 * The main form's fields the analysis touches, and its handlers as methods
 * that update them in place: the two progress handlers, the line dispatch,
 * the stdout handler, one clip run and the batch over all file pairs. Each
 * method is proved to do what the step functions of `Classifier` and `Jobs`
 * say.
 */
module MainForm {
  import opened Options
  import opened Text
  import opened Patterns
  import opened Samples
  import opened Classifier
  import opened Jobs
  import LineProperties

  class Checker {
    /** The kind of `_coreProcess`. */
    var backend: Backend
    /** `_useOriginPath`. */
    var useOriginFlag: bool
    /** `_remainFile`: keep the intermediate scripts. */
    var remainFile: bool
    /** `_currentBuffer.Inf`. */
    var inf: bool
    /** `_errorDialogShowed`. */
    var shown: bool
    /** `toolStripProgressBar1.Value`. */
    var progress: int
    /** `_ffmpegTotalFrame`. */
    var ffTotal: int
    /** The lines of `_currentBuffer`. */
    var log: seq<string>
    /** `_data`. */
    var samples: seq<Sample>
    /** `_fullData`. */
    var results: seq<Result>
    /** The `RemoveScript` calls made so far. */
    var removals: seq<Removal>
    /** `_threshold`: the value the grid colours rows and stops against. */
    var threshold: int
    /** `_coreProcess.Threshold`: the current process object's own threshold. */
    var processThreshold: int

    function State(): Monitor
      reads this
    {
      Monitor(inf, shown, progress, ffTotal)
    }

    function Snapshot(): Form
      reads this
    {
      Form(State(), log, samples, results, removals)
    }

    function Config(): Settings
      reads this
    {
      Settings(backend, useOriginFlag, remainFile)
    }

    /**
     * A new form: FFmpeg PSNR (a process object whose threshold is
     * `ffPsnrThreshold`), the threshold 30, origin-path option off, no total
     * captured, nothing analysed.
     */
    constructor (ffPsnrThreshold: int)
      ensures Config() == Settings(FfPsnr, false, false)
      ensures State() == Monitor(false, false, 0, NoTotal)
      ensures log == [] && samples == [] && results == [] && removals == []
      ensures threshold == 30 && processThreshold == ffPsnrThreshold
    {
      backend := FfPsnr;
      useOriginFlag := false;
      remainFile := false;
      inf := false;
      shown := false;
      progress := 0;
      ffTotal := NoTotal;
      log := [];
      samples := [];
      results := [];
      removals := [];
      threshold := 30;
      processThreshold := ffPsnrThreshold;
    }

    /**
     * The process-selection menu commands: the process object is kept when
     * it already is of kind `b`, and otherwise replaced by a new one whose
     * threshold is `newThreshold`; then `UpdateText` resets the grid threshold to
     * the process's.
     */
    method UseBackend(b: Backend, newThreshold: int)
      modifies this`backend, this`processThreshold, this`threshold
      ensures backend == b
      ensures processThreshold == if old(backend) == b then old(processThreshold) else newThreshold
      ensures threshold == processThreshold
    {
      if backend != b {
        processThreshold := newThreshold;
      }
      backend := b;
      threshold := processThreshold;
    }

    /** The "use original paths" menu command; `UpdateText` resets the grid threshold to the process's. */
    method UseOriginalPaths()
      modifies this`useOriginFlag, this`threshold
      ensures useOriginFlag
      ensures UseOriginPath(useOriginFlag, backend)
      ensures threshold == processThreshold
    {
      useOriginFlag := true;
      threshold := processThreshold;
    }

    /** The "keep intermediate files" button: it toggles only outside link mode. */
    method ToggleRemainFile()
      modifies this`remainFile
      ensures remainFile == if UseOriginPath(useOriginFlag, backend) then !old(remainFile) else old(remainFile)
    {
      if UseOriginPath(useOriginFlag, backend) {
        remainFile := !remainFile;
      }
    }

    /**
     * The remediation table of `VsUpdateProgress`: the first signature the
     * line shows is noticed, unless a notice was already shown for this job.
     */
    method ShowNotice(line: string) returns (signal: Signal)
      modifies this`shown
      ensures var hint := if old(shown) then None else KnownFailure(line);
        shown == (old(shown) || hint.Some?) &&
        signal == if hint.Some? then Notice(hint.value) else Quiet
    {
      signal := Quiet;
      if !shown && Contains(line, LsmasText) {
        shown := true;
        signal := Notice(LsmasMissing);
      }
      if !shown && EndsWith(line, MvsfuncText) {
        shown := true;
        signal := Notice(MvsfuncMissing);
      } else if !shown && EndsWith(line, PlaneAverageText) {
        shown := true;
        signal := Notice(MvsfuncOutdated);
      } else if !shown && EndsWith(line, MuvsfuncText) {
        shown := true;
        signal := Notice(MuvsfuncMissing);
      }
    }

    /** `VsUpdateProgress`: a notice, an exception (state as it was), or nothing. */
    method VsUpdateProgress(line: string) returns (signal: Signal)
      modifies this`inf, this`shown, this`progress
      ensures Reaction(State(), signal) == VsStep(old(State()), line)
    {
      signal := Quiet;
      if VsFailure(line) {
        inf := true;
      }
      if inf {
        signal := ShowNotice(line);
        return;
      }
      var found := MatchVsFrame(line);
      if found.None? {
        return;
      }
      var (processed, total) := found.value;
      if processed > Int32Max || total > Int32Max {
        signal := Throws(ParseOverflow);
        return;
      }
      signal := SetBar(processed, total);
    }

    /** `FFmpegUpdateProgress`: capture the total first, then turn `frame=` counts into percentages. */
    method FFmpegUpdateProgress(line: string) returns (signal: Signal)
      modifies this`inf, this`progress, this`ffTotal
      ensures Reaction(State(), signal) == FfStep(old(State()), line)
    {
      signal := Quiet;
      if StartsWith(line, ParsedMarker) {
        inf := true;
      }
      if inf {
        return;
      }
      if ffTotal == NoTotal {
        var total := MatchFfTotal(line);
        if total.Some? {
          if total.value > Int32Max {
            signal := Throws(ParseOverflow);
            return;
          }
          ffTotal := total.value;
        }
        return;
      }
      var found := MatchFfFrame(line);
      if found.None? || ffTotal == NoTotal {
        return;
      }
      var processed := found.value;
      if processed > Int32Max {
        signal := Throws(ParseOverflow);
        return;
      }
      signal := SetBar(processed, ffTotal);
    }

    /**
     * The shared tail of both progress handlers: the new value from
     * `processed` and `total`, set on the bar when `processed <= total` and
     * it differs; the bar throws for a value outside 0..100.
     */
    method SetBar(processed: nat, total: int) returns (signal: Signal)
      modifies this`progress
      ensures Reaction(State(), signal) == FrameUpdate(old(State()), processed, total)
    {
      signal := Quiet;
      var value := if total <= 0 then NewValue(processed, 0) else NewValue(processed, total);
      if processed <= total && progress != value {
        if value < 0 || value > 100 {
          signal := Throws(ValueOutOfRange);
          return;
        }
        progress := value;
      }
    }

    /** `ProgressUpdated`: log a non-empty stderr line and hand it to the process kind's handler. */
    method ProgressUpdated(line: string) returns (signal: Signal)
      modifies this`log, this`inf, this`shown, this`progress, this`ffTotal
      ensures log == old(log) + EventLog(ProgressLine(line))
      ensures Reaction(State(), signal) == Handle(backend, old(State()), ProgressLine(line))
    {
      if line == [] {
        signal := Quiet;
        assert !OccursAt(Folded(line), "failed", 0) && !OccursAt(Folded(line), "error", 0);
        return;
      }
      log := log + ["err|" + line];
      if backend.VsPsnr? {
        signal := VsUpdateProgress(line);
      } else {
        signal := FFmpegUpdateProgress(line);
      }
    }

    /** `ValueUpdated`: log a non-empty stdout line and append the sample the process parser takes from it. */
    method ValueUpdated(line: string, parsed: Option<Sample>)
      modifies this`log, this`samples
      ensures log == old(log) + EventLog(ValueLine(line, parsed))
      ensures samples == old(samples) + EventSamples(ValueLine(line, parsed))
    {
      if line == [] {
        return;
      }
      log := log + ["std|" + line];
      if parsed.Some? {
        samples := samples + [parsed.value];
      }
    }

    /** One line of process output, delivered to `ProgressUpdated` or `ValueUpdated`. */
    method Deliver(e: Event, ghost rest: seq<Event>) returns (signal: Signal)
      requires rest != [] && rest[0] == e
      modifies this`log, this`samples, this`inf, this`shown, this`progress, this`ffTotal
      ensures Reaction(State(), signal) == Handle(backend, old(State()), e)
      ensures signal.Throws? ==> Feed(backend, old(State()), rest).None? && Notices(backend, old(State()), rest) == []
      ensures !signal.Throws? ==> Feed(backend, old(State()), rest) == Feed(backend, State(), rest[1..])
      ensures !signal.Throws? ==>
        Notices(backend, old(State()), rest) == (if signal.Notice? then [signal.hint] else []) + Notices(backend, State(), rest[1..])
      ensures log == old(log) + EventLog(e) && samples == old(samples) + EventSamples(e)
    {
      ghost var m := State();
      match e {
        case ProgressLine(line) =>
          signal := ProgressUpdated(line);
        case ValueLine(line, parsed) =>
          ValueUpdated(line, parsed);
          signal := Quiet;
      }
      LineProperties.FeedFirstLine(backend, m, rest, Reaction(State(), signal));
    }

    /**
     * `AnalyzeClip`: reset the bar, deliver the process's lines in order and
     * fill the bar when the process is done. `faulted` is set, and the run
     * cut short, when a handler throws; `notices` are the remediation boxes shown.
     */
    method AnalyzeClip(events: seq<Event>) returns (faulted: bool, notices: seq<Hint>)
      modifies this`log, this`samples, this`inf, this`shown, this`progress, this`ffTotal
      ensures var start := old(State()).(progress := 0);
        faulted <==> Feed(backend, start, events).None?
      ensures var start := old(State()).(progress := 0);
        notices == Notices(backend, start, events)
      ensures !faulted ==>
        State() == Feed(backend, old(State()).(progress := 0), events).value.(progress := 100) &&
        log == old(log) + JobLog(events) && samples == old(samples) + JobSamples(events)
    {
      progress := 0;
      ghost var start := State();
      notices := [];
      var k := 0;
      while k < |events|
        invariant 0 <= k <= |events|
        invariant Feed(backend, start, events) == Feed(backend, State(), events[k..])
        invariant Notices(backend, start, events) == notices + Notices(backend, State(), events[k..])
        invariant log == old(log) + JobLog(events[..k])
        invariant samples == old(samples) + JobSamples(events[..k])
      {
        ghost var m := State();
        assert events[k..][0] == events[k] && events[k..][1..] == events[k + 1..];
        JobPrefixGrows(events, k);
        var signal := Deliver(events[k], events[k..]);
        AppendAssoc(old(log), JobLog(events[..k]), EventLog(events[k]));
        AppendAssoc(old(samples), JobSamples(events[..k]), EventSamples(events[k]));
        if signal.Throws? {
          assert notices + [] == notices;
          faulted := true;
          return;
        }
        var noticed := if signal.Notice? then [signal.hint] else [];
        AppendAssoc(notices, noticed, Notices(backend, State(), events[k + 1..]));
        notices := notices + noticed;
        k := k + 1;
      }
      assert events[..k] == events && events[k..] == [];
      assert notices + [] == notices;
      faulted := false;
      progress := 100;
    }

    /** The per-job reset: `_errorDialogShowed`, a new log buffer and a new `_data`. */
    method ResetJob()
      modifies this`shown, this`inf, this`log, this`samples
      ensures Snapshot() == Cleared(old(Snapshot()))
    {
      shown := false;
      inf := false;
      log := [];
      samples := [];
    }

    /**
     * One pass of the `btnAnalyze_Click` loop: the per-job reset, the clip
     * (through hard links in link mode), the stored result and the cleanup.
     * `stopped` is set when a line handler throws.
     */
    method AnalyzePair(job: Job) returns (stopped: bool)
      modifies this`log, this`samples, this`inf, this`shown, this`progress, this`ffTotal
      modifies this`results, this`removals
      ensures stopped <==> JobStep(Config(), old(Snapshot()), job).None?
      ensures !stopped ==> Snapshot() == JobStep(Config(), old(Snapshot()), job).value
      ensures stopped ==> results == old(results) && removals == old(removals)
    {
      ghost var f := Snapshot();
      ResetJob();
      if !UseOriginPath(useOriginFlag, backend) && job.link == LinkFails {
        return false;
      }
      assert State().(progress := 0) == JobStart(f.monitor);
      var faulted, _ := AnalyzeClip(job.events);
      if faulted {
        return true;
      }
      ghost var m := Feed(backend, JobStart(f.monitor), job.events).value;
      assert log == JobLog(job.events) by {
        assert [] + JobLog(job.events) == JobLog(job.events);
      }
      assert samples == JobSamples(job.events) by {
        assert [] + JobSamples(job.events) == JobSamples(job.events);
      }
      assert Snapshot() == Ran(Cleared(f), job.events, m);
      StoreResult(job);
      stopped := false;
    }

    /**
     * The rest of one iteration of the batch loop once the clip ran: the
     * result (samples ordered by value, then index) is stored and the scripts
     * are removed as the job's mode and the cleanup rule say.
     */
    method StoreResult(job: Job)
      requires log == JobLog(job.events) && samples == JobSamples(job.events)
      modifies this`results, this`removals
      ensures Snapshot() == Finish(Config(), old(Snapshot()), job)
    {
      var data := Sort(samples);
      var result := Result(job.pair, data, log, inf);
      assert result == Stored(job.pair, job.events, inf);
      if !UseOriginPath(useOriginFlag, backend) {
        if job.link == UnlinkFails {
          return;
        }
        removals := removals + [LinkedScripts(job.pair)];
        results := results + [result];
      } else {
        results := results + [result];
        if RemovesScript(inf, backend, remainFile, UseOriginPath(useOriginFlag, backend)) {
          removals := removals + [OriginScripts(job.pair)];
        }
      }
    }

    /**
     * `btnAnalyze_Click` (the analysis loop): `_fullData` is cleared and every
     * file pair is analysed in turn. A handler exception ends the batch.
     */
    method Analyze(jobs: seq<Job>) returns (faulted: bool)
      modifies this`log, this`samples, this`inf, this`shown, this`progress, this`ffTotal
      modifies this`results, this`removals
      ensures var (f, stopped) := Batch(Config(), old(Snapshot()).(results := []), jobs);
        faulted == stopped && results == f.results && removals == f.removals &&
        (!faulted ==> Snapshot() == f)
    {
      results := [];
      ghost var before := Snapshot();
      ghost var cfg := Config();
      var k := 0;
      while k < |jobs|
        invariant 0 <= k <= |jobs|
        invariant Config() == cfg
        invariant Batch(cfg, before, jobs) == Batch(cfg, Snapshot(), jobs[k..])
      {
        ghost var f := Snapshot();
        assert jobs[k..][0] == jobs[k] && jobs[k..][1..] == jobs[k + 1..];
        BatchFirstJob(cfg, f, jobs[k..]);
        var stopped := AnalyzePair(jobs[k]);
        if stopped {
          faulted := true;
          return;
        }
        k := k + 1;
      }
      assert jobs[k..] == [];
      faulted := false;
    }
  }
}
