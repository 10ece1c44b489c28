/**
 * The batch of `btnAnalyze_Click` as a function of its inputs: for every
 * file pair the per-job fields are reset, the clip is analysed (directly, or
 * through hard links in link mode), a result holding the samples ordered by
 * value and then frame index is stored, and the intermediate scripts are
 * removed when the cleanup rule says so.
 */
module Jobs {
  import opened Options
  import opened Samples
  import opened Classifier
  import LineProperties

  /** `(src, opt)`: the source clip and the encoded clip compared against it. */
  datatype FilePair = FilePair(src: string, opt: string)

  /** `ReSulT`: the pair, its ordered samples, and the job's log buffer (its lines and its `Inf` flag). */
  datatype Result = Result(pair: FilePair, data: seq<Sample>, log: seq<string>, inf: bool)

  /**
   * How the file-system work of a hard-link job goes: both links made and
   * deleted, `CreateHardLinkCMD` throwing before the clip runs, or
   * `File.Delete` of a link throwing after it ran. Ignored outside link mode.
   */
  datatype LinkOutcome = LinksMade | LinkFails | UnlinkFails

  /** One entry of `FilePathsPair` with the output lines its process produces and its link outcome. */
  datatype Job = Job(pair: FilePair, events: seq<Event>, link: LinkOutcome)

  /** A `RemoveScript` call: on the pair itself, or on the hard links made for it. */
  datatype Removal = OriginScripts(pair: FilePair) | LinkedScripts(pair: FilePair)

  /** The options a batch runs under: the process kind, `_useOriginPath` and `_remainFile`. */
  datatype Settings = Settings(backend: Backend, useOriginFlag: bool, remainFile: bool)

  /**
   * The form's fields a batch changes: the line monitor, the current log
   * buffer's lines, `_data`, `_fullData` and the scripts removed so far.
   */
  datatype Form = Form(monitor: Monitor, log: seq<string>, samples: seq<Sample>,
                       results: seq<Result>, removals: seq<Removal>)

  /** `UseOriginPath`: hard links are used only by the VapourSynth process without the origin-path option. */
  function UseOriginPath(useOriginFlag: bool, b: Backend): (r: bool)
    ensures !r <==> !useOriginFlag && b == VsPsnr
  {
    useOriginFlag || !b.VsPsnr?
  }

  /** The two `continue` guards in front of `RemoveScript(item)`. */
  function RemovesScript(inf: bool, b: Backend, remainFile: bool, useOrigin: bool): (r: bool)
    ensures r <==> !inf && b == VsPsnr && !remainFile && useOrigin
  {
    if inf then false
    else if !b.VsPsnr? || remainFile || !useOrigin then false
    else true
  }

  /** What the log buffer records for one line: `err|` for stderr, `std|` for stdout, nothing for an empty line. */
  function EventLog(e: Event): (r: seq<string>)
    ensures |r| <= 1
    ensures r == [] <==> e.text == []
    ensures r != [] ==> |r[0]| == 4 + |e.text| && r[0][4..] == e.text &&
                        r[0][..4] == (if e.ProgressLine? then "err|" else "std|")
  {
    if e.text == [] then []
    else if e.ProgressLine? then ["err|" + e.text]
    else ["std|" + e.text]
  }

  /** A non-empty stdout line from which the process parser took a sample. */
  predicate Parses(e: Event) {
    e.ValueLine? && e.text != [] && e.parsed.Some?
  }

  /** The sample a line appends to `_data`: only non-empty stdout lines the process parser accepts. */
  function EventSamples(e: Event): (r: seq<Sample>)
    ensures |r| <= 1
    ensures r != [] ==> Parses(e) && r == [e.parsed.value]
    ensures e.ValueLine? && e.text != [] && e.parsed.Some? ==> r == [e.parsed.value]
  {
    if Parses(e) then [e.parsed.value] else []
  }

  /** The log buffer's lines after a run of lines. */
  function JobLog(es: seq<Event>): (r: seq<string>)
    ensures |r| <= |es|
  {
    if es == [] then [] else JobLog(es[..|es| - 1]) + EventLog(es[|es| - 1])
  }

  /** `_data` after a run of lines. */
  function JobSamples(es: seq<Event>): (r: seq<Sample>)
    ensures |r| <= |es|
  {
    if es == [] then [] else JobSamples(es[..|es| - 1]) + EventSamples(es[|es| - 1])
  }

  /** The log and the samples of a run grow line by line. */
  lemma JobPrefixGrows(es: seq<Event>, k: nat)
    requires k < |es|
    ensures JobLog(es[..k + 1]) == JobLog(es[..k]) + EventLog(es[k])
    ensures JobSamples(es[..k + 1]) == JobSamples(es[..k]) + EventSamples(es[k])
  {
    assert es[..k + 1][..k] == es[..k];
  }

  /** The samples of two runs, one after the other, are the first run's followed by the second's. */
  lemma {:induction false} JobSamplesAppend(a: seq<Event>, b: seq<Event>)
    ensures JobSamples(a + b) == JobSamples(a) + JobSamples(b)
    decreases |b|
  {
    if b == [] {
      assert a + b == a;
      assert JobSamples(a) + [] == JobSamples(a);
    } else {
      var init, last := b[..|b| - 1], b[|b| - 1];
      assert b == init + [last];
      assert a + b == (a + init) + [last];
      JobSamplesSnoc(a + init, last);
      JobSamplesSnoc(init, last);
      JobSamplesAppend(a, init);
      AppendAssoc(JobSamples(a), JobSamples(init), EventSamples(last));
    }
  }

  /** One more line appends that line's sample, if any. */
  lemma JobSamplesSnoc(es: seq<Event>, e: Event)
    ensures JobSamples(es + [e]) == JobSamples(es) + EventSamples(e)
  {
    assert (es + [e])[..|es|] == es;
  }

  /**
   * No sample is dropped: the sample of every parsed stdout line is in
   * `_data`, after the samples of the lines before it and before those of
   * the lines after it.
   */
  lemma ParsedSampleKept(es: seq<Event>, k: nat)
    requires k < |es| && es[k].ValueLine? && es[k].text != [] && es[k].parsed.Some?
    ensures JobSamples(es) == JobSamples(es[..k]) + [es[k].parsed.value] + JobSamples(es[k + 1..])
  {
    assert es == es[..k + 1] + es[k + 1..];
    JobSamplesAppend(es[..k + 1], es[k + 1..]);
    JobPrefixGrows(es, k);
  }

  /** The log of two runs, one after the other, is the first run's followed by the second's. */
  lemma {:induction false} JobLogAppend(a: seq<Event>, b: seq<Event>)
    ensures JobLog(a + b) == JobLog(a) + JobLog(b)
    decreases |b|
  {
    if b == [] {
      assert a + b == a;
      assert JobLog(a) + [] == JobLog(a);
    } else {
      var init, last := b[..|b| - 1], b[|b| - 1];
      assert b == init + [last];
      assert a + b == (a + init) + [last];
      JobLogSnoc(a + init, last);
      JobLogSnoc(init, last);
      JobLogAppend(a, init);
      AppendAssoc(JobLog(a), JobLog(init), EventLog(last));
    }
  }

  /** Logging one more line appends that line's entry. */
  lemma JobLogSnoc(es: seq<Event>, e: Event)
    ensures JobLog(es + [e]) == JobLog(es) + EventLog(e)
  {
    assert (es + [e])[..|es|] == es;
  }

  /**
   * Every non-empty line is logged: its tagged entry is in the log buffer,
   * after the entries of the lines before it and before those of the lines
   * after it.
   */
  lemma LineLogged(es: seq<Event>, k: nat)
    requires k < |es| && es[k].text != []
    ensures JobLog(es) == JobLog(es[..k]) + EventLog(es[k]) + JobLog(es[k + 1..])
    ensures |EventLog(es[k])| == 1
  {
    assert es == es[..k + 1] + es[k + 1..];
    JobLogAppend(es[..k + 1], es[k + 1..]);
    JobPrefixGrows(es, k);
  }

  /** Nothing else is added: every sample in `_data` is the sample of some parsed stdout line. */
  lemma {:induction false} SamplesComeFromLines(es: seq<Event>)
    ensures forall x :: x in JobSamples(es) ==> exists k :: 0 <= k < |es| && Parses(es[k]) && es[k].parsed.value == x
    decreases |es|
  {
    if es != [] {
      var init := es[..|es| - 1];
      SamplesComeFromLines(init);
      forall x | x in JobSamples(es)
        ensures exists k :: 0 <= k < |es| && Parses(es[k]) && es[k].parsed.value == x
      {
        if x in JobSamples(init) {
          var k :| 0 <= k < |init| && Parses(init[k]) && init[k].parsed.value == x;
          assert es[k] == init[k];
        } else {
          assert Parses(es[|es| - 1]) && es[|es| - 1].parsed.value == x;
        }
      }
    }
  }

  /** The result stored for a pair whose clip ran. */
  function Stored(pair: FilePair, es: seq<Event>, inf: bool): (r: Result)
    ensures r.pair == pair && r.log == JobLog(es) && r.inf == inf
    ensures Sorted(r.data) && multiset(r.data) == multiset(JobSamples(es))
  {
    Result(pair, Sort(JobSamples(es)), JobLog(es), inf)
  }

  /** The monitor a clip starts from: fresh flags, the bar at 0, the FFmpeg total kept. */
  function JobStart(m: Monitor): (r: Monitor)
    ensures !r.inf && !r.shown && r.progress == 0 && r.ffTotal == m.ffTotal
  {
    Monitor(false, false, 0, m.ffTotal)
  }

  /** The per-job reset: `_errorDialogShowed`, a new log buffer (lines and `Inf`), a new `_data`. */
  function Cleared(f: Form): Form {
    f.(monitor := f.monitor.(inf := false, shown := false), log := [], samples := [])
  }

  /** The form after a clip whose lines left the monitor at `m`: the bar full, the buffer and the samples filled. */
  function Ran(f: Form, es: seq<Event>, m: Monitor): Form {
    f.(monitor := m.(progress := 100), log := JobLog(es), samples := JobSamples(es))
  }

  /**
   * One iteration of the batch loop, or None when a line handler throws
   * while the clip runs.
   */
  function JobStep(s: Settings, f: Form, j: Job): (r: Option<Form>)
    ensures r.Some? ==> f.results <= r.value.results && |r.value.results| <= |f.results| + 1
    ensures r.Some? ==> f.removals <= r.value.removals && |r.value.removals| <= |f.removals| + 1
    ensures r.Some? && |r.value.results| > |f.results| ==> Sorted(r.value.results[|f.results|].data)
  {
    if !UseOriginPath(s.useOriginFlag, s.backend) && j.link == LinkFails then Some(Cleared(f))
    else
      match Feed(s.backend, JobStart(f.monitor), j.events)
      case None => None
      case Some(m) => Some(Finish(s, Ran(Cleared(f), j.events, m), j))
  }

  /**
   * The rest of a job once its clip ran and left the form at `ran`: in link
   * mode the links' scripts are removed and the result stored unless deleting
   * a link throws; otherwise the result is stored and the scripts next to the
   * files removed when the cleanup rule says so.
   */
  function Finish(s: Settings, ran: Form, j: Job): Form {
    var result := Stored(j.pair, j.events, ran.monitor.inf);
    if !UseOriginPath(s.useOriginFlag, s.backend) then
      if j.link == UnlinkFails then ran
      else ran.(results := ran.results + [result], removals := ran.removals + [LinkedScripts(j.pair)])
    else
      var kept := ran.(results := ran.results + [result]);
      if RemovesScript(ran.monitor.inf, s.backend, s.remainFile, true)
      then kept.(removals := kept.removals + [OriginScripts(j.pair)])
      else kept
  }

  /**
   * What one job does to the stored results, the removed scripts and the
   * FFmpeg total: it stops only when a handler throws while its clip runs;
   * outside link mode the result is always stored and the scripts are removed
   * exactly when the cleanup rule says so; in link mode both happen exactly
   * when the links were made and deleted; the total is the one the clip's
   * lines leave.
   */
  lemma JobStepEffects(s: Settings, f: Form, j: Job)
    ensures var linking := !UseOriginPath(s.useOriginFlag, s.backend);
      JobStep(s, f, j).None? <==> !(linking && j.link == LinkFails) && Feed(s.backend, JobStart(f.monitor), j.events).None?
    ensures JobStep(s, f, j).Some? && UseOriginPath(s.useOriginFlag, s.backend) ==>
      var (g, m) := (JobStep(s, f, j).value, Feed(s.backend, JobStart(f.monitor), j.events).value);
      g.results == f.results + [Stored(j.pair, j.events, m.inf)] &&
      (|g.removals| > |f.removals| <==> !m.inf && s.backend == VsPsnr && !s.remainFile)
    ensures JobStep(s, f, j).Some? && !UseOriginPath(s.useOriginFlag, s.backend) ==>
      var g := JobStep(s, f, j).value;
      (|g.results| > |f.results| <==> j.link == LinksMade) &&
      (|g.removals| > |f.removals| <==> j.link == LinksMade)
    ensures JobStep(s, f, j).Some? && |JobStep(s, f, j).value.results| > |f.results| ==>
      JobStep(s, f, j).value.results[|f.results|].pair == j.pair
    ensures JobStep(s, f, j).Some? && |JobStep(s, f, j).value.removals| > |f.removals| ==>
      JobStep(s, f, j).value.removals[|f.removals|] ==
        if UseOriginPath(s.useOriginFlag, s.backend) then OriginScripts(j.pair) else LinkedScripts(j.pair)
    ensures JobStep(s, f, j).Some? ==>
      JobStep(s, f, j).value.monitor.ffTotal ==
        if !UseOriginPath(s.useOriginFlag, s.backend) && j.link == LinkFails then f.monitor.ffTotal
        else Feed(s.backend, JobStart(f.monitor), j.events).value.ffTotal
  {
  }

  /**
   * In link mode a clip whose links were made and deleted stores the job's
   * result and removes the links' scripts; when making a link throws, or
   * deleting one does, nothing is stored and nothing removed.
   */
  lemma LinkJobEffects(s: Settings, f: Form, j: Job)
    requires !s.useOriginFlag && s.backend == VsPsnr
    requires JobStep(s, f, j).Some?
    ensures var g := JobStep(s, f, j).value;
      j.link == LinksMade ==>
        var m := Feed(s.backend, JobStart(f.monitor), j.events).value;
        g.results == f.results + [Stored(j.pair, j.events, m.inf)] &&
        g.removals == f.removals + [LinkedScripts(j.pair)]
    ensures var g := JobStep(s, f, j).value;
      j.link != LinksMade ==> g.results == f.results && g.removals == f.removals
  {
  }

  /**
   * Hard links are used only by the VapourSynth process without the
   * origin-path option: for any other process, or with the option set, how
   * the link calls would have gone makes no difference to a job.
   */
  lemma LinksOnlyForVapourSynth(s: Settings, f: Form, j: Job, other: LinkOutcome)
    requires s.useOriginFlag || s.backend != VsPsnr
    ensures JobStep(s, f, j) == JobStep(s, f, j.(link := other))
  {
  }

  /**
   * The notice flag is reset for every job: whatever the previous jobs
   * showed, a clip whose first line is a VapourSynth failure line with a
   * known signature shows exactly that notice.
   */
  lemma EveryJobMayNotice(f: Form, line: string, h: Hint, rest: seq<Event>)
    requires VsFailure(line) && KnownFailure(line) == Some(h)
    ensures Notices(VsPsnr, JobStart(f.monitor), [ProgressLine(line)] + rest) == [h]
  {
    LineProperties.SignatureNoticedOnce(JobStart(f.monitor), line, h, rest);
  }

  /** The whole loop over the pairs: the final form, and whether a line handler's exception ended it. */
  function Batch(s: Settings, f: Form, jobs: seq<Job>): (r: (Form, bool))
    ensures f.results <= r.0.results && |r.0.results| <= |f.results| + |jobs|
    ensures f.removals <= r.0.removals
    decreases |jobs|
  {
    if jobs == [] then (f, false)
    else
      match JobStep(s, f, jobs[0])
      case None => (f, true)
      case Some(g) => Batch(s, g, jobs[1..])
  }

  /** Every result a batch stores holds its samples in stored order. */
  lemma {:induction false} BatchResultsSorted(s: Settings, f: Form, jobs: seq<Job>)
    ensures forall k :: |f.results| <= k < |Batch(s, f, jobs).0.results| ==> Sorted(Batch(s, f, jobs).0.results[k].data)
    decreases |jobs|
  {
    if jobs != [] && JobStep(s, f, jobs[0]).Some? {
      var g := JobStep(s, f, jobs[0]).value;
      var rs := Batch(s, g, jobs[1..]).0.results;
      BatchResultsSorted(s, g, jobs[1..]);
      assert Batch(s, f, jobs).0.results == rs;
      SortedAfterStep(f.results, g.results, rs);
    }
  }

  /** One stored result with sorted data, followed by more of them, gives only sorted results after the first store. */
  lemma SortedAfterStep(before: seq<Result>, after: seq<Result>, rs: seq<Result>)
    requires before <= after && |after| <= |before| + 1 && after <= rs
    requires |after| > |before| ==> Sorted(after[|before|].data)
    requires forall k :: |after| <= k < |rs| ==> Sorted(rs[k].data)
    ensures forall k :: |before| <= k < |rs| ==> Sorted(rs[k].data)
  {
    forall k | |before| <= k < |rs| ensures Sorted(rs[k].data) {
      if k < |after| {
        assert rs[k] == after[k];
      }
    }
  }

  /** Regrouping a concatenation (stated once so that proofs need not rediscover it). */
  lemma AppendAssoc<T>(a: seq<T>, b: seq<T>, c: seq<T>)
    ensures (a + b) + c == a + (b + c)
  {
  }

  /** The batch is the first job followed by the batch of the rest. */
  lemma BatchFirstJob(s: Settings, f: Form, jobs: seq<Job>)
    requires jobs != []
    ensures JobStep(s, f, jobs[0]).None? ==> Batch(s, f, jobs) == (f, true)
    ensures JobStep(s, f, jobs[0]).Some? ==> Batch(s, f, jobs) == Batch(s, JobStep(s, f, jobs[0]).value, jobs[1..])
  {
  }

  /** Whether a job that does not fault stores a result: always outside link mode, and in link mode when the links were made and deleted. */
  predicate StoresResult(linking: bool, j: Job) {
    !linking || j.link == LinksMade
  }

  /** A batch that does not fault stores the first pair's result when that job stores one, and goes on with the rest. */
  lemma FirstPairStored(s: Settings, f: Form, jobs: seq<Job>) returns (g: Form)
    requires jobs != [] && !Batch(s, f, jobs).1
    ensures Batch(s, f, jobs) == Batch(s, g, jobs[1..])
    ensures g.results == f.results +
      if StoresResult(!UseOriginPath(s.useOriginFlag, s.backend), jobs[0])
      then [Stored(jobs[0].pair, jobs[0].events, g.monitor.inf)] else []
  {
    BatchFirstJob(s, f, jobs);
    JobStepEffects(s, f, jobs[0]);
    g := JobStep(s, f, jobs[0]).value;
    if !UseOriginPath(s.useOriginFlag, s.backend) {
      LinkJobEffects(s, f, jobs[0]);
      assert f.results + [] == f.results;
    }
  }

  /** The pairs a run of results is for, in order. */
  function PairsOf(rs: seq<Result>): (ps: seq<FilePair>)
    ensures |ps| == |rs| && forall k :: 0 <= k < |rs| ==> ps[k] == rs[k].pair
  {
    seq(|rs|, k requires 0 <= k < |rs| => rs[k].pair)
  }

  /** The pairs of a run of jobs, in order. */
  function JobPairs(jobs: seq<Job>): seq<FilePair> {
    seq(|jobs|, k requires 0 <= k < |jobs| => jobs[k].pair)
  }

  /** The pairs of the jobs that store a result, in order. */
  function StoredPairs(linking: bool, jobs: seq<Job>): seq<FilePair>
    decreases |jobs|
  {
    if jobs == [] then []
    else (if StoresResult(linking, jobs[0]) then [jobs[0].pair] else []) + StoredPairs(linking, jobs[1..])
  }

  /** Outside link mode every job stores a result. */
  lemma {:induction false} AllPairsStored(jobs: seq<Job>)
    ensures StoredPairs(false, jobs) == JobPairs(jobs)
    decreases |jobs|
  {
    if jobs != [] {
      AllPairsStored(jobs[1..]);
      JobPairsFirst(jobs);
    }
  }

  lemma PairsOfAppend(rs: seq<Result>, extra: seq<Result>)
    ensures PairsOf(rs + extra) == PairsOf(rs) + PairsOf(extra)
  {
  }

  lemma JobPairsFirst(jobs: seq<Job>)
    requires jobs != []
    ensures JobPairs(jobs) == [jobs[0].pair] + JobPairs(jobs[1..])
  {
  }

  /**
   * A batch that does not fault adds one result per job that stores one, in
   * the order of the pairs, whether or not inferred failure was set while a
   * clip ran: outside link mode that is one result for every pair, in link
   * mode one for every pair whose links were made and deleted.
   */
  lemma {:induction false} ResultsFollowPairs(s: Settings, f: Form, jobs: seq<Job>)
    requires !Batch(s, f, jobs).1
    ensures PairsOf(Batch(s, f, jobs).0.results)
         == PairsOf(f.results) + StoredPairs(!UseOriginPath(s.useOriginFlag, s.backend), jobs)
    ensures UseOriginPath(s.useOriginFlag, s.backend) ==>
      PairsOf(Batch(s, f, jobs).0.results) == PairsOf(f.results) + JobPairs(jobs)
    decreases |jobs|
  {
    var linking := !UseOriginPath(s.useOriginFlag, s.backend);
    if jobs == [] {
      assert PairsOf(f.results) + [] == PairsOf(f.results);
    } else {
      var g := FirstPairStored(s, f, jobs);
      ResultsFollowPairs(s, g, jobs[1..]);
      var added := g.results[|f.results|..];
      assert g.results == f.results + added;
      PairsOfAppend(f.results, added);
      assert PairsOf(added) == if StoresResult(linking, jobs[0]) then [jobs[0].pair] else [];
      AppendAssoc(PairsOf(f.results), PairsOf(added), StoredPairs(linking, jobs[1..]));
    }
    if !linking {
      AllPairsStored(jobs);
    }
  }

  /** In link mode the scripts next to the original files are never removed. */
  lemma {:induction false} LinkModeKeepsOriginScripts(s: Settings, f: Form, jobs: seq<Job>)
    requires !UseOriginPath(s.useOriginFlag, s.backend)
    ensures forall k :: |f.removals| <= k < |Batch(s, f, jobs).0.removals| ==>
      Batch(s, f, jobs).0.removals[k].LinkedScripts?
    decreases |jobs|
  {
    if jobs != [] {
      match JobStep(s, f, jobs[0])
      case None =>
      case Some(g) =>
        JobStepEffects(s, f, jobs[0]);
        LinkModeKeepsOriginScripts(s, g, jobs[1..]);
    }
  }

  /**
   * A captured FFmpeg total survives every later job of the batch: the field
   * is not reset per job, so later clips never capture their own total.
   */
  lemma {:induction false} TotalCarriesOver(s: Settings, f: Form, jobs: seq<Job>)
    requires f.monitor.ffTotal != NoTotal
    requires !Batch(s, f, jobs).1
    ensures Batch(s, f, jobs).0.monitor.ffTotal == f.monitor.ffTotal
    decreases |jobs|
  {
    if jobs != [] {
      var g := JobStep(s, f, jobs[0]).value;
      JobStepEffects(s, f, jobs[0]);
      if !(!UseOriginPath(s.useOriginFlag, s.backend) && jobs[0].link == LinkFails) {
        LineProperties.TotalNeverOverwritten(s.backend, JobStart(f.monitor), jobs[0].events);
      }
      TotalCarriesOver(s, g, jobs[1..]);
    }
  }
}
