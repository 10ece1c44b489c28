# RPChecker: the main form's output-line state machine and result bookkeeping

RPChecker compares an encoded clip with its source, frame by frame, by
running a measuring process. Three process kinds are modelled: VapourSynth
pipe PSNR, FFmpeg PSNR and FFmpeg SSIM. The process writes its progress and
its errors to stderr and its per-frame values to stdout. The main form
(`RPChecker/Forms/Form1.cs`) reads these lines one at a time and keeps a few
fields up to date:

- the job's inferred-failure flag (`_currentBuffer.Inf`);
- the "a remediation notice was already shown" flag (`_errorDialogShowed`);
- the progress-bar value;
- the FFmpeg total frame count (`_ffmpegTotalFrame`, with `int.MaxValue` meaning none yet);
- the job's log buffer and sample list.

After each clip, the form stores one result per file pair. The result holds
the samples ordered by value, then by frame index. The form then removes the
intermediate scripts when the cleanup rule says so. The grid shows a prefix
of a result's samples, coloured against a threshold.

The project models this core as follows:

- `Text` and `Patterns` (`text.dfy`, `patterns.dfy`) model the three
  progress regexes. Each is a leftmost-match search with greedy ASCII
  `\d+`/`\s*` groups. For `Frame: (\d+)/(\d+)` and `frame=\s*(\d+)` the
  greedy reading is proved to accept exactly the start positions the
  backtracking regex accepts. For `NUMBER_OF_FRAMES: (\d+)` the two readings
  agree trivially: the single group ends the pattern, so nothing can follow
  it and force a shorter digit run.
- `Classifier` (`classifier.dfy`) states what one line does to the monitor
  state, as pure functions: `VsStep` for `VsUpdateProgress`, `FfStep` for
  `FFmpegUpdateProgress`, and `Handle` for the dispatch in `ProgressUpdated`.
  `Feed` and `Notices` state what a run of lines does.
- `LineProperties` (`properties.dfy`) proves properties of whole runs of
  lines, and worked examples of single lines.
- `Samples` (`samples.dfy`) holds the stored order of a job's samples. It
  proves the sort is a sorted permutation and that the sorted arrangement is
  unique.
- `Jobs` (`jobs.dfy`) describes the batch of `btnAnalyze_Click` as functions
  of the settings, the form and the jobs.
- `MainForm` (`checker.dfy`) is the form itself. `MainForm.Checker` is a
  class with the form's fields, and its handlers are methods that update
  them in place. Each method is proved equal to the step function it
  implements.
- `Grid` (`grid.dfy`) models the row loop of `UpdateGridView`.

Handler exceptions are modelled rather than excluded:

- An `int.Parse` overflow is a `Throws(ParseOverflow)` signal.
- A progress value outside 0..100 is a `Throws(ValueOutOfRange)` signal.
  This covers `(int)Math.Floor` of NaN or infinity, taken to be
  `int.MinValue`, which is what `Frame: 0/0` produces.
- A throwing line leaves the state unchanged and ends the batch.

Two behaviours of the source are worth noting; the model follows them:

- Parsing of stdout values goes on after inferred failure is set, because
  `ValueUpdated` does not look at `Inf`.
- `_ffmpegTotalFrame` is never reset between jobs, so a later FFmpeg clip
  never captures its own total. `Jobs.TotalCarriesOver` proves this.

## Model

| member | source | states |
|---|---|---|
| Patterns.FirstMatch | RPChecker/Forms/Form1.cs:424 | `Regex.Match` is the leftmost start index at which the pattern matches; there is no match exactly when no index 0..\|s\| matches |
| Patterns.FirstSetIsFirst | RPChecker/Forms/Form1.cs:466 | the left-to-right scan skips no earlier match, and finds none only when there is none |
| Patterns.VsFrameMatchIsRegex | RPChecker/Forms/Form1.cs:424 | the greedy reading of `Frame: (\d+)/(\d+)` matches at a position exactly when the backtracking regex does |
| Patterns.FfFrameMatchIsRegex | RPChecker/Forms/Form1.cs:482 | the greedy reading of `frame=\s*(\d+)` matches at a position exactly when the backtracking regex does |
| Patterns.MatchAtStart | RPChecker/Forms/Form1.cs:466 | a pattern that matches at index 0 is the leftmost match |
| Patterns.VsFrameLineReads | RPChecker/Forms/Form1.cs:424 | a line `Frame: P/T…` whose digit groups end at a non-digit reads as the pair (P, T) |
| Patterns.FfTotalLineReads | RPChecker/Forms/Form1.cs:481 | a line `NUMBER_OF_FRAMES: N…` reads as N |
| Patterns.FfFrameLineReads | RPChecker/Forms/Form1.cs:482 | a line `frame=`, white space, then digits P, reads as P; the `\s*` group takes the whole white-space run |
| Text.DigitSpanIs | RPChecker/Forms/Form1.cs:424 | the greedy `\d+` group is exactly the maximal run of digits |
| Text.SpaceSpanIs | RPChecker/Forms/Form1.cs:482 | the greedy `\s*` group is exactly the maximal run of white space |
| Classifier.VsStep | RPChecker/Forms/Form1.cs:427-476 | `Inf` becomes set exactly when it was set or the line shows `Failed`/`Error` in any case; while it is set, progress stays and a notice appears only for a known signature when none was shown; a `Frame: P/T` match with in-range P ≤ T, T > 0 sets the progress to ⌊P·100/T⌋; P > T changes nothing; `0/0` throws (the bar is handed `int.MinValue`); an overflowing group throws; a throwing line leaves the state unchanged |
| Classifier.FfStep | RPChecker/Forms/Form1.cs:483-511 | `[Parsed_` at the start sets `Inf` and freezes everything; before a total is known only `NUMBER_OF_FRAMES: N` changes state (it captures N and leaves progress alone); afterwards the total is kept and `frame= P` with P ≤ total sets ⌊P·100/total⌋; a captured total 0 followed by `frame= 0` throws; no notice is ever shown |
| Classifier.Redraw | RPChecker/Forms/Form1.cs:471-474 | the bar is set only when asked and the value differs; a differing value outside 0..100 throws and changes nothing; otherwise nothing changes |
| Classifier.FrameUpdate | RPChecker/Forms/Form1.cs:470-474 | P ≤ T with T > 0 moves the bar to ⌊P·100/T⌋; P > T leaves the monitor as it was; P = T = 0 throws |
| Classifier.PercentInRange | RPChecker/Forms/Form1.cs:470 | P ≤ T with T > 0 gives a percentage in 0..100 |
| Classifier.Handle | RPChecker/Forms/Form1.cs:382-401 | an empty line and a stdout line leave the monitor alone; a non-empty stderr line gets exactly the reaction of the process kind's handler (`VsStep` for VapourSynth, `FfStep` for FFmpeg); `Inf` becomes set exactly for a failure line; only VapourSynth shows notices, and only while none was shown |
| LineProperties.InfFreezesProgress | RPChecker/Forms/Form1.cs:433-463 | once `Inf` is set, no later line of the job throws, and progress and the total stay as they were |
| LineProperties.InfTracksFailureLines | RPChecker/Forms/Form1.cs:429-431 | after a run of lines, `Inf` is set exactly when it was set before or some stderr line was a failure line |
| LineProperties.FailureWordInAnyCase | RPChecker/Forms/Form1.cs:425 | any case-spelling of `failed` or `error`, anywhere in a line, makes it a VapourSynth failure line |
| LineProperties.NoticeAtMostOnce | RPChecker/Forms/Form1.cs:433-462 | a job shows at most one remediation notice, and none once one was shown |
| LineProperties.FFmpegNeverNotices | RPChecker/Forms/Form1.cs:483-511 | the FFmpeg backends never show a remediation notice |
| LineProperties.SignatureNoticedOnce | RPChecker/Forms/Form1.cs:433-462 | in a fresh job, a failure line with a known signature gives exactly its own notice, whatever lines follow |
| LineProperties.TotalNeverOverwritten | RPChecker/Forms/Form1.cs:493-502 | a captured FFmpeg total is kept by every later line |
| LineProperties.NoProgressBeforeTotal | RPChecker/Forms/Form1.cs:493-502 | on FFmpeg, progress does not move while no total is captured |
| LineProperties.ProgressStaysInRange | RPChecker/Forms/Form1.cs:466-474 | over any run of lines the progress value stays within 0..100 |
| LineProperties.VsStepIdempotent | RPChecker/Forms/Form1.cs:427-476 | feeding a VapourSynth line twice leaves the state of feeding it once, and notices nothing new |
| LineProperties.VsFrameLineMovesBar | RPChecker/Forms/Form1.cs:466-474 | a `Frame: P/T` line without a failure word, with 0 < T and P ≤ T, sets the bar to ⌊P·100/T⌋ |
| LineProperties.VsZeroOfZeroThrows | RPChecker/Forms/Form1.cs:468-473 | `Frame: 0/0` makes the bar's setter throw and leaves the state unchanged |
| LineProperties.FfTotalLineCaptures | RPChecker/Forms/Form1.cs:493-501 | before a total is known, `NUMBER_OF_FRAMES: N` with N in range captures N and nothing else |
| LineProperties.FfFrameLineMovesBar | RPChecker/Forms/Form1.cs:503-510 | with a total T known, `frame= P` with P ≤ T sets the bar to ⌊P·100/T⌋ |
| LineProperties.NoFailureWord | RPChecker/Forms/Form1.cs:425 | a line without the letters l and o in either case is not a failure line |
| LineProperties.FfTotalExample | RPChecker/Forms/Form1.cs:485 | `NUMBER_OF_FRAMES: 100` on a fresh FFmpeg job captures the total 100 |
| LineProperties.FfFrameExample | RPChecker/Forms/Form1.cs:486 | with the total 100, `frame=  50 fps= 25` moves the bar from 0 to 50 |
| LineProperties.VsFrameExample | RPChecker/Forms/Form1.cs:466-474 | `Frame: 12/24` moves a fresh bar to 50 |
| LineProperties.VsZeroOfZeroExample | RPChecker/Forms/Form1.cs:470-473 | `Frame: 0/0` throws and the state stays as it was |
| Samples.NotAfterAntisymmetric | RPChecker/Forms/Form1.cs:259 | the value-then-index order is antisymmetric on samples |
| Samples.Insert | RPChecker/Forms/Form1.cs:259 | inserting into a sorted sequence keeps it sorted and adds exactly the one sample |
| Samples.Sort | RPChecker/Forms/Form1.cs:259 | `OrderBy(value).ThenBy(index)` gives a sorted permutation of the samples: nothing dropped, nothing merged |
| Samples.SortedPermutationUnique | RPChecker/Forms/Form1.cs:259 | two sorted permutations of the same samples are equal, so the stored data does not depend on the sorting algorithm |
| Samples.SortFixesSorted | RPChecker/Forms/Form1.cs:259 | sorting leaves a sequence unchanged exactly when it is already in stored order |
| Samples.SortExample | RPChecker/Forms/Form1.cs:259 | equal values keep frame-index order, and lower values come first |
| Grid.GridRows | RPChecker/Forms/Form1.cs:225-240 | the rows are the data's prefix in order, at most 2049; a row is red exactly when its value is below the threshold; every row from position 451 on is at or below the threshold; the loop stops only at the break condition or at the end of the data |
| Grid.SortedBelowIsPrefix | RPChecker/Forms/Form1.cs:228-230 | in sorted data, the samples at or below the threshold are exactly a prefix |
| Grid.RowCountOfSortedData | RPChecker/Forms/Form1.cs:228-230 | for sorted data the row count is min(\|data\|, 2049, max(451, the number of samples at or below the threshold)) |
| Jobs.EventLog | RPChecker/Forms/Form1.cs:382-407 | an empty line logs nothing; a non-empty line logs one entry: the stream tag `err|` (stderr) or `std|` (stdout) followed by the line verbatim |
| Jobs.JobLogAppend | RPChecker/Forms/Form1.cs:387 | the log of two runs of lines, one after the other, is the first run's followed by the second's |
| Jobs.LineLogged | RPChecker/Forms/Form1.cs:387 | no line is dropped from the log: each non-empty line's tagged entry is in the buffer, after the entries of earlier lines and before those of later ones |
| Jobs.EventSamples | RPChecker/Forms/Form1.cs:403-418 | a non-empty stdout line the parser accepts appends exactly its parsed sample; no other line, an empty stdout line included, appends anything |
| Jobs.JobSamplesAppend | RPChecker/Forms/Form1.cs:403-418 | the samples of two runs of lines, one after the other, are the first run's followed by the second's |
| Jobs.ParsedSampleKept | RPChecker/Forms/Form1.cs:403-418 | no sample is dropped: each parsed stdout line's sample is in `_data`, after the samples of earlier lines and before those of later ones |
| Jobs.SamplesComeFromLines | RPChecker/Forms/Form1.cs:403-418 | nothing else is added: every sample in `_data` is the parsed sample of some non-empty stdout line |
| Jobs.Stored | RPChecker/Forms/Form1.cs:259-260 | the stored result holds the pair, the job's log and `Inf` flag, and a sorted permutation of the job's samples |
| Jobs.JobStep | RPChecker/Forms/Form1.cs:250-270 | one loop iteration only appends to the results and the removals, at most one each, and a new result's data is sorted |
| Jobs.JobStepEffects | RPChecker/Forms/Form1.cs:252-307 | a job stops the batch exactly when a handler throws while its clip runs; outside link mode the result `Stored(pair, lines, Inf)` is always appended, and the scripts are removed exactly when `Inf` is clear, the process is VapourSynth and files are not kept (the guards at lines 261-262); in link mode both happen exactly when the links were made and deleted; the result is for the job's pair and the removal is of the right kind; the total is the one the clip's lines leave |
| Jobs.LinkJobEffects | RPChecker/Forms/Form1.cs:296-307 | in link mode, links made and deleted store `Stored(pair, lines, Inf)` and remove the links' scripts; a throwing link or delete stores nothing and removes nothing |
| Jobs.LinksOnlyForVapourSynth | RPChecker/Forms/Form1.cs:290 | with the origin-path option set, or a process other than VapourSynth, how the link calls would have gone makes no difference to a job: hard links are used only by VapourSynth without the option |
| Jobs.EveryJobMayNotice | RPChecker/Forms/Form1.cs:254 | the notice flag is reset per job: whatever earlier jobs showed, a job whose first line is a failure line with a known signature shows exactly that notice |
| Jobs.Batch | RPChecker/Forms/Form1.cs:248-271 | the batch only appends, at most one result per pair |
| Jobs.BatchResultsSorted | RPChecker/Forms/Form1.cs:259-260 | every result a batch stores holds its samples in stored order |
| Jobs.FirstPairStored | RPChecker/Forms/Form1.cs:258-260 | a batch that does not fault stores the first pair's result, when that job stores one, and goes on with the rest |
| Jobs.ResultsFollowPairs | RPChecker/Forms/Form1.cs:250-263 | a batch that does not fault stores one result per job that stores one, in pair order, even when `Inf` was set: outside link mode one per pair, in link mode one per pair whose links were made and deleted |
| Jobs.LinkModeKeepsOriginScripts | RPChecker/Forms/Form1.cs:262 | in link mode only the hard links' scripts are removed, never those next to the original files |
| Jobs.TotalCarriesOver | RPChecker/Forms/Form1.cs:480 | a captured FFmpeg total survives every later job of the batch |
| MainForm.Checker.constructor | RPChecker/Forms/Form1.cs:53-57 | a new form uses FFmpeg PSNR, has the threshold 30, no options set, no total captured and no results |
| MainForm.Checker.UseBackend | RPChecker/Forms/Form1.cs:65-92 | the process kind becomes `b`; the process object (and its threshold) is kept when it already is of that kind and replaced otherwise; `UpdateText` resets the grid threshold to the process's |
| MainForm.Checker.UseOriginalPaths | RPChecker/Forms/Form1.cs:65-97 | the command sets the origin-path option, so origin paths are used, and `UpdateText` resets the grid threshold to the process's |
| MainForm.Checker.ToggleRemainFile | RPChecker/Forms/Form1.cs:545-556 | the keep-files option toggles exactly when origin paths are used |
| MainForm.Checker.ShowNotice | RPChecker/Forms/Form1.cs:433-463 | the first known signature the line shows is noticed unless a notice was already shown, and the flag records it |
| MainForm.Checker.VsUpdateProgress | RPChecker/Forms/Form1.cs:427-476 | the new fields and the signal are those of `VsStep` |
| MainForm.Checker.FFmpegUpdateProgress | RPChecker/Forms/Form1.cs:483-511 | the new fields and the signal are those of `FfStep` |
| MainForm.Checker.SetBar | RPChecker/Forms/Form1.cs:506-510 | the bar changes as `FrameUpdate` says |
| MainForm.Checker.ProgressUpdated | RPChecker/Forms/Form1.cs:382-401 | a non-empty line is logged with `err\|` and handled as `Handle` says |
| MainForm.Checker.ValueUpdated | RPChecker/Forms/Form1.cs:403-419 | a non-empty line is logged with `std\|` and its parsed sample appended |
| MainForm.Checker.Deliver | RPChecker/Forms/Form1.cs:382-419 | one line's effect is that of `Handle`, and the rest of the run goes on from the new state |
| MainForm.Checker.AnalyzeClip | RPChecker/Forms/Form1.cs:315-360 | the clip starts with the bar at 0 and faults exactly when a handler throws; the notices are those of `Notices`; otherwise the final fields are `Feed`'s with the bar at 100, and the log and samples are the run's |
| MainForm.Checker.ResetJob | RPChecker/Forms/Form1.cs:254-256 | the per-job reset clears both flags, the log buffer and the samples |
| MainForm.Checker.StoreResult | RPChecker/Forms/Form1.cs:259-263 | the result and the removals are as `Finish` says |
| MainForm.Checker.AnalyzePair | RPChecker/Forms/Form1.cs:252-313 | one loop iteration changes the form as `JobStep` says, and stops exactly when it says so |
| MainForm.Checker.Analyze | RPChecker/Forms/Form1.cs:246-271 | the analysis clears the results and then changes the form as `Batch` says |

## Left out

- The WinForms plumbing is not modelled. This covers `Invoke`, the `IsHandleCreated`/`IsDisposed` guards, `Application.DoEvents`, the status-bar text, `Enable`, the bar's style, the system menu, tooltips and the about box.
- The process thread and the busy-wait on it are not modelled. The lines a process writes are given as a sequence of events, delivered in order.
- `UpdateValue`, the stdout sample parser of the process classes, is not part of this model. The parsed sample (or none) is part of each stdout event.
- `GenerateLog`, `Abort` and the process's own `Exceptions` are not part of this model. A process exception caught in `AnalyzeClip` shows up only as the event sequence ending.
- What happens to an exception thrown by a line handler depends on the process classes, which are not part of this model. The model ends the batch with `faulted` set and stores nothing more.
- File-system work is not modelled: hard links, `File.Delete`, `.vpy` generation, JSON export and import, and the registry. A `RemoveScript` call is recorded as a `Removal`. The three link-mode outcomes are an input of each job.
- Jobs.Stored: a stored result's log is a value, so the aliasing of `ReSulT.Logs` with `_currentBuffer` (Form1.cs:260) is lost. In the source, a failed JSON export after the batch appends `"{type}: {message}"` to that buffer (Form1.cs:284), so the last stored result's log can grow after it was stored; the model's log does not.
- The `MessageBox` notices are recorded as `Hint` values. Their text is not modelled.
- Time formatting, the frame-rate table and `FrmChart` are not modelled. They are display code over doubles.
- The `IProcess` interface has no behaviour of its own. Only the process kind is modelled.
- Regex `\d` and `\s` are ASCII here. .NET also accepts other Unicode digits and white space.
- `IgnoreCase` is ASCII case folding, without culture rules.
- The progress bar's range is taken to be 0..100. The designer file that sets it is not part of this model.
- `(int)Math.Floor` of NaN or infinity is taken to be `int.MinValue`.
- Samples use real numbers, not doubles. NaN values and rounding are not modelled.
- Jobs.JobStep: its own contract states only the append-only shape. What the job does is stated in the lemmas `Jobs.JobStepEffects` and `Jobs.LinkJobEffects`.
- Jobs.Batch: its own contract states only the append-only shape. The per-pair results are stated in `Jobs.ResultsFollowPairs`, their order in `Jobs.BatchResultsSorted`.
- Grid.GridRows: `dataGridView1.RowCount` is taken to be the number of rows added, which assumes the grid's `AllowUserToAddRows` is off. The designer file that sets it is not part of this model. With the WinForms default the placeholder new row would be counted too, and the caps would be one row lower.
- Text.StartsWith and Text.EndsWith compare code unit by code unit. .NET's `StartsWith(string)` and `EndsWith(string)` compare by the current culture, in which ignorable characters can change the outcome. Only `Contains` is ordinal in .NET.
- The settings (process kind, origin-path option, keep-files option) are fixed for a whole batch. In the running form, `Application.DoEvents` keeps the system menu and the keep-files button live while a clip runs, so they could change mid-batch.
- The threshold control (`numericUpDown1_ValueChanged`) is not modelled. The grid rule takes the threshold as a parameter.
- The three process kinds are taken to be unrelated classes, so `_coreProcess as X` succeeds exactly when the current process is of kind X.
