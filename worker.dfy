/**
 * The batch coordinator: `CompressionWorker.run` takes the jobs in order,
 * checks the interrupt flag before each, sends each file to its transcoder,
 * turns per-file progress into overall progress, counts the files that went
 * through, remembers whether any raised, and closes with a verdict. The
 * signals it emits are appended to an event log.
 */
module Worker {
  import opened Wrappers
  import opened Paths
  import opened Strategy

  /** Texts of the status signal. */
  datatype StatusMessage =
    | Starting                                   // "Starting compression..."
    | InterruptedStatus                          // "Compression interrupted."
    | CompressedCount(done: nat, total: nat)     // "Compressed <done>/<total> files."
    | ErrorProcessingFile(file: string)          // "Error processing <file>."
    | UnsupportedFileType(path: string)          // "Unsupported file type: <path>"
    | Complete                                   // "Compression complete!"
    | CompletedWithErrors                        // "Compression completed with errors."
    | ErrorOccurred                              // "An error occurred during compression."

  /** Texts of the error-log signal. */
  datatype LogLine =
    | Forwarded(message: Message)                // a transcoder's own error-log line
    | UnsupportedFileLogged(path: string)        // "Unsupported file type: <path>"
    | CompressedFile(file: string)               // "Successfully compressed: <file>"
    | ErrorProcessing(file: string, error: JobError)  // "Error processing <file>: <error>"
    | CompletedSuccessfully                      // "Compression completed successfully."
    | CompletedWithSomeErrors                    // "Compression completed with some errors."
    | UnexpectedError(reason: string)            // "An unexpected error occurred: <reason>"

  /** The worker's four signals. */
  datatype Signal =
    | ProgressSignal(value: real)
    | StatusSignal(status: StatusMessage)
    | ErrorSignal(line: LogLine)
    | CompletedSignal(success: bool)

  // ---------------------------------------------------------------------------
  // One job

  /** `(processed_files + progress) / total_files`. */
  function OverallProgress(processed: nat, fraction: real, total: nat): (p: real)
    requires total > 0
    ensures 0.0 <= fraction ==> processed as real / total as real <= p
    ensures fraction <= 1.0 ==> p <= (processed + 1) as real / total as real
  {
    (processed as real + fraction) / total as real
  }

  /** With fewer files done than in the batch, a file fraction up to 1 gives an overall progress up to 1. */
  lemma OverallProgressAtMostOne(processed: nat, fraction: real, total: nat)
    requires processed < total && fraction <= 1.0
    ensures OverallProgress(processed, fraction, total) <= 1.0
  {
    assert processed as real + fraction <= total as real;
  }

  /** With fewer files done than in the batch and a file fraction in [0, 1], the overall progress is in [0, 1]. */
  lemma OverallProgressInUnitInterval(processed: nat, fraction: real, total: nat)
    requires processed < total && 0.0 <= fraction <= 1.0
    ensures 0.0 <= OverallProgress(processed, fraction, total) <= 1.0
  {
    OverallProgressAtMostOne(processed, fraction, total);
  }

  /** What a transcoder's event becomes: its callbacks are the worker's signals, its effects emit nothing. */
  function EventSignals(e: JobEvent, processed: nat, total: nat): seq<Signal>
    requires total > 0
  {
    match e
    case Progress(f) => [ProgressSignal(OverallProgress(processed, f, total))]
    case Log(m) => [ErrorSignal(Forwarded(m))]
    case _ => []
  }

  function JobSignals(events: seq<JobEvent>, processed: nat, total: nat): seq<Signal>
    requires total > 0
  {
    if events == [] then [] else EventSignals(events[0], processed, total) + JobSignals(events[1..], processed, total)
  }

  /** The variables of the loop: `processed_files`, `success`, and the signals so far. */
  datatype LoopState = LoopState(processed: nat, success: bool, signals: seq<Signal>)

  /** The job went through its transcoder without raising. */
  predicate JobSucceeded(job: Option<JobRun>) {
    job.Some? && job.value.raised.None?
  }

  /** The job's transcoder raised. */
  predicate Raised(job: Option<JobRun>) {
    job.Some? && job.value.raised.Some?
  }

  /** What the job's transcoder itself signalled; a skipped file has no transcoder. */
  function DuringJob(job: Option<JobRun>, processed: nat, total: nat): seq<Signal>
    requires total > 0
  {
    if job.Some? then JobSignals(job.value.events, processed, total) else []
  }

  /** The per-file status and log lines: skipped, compressed, or failed. */
  function FileVerdict(job: Option<JobRun>, input: string, processed: nat, total: nat): seq<Signal> {
    match job
    case None =>
      [StatusSignal(UnsupportedFileType(input)), ErrorSignal(UnsupportedFileLogged(input))]
    case Some(run) =>
      var name := Basename(input);
      if run.raised.None? then
        [StatusSignal(CompressedCount(processed + 1, total)), ErrorSignal(CompressedFile(name))]
      else
        [StatusSignal(ErrorProcessingFile(name)), ErrorSignal(ErrorProcessing(name, run.raised.value))]
  }

  /**
   * The signals one job adds: the transcoder's own signals, then the
   * per-file lines.
   */
  function JobOutput(job: Option<JobRun>, input: string, processed: nat, total: nat): seq<Signal>
    requires total > 0
  {
    DuringJob(job, processed, total) + FileVerdict(job, input, processed, total)
  }

  /** `processed_files` after the first `n` jobs: one more for each job that went through. */
  function Processed(jobs: seq<Option<JobRun>>, n: nat): nat
    requires n <= |jobs|
  {
    if n == 0 then 0 else Processed(jobs, n - 1) + (if JobSucceeded(jobs[n - 1]) then 1 else 0)
  }

  /** `success` after the first `n` jobs: cleared by the first job that raises. */
  function NoneRaised(jobs: seq<Option<JobRun>>, n: nat): bool
    requires n <= |jobs|
  {
    n == 0 || (NoneRaised(jobs, n - 1) && !Raised(jobs[n - 1]))
  }

  /** The signals of the first `n` jobs, `jobs[i]` being what `files[i]`'s transcoder did. */
  function LoopSignals(files: seq<(string, string)>, jobs: seq<Option<JobRun>>, n: nat): seq<Signal>
    requires n <= |files| && n <= |jobs|
  {
    if n == 0 then []
    else LoopSignals(files, jobs, n - 1) + JobOutput(jobs[n - 1], files[n - 1].0, Processed(jobs, n - 1), |files|)
  }

  /** The loop state after the first `n` jobs. */
  function Loop(files: seq<(string, string)>, jobs: seq<Option<JobRun>>, n: nat): LoopState
    requires n <= |files| && n <= |jobs|
  {
    LoopState(Processed(jobs, n), NoneRaised(jobs, n), LoopSignals(files, jobs, n))
  }

  /** One more iteration of the loop is one more step. */
  lemma LoopNext(files: seq<(string, string)>, jobs: seq<Option<JobRun>>, n: nat, job: Option<JobRun>, input: string)
    requires n < |files| && n < |jobs| && job == jobs[n] && input == files[n].0
    ensures Loop(files, jobs, n + 1).processed == Loop(files, jobs, n).processed + (if JobSucceeded(job) then 1 else 0)
    ensures Loop(files, jobs, n + 1).success == (Loop(files, jobs, n).success && !Raised(job))
    ensures Loop(files, jobs, n + 1).signals
         == Loop(files, jobs, n).signals + JobOutput(job, input, Loop(files, jobs, n).processed, |files|)
  {
  }

  /** The loop state after `n` jobs depends on the first `n` outcomes only: later jobs are never consulted. */
  lemma {:induction false} LoopPrefix(files: seq<(string, string)>, jobs: seq<Option<JobRun>>,
                                      other: seq<Option<JobRun>>, n: nat)
    requires n <= |files| && n <= |jobs| && n <= |other|
    requires forall j :: 0 <= j < n ==> jobs[j] == other[j]
    ensures Loop(files, jobs, n) == Loop(files, other, n)
  {
    if n > 0 {
      LoopPrefix(files, jobs, other, n - 1);
    }
  }

  /** `jobs[j]` is what the transcoder did with `files[j]` in world `worlds[j]`. */
  predicate Transcoded(transcode: (string, string, FileWorld) -> Option<JobRun>, files: seq<(string, string)>,
                       worlds: seq<FileWorld>, jobs: seq<Option<JobRun>>)
    requires |files| == |worlds|
  {
    |jobs| == |files| && forall j :: 0 <= j < |jobs| ==> jobs[j] == transcode(files[j].0, files[j].1, worlds[j])
  }

  function Outcomes(transcode: (string, string, FileWorld) -> Option<JobRun>, files: seq<(string, string)>,
                    worlds: seq<FileWorld>): (jobs: seq<Option<JobRun>>)
    requires |files| == |worlds|
    ensures Transcoded(transcode, files, worlds, jobs)
  {
    seq(|files|, j requires 0 <= j < |files| => transcode(files[j].0, files[j].1, worlds[j]))
  }

  // ---------------------------------------------------------------------------
  // The whole run

  /**
   * The index of the first job whose interrupt check sees the flag: the flag
   * as the run starts, or an `interrupt()` arriving before that check;
   * `|interrupts|` when no check sees it.
   */
  function FirstInterrupt(flag: bool, interrupts: seq<bool>): (k: nat)
    ensures k <= |interrupts|
    ensures k < |interrupts| ==> flag || interrupts[k]
    ensures forall j :: 0 <= j < k ==> !interrupts[j]
    ensures k > 0 ==> !flag
  {
    if interrupts == [] || flag || interrupts[0] then 0
    else 1 + FirstInterrupt(false, interrupts[1..])
  }

  /** Before the first interrupt, the flag the loop polls at check `i` is raised exactly at the first interrupt. */
  lemma PollAt(flag: bool, interrupts: seq<bool>, i: nat)
    requires i < |interrupts| && i <= FirstInterrupt(flag, interrupts)
    ensures (flag || interrupts[i]) <==> i == FirstInterrupt(flag, interrupts)
  {
  }

  /** The run's verdict, the argument of `completed`. */
  predicate RunSucceeded(interrupted: bool, success: bool, outputFolder: string, openFolderFailure: Option<string>) {
    !interrupted && success && !(outputFolder != "" && openFolderFailure.Some?)
  }

  /**
   * After the loop and before `completed`: the interruption line, or the
   * verdict lines and, after a successful batch, what the outer handler
   * reports when `open_folder` fails.
   */
  function Closing(interrupted: bool, success: bool, outputFolder: string, openFolderFailure: Option<string>): seq<Signal> {
    if interrupted then
      [StatusSignal(InterruptedStatus)]
    else if success then
      [StatusSignal(Complete), ProgressSignal(1.0), ErrorSignal(CompletedSuccessfully)] +
      (if outputFolder != "" && openFolderFailure.Some? then
         [StatusSignal(ErrorOccurred), ErrorSignal(UnexpectedError(openFolderFailure.value))]
       else
         [])
    else
      [StatusSignal(CompletedWithErrors), ErrorSignal(CompletedWithSomeErrors)]
  }

  /** Everything after the loop: the closing lines, then `completed` with the verdict. */
  function Ending(interrupted: bool, success: bool, outputFolder: string, openFolderFailure: Option<string>): seq<Signal> {
    Closing(interrupted, success, outputFolder, openFolderFailure) +
    [CompletedSignal(RunSucceeded(interrupted, success, outputFolder, openFolderFailure))]
  }

  /**
   * Every signal one run emits, `jobs[i]` being what the transcoder of job
   * `i` does; the jobs from the first interrupted check on are not run.
   */
  function RunSignals(files: seq<(string, string)>, jobs: seq<Option<JobRun>>, flag: bool, interrupts: seq<bool>,
                      outputFolder: string, openFolderFailure: Option<string>): seq<Signal>
    requires |files| == |jobs| == |interrupts|
  {
    var k := FirstInterrupt(flag, interrupts);
    var st := Loop(files, jobs, k);
    [StatusSignal(Starting)] + st.signals + Ending(k < |files|, st.success, outputFolder, openFolderFailure)
  }

  /**
   * Regrouping the signals of a run. Stated as lemmas so that the methods
   * below see one equation instead of the whole associativity reasoning.
   */
  lemma Associate(before: seq<Signal>, loop: seq<Signal>, out: seq<Signal>)
    ensures before + loop + out == before + (loop + out)
  {
  }

  lemma Regroup(before: seq<Signal>, starting: Signal, loop: seq<Signal>, ending: seq<Signal>)
    ensures before + [starting] + loop + ending == before + ([starting] + loop + ending)
  {
  }

  class CompressionWorker {
    const filesToProcess: seq<(string, string)>
    const options: Options
    /**
     * The body of one iteration up to the per-file signals: dispatch by the
     * source's name and run the chosen transcoder in the given world.
     */
    const transcode: (string, string, FileWorld) -> Option<JobRun>
    var interrupted: bool
    /** The signals emitted so far, oldest first. */
    var signals: seq<Signal>

    /** `parseFloat` is `float(...)` on the probe's duration text. */
    constructor (filesToProcess: seq<(string, string)>, options: Options, parseFloat: string -> Option<real>)
      ensures this.filesToProcess == filesToProcess && this.options == options
      ensures forall input, output, w :: transcode(input, output, w) == ProcessFile(input, output, options, w, parseFloat)
      ensures !interrupted && signals == []
    {
      this.filesToProcess := filesToProcess;
      this.options := options;
      transcode := (input: string, output: string, w: FileWorld) => ProcessFile(input, output, options, w, parseFloat);
      interrupted := false;
      signals := [];
    }

    /** `interrupt()`: raise the flag the loop polls. */
    method Interrupt()
      modifies this
      ensures interrupted && signals == old(signals)
    {
      interrupted := true;
    }

    /**
     * The rest of one iteration once the transcoder has run: emit the
     * per-file signals and report whether the job went through or raised.
     */
    method ReportJob(job: Option<JobRun>, input: string, processed: nat) returns (wentThrough: bool, raised: bool)
      requires |filesToProcess| > 0
      modifies this
      ensures wentThrough == JobSucceeded(job) && raised == Raised(job)
      ensures signals == old(signals) + JobOutput(job, input, processed, |filesToProcess|)
      ensures interrupted == old(interrupted)
    {
      var total := |filesToProcess|;
      match job {
        case None =>
          signals := signals + [StatusSignal(UnsupportedFileType(input)), ErrorSignal(UnsupportedFileLogged(input))];
          wentThrough, raised := false, false;
        case Some(run) =>
          var during := JobSignals(run.events, processed, total);
          var name := Basename(input);
          if run.raised.None? {
            signals := signals + during + [StatusSignal(CompressedCount(processed + 1, total)), ErrorSignal(CompressedFile(name))];
            wentThrough, raised := true, false;
          } else {
            signals := signals + during + [StatusSignal(ErrorProcessingFile(name)), ErrorSignal(ErrorProcessing(name, run.raised.value))];
            wentThrough, raised := false, true;
          }
      }
    }

    /**
     * One pass of the loop body after the interrupt check: transcode file `i`,
     * report it, and update `processed_files` and `success`.
     */
    method RunOne(worlds: seq<FileWorld>, ghost jobs: seq<Option<JobRun>>, i: nat, processed: nat, success: bool,
                  ghost start: seq<Signal>, ghost st: LoopState)
      returns (processed': nat, success': bool, ghost st': LoopState)
      requires |worlds| == |filesToProcess| && Transcoded(transcode, filesToProcess, worlds, jobs)
      requires i < |filesToProcess| && st == Loop(filesToProcess, jobs, i)
      requires processed == st.processed && success == st.success && signals == start + st.signals
      modifies this
      ensures st' == Loop(filesToProcess, jobs, i + 1)
      ensures processed' == st'.processed && success' == st'.success && signals == start + st'.signals
      ensures interrupted == old(interrupted)
    {
      var (input, output) := filesToProcess[i];
      var job := transcode(input, output, worlds[i]);
      assert job == jobs[i];
      ghost var out := JobOutput(job, input, processed, |filesToProcess|);
      var wentThrough, raised := ReportJob(job, input, processed);
      Associate(start, st.signals, out);
      LoopNext(filesToProcess, jobs, i, job, input);
      st' := Loop(filesToProcess, jobs, i + 1);
      processed', success' := processed, success;
      if wentThrough {
        processed' := processed + 1;
      }
      if raised {
        success' := false;
      }
    }

    /**
     * The loop of `run()`: for each job, poll the interrupt flag and stop at
     * the first job that sees it raised; otherwise transcode the file and
     * report it. `interrupts[i]` is whether `interrupt()` is called before
     * job `i`'s check.
     */
    method RunJobs(worlds: seq<FileWorld>, ghost jobs: seq<Option<JobRun>>, interrupts: seq<bool>)
      returns (success: bool, stopped: bool, ghost n: nat)
      requires |worlds| == |filesToProcess| && |interrupts| == |filesToProcess|
      requires Transcoded(transcode, filesToProcess, worlds, jobs)
      modifies this
      ensures n == FirstInterrupt(old(interrupted), interrupts) && (stopped <==> n < |filesToProcess|)
      ensures signals == old(signals) + Loop(filesToProcess, jobs, n).signals
      ensures success == Loop(filesToProcess, jobs, n).success
      ensures interrupted == (old(interrupted) || stopped)
    {
      ghost var flag := interrupted;
      ghost var k := FirstInterrupt(flag, interrupts);
      ghost var start := signals;
      var processed: nat := 0;
      success, stopped := true, false;
      var i := 0;
      ghost var st := Loop(filesToProcess, jobs, 0);
      while i < |filesToProcess|
        invariant 0 <= i <= k && interrupted == flag && st == Loop(filesToProcess, jobs, i)
        invariant processed == st.processed && success == st.success && signals == start + st.signals
      {
        PollAt(flag, interrupts, i);
        if interrupts[i] {
          Interrupt();
        }
        if interrupted {
          stopped := true;
          break;
        }
        processed, success, st := RunOne(worlds, jobs, i, processed, success, start, st);
        i := i + 1;
      }
      assert i == k;
      n := i;
    }

    /**
     * After the loop: the interruption lines, or the verdict and, after a
     * successful batch, `open_folder`, whose failure reaches the outer
     * handler.
     */
    method Finish(stopped: bool, success: bool, openFolderFailure: Option<string>)
      modifies this
      ensures signals == old(signals) + Ending(stopped, success, options.outputFolder, openFolderFailure)
      ensures interrupted == old(interrupted)
    {
      if stopped {
        signals := signals + [StatusSignal(InterruptedStatus), CompletedSignal(false)];
        return;
      }
      if success {
        signals := signals + [StatusSignal(Complete), ProgressSignal(1.0), ErrorSignal(CompletedSuccessfully)];
        if options.outputFolder != "" && openFolderFailure.Some? {
          signals := signals + [StatusSignal(ErrorOccurred), ErrorSignal(UnexpectedError(openFolderFailure.value)), CompletedSignal(false)];
          return;
        }
      } else {
        signals := signals + [StatusSignal(CompletedWithErrors), ErrorSignal(CompletedWithSomeErrors)];
      }
      signals := signals + [CompletedSignal(success)];
    }

    /**
     * `run()`. `worlds[i]` is what the outside world answers for job `i`,
     * `interrupts[i]` whether `interrupt()` is called before job `i`'s
     * check, and `openFolderFailure` what opening the output folder raises,
     * if anything.
     */
    method Run(worlds: seq<FileWorld>, interrupts: seq<bool>, openFolderFailure: Option<string>)
      requires |worlds| == |filesToProcess| && |interrupts| == |filesToProcess|
      modifies this
      ensures signals == old(signals) + RunSignals(filesToProcess, Outcomes(transcode, filesToProcess, worlds),
                                                   old(interrupted), interrupts, options.outputFolder, openFolderFailure)
      ensures interrupted == (old(interrupted) || exists j :: 0 <= j < |interrupts| && interrupts[j])
    {
      ghost var before := signals;
      signals := signals + [StatusSignal(Starting)];
      ghost var jobs := Outcomes(transcode, filesToProcess, worlds);
      var success, stopped, n := RunJobs(worlds, jobs, interrupts);
      ghost var loop := Loop(filesToProcess, jobs, n).signals;
      Finish(stopped, success, openFolderFailure);
      Regroup(before, StatusSignal(Starting), loop, Ending(stopped, success, options.outputFolder, openFolderFailure));
    }
  }
}
