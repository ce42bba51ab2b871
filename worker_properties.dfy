/**
 * What a whole run of the batch coordinator guarantees: how many files it
 * counts, when it reports success, that overall progress never passes 1,
 * that every file it starts gets exactly one per-file status, that the
 * files after an interrupt are never consulted, and that it closes with
 * exactly one `completed` signal carrying its verdict.
 */
module WorkerProperties {
  import opened Wrappers
  import opened Strategy
  import opened Worker

  // ---------------------------------------------------------------------------
  // Counting and success

  /** How many of `jobs` went through their transcoder without raising. */
  function CountSucceeded(jobs: seq<Option<JobRun>>): (c: nat)
    ensures c <= |jobs|
  {
    if jobs == [] then 0 else (if JobSucceeded(jobs[0]) then 1 else 0) + CountSucceeded(jobs[1..])
  }

  lemma {:induction false} CountSucceededSnoc(jobs: seq<Option<JobRun>>, job: Option<JobRun>)
    ensures CountSucceeded(jobs + [job]) == CountSucceeded(jobs) + (if JobSucceeded(job) then 1 else 0)
  {
    if jobs != [] {
      assert (jobs + [job])[1..] == jobs[1..] + [job];
      CountSucceededSnoc(jobs[1..], job);
    }
  }

  /**
   * After `n` jobs, `processed_files` is the number of jobs that went
   * through: skipped and failing files are not counted.
   */
  lemma {:induction false} ProcessedCount(jobs: seq<Option<JobRun>>, n: nat)
    requires n <= |jobs|
    ensures Processed(jobs, n) == CountSucceeded(jobs[..n])
    ensures Processed(jobs, n) <= n
  {
    if n > 0 {
      ProcessedCount(jobs, n - 1);
      assert jobs[..n] == jobs[..n - 1] + [jobs[n - 1]];
      CountSucceededSnoc(jobs[..n - 1], jobs[n - 1]);
    }
  }

  /** After `n` jobs, `success` holds exactly when none of them raised; a skipped file does not clear it. */
  lemma {:induction false} SuccessFlag(jobs: seq<Option<JobRun>>, n: nat)
    requires n <= |jobs|
    ensures NoneRaised(jobs, n) <==> forall j :: 0 <= j < n ==> !Raised(jobs[j])
  {
    if n > 0 {
      SuccessFlag(jobs, n - 1);
      var before := NoneRaised(jobs, n - 1);
      assert NoneRaised(jobs, n) == (before && !Raised(jobs[n - 1]));
      if before && !Raised(jobs[n - 1]) {
        assert forall j :: 0 <= j < n ==> !Raised(jobs[j]) by {
          forall j | 0 <= j < n
            ensures !Raised(jobs[j])
          {
            if j < n - 1 {
              assert !Raised(jobs[j]);
            }
          }
        }
      }
    }
  }

  // ---------------------------------------------------------------------------
  // Overall progress

  predicate ProgressAtMostOneSignals(signals: seq<Signal>) {
    forall k :: 0 <= k < |signals| && signals[k].ProgressSignal? ==> signals[k].value <= 1.0
  }

  lemma ProgressAtMostOneAppend(a: seq<Signal>, b: seq<Signal>)
    requires ProgressAtMostOneSignals(a) && ProgressAtMostOneSignals(b)
    ensures ProgressAtMostOneSignals(a + b)
  {
    forall k | 0 <= k < |a + b| && (a + b)[k].ProgressSignal?
      ensures (a + b)[k].value <= 1.0
    {
      if k >= |a| {
        assert (a + b)[k] == b[k - |a|];
      }
    }
  }

  lemma ProgressAtMostOneSplit(whole: seq<Signal>, a: seq<Signal>, b: seq<Signal>)
    requires whole == a + b && ProgressAtMostOneSignals(a) && ProgressAtMostOneSignals(b)
    ensures ProgressAtMostOneSignals(whole)
  {
    ProgressAtMostOneAppend(a, b);
  }

  /** While fewer files are done than the batch holds, a job's file fractions up to 1 give overall values up to 1. */
  lemma {:induction false} JobSignalsAtMostOne(events: seq<JobEvent>, processed: nat, total: nat)
    requires processed < total && ProgressAtMostOne(events)
    ensures ProgressAtMostOneSignals(JobSignals(events, processed, total))
  {
    if events != [] {
      assert ProgressAtMostOne(events[1..]) by {
        forall k | 0 <= k < |events[1..]| && events[1..][k].Progress?
          ensures events[1..][k].fraction <= 1.0
        {
          assert events[1..][k] == events[k + 1];
        }
      }
      JobSignalsAtMostOne(events[1..], processed, total);
      if events[0].Progress? {
        OverallProgressAtMostOne(processed, events[0].fraction, total);
      }
      ProgressAtMostOneAppend(EventSignals(events[0], processed, total), JobSignals(events[1..], processed, total));
    }
  }

  /** One job's signals: overall progress values up to 1 while fewer files are done than the batch holds. */
  lemma JobOutputAtMostOne(job: Option<JobRun>, input: string, processed: nat, total: nat)
    requires processed < total && (job.Some? ==> ProgressAtMostOne(job.value.events))
    ensures ProgressAtMostOneSignals(JobOutput(job, input, processed, total))
  {
    if job.Some? {
      JobSignalsAtMostOne(job.value.events, processed, total);
    }
    ProgressAtMostOneAppend(DuringJob(job, processed, total), FileVerdict(job, input, processed, total));
  }

  /** Every progress value the loop emits is at most 1 when every transcoder's file fractions are. */
  lemma {:induction false} LoopProgressAtMostOne(files: seq<(string, string)>, jobs: seq<Option<JobRun>>, n: nat)
    requires n <= |files| && n <= |jobs|
    requires forall j :: 0 <= j < n && jobs[j].Some? ==> ProgressAtMostOne(jobs[j].value.events)
    ensures ProgressAtMostOneSignals(LoopSignals(files, jobs, n))
  {
    if n > 0 {
      var job := jobs[n - 1];
      assert job.Some? ==> ProgressAtMostOne(job.value.events);
      LoopProgressAtMostOne(files, jobs, n - 1);
      var before := LoopSignals(files, jobs, n - 1);
      var processed := Processed(jobs, n - 1);
      ProcessedCount(jobs, n - 1);
      var out := JobOutput(job, files[n - 1].0, processed, |files|);
      JobOutputAtMostOne(job, files[n - 1].0, processed, |files|);
      assert LoopSignals(files, jobs, n) == before + out;
      ProgressAtMostOneSplit(LoopSignals(files, jobs, n), before, out);
      assert ProgressAtMostOneSignals(LoopSignals(files, jobs, n));
    } else {
      assert LoopSignals(files, jobs, n) == [];
    }
  }

  /** The only progress value after the loop is the final 1.0, sent when the batch ran through without errors. */
  lemma FinalProgress(interrupted: bool, success: bool, outputFolder: string, openFolderFailure: Option<string>)
    ensures ProgressAtMostOneSignals(Ending(interrupted, success, outputFolder, openFolderFailure))
    ensures (ProgressSignal(1.0) in Ending(interrupted, success, outputFolder, openFolderFailure))
              <==> !interrupted && success
    ensures forall s :: s in Ending(interrupted, success, outputFolder, openFolderFailure) && s.ProgressSignal? ==>
              s == ProgressSignal(1.0)
  {
  }

  /** Every progress value of a run is at most 1 when every transcoder's file fractions are. */
  lemma RunProgressAtMostOne(files: seq<(string, string)>, jobs: seq<Option<JobRun>>, flag: bool,
                             interrupts: seq<bool>, outputFolder: string, openFolderFailure: Option<string>)
    requires |files| == |jobs| == |interrupts|
    requires forall j :: 0 <= j < |jobs| && jobs[j].Some? ==> ProgressAtMostOne(jobs[j].value.events)
    ensures ProgressAtMostOneSignals(RunSignals(files, jobs, flag, interrupts, outputFolder, openFolderFailure))
  {
    var k := FirstInterrupt(flag, interrupts);
    var success := NoneRaised(jobs, k);
    var loop := LoopSignals(files, jobs, k);
    LoopProgressAtMostOne(files, jobs, k);
    FinalProgress(k < |files|, success, outputFolder, openFolderFailure);
    ProgressAtMostOneAppend([StatusSignal(Starting)], loop);
    ProgressAtMostOneAppend([StatusSignal(Starting)] + loop, Ending(k < |files|, success, outputFolder, openFolderFailure));
  }

  /**
   * For a worker whose transcoder is `ProcessFile`, every progress value of
   * a run is at most 1, whatever the files and the world.
   */
  lemma WorkerProgressAtMostOne(transcode: (string, string, FileWorld) -> Option<JobRun>, options: Options,
                                parseFloat: string -> Option<real>, files: seq<(string, string)>,
                                worlds: seq<FileWorld>, flag: bool, interrupts: seq<bool>,
                                openFolderFailure: Option<string>)
    requires forall input, output, w :: transcode(input, output, w) == ProcessFile(input, output, options, w, parseFloat)
    requires |files| == |worlds| == |interrupts|
    ensures ProgressAtMostOneSignals(RunSignals(files, Outcomes(transcode, files, worlds), flag, interrupts,
                                                options.outputFolder, openFolderFailure))
  {
    var jobs := Outcomes(transcode, files, worlds);
    forall j | 0 <= j < |jobs| && jobs[j].Some?
      ensures ProgressAtMostOne(jobs[j].value.events)
    {
      assert jobs[j] == ProcessFile(files[j].0, files[j].1, options, worlds[j], parseFloat);
    }
    RunProgressAtMostOne(files, jobs, flag, interrupts, options.outputFolder, openFolderFailure);
  }

  // ---------------------------------------------------------------------------
  // Per-file status lines

  /** A per-file status: compressed, failed, or skipped as unsupported. */
  predicate IsFileVerdict(s: Signal) {
    s.StatusSignal? && (s.status.CompressedCount? || s.status.ErrorProcessingFile? || s.status.UnsupportedFileType?)
  }

  function CountFileVerdicts(signals: seq<Signal>): nat {
    if signals == [] then 0 else (if IsFileVerdict(signals[0]) then 1 else 0) + CountFileVerdicts(signals[1..])
  }

  lemma {:induction false} CountFileVerdictsAppend(a: seq<Signal>, b: seq<Signal>)
    ensures CountFileVerdicts(a + b) == CountFileVerdicts(a) + CountFileVerdicts(b)
  {
    if a != [] {
      assert (a + b)[0] == a[0] && (a + b)[1..] == a[1..] + b;
      CountFileVerdictsAppend(a[1..], b);
    } else {
      assert a + b == b;
    }
  }

  lemma CountFileVerdictsSplit(whole: seq<Signal>, a: seq<Signal>, b: seq<Signal>)
    requires whole == a + b
    ensures CountFileVerdicts(whole) == CountFileVerdicts(a) + CountFileVerdicts(b)
  {
    CountFileVerdictsAppend(a, b);
  }

  lemma CountFileVerdictsPair(first: Signal, second: Signal)
    ensures CountFileVerdicts([first, second])
         == (if IsFileVerdict(first) then 1 else 0) + (if IsFileVerdict(second) then 1 else 0)
  {
    assert [first, second][1..] == [second] && [second][1..] == [];
    assert CountFileVerdicts([second]) == (if IsFileVerdict(second) then 1 else 0) + CountFileVerdicts([]);
  }

  lemma {:induction false} CountFileVerdictsNone(signals: seq<Signal>)
    requires forall k :: 0 <= k < |signals| ==> !IsFileVerdict(signals[k])
    ensures CountFileVerdicts(signals) == 0
  {
    if signals != [] {
      assert !IsFileVerdict(signals[0]);
      CountFileVerdictsNone(signals[1..]);
    }
  }

  /** A transcoder's own callbacks produce progress and error-log lines only. */
  lemma {:induction false} JobSignalsOnlyProgressAndLog(events: seq<JobEvent>, processed: nat, total: nat)
    requires total > 0
    ensures forall k :: 0 <= k < |JobSignals(events, processed, total)| ==>
              JobSignals(events, processed, total)[k].ProgressSignal? || JobSignals(events, processed, total)[k].ErrorSignal?
  {
    if events != [] {
      JobSignalsOnlyProgressAndLog(events[1..], processed, total);
      var head := EventSignals(events[0], processed, total);
      var tail := JobSignals(events[1..], processed, total);
      assert forall k :: 0 <= k < |tail| ==> (head + tail)[|head| + k] == tail[k];
    }
  }

  /** Each job's signals hold exactly one per-file status. */
  lemma JobOutputOneVerdict(job: Option<JobRun>, input: string, processed: nat, total: nat)
    requires total > 0
    ensures CountFileVerdicts(JobOutput(job, input, processed, total)) == 1
  {
    var during := DuringJob(job, processed, total);
    var verdict := FileVerdict(job, input, processed, total);
    if job.Some? {
      JobSignalsOnlyProgressAndLog(job.value.events, processed, total);
    }
    CountFileVerdictsNone(during);
    CountFileVerdictsPair(verdict[0], verdict[1]);
    assert verdict == [verdict[0], verdict[1]];
    CountFileVerdictsAppend(during, verdict);
  }

  /** One more job adds exactly one per-file status to the loop's signals. */
  lemma LoopFileVerdictsStep(files: seq<(string, string)>, jobs: seq<Option<JobRun>>, n: nat)
    requires 0 < n <= |files| && n <= |jobs|
    requires CountFileVerdicts(LoopSignals(files, jobs, n - 1)) == n - 1
    ensures CountFileVerdicts(LoopSignals(files, jobs, n)) == n
  {
    var job, input, processed := jobs[n - 1], files[n - 1].0, Processed(jobs, n - 1);
    assert |files| > 0;
    var out := JobOutput(job, input, processed, |files|);
    assert LoopSignals(files, jobs, n) == LoopSignals(files, jobs, n - 1) + out;
    JobOutputOneVerdict(job, input, processed, |files|);
    CountFileVerdictsSplit(LoopSignals(files, jobs, n), LoopSignals(files, jobs, n - 1), out);
  }

  /** Every file the loop reaches gets exactly one per-file status, whether it went through, failed or was skipped. */
  lemma {:induction false} LoopFileVerdicts(files: seq<(string, string)>, jobs: seq<Option<JobRun>>, n: nat)
    requires n <= |files| && n <= |jobs|
    ensures CountFileVerdicts(LoopSignals(files, jobs, n)) == n
  {
    if n > 0 {
      LoopFileVerdicts(files, jobs, n - 1);
      LoopFileVerdictsStep(files, jobs, n);
    } else {
      assert LoopSignals(files, jobs, n) == [];
    }
  }

  /** The closing lines hold no per-file status and no `completed`. */
  lemma ClosingLines(interrupted: bool, success: bool, outputFolder: string, openFolderFailure: Option<string>)
    ensures var c := Closing(interrupted, success, outputFolder, openFolderFailure);
            forall k :: 0 <= k < |c| ==> !IsFileVerdict(c[k]) && !c[k].CompletedSignal?
  {
    var c := Closing(interrupted, success, outputFolder, openFolderFailure);
    if !interrupted && success {
      if outputFolder != "" && openFolderFailure.Some? {
        assert c == [StatusSignal(Complete), ProgressSignal(1.0), ErrorSignal(CompletedSuccessfully),
                     StatusSignal(ErrorOccurred), ErrorSignal(UnexpectedError(openFolderFailure.value))];
      } else {
        assert c == [StatusSignal(Complete), ProgressSignal(1.0), ErrorSignal(CompletedSuccessfully)];
      }
    }
  }

  /** Nothing after the loop is a per-file status. */
  lemma EndingNoFileVerdicts(interrupted: bool, success: bool, outputFolder: string, openFolderFailure: Option<string>)
    ensures CountFileVerdicts(Ending(interrupted, success, outputFolder, openFolderFailure)) == 0
  {
    var c := Closing(interrupted, success, outputFolder, openFolderFailure);
    var last := CompletedSignal(RunSucceeded(interrupted, success, outputFolder, openFolderFailure));
    ClosingLines(interrupted, success, outputFolder, openFolderFailure);
    CountFileVerdictsNone(c);
    CountFileVerdictsNone([last]);
    CountFileVerdictsAppend(c, [last]);
  }

  /** A run reports one per-file status for each file before the first interrupted check, and none after. */
  lemma RunFileVerdicts(files: seq<(string, string)>, jobs: seq<Option<JobRun>>, flag: bool,
                        interrupts: seq<bool>, outputFolder: string, openFolderFailure: Option<string>)
    requires |files| == |jobs| == |interrupts|
    ensures CountFileVerdicts(RunSignals(files, jobs, flag, interrupts, outputFolder, openFolderFailure))
            == FirstInterrupt(flag, interrupts)
  {
    var k := FirstInterrupt(flag, interrupts);
    var success := NoneRaised(jobs, k);
    var loop := LoopSignals(files, jobs, k);
    var ending := Ending(k < |files|, success, outputFolder, openFolderFailure);
    LoopFileVerdicts(files, jobs, k);
    CountFileVerdictsNone([StatusSignal(Starting)]);
    EndingNoFileVerdicts(k < |files|, success, outputFolder, openFolderFailure);
    CountFileVerdictsAppend([StatusSignal(Starting)], loop);
    CountFileVerdictsAppend([StatusSignal(Starting)] + loop, ending);
  }

  // ---------------------------------------------------------------------------
  // Interrupts and the verdict

  /** The jobs from the first interrupted check on are never consulted: changing them changes nothing. */
  lemma RunIgnoresJobsAfterInterrupt(files: seq<(string, string)>, jobs: seq<Option<JobRun>>,
                                     other: seq<Option<JobRun>>, flag: bool, interrupts: seq<bool>,
                                     outputFolder: string, openFolderFailure: Option<string>)
    requires |files| == |jobs| == |other| == |interrupts|
    requires forall j :: 0 <= j < FirstInterrupt(flag, interrupts) ==> jobs[j] == other[j]
    ensures RunSignals(files, jobs, flag, interrupts, outputFolder, openFolderFailure)
         == RunSignals(files, other, flag, interrupts, outputFolder, openFolderFailure)
  {
    LoopPrefix(files, jobs, other, FirstInterrupt(flag, interrupts));
  }

  predicate NoCompleted(signals: seq<Signal>) {
    forall k :: 0 <= k < |signals| ==> !signals[k].CompletedSignal?
  }

  /** One job's signals hold no `completed`. */
  lemma JobOutputNoCompleted(job: Option<JobRun>, input: string, processed: nat, total: nat)
    requires total > 0
    ensures NoCompleted(JobOutput(job, input, processed, total))
  {
    if job.Some? {
      JobSignalsOnlyProgressAndLog(job.value.events, processed, total);
    }
    NoCompletedAppend(DuringJob(job, processed, total), FileVerdict(job, input, processed, total));
  }

  lemma {:induction false} LoopNoCompleted(files: seq<(string, string)>, jobs: seq<Option<JobRun>>, n: nat)
    requires n <= |files| && n <= |jobs|
    ensures NoCompleted(LoopSignals(files, jobs, n))
  {
    if n > 0 {
      LoopNoCompleted(files, jobs, n - 1);
      var before := LoopSignals(files, jobs, n - 1);
      var processed := Processed(jobs, n - 1);
      var out := JobOutput(jobs[n - 1], files[n - 1].0, processed, |files|);
      JobOutputNoCompleted(jobs[n - 1], files[n - 1].0, processed, |files|);
      assert LoopSignals(files, jobs, n) == before + out;
      NoCompletedSplit(LoopSignals(files, jobs, n), before, out);
      assert NoCompleted(LoopSignals(files, jobs, n));
    } else {
      assert LoopSignals(files, jobs, n) == [];
    }
  }

  lemma NoCompletedAppend(a: seq<Signal>, b: seq<Signal>)
    requires NoCompleted(a) && NoCompleted(b)
    ensures NoCompleted(a + b)
  {
    forall k | 0 <= k < |a + b|
      ensures !(a + b)[k].CompletedSignal?
    {
      if k >= |a| {
        assert (a + b)[k] == b[k - |a|];
      }
    }
  }

  lemma NoCompletedSplit(whole: seq<Signal>, a: seq<Signal>, b: seq<Signal>)
    requires whole == a + b && NoCompleted(a) && NoCompleted(b)
    ensures NoCompleted(whole)
  {
    NoCompletedAppend(a, b);
  }

  /** A run's signals end with one `completed`, whose argument is the run's verdict, and hold no other. */
  lemma RunEndsWithCompleted(files: seq<(string, string)>, jobs: seq<Option<JobRun>>, flag: bool,
                             interrupts: seq<bool>, outputFolder: string, openFolderFailure: Option<string>)
    requires |files| == |jobs| == |interrupts|
    ensures var k := FirstInterrupt(flag, interrupts);
            var r := RunSignals(files, jobs, flag, interrupts, outputFolder, openFolderFailure);
            |r| > 0 && NoCompleted(r[..|r| - 1]) &&
            r[|r| - 1] == CompletedSignal(RunSucceeded(k < |files|, NoneRaised(jobs, k), outputFolder, openFolderFailure))
  {
    var k := FirstInterrupt(flag, interrupts);
    var success := NoneRaised(jobs, k);
    var loop := LoopSignals(files, jobs, k);
    var closing := Closing(k < |files|, success, outputFolder, openFolderFailure);
    var last := CompletedSignal(RunSucceeded(k < |files|, success, outputFolder, openFolderFailure));
    var body := [StatusSignal(Starting)] + loop + closing;
    assert NoCompleted(body) by {
      LoopNoCompleted(files, jobs, k);
      ClosingLines(k < |files|, success, outputFolder, openFolderFailure);
      NoCompletedAppend([StatusSignal(Starting)], loop);
      NoCompletedAppend([StatusSignal(Starting)] + loop, closing);
    }
    assert RunSignals(files, jobs, flag, interrupts, outputFolder, openFolderFailure) == body + [last];
    NoCompletedBeforeLast(body, last);
  }

  /** A signal appended to a log without `completed` is its only `completed`. */
  lemma NoCompletedBeforeLast(body: seq<Signal>, last: Signal)
    requires NoCompleted(body)
    ensures var r := body + [last];
            |r| > 0 && NoCompleted(r[..|r| - 1]) && r[|r| - 1] == last
  {
    var r := body + [last];
    assert r[..|r| - 1] == body;
  }

  /**
   * A run emits `completed` exactly once, as its last signal, and its
   * argument holds exactly when no check saw the interrupt flag, no job
   * raised, and `open_folder` did not fail.
   */
  lemma RunCompletesOnce(files: seq<(string, string)>, jobs: seq<Option<JobRun>>, flag: bool,
                         interrupts: seq<bool>, outputFolder: string, openFolderFailure: Option<string>)
    requires |files| == |jobs| == |interrupts|
    ensures var r := RunSignals(files, jobs, flag, interrupts, outputFolder, openFolderFailure);
            |r| > 0 && NoCompleted(r[..|r| - 1]) && r[|r| - 1].CompletedSignal? &&
            (r[|r| - 1].success <==>
               FirstInterrupt(flag, interrupts) == |files| &&
               (forall j :: 0 <= j < |jobs| ==> !Raised(jobs[j])) &&
               !(outputFolder != "" && openFolderFailure.Some?))
  {
    var k := FirstInterrupt(flag, interrupts);
    RunEndsWithCompleted(files, jobs, flag, interrupts, outputFolder, openFolderFailure);
    SuccessFlag(jobs, k);
  }
}
