# Batch media compression: a verified model of its decision logic

The program is a desktop tool. It compresses a batch of images, videos and
audio files and can convert between their formats. The window collects input
paths, picks a target format per media kind, and plans one output path per
input. It then hands the list of `(input, output)` pairs to a background
worker. The worker:

- sends each pair to a transcoder chosen by the input's name: the imaging
  library for images, or the `ffmpeg` encoder for video, for audio extraction
  and for audio;
- turns each transcoder's progress into overall batch progress;
- reports every file as compressed, failed or skipped;
- ends with one `completed` verdict.

This project models that core in Dafny:

- `compress_image`: the JPEG/PNG/WEBP save plan and its quality arithmetic.
- `compress_video`: the bitrate plan, the encoder command line, the
  `out_time_ms=` progress protocol and the exit-code verdict.
- `extract_audio` and `compress_audio`: the same protocol, with their
  commands and codec choice.
- `CompressionWorker.run` and `interrupt`: the batch loop, the signals it
  emits and the final verdict.
- The planning loop of `export_compressed` and `is_supported_file`.

Modules:

- `Text` and `Paths` model the Python string and `os.path` operations the core
  relies on (`lower`, `strip`, `split`, `endswith`, `int`, `str`,
  `basename`, `splitext`, `join`).
- `Numeric` holds truncation toward zero, `min`/`max` and clamping.
- `ImageCompression`, `Bitrate`, `Probe` and `Encoder` are the pure
  arithmetic and parsing steps.
- `Strategy` holds the transcoders and the dispatch. Each transcoder is a
  function of what the outside world answers for one file (`FileWorld`):
  - whether the imaging library opens the file, in which mode, and whether
    the save fails;
  - what the probe prints;
  - the file's size;
  - whether the encoder starts, and the lines it writes and its exit code.

  Each transcoder returns the events it produces (callbacks, encoder
  launches, image saves) and the exception it raises, if any.
- `Worker` holds the class `CompressionWorker`. Its `signals` field is the
  ordered log of the four Qt signals. Its `interrupted` field is the flag that
  `interrupt()` raises and the loop polls.
- `WorkerProperties` holds the batch-level properties.
- `Export` holds the input filter and the planning of output paths.

Behaviour of the code worth noting:

- JPEG quality is `int(95 * p / 100)`, truncated and then clamped to
  [5, 95]. For 50 % it is 47, not 48 (`JpegQualityExamples`).
- WEBP quality is the percentage itself, with no clamp.
- The final overall progress of 1.0 is emitted only after a batch in which no
  job raised (`FinalProgress`). An interrupted batch, or a batch with errors,
  ends without it.
- Dispatch is decided by the source name alone, tested against the image,
  video and audio suffixes in that order. Because `mp3` is among the video
  suffixes, an `mp3` source always goes to the video branch: to audio
  extraction when the target is `mp3`, and to video compression otherwise.
  The `mp3` in the audio suffix list is never reached (`SourceBranch`).
- A skipped, unsupported file does not make the verdict fail. Only a job that
  raises does, as do an interrupt and a failing `open_folder`
  (`RunCompletesOnce`).
- Only a zero duration is refused. In `compress_video` the division at
  line 87 always runs. In `extract_audio` (line 185) and `compress_audio`
  (line 256) the division runs only at the first `out_time_ms=` line whose
  payload `int()` accepts. If the encoder prints no such line, a zero
  duration is not refused: the job ends on the encoder's exit code and can
  succeed (`RunEncoder`, `ScanLines`). A negative duration passes the check
  and is planned at the video floor (`PlanNegativeDuration`).
- The worker's dispatch tests suffixes without their dot, so it accepts names
  such as `xpng` that the window's filter refuses (`DispatchWiderThanFilter`).

## Model

| member | source | states |
|---|---|---|
| ImageCompression.JpegQuality | compressconvert.py:35-36 | The JPEG quality is always between 5 and 95 |
| ImageCompression.JpegQualityIntegerForm | compressconvert.py:35-36 | For a non-negative percentage p the quality is `95·p div 100` clamped to [5, 95] (truncation, not rounding); a negative percentage gives 5 |
| ImageCompression.JpegQualityExamples | compressconvert.py:35-36 | Percentages 50, 100, 5 and 6 give qualities 47, 95, 5 and 5 |
| ImageCompression.JpegQualityMonotone | compressconvert.py:35-36 | A larger percentage never gives a lower JPEG quality |
| ImageCompression.WebpQualityIsPercentage | compressconvert.py:45 | The WEBP quality is the percentage itself, unclamped |
| ImageCompression.WebpQuality | compressconvert.py:45 | `int(100·(p/100))`, unclamped; `WebpQualityIsPercentage` shows it is p |
| ImageCompression.PlanImageSave | compressconvert.py:30-47 | The save is planned iff the lower-cased format is jpg, jpeg, png or webp; otherwise the error carries the lower-cased format. JPEG saves RGB for an RGBA/P source (the mode unchanged otherwise) with quality `JpegQuality(p)`. PNG saves RGBA for an RGBA/P source and RGB otherwise, optimised. WEBP keeps the mode and uses the percentage itself as quality |
| Bitrate.Plan | compressconvert.py:83-95 | No plan exactly when the duration is 0 (the division at line 87 raises). Otherwise the video bitrate lies in [100000, 50000000] and the audio bitrate is 256000 or 64000 by the quality flag |
| Bitrate.AudioBitrate | compressconvert.py:86 | 256000 bit/s exactly with the high-quality flag, 64000 bit/s exactly without it |
| Bitrate.PlanFloor | compressconvert.py:86-93 | When the requested total is below audio + 100000, the video bitrate is exactly the 100000 floor |
| Bitrate.PlanCeiling | compressconvert.py:91-95 | When the requested total is at least audio + 50000000, the video bitrate is exactly the 50000000 ceiling |
| Bitrate.PlanMeetsRequest | compressconvert.py:84-95 | Between the clamps, video plus audio equals the requested total `size·p/100·8/duration`, truncated as `str(int(...))` truncates |
| Bitrate.RequestedMonotone | compressconvert.py:84-87 | For a non-negative size and positive duration, a larger percentage requests a larger total bitrate |
| Bitrate.PlanMonotone | compressconvert.py:84-95 | For a non-negative size and positive duration, a larger percentage never plans a lower video bitrate |
| Bitrate.PlanExample | compressconvert.py:83-95 | 10 MB over 100 s at 50 % with high-quality audio plans 144000 bit/s video and 256000 bit/s audio |
| Bitrate.PlanNegativeDuration | compressconvert.py:83-95 | A negative duration is planned, not refused: with a non-negative size and percentage the video bitrate is the 100000 floor |
| Probe.ParseDuration | compressconvert.py:68-81 | A missing or `N/A` duration is "cannot determine"; a text `float()` rejects is "invalid" and carries that text; otherwise the duration is exactly `float()`'s value |
| Text.ParseIntOfIntToString | compressconvert.py:119-121 | `int(str(n)) == n` for every integer: a rendered number reads back as itself |
| Text.IntRejectsSeparator | compressconvert.py:121 | `int()` refuses a payload prefixed by the separator 0x1C, which it does not skip as whitespace |
| Text.IntSkipsWhitespace | compressconvert.py:121 | `int()` skips a leading space and a trailing tab around the number |
| Text.StripRemovesSeparator | compressconvert.py:119 | `strip()` removes the separator 0x1C from both ends, unlike `int()` |
| Paths.SplitExt | compressconvert.py:321 | The two parts of `splitext` concatenate to the path; the extension is empty or a dot followed by no further dot or separator |
| Paths.ExtensionOf | compressconvert.py:321 | `splitext(p)[1][1:]`: empty when `splitext` finds no extension, otherwise the extension is its dot followed by the result, which holds no dot or separator |
| Paths.Stem | compressconvert.py:772-773 | The stem holds no separator, and the stem followed by the extension is the base name |
| Paths.ExtensionOfPlannedPath | compressconvert.py:771-776 | The extension read back from `join(folder, stem + "_compressed." + ext)` is `ext` |
| Encoder.Effect | compressconvert.py:118-129 | A line without `out_time_ms=` is ignored, and only such a line is. A marked line whose payload is not an integer is logged with that payload and the stripped line. A zero duration with an integer payload is the division error, and only then. Otherwise the report is the fraction of the parsed payload |
| Encoder.ProgressFraction | compressconvert.py:122 | A file fraction never exceeds 1 |
| Encoder.ScanLines | compressconvert.py:114-129 | Reference definition of the reading loop over the encoder's lines: the reported events and whether the stream ended or the division error stopped it. Its properties are `ScanFractionsAtMostOne`, `ScanOnlyMarkedLines` and `ScanReadsToEnd` |
| Encoder.ReadProgress | compressconvert.py:114-137 | The reading loop reports exactly the events and the stop reason of `ScanLines` over the output, its verdict is `Conclude` of that scan and the exit code, and every reported fraction is at most 1 |
| Encoder.Conclude | compressconvert.py:131-137 | The job aborts iff the division error stopped the reading; it fails with the exit code iff the stream ended and the code is non-zero |
| Encoder.ScanFractionsAtMostOne | compressconvert.py:114-129 | Every fraction the loop reports over any output is at most 1 |
| Encoder.ScanOnlyMarkedLines | compressconvert.py:118 | The loop reports at most one event per line that carries the marker |
| Encoder.ScanReadsToEnd | compressconvert.py:114-129 | With a non-zero duration the loop always reads the output to its end |
| Encoder.PayloadOfProgressLine | compressconvert.py:119 | The payload of `out_time_ms=<n>\n` is the text of n |
| Encoder.ProgressLineRoundTrip | compressconvert.py:118-124 | A progress line the encoder writes for time t is read back as the fraction of t |
| Encoder.FractionInUnitInterval | compressconvert.py:122 | For a non-negative time and positive duration the fraction lies in [0, 1], and it is 1 exactly when the time reaches the duration |
| Encoder.FractionMonotone | compressconvert.py:122 | A later time never gives a smaller fraction |
| Strategy.RunEncoder | compressconvert.py:111-141 | A refused start logs one stage line and raises it. A started encoder's events are its launch, then exactly the lifted reports of `ScanLines` over its output. The division error then adds one stage line; a non-zero exit after the whole stream adds the "FFmpeg failed" line and its stage line and raises `EncoderFailed(code, file)`. The run succeeds iff the stream is read to its end and the code is 0, and then nothing follows the reports. Every fraction is at most 1 |
| Strategy.AudioCodec | compressconvert.py:232 | The codec is libmp3lame iff the lower-cased target is mp3, and aac otherwise |
| Strategy.VideoCommand | compressconvert.py:97-109 | Nineteen arguments: `ffmpeg`, the input after `-i`, the `-b:v` and `-b:a` flags at their places, the target after `-f`, `-y`, progress on `pipe:1`, the output last; the bitrates are read back by `VideoCommandCarriesPlan` |
| Strategy.VideoCommandCodecs | compressconvert.py:102-104 | The audio is encoded with `aac` and the video with `libx264` at the `medium` preset |
| Strategy.ExtractionCommand | compressconvert.py:162-173 | Sixteen arguments: `ffmpeg`, the input after `-i`, `-vn`, `-ar 44100`, `-ac 2`, the `-b:a` flag, `mp3` after `-f`, `-y`, progress on `pipe:1`, the output last |
| Strategy.AudioCommand | compressconvert.py:234-243 | Thirteen arguments: `ffmpeg`, the input after `-i`, the `-b:a` flag, `AudioCodec` of the target after `-c:a`, the target after `-f`, `-y`, progress on `pipe:1`, the output last |
| Strategy.VideoCommandCarriesPlan | compressconvert.py:97-109 | The argument after `-b:v` reads back as the planned video bitrate and the one after `-b:a` as the planned audio bitrate |
| Strategy.ExtractionCommandCarriesBitrate | compressconvert.py:162-173 | The argument after `-b:a` is `<n>k` with n the bitrate option |
| Strategy.AudioCommandCarriesBitrate | compressconvert.py:234-243 | The argument after `-b:a` is `<n>k` with n the bitrate option |
| Strategy.DurationOf | compressconvert.py:68-81 | A missing or `N/A` duration raises "Cannot determine duration of <kind> file: <input>"; a text `float()` rejects raises "Invalid duration value" with that text; otherwise the duration is the parsed one |
| Strategy.CompressImage | compressconvert.py:27-55 | Succeeds iff the library opens the file, the format is one of the four, and the save does not fail. Success saves the planned image and then reports 1.0. An unreadable file raises the library's error; an unknown format raises "Unsupported output format" with the lower-cased format; a failed save raises the library's save error. Every failure logs one line and re-raises it |
| Strategy.CompressVideo | compressconvert.py:59-141 | A failed probe logs and raises the probe error for the file name. A failed duration check logs and raises exactly `DurationOf`'s error. A zero duration raises the division error with no event. Otherwise the job is `RunEncoder` of the command carrying the bitrate plan, so a non-zero exit raises `EncoderFailed(code, file)`. It succeeds iff the duration is known and non-zero and the exit code is 0 |
| Strategy.ExtractAudio | compressconvert.py:145-204 | A failed probe raises the probe's own error with one stage line. A failed duration check logs `DurationOf`'s error, then its stage line, and raises it. Otherwise the job is `RunEncoder` of the extraction command, so a non-zero exit after the whole stream raises `EncoderFailed(code, file)`. It succeeds iff the duration is known, the stream is read to its end and the exit code is 0 |
| Strategy.CompressAudio | compressconvert.py:208-275 | A failed probe logs and raises the probe error for the file name. A failed duration check logs and raises exactly `DurationOf`'s error. Otherwise the job is `RunEncoder` of the audio command, so a non-zero exit after the whole stream raises `EncoderFailed(code, file)`. It succeeds iff the duration is known, the stream is read to its end and the exit code is 0 |
| Strategy.SourceBranch | compressconvert.py:320-363 | An image suffix takes precedence, then a video suffix, then an audio suffix; an `mp3` source always goes to the video branch |
| Strategy.ProcessFile | compressconvert.py:320-363 | A file is skipped iff its name has no known suffix. Every job it runs reports fractions of at most 1 |
| Strategy.ProcessFileCompressesImage | compressconvert.py:320-329 | An image source runs `CompressImage` with the image size percentage and the output's extension as format |
| Strategy.ProcessFileExtracts | compressconvert.py:330-339 | A video source with an `mp3` target runs `ExtractAudio` with the bitrate option as an integer, and raises "not an integer" with no event when `int()` rejects the option; when it succeeds it launched the extraction command |
| Strategy.ProcessFileTranscodesVideo | compressconvert.py:340-349 | A video source with any other target runs `CompressVideo` with the video percentage, the target extension and the audio quality flag; when it succeeds the duration was known and it launched the command carrying the bitrate plan |
| Strategy.ProcessFileTranscodesAudio | compressconvert.py:350-359 | An audio source runs `CompressAudio` with the bitrate option as an integer and the target extension, and raises "not an integer" with no event when `int()` rejects the option; when it succeeds it launched the audio command |
| Worker.OverallProgressAtMostOne | compressconvert.py:316-318 | With fewer files done than the batch holds, a file fraction up to 1 never takes the overall progress past 1 |
| Worker.OverallProgressInUnitInterval | compressconvert.py:316-318 | With fewer files done than the batch holds and a file fraction in [0, 1], the overall progress lies in [0, 1] |
| Worker.OverallProgress | compressconvert.py:316-318 | `(processed + fraction) / total`: for a non-negative fraction never below the share of files done and, for a fraction up to 1, never beyond the share after the current file |
| Worker.LoopNext | compressconvert.py:309-376 | One more iteration adds 1 to `processed_files` iff the job went through, clears `success` iff it raised, and appends that job's signals |
| Worker.LoopPrefix | compressconvert.py:309-376 | The loop state after n jobs depends only on the first n jobs |
| Worker.Loop | compressconvert.py:309-376 | Reference definition of the loop state after n jobs: `processed_files`, `success` and the signals, as `LoopNext` steps them |
| Worker.FirstInterrupt | compressconvert.py:309-313 | The loop stops at the first check that sees the flag; no earlier check saw it, and if the flag was already raised the loop stops at once |
| Worker.PollAt | compressconvert.py:310 | Up to the first interrupted check, check i sees the flag exactly when i is that check |
| Worker.RunSignals | compressconvert.py:301-393 | Reference definition of a run's signals: "Starting", the signals of the jobs before the first interrupted check, then the closing lines and `completed`; its properties are in `WorkerProperties` |
| Worker.CompressionWorker.constructor | compressconvert.py:295-299 | The worker keeps the files and options it is given, starts with the flag lowered and no signals, and dispatches each job with `ProcessFile` |
| Worker.CompressionWorker.Interrupt | compressconvert.py:395-396 | Raises the flag and emits nothing |
| Worker.CompressionWorker.ReportJob | compressconvert.py:361-376 | Appends the job's own signals and then its per-file status and log lines; reports whether the job went through and whether it raised |
| Worker.CompressionWorker.RunOne | compressconvert.py:315-376 | One iteration moves the loop state from job i to job i+1 |
| Worker.CompressionWorker.RunJobs | compressconvert.py:309-376 | The loop stops at the first interrupted check (or runs every job), appends the signals of the jobs before it, returns the `success` flag of those jobs, and leaves the flag raised iff it stopped early |
| Worker.CompressionWorker.Finish | compressconvert.py:378-393 | Appends the interruption line, or the verdict lines, the final 1.0 and any `open_folder` failure; then appends `completed` with the run's verdict |
| Worker.CompressionWorker.Run | compressconvert.py:301-393 | The signals of a run are "Starting", then the signals of the jobs before the first interrupted check, then the ending; the flag ends raised iff it was raised or any interrupt arrived |
| WorkerProperties.ProcessedCount | compressconvert.py:365 | `processed_files` counts exactly the jobs that went through, never more than the jobs run |
| WorkerProperties.SuccessFlag | compressconvert.py:369-376 | `success` holds exactly when no job so far raised; a skipped file does not clear it |
| WorkerProperties.LoopProgressAtMostOne | compressconvert.py:316-318 | Every overall progress value the loop emits is at most 1 when each job's file fractions are |
| WorkerProperties.FinalProgress | compressconvert.py:378-388 | After the loop the only progress value is 1.0, and it is emitted iff the batch was not interrupted and no job raised |
| WorkerProperties.RunProgressAtMostOne | compressconvert.py:301-393 | Every progress value of a run is at most 1 when each job's file fractions are |
| WorkerProperties.WorkerProgressAtMostOne | compressconvert.py:301-393 | For the worker's own dispatch, every progress value of a run is at most 1, whatever the files and the outside world |
| WorkerProperties.JobOutputOneVerdict | compressconvert.py:360-376 | Each job yields exactly one per-file status: compressed, failed or unsupported |
| WorkerProperties.LoopFileVerdicts | compressconvert.py:309-376 | After n jobs exactly n per-file statuses have been emitted |
| WorkerProperties.RunFileVerdicts | compressconvert.py:301-393 | A run emits one per-file status for each job before the first interrupted check, and no other |
| WorkerProperties.RunIgnoresJobsAfterInterrupt | compressconvert.py:309-313 | The jobs from the first interrupted check on are never run: changing what they would do changes nothing |
| WorkerProperties.RunCompletesOnce | compressconvert.py:378-393 | `completed` is emitted exactly once, as the last signal. Its argument holds iff no check saw the flag, no job raised and `open_folder` did not fail |
| Export.IsSupportedFile | compressconvert.py:837-843 | The lower-cased path ends with one of the fourteen dotted extensions; `SupportedIgnoresCase` and `SupportedFilesHaveATranscoder` state its properties |
| Export.SupportedIgnoresCase | compressconvert.py:837-843 | A path and its lower-cased form are accepted alike |
| Export.SupportedFilesHaveATranscoder | compressconvert.py:837-843 | Every file the filter accepts reaches one of the three transcoders |
| Export.DispatchWiderThanFilter | compressconvert.py:837-843 | `xpng` is dispatched to the image branch but refused by the filter |
| Export.ChosenFormat | compressconvert.py:763-770 | An input gets a format iff the worker's dispatch gives it a transcoder: the image box's text for the image branch, the video box's for the video branch, the audio box's for the audio branch |
| Export.Plan | compressconvert.py:759-777 | Reference definition of `files_to_process`: one pair per input that has a transcoder, in input order; `PlanSound`, `PlanComplete` and `PlanLength` state its properties |
| Export.PrepareOutputs | compressconvert.py:759-777 | The loop builds exactly the plan `Plan` describes |
| Export.PlanSound | compressconvert.py:759-777 | Every planned pair starts from an input that has a transcoder. Its output is `stem_compressed.<format>` in the output folder, with the format chosen for that input |
| Export.PlanComplete | compressconvert.py:759-777 | Every input that has a transcoder appears in the plan |
| Export.PlanLength | compressconvert.py:759-777 | The plan never holds more pairs than there are inputs |
| Export.PlannedFormatReadBack | compressconvert.py:771-776 | When the format text holds no dot or separator, the worker reads back from a planned output exactly the format that was chosen |

## Left out

- The imaging library, the probe and the encoder process are not executed.
  They are answers held in `FileWorld`: whether the file opens, its mode and
  whether the save fails; the probe's duration text or its error; the encoder's
  output lines and exit code; and `os.path.getsize`. Their internal behaviour
  is outside the program.
- `float()` on the probe's duration text is the parameter `parseFloat`.
  Durations, bitrates and fractions are exact reals, not IEEE doubles, so
  rounding inside a float division is not modelled.
- The Qt thread, its signals and the GUI are not modelled. The four signals
  are an ordered log.
- `interrupt()` is modelled only as arriving between two interrupt checks. The
  parameter `interrupts` says, for each check, whether an interrupt came
  before it. Real concurrency with a job in progress is not modelled.
- The encoder's stream is the finished list of lines it writes. The
  `poll()`-based loop end is reading that list to its end; blocking and
  timing are out of scope.
- The `ffmpeg -version` call at line 96 is not modelled: its result is
  discarded. `check_ffmpeg_installed` is not modelled either: it is a startup
  environment check, outside the batch.
- `open_folder` (279-285) is modelled only by its possible failure,
  `openFolderFailure`, which the outer handler reports. Launching a file
  manager is an external effect.
- Text handling covers ASCII only. `lower()` folds `A`..`Z`. `strip()`
  removes the ASCII part of `str.isspace`, which includes the separators
  0x1C..0x1F. `int()` skips only tab, line feed, vertical tab, form feed,
  carriage return and space around the number, so a payload that starts with
  0x1C is not an integer (`IntRejectsSeparator`). `int()` accepts ASCII
  digits with single underscores between them. Python's Unicode case folding and Unicode digits
  are not modelled.
- `os.path` is POSIX only, with `/` as the separator; Windows paths are not
  modelled.
- The rest of `export_compressed`:
  - its guards before planning;
  - folder creation and its dialogs (741-757);
  - the "No files to process" stop (783-786);
  - the UI toggling and the worker start after planning.

  These are GUI flow around the modelled planning loop. The `except` at
  779-781 cannot fire in the model, because nothing in the modelled body
  raises.
- The de-duplication of dropped or selected files through `list(set(...))` is
  not modelled. It is GUI input handling, and its order is Python's
  unspecified set order.
- Progress is not monotone across the batch in the code. A file's fractions
  follow the encoder's `out_time_ms` values, and a failed job does not
  advance `processed_files`. So no monotonicity claim is made beyond
  `FractionMonotone` for a single fraction.
- ImageCompression.WebpQualityIsPercentage: `int(100 * (p / 100))` is p in
  exact arithmetic, which is what the model states. In IEEE doubles the
  product can fall just below p, for example 28.999… for p = 29, and then
  truncates to p - 1.
- ImageCompression.JpegQualityIntegerForm: `95 * (p / 100)` is likewise
  taken in exact arithmetic. A double can land just below an integer and
  truncate one lower.
- Bitrate.PlanMonotone: requires a non-negative size and a positive duration,
  because with a negative duration a larger percentage lowers the bitrate.
- Bitrate.RequestedMonotone: requires a non-negative size and a positive
  duration, for the same reason.
- Encoder.FractionInUnitInterval: the lower bound 0 is stated only for a
  non-negative time and a positive duration. The code itself clamps only from
  above.
- Worker.OverallProgressInUnitInterval: requires a file fraction in [0, 1].
  The upper bound alone is proved for every transcoder
  (`WorkerProperties.WorkerProgressAtMostOne`).
