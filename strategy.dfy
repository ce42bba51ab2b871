/**
 * The three transcoders and the image path as functions of what the outside
 * world answers: each returns the events it produces (callbacks, encoder
 * launches, image saves) and the exception it raises, if any.
 */
module Strategy {
  import opened Wrappers
  import opened Text
  import opened Paths
  import opened ImageCompression
  import opened Bitrate
  import opened Probe
  import opened Encoder

  // ---------------------------------------------------------------------------
  // What the outside world answers for one file

  /** The imaging library on the input: it cannot open it, or it opens it in some colour mode and the save may fail. */
  datatype ImageFile = Unreadable(reason: string) | Opened(mode: string, saveFailure: Option<string>)

  /** The encoder process: it cannot be started, or it writes these lines and exits with this code. */
  datatype EncoderProcess = SpawnRefused(reason: string) | Exited(lines: seq<string>, exitCode: int)

  /** Everything the transcoders learn from outside about one input file. */
  datatype FileWorld = FileWorld(image: ImageFile, probe: ProbeOutcome, size: nat, encoder: EncoderProcess)

  // ---------------------------------------------------------------------------
  // Exceptions, log lines and events

  /** Whether a duration message speaks of a "video file" or an "audio file". */
  datatype MediaKind = VideoFile | AudioFile

  /** Which function's outer handler wrapped a log line ("Video Compression Error for ..."). */
  datatype Stage = ImageStage | VideoCompression | AudioExtraction | AudioCompression

  /** What a transcoder raises. */
  datatype JobError =
    | UnsupportedFormat(format: string)            // "Unsupported output format: <format>"
    | ImageLibraryError(reason: string)            // raised by the imaging library
    | ProbeError(file: string, stderr: string)     // "FFmpeg probe error for <file>: <stderr>"
    | ProbeToolError(stderr: string)               // the probe's own exception, not converted
    | DurationUnknown(kind: MediaKind, path: string)   // "Cannot determine duration of <kind>: <path>"
    | DurationInvalid(text: string, path: string)      // "Invalid duration value '<text>' for file: <path>"
    | DivisionByZeroRaised                         // `ZeroDivisionError`: a division by a zero duration
    | SpawnFailed(reason: string)                  // the encoder process could not be started
    | EncoderFailed(code: int, file: string)       // "FFmpeg failed with return code <code> for file: <file>"
    | NotAnInteger(text: string)                   // `int(...)` of the audio bitrate option

  /** A line given to the error-log callback. */
  datatype Message =
    | Logged(error: JobError)                      // the text of the exception about to be raised
    | StageError(stage: Stage, file: string, error: JobError)
    | NonIntegerOutTime(value: string, line: string)

  /** What a transcoder does that is visible outside it, in order. */
  datatype JobEvent =
    | Progress(fraction: real)                     // the progress callback
    | Log(message: Message)                        // the error-log callback
    | Launched(command: seq<string>)               // the encoder process was started
    | Saved(save: ImageSave)                       // the imaging library saved the output

  datatype JobRun = JobRun(events: seq<JobEvent>, raised: Option<JobError>)

  predicate ProgressAtMostOne(events: seq<JobEvent>) {
    forall k :: 0 <= k < |events| && events[k].Progress? ==> events[k].fraction <= 1.0
  }

  predicate NothingLaunched(events: seq<JobEvent>) {
    forall k :: 0 <= k < |events| ==> !events[k].Launched?
  }

  // ---------------------------------------------------------------------------
  // Running the encoder

  function LiftEvent(e: ProgressEvent): JobEvent {
    match e
    case Fraction(f) => Progress(f)
    case NonIntegerLogged(v, l) => Log(NonIntegerOutTime(v, l))
  }

  /** The reading loop's reports as the transcoder's callbacks. */
  function Lift(events: seq<ProgressEvent>): (r: seq<JobEvent>)
    ensures |r| == |events| && NothingLaunched(r)
    ensures FractionsAtMostOne(events) ==> ProgressAtMostOne(r)
  {
    seq(|events|, k requires 0 <= k < |events| => LiftEvent(events[k]))
  }

  /**
   * Starting the encoder with `command`, reading its progress and judging its
   * exit, inside the transcoder's outer `try` whose handler logs a
   * `stage` line and re-raises.
   */
  function RunEncoder(command: seq<string>, process: EncoderProcess, duration: real, stage: Stage, file: string): (r: JobRun)
    ensures r.raised.None? <==> process.Exited? && process.exitCode == 0 && ScanLines(process.lines, duration).end == EndOfStream
    ensures process.Exited? ==> |r.events| > 0 && r.events[0] == Launched(command) && NothingLaunched(r.events[1..])
    ensures process.SpawnRefused? ==> NothingLaunched(r.events)
    ensures duration != 0.0 ==> (r.raised.None? <==> process.Exited? && process.exitCode == 0)
    ensures process.Exited? && process.exitCode != 0 && duration != 0.0 ==>
              r.raised == Some(EncoderFailed(process.exitCode, file))
    ensures ProgressAtMostOne(r.events)
    ensures process.SpawnRefused? ==>
              r == JobRun([Log(StageError(stage, file, SpawnFailed(process.reason)))], Some(SpawnFailed(process.reason)))
    ensures process.Exited? ==>
              var reports := Lift(ScanLines(process.lines, duration).events);
              |r.events| >= 1 + |reports| && r.events[1..1 + |reports|] == reports
    ensures process.Exited? && ScanLines(process.lines, duration).end == ZeroDivision ==>
              var reports := Lift(ScanLines(process.lines, duration).events);
              r.raised == Some(DivisionByZeroRaised) &&
              r.events[1 + |reports|..] == [Log(StageError(stage, file, DivisionByZeroRaised))]
    ensures process.Exited? && ScanLines(process.lines, duration).end == EndOfStream && process.exitCode != 0 ==>
              var reports := Lift(ScanLines(process.lines, duration).events);
              var error := EncoderFailed(process.exitCode, file);
              r.raised == Some(error) && r.events[1 + |reports|..] == [Log(Logged(error)), Log(StageError(stage, file, error))]
    ensures r.raised.None? ==> r.events == [Launched(command)] + Lift(ScanLines(process.lines, duration).events)
  {
    match process
    case SpawnRefused(reason) =>
      JobRun([Log(StageError(stage, file, SpawnFailed(reason)))], Some(SpawnFailed(reason)))
    case Exited(lines, code) =>
      ScanReadsToEnd(lines, duration);
      RunExited(command, lines, code, duration, stage, file)
  }

  /** The part of `RunEncoder` after a successful start: the encoder wrote `lines` and exited with `code`. */
  function RunExited(command: seq<string>, lines: seq<string>, code: int, duration: real, stage: Stage, file: string)
    : (r: JobRun)
    ensures var reports := Lift(ScanLines(lines, duration).events);
            |r.events| >= 1 + |reports| && r.events[0] == Launched(command) && r.events[1..1 + |reports|] == reports
    ensures NothingLaunched(r.events[1..]) && ProgressAtMostOne(r.events)
    ensures r.raised.None? <==> code == 0 && ScanLines(lines, duration).end == EndOfStream
    ensures ScanLines(lines, duration).end == ZeroDivision ==>
              var reports := Lift(ScanLines(lines, duration).events);
              r.raised == Some(DivisionByZeroRaised) &&
              r.events[1 + |reports|..] == [Log(StageError(stage, file, DivisionByZeroRaised))]
    ensures ScanLines(lines, duration).end == EndOfStream && code != 0 ==>
              var reports := Lift(ScanLines(lines, duration).events);
              var error := EncoderFailed(code, file);
              r.raised == Some(error) && r.events[1 + |reports|..] == [Log(Logged(error)), Log(StageError(stage, file, error))]
    ensures r.raised.None? ==> r.events == [Launched(command)] + Lift(ScanLines(lines, duration).events)
  {
    var scan := ScanLines(lines, duration);
    ScanFractionsAtMostOne(lines, duration);
    var reported := [Launched(command)] + Lift(scan.events);
    assert reported[1..] == Lift(scan.events);
    match Conclude(scan, code)
    case Succeeded => JobRun(reported, None)
    case Aborted =>
      JobRun(reported + [Log(StageError(stage, file, DivisionByZeroRaised))], Some(DivisionByZeroRaised))
    case ExitFailed(c) =>
      var error := EncoderFailed(c, file);
      JobRun(reported + [Log(Logged(error)), Log(StageError(stage, file, error))], Some(error))
  }

  // ---------------------------------------------------------------------------
  // Encoder command lines

  /** The codec of an audio transcode: MP3's encoder for an `mp3` target, AAC otherwise. */
  function AudioCodec(outputFormat: string): (codec: string)
    ensures codec == "libmp3lame" <==> Lower(outputFormat) == "mp3"
    ensures codec == "aac" <==> Lower(outputFormat) != "mp3"
  {
    if Lower(outputFormat) == "mp3" then "libmp3lame" else "aac"
  }

  /** The video command line: input after `-i`, the container after `-f`, progress on stdout, output last. */
  function VideoCommand(input: string, output: string, plan: BitratePlan, outputFormat: string): (c: seq<string>)
    ensures |c| == 19 && c[0] == "ffmpeg" && c[1] == "-i" && c[2] == input && c[13] == "-f" && c[14] == outputFormat
    ensures c[15] == "-y"
    ensures c[|c| - 3] == "-progress" && c[|c| - 2] == "pipe:1" && c[|c| - 1] == output
  {
    ["ffmpeg", "-i", input, "-b:v", IntToString(plan.videoBps), "-b:a", IntToString(plan.audioBps),
     "-c:a", "aac", "-c:v", "libx264", "-preset", "medium", "-f", outputFormat, "-y",
     "-progress", "pipe:1", output]
  }

  /** The extraction command line: no video, 44.1 kHz stereo MP3, progress on stdout, output last. */
  function ExtractionCommand(input: string, output: string, bitrate: int): (c: seq<string>)
    ensures |c| == 16 && c[0] == "ffmpeg" && c[1] == "-i" && c[2] == input && c[3] == "-vn" && c[10] == "-f" && c[11] == "mp3"
    ensures c[4] == "-ar" && c[5] == "44100" && c[6] == "-ac" && c[7] == "2" && c[8] == "-b:a" && c[12] == "-y"
    ensures c[|c| - 3] == "-progress" && c[|c| - 2] == "pipe:1" && c[|c| - 1] == output
  {
    ["ffmpeg", "-i", input, "-vn", "-ar", "44100", "-ac", "2", "-b:a", IntToString(bitrate) + "k",
     "-f", "mp3", "-y", "-progress", "pipe:1", output]
  }

  /** The audio command line: the codec of the target after `-c:a`, the target after `-f`, output last. */
  function AudioCommand(input: string, output: string, bitrate: int, outputFormat: string): (c: seq<string>)
    ensures |c| == 13 && c[0] == "ffmpeg" && c[1] == "-i" && c[2] == input && c[3] == "-b:a"
    ensures c[5] == "-c:a" && c[6] == AudioCodec(outputFormat) && c[9] == "-y"
    ensures c[7] == "-f" && c[8] == outputFormat
    ensures c[|c| - 3] == "-progress" && c[|c| - 2] == "pipe:1" && c[|c| - 1] == output
  {
    ["ffmpeg", "-i", input, "-b:a", IntToString(bitrate) + "k", "-c:a", AudioCodec(outputFormat),
     "-f", outputFormat, "-y", "-progress", "pipe:1", output]
  }

  /** A plain decimal bitrate argument reads back as its value. */
  lemma DecimalArgument(bitrate: int, arg: string)
    requires arg == IntToString(bitrate)
    ensures ParseInt(arg) == Some(bitrate)
  {
    ParseIntOfIntToString(bitrate);
  }

  /** The bitrates in a video command read back as the plan's, in bit/s. */
  lemma VideoCommandCarriesPlan(input: string, output: string, plan: BitratePlan, outputFormat: string)
    ensures ParseInt(VideoCommand(input, output, plan, outputFormat)[4]) == Some(plan.videoBps)
    ensures ParseInt(VideoCommand(input, output, plan, outputFormat)[6]) == Some(plan.audioBps)
    ensures VideoCommand(input, output, plan, outputFormat)[3] == "-b:v" && VideoCommand(input, output, plan, outputFormat)[5] == "-b:a"
  {
    var command := VideoCommand(input, output, plan, outputFormat);
    assert command[3] == "-b:v" && command[5] == "-b:a";
    var video, audio := IntToString(plan.videoBps), IntToString(plan.audioBps);
    assert command[4] == video && command[6] == audio;
    DecimalArgument(plan.videoBps, video);
    DecimalArgument(plan.audioBps, audio);
  }

  /** A video transcode encodes its audio as AAC and its video with x264 at the medium preset. */
  lemma VideoCommandCodecs(input: string, output: string, plan: BitratePlan, outputFormat: string)
    ensures var c := VideoCommand(input, output, plan, outputFormat);
            c[7] == "-c:a" && c[8] == "aac" && c[9] == "-c:v" && c[10] == "libx264" &&
            c[11] == "-preset" && c[12] == "medium"
  {
  }

  /** A `<n>k` bitrate argument reads back as `n`. */
  lemma KbpsArgument(bitrate: int, arg: string)
    requires arg == IntToString(bitrate) + "k"
    ensures |arg| > 1 && arg[|arg| - 1] == 'k' && ParseInt(arg[..|arg| - 1]) == Some(bitrate)
  {
    ParseIntOfIntToString(bitrate);
    assert arg[..|arg| - 1] == IntToString(bitrate);
  }

  /** The bitrate in an extraction command reads back as the option's value, in kbit/s. */
  lemma ExtractionCommandCarriesBitrate(input: string, output: string, bitrate: int)
    ensures ExtractionCommand(input, output, bitrate)[8] == "-b:a"
    ensures var arg := ExtractionCommand(input, output, bitrate)[9];
            |arg| > 1 && arg[|arg| - 1] == 'k' && ParseInt(arg[..|arg| - 1]) == Some(bitrate)
  {
    KbpsArgument(bitrate, ExtractionCommand(input, output, bitrate)[9]);
  }

  /** The bitrate in an audio command reads back as the option's value, in kbit/s. */
  lemma AudioCommandCarriesBitrate(input: string, output: string, bitrate: int, outputFormat: string)
    ensures AudioCommand(input, output, bitrate, outputFormat)[3] == "-b:a"
    ensures var arg := AudioCommand(input, output, bitrate, outputFormat)[4];
            |arg| > 1 && arg[|arg| - 1] == 'k' && ParseInt(arg[..|arg| - 1]) == Some(bitrate)
  {
    KbpsArgument(bitrate, AudioCommand(input, output, bitrate, outputFormat)[4]);
  }

  // ---------------------------------------------------------------------------
  // The transcoders

  /** The duration check as the transcoders raise it. */
  function DurationOf(field: Option<string>, kind: MediaKind, input: string, parseFloat: string -> Option<real>): (r: Result<real, JobError>)
    ensures r.Ok? <==> ParseDuration(field, parseFloat).Ok?
    ensures r.Ok? ==> r.value == ParseDuration(field, parseFloat).value
    ensures r.Err? ==> r.error.DurationUnknown? || r.error.DurationInvalid?
    ensures ParseDuration(field, parseFloat) == Err(CannotDetermine) ==> r == Err(DurationUnknown(kind, input))
    ensures ParseDuration(field, parseFloat).Err? && ParseDuration(field, parseFloat).error.InvalidDuration? ==>
              r == Err(DurationInvalid(field.value, input))
  {
    match ParseDuration(field, parseFloat)
    case Ok(d) => Ok(d)
    case Err(CannotDetermine) => Err(DurationUnknown(kind, input))
    case Err(InvalidDuration(text)) => Err(DurationInvalid(text, input))
  }

  /** `compress_image`: plan the save, let the library write it, report 1.0. */
  function CompressImage(input: string, targetPercentage: int, outputFormat: string, image: ImageFile): (r: JobRun)
    ensures r.raised.None? <==> image.Opened? && image.saveFailure.None? && Lower(outputFormat) in ImageFormats
    ensures r.raised.None? ==> r.events == [Saved(PlanImageSave(outputFormat, image.mode, targetPercentage).value), Progress(1.0)]
    ensures image.Opened? && Lower(outputFormat) !in ImageFormats ==>
              r.raised == Some(UnsupportedFormat(Lower(outputFormat)))
    ensures r.raised.Some? ==> r.events == [Log(StageError(ImageStage, Basename(input), r.raised.value))]
    ensures ProgressAtMostOne(r.events) && NothingLaunched(r.events)
    ensures image.Unreadable? ==> r.raised == Some(ImageLibraryError(image.reason))
    ensures image.Opened? && Lower(outputFormat) in ImageFormats && image.saveFailure.Some? ==>
              r.raised == Some(ImageLibraryError(image.saveFailure.value))
  {
    var file := Basename(input);
    match image
    case Unreadable(reason) =>
      JobRun([Log(StageError(ImageStage, file, ImageLibraryError(reason)))], Some(ImageLibraryError(reason)))
    case Opened(mode, saveFailure) =>
      match PlanImageSave(outputFormat, mode, targetPercentage)
      case Err(format) =>
        JobRun([Log(StageError(ImageStage, file, UnsupportedFormat(format)))], Some(UnsupportedFormat(format)))
      case Ok(save) =>
        if saveFailure.Some? then
          JobRun([Log(StageError(ImageStage, file, ImageLibraryError(saveFailure.value)))], Some(ImageLibraryError(saveFailure.value)))
        else
          JobRun([Saved(save), Progress(1.0)], None)
  }

  /** Whether the probe gave a usable duration. */
  predicate DurationKnown(w: FileWorld, parseFloat: string -> Option<real>) {
    w.probe.Probed? && ParseDuration(w.probe.duration, parseFloat).Ok?
  }

  /** `compress_video`: probe, check the duration, plan the bitrates, run the encoder. */
  function CompressVideo(input: string, output: string, targetPercentage: int, outputFormat: string,
                         highQualityAudio: bool, w: FileWorld, parseFloat: string -> Option<real>): (r: JobRun)
    ensures !DurationKnown(w, parseFloat) ==> r.raised.Some? && NothingLaunched(r.events)
    ensures DurationKnown(w, parseFloat) && ParseDuration(w.probe.duration, parseFloat).value == 0.0 ==>
              r == JobRun([], Some(DivisionByZeroRaised))
    ensures r.raised.None? <==>
              DurationKnown(w, parseFloat) && ParseDuration(w.probe.duration, parseFloat).value != 0.0 &&
              w.encoder.Exited? && w.encoder.exitCode == 0
    ensures r.raised.None? ==>
              var d := ParseDuration(w.probe.duration, parseFloat).value;
              |r.events| > 0 && r.events[0] == Launched(VideoCommand(input, output, Plan(w.size, d, targetPercentage, highQualityAudio).value, outputFormat))
    ensures ProgressAtMostOne(r.events)
    ensures w.probe.ProbeFailed? ==>
              var error := ProbeError(Basename(input), w.probe.stderr);
              r == JobRun([Log(Logged(error))], Some(error))
    ensures w.probe.Probed? && DurationOf(w.probe.duration, VideoFile, input, parseFloat).Err? ==>
              var error := DurationOf(w.probe.duration, VideoFile, input, parseFloat).error;
              r == JobRun([Log(Logged(error))], Some(error))
    ensures DurationKnown(w, parseFloat) && ParseDuration(w.probe.duration, parseFloat).value != 0.0 ==>
              var d := ParseDuration(w.probe.duration, parseFloat).value;
              r == RunEncoder(VideoCommand(input, output, Plan(w.size, d, targetPercentage, highQualityAudio).value, outputFormat),
                              w.encoder, d, VideoCompression, Basename(input))
    ensures DurationKnown(w, parseFloat) && ParseDuration(w.probe.duration, parseFloat).value != 0.0 &&
            w.encoder.Exited? && w.encoder.exitCode != 0 ==>
              r.raised == Some(EncoderFailed(w.encoder.exitCode, Basename(input)))
  {
    var file := Basename(input);
    match w.probe
    case ProbeFailed(stderr) =>
      JobRun([Log(Logged(ProbeError(file, stderr)))], Some(ProbeError(file, stderr)))
    case Probed(field) =>
      match DurationOf(field, VideoFile, input, parseFloat)
      case Err(e) => JobRun([Log(Logged(e))], Some(e))
      case Ok(d) =>
        match Plan(w.size, d, targetPercentage, highQualityAudio)
        case None => JobRun([], Some(DivisionByZeroRaised))
        case Some(plan) =>
          RunEncoder(VideoCommand(input, output, plan, outputFormat), w.encoder, d, VideoCompression, file)
  }

  /** `extract_audio`: everything, the probe included, runs inside one `try` whose handler logs and re-raises. */
  function ExtractAudio(input: string, output: string, bitrate: int, w: FileWorld, parseFloat: string -> Option<real>): (r: JobRun)
    ensures !DurationKnown(w, parseFloat) ==> r.raised.Some? && NothingLaunched(r.events)
    ensures r.raised.None? <==>
              DurationKnown(w, parseFloat) && w.encoder.Exited? && w.encoder.exitCode == 0 &&
              ScanLines(w.encoder.lines, ParseDuration(w.probe.duration, parseFloat).value).end == EndOfStream
    ensures r.raised.None? ==> |r.events| > 0 && r.events[0] == Launched(ExtractionCommand(input, output, bitrate))
    ensures ProgressAtMostOne(r.events)
    ensures w.probe.ProbeFailed? ==>
              var error := ProbeToolError(w.probe.stderr);
              r == JobRun([Log(StageError(AudioExtraction, Basename(input), error))], Some(error))
    ensures w.probe.Probed? && DurationOf(w.probe.duration, VideoFile, input, parseFloat).Err? ==>
              var error := DurationOf(w.probe.duration, VideoFile, input, parseFloat).error;
              r == JobRun([Log(Logged(error)), Log(StageError(AudioExtraction, Basename(input), error))], Some(error))
    ensures DurationKnown(w, parseFloat) ==>
              r == RunEncoder(ExtractionCommand(input, output, bitrate), w.encoder,
                              ParseDuration(w.probe.duration, parseFloat).value, AudioExtraction, Basename(input))
    ensures DurationKnown(w, parseFloat) && w.encoder.Exited? && w.encoder.exitCode != 0 &&
            ScanLines(w.encoder.lines, ParseDuration(w.probe.duration, parseFloat).value).end == EndOfStream ==>
              r.raised == Some(EncoderFailed(w.encoder.exitCode, Basename(input)))
  {
    var file := Basename(input);
    match w.probe
    case ProbeFailed(stderr) =>
      JobRun([Log(StageError(AudioExtraction, file, ProbeToolError(stderr)))], Some(ProbeToolError(stderr)))
    case Probed(field) =>
      match DurationOf(field, VideoFile, input, parseFloat)
      case Err(e) => JobRun([Log(Logged(e)), Log(StageError(AudioExtraction, file, e))], Some(e))
      case Ok(d) => RunEncoder(ExtractionCommand(input, output, bitrate), w.encoder, d, AudioExtraction, file)
  }

  /** `compress_audio`: probe, check the duration, pick the codec, run the encoder. */
  function CompressAudio(input: string, output: string, bitrate: int, outputFormat: string,
                         w: FileWorld, parseFloat: string -> Option<real>): (r: JobRun)
    ensures !DurationKnown(w, parseFloat) ==> r.raised.Some? && NothingLaunched(r.events)
    ensures r.raised.None? <==>
              DurationKnown(w, parseFloat) && w.encoder.Exited? && w.encoder.exitCode == 0 &&
              ScanLines(w.encoder.lines, ParseDuration(w.probe.duration, parseFloat).value).end == EndOfStream
    ensures r.raised.None? ==> |r.events| > 0 && r.events[0] == Launched(AudioCommand(input, output, bitrate, outputFormat))
    ensures ProgressAtMostOne(r.events)
    ensures w.probe.ProbeFailed? ==>
              var error := ProbeError(Basename(input), w.probe.stderr);
              r == JobRun([Log(Logged(error))], Some(error))
    ensures w.probe.Probed? && DurationOf(w.probe.duration, AudioFile, input, parseFloat).Err? ==>
              var error := DurationOf(w.probe.duration, AudioFile, input, parseFloat).error;
              r == JobRun([Log(Logged(error))], Some(error))
    ensures DurationKnown(w, parseFloat) ==>
              r == RunEncoder(AudioCommand(input, output, bitrate, outputFormat), w.encoder,
                              ParseDuration(w.probe.duration, parseFloat).value, AudioCompression, Basename(input))
    ensures DurationKnown(w, parseFloat) && w.encoder.Exited? && w.encoder.exitCode != 0 &&
            ScanLines(w.encoder.lines, ParseDuration(w.probe.duration, parseFloat).value).end == EndOfStream ==>
              r.raised == Some(EncoderFailed(w.encoder.exitCode, Basename(input)))
  {
    var file := Basename(input);
    match w.probe
    case ProbeFailed(stderr) =>
      JobRun([Log(Logged(ProbeError(file, stderr)))], Some(ProbeError(file, stderr)))
    case Probed(field) =>
      match DurationOf(field, AudioFile, input, parseFloat)
      case Err(e) => JobRun([Log(Logged(e))], Some(e))
      case Ok(d) => RunEncoder(AudioCommand(input, output, bitrate, outputFormat), w.encoder, d, AudioCompression, file)
  }

  // ---------------------------------------------------------------------------
  // Dispatch by file name

  const ImageSuffixes: seq<string> := ["png", "jpg", "jpeg", "webp"]
  const VideoSuffixes: seq<string> := ["mp4", "mov", "avi", "mkv", "mp3"]
  const AudioSuffixes: seq<string> := ["mp3", "wav", "flac", "aac", "ogg", "m4a"]

  /** The audio suffixes that can reach the audio branch: all but `mp3`. */
  const AudioOnlySuffixes: seq<string> := ["wav", "flac", "aac", "ogg", "m4a"]

  datatype Branch = ImageBranch | VideoBranch | AudioBranch | NoBranch

  lemma SuffixLastChar(name: string, s: string)
    requires s != [] && |s| <= |name|
    ensures EndsWith(name, s) ==> name[|name| - 1] == s[|s| - 1]
  {
    var t := name[|name| - |s|..];
    assert t[|s| - 1] == name[|name| - 1];
  }

  lemma Mp3IsNoImageSuffix(name: string)
    requires EndsWith(name, "mp3")
    ensures !EndsWithAny(name, ImageSuffixes)
  {
    var n := |name|;
    assert name[n - 3..] == "mp3";
    assert name[n - 1] == '3';
    forall k | 0 <= k < |ImageSuffixes| ensures !EndsWith(name, ImageSuffixes[k]) {
      var s := ImageSuffixes[k];
      assert s[|s| - 1] != '3';
      if |s| <= n {
        SuffixLastChar(name, s);
      }
    }
  }

  lemma AudioOnlyAgreement(name: string)
    requires !EndsWithAny(name, VideoSuffixes)
    ensures EndsWithAny(name, AudioSuffixes) <==> EndsWithAny(name, AudioOnlySuffixes)
  {
    if EndsWithAny(name, AudioSuffixes) {
      var k :| 0 <= k < |AudioSuffixes| && EndsWith(name, AudioSuffixes[k]);
      assert k != 0 by { assert !EndsWith(name, VideoSuffixes[4]); }
      assert EndsWith(name, AudioOnlySuffixes[k - 1]);
    }
    if EndsWithAny(name, AudioOnlySuffixes) {
      var k :| 0 <= k < |AudioOnlySuffixes| && EndsWith(name, AudioOnlySuffixes[k]);
      assert EndsWith(name, AudioSuffixes[k + 1]);
    }
  }

  lemma SuffixFacts(name: string)
    ensures !EndsWithAny(name, VideoSuffixes) ==>
              (EndsWithAny(name, AudioSuffixes) <==> EndsWithAny(name, AudioOnlySuffixes))
    ensures EndsWith(name, "mp3") ==> !EndsWithAny(name, ImageSuffixes) && EndsWithAny(name, VideoSuffixes)
  {
    if !EndsWithAny(name, VideoSuffixes) {
      AudioOnlyAgreement(name);
    }
    if EndsWith(name, "mp3") {
      Mp3IsNoImageSuffix(name);
      assert EndsWith(name, VideoSuffixes[4]);
    }
  }

  /**
   * Which transcoder a source file goes to: the lower-cased name is tested
   * against the image suffixes, then the video suffixes (which include
   * `mp3`), then the audio suffixes.
   */
  function SourceBranch(input: string): (b: Branch)
    ensures b == ImageBranch <==> EndsWithAny(Lower(input), ImageSuffixes)
    ensures b == VideoBranch <==> !EndsWithAny(Lower(input), ImageSuffixes) && EndsWithAny(Lower(input), VideoSuffixes)
    ensures b == AudioBranch <==>
              !EndsWithAny(Lower(input), ImageSuffixes) && !EndsWithAny(Lower(input), VideoSuffixes) &&
              EndsWithAny(Lower(input), AudioOnlySuffixes)
    ensures EndsWith(Lower(input), "mp3") ==> b == VideoBranch
  {
    var name := Lower(input);
    SuffixFacts(name);
    if EndsWithAny(name, ImageSuffixes) then ImageBranch
    else if EndsWithAny(name, VideoSuffixes) then VideoBranch
    else if EndsWithAny(name, AudioSuffixes) then AudioBranch
    else NoBranch
  }

  /** The batch options, fixed when the batch starts. */
  datatype Options = Options(imageSizePercentage: int, videoSizePercentage: int, audioBitrate: string,
                             outputFolder: string, highQualityAudio: bool)

  /**
   * One job of the batch: `None` for an unsupported file, which is skipped;
   * otherwise the chosen transcoder's run. The target format is the
   * extension of the output path.
   */
  function ProcessFile(input: string, output: string, options: Options, w: FileWorld,
                       parseFloat: string -> Option<real>): (r: Option<JobRun>)
    ensures r.None? <==> SourceBranch(input) == NoBranch
    ensures r.Some? ==> ProgressAtMostOne(r.value.events)
    ensures r.Some? && r.value.raised.None? ==> |r.value.events| > 0
  {
    var outputFormat := ExtensionOf(output);
    match SourceBranch(input)
    case ImageBranch =>
      Some(CompressImage(input, options.imageSizePercentage, outputFormat, w.image))
    case VideoBranch =>
      if Lower(outputFormat) == "mp3" then
        (match ParseInt(options.audioBitrate)
         case None => Some(JobRun([], Some(NotAnInteger(options.audioBitrate))))
         case Some(bitrate) => Some(ExtractAudio(input, output, bitrate, w, parseFloat)))
      else
        Some(CompressVideo(input, output, options.videoSizePercentage, outputFormat,
                           options.highQualityAudio, w, parseFloat))
    case AudioBranch =>
      (match ParseInt(options.audioBitrate)
       case None => Some(JobRun([], Some(NotAnInteger(options.audioBitrate))))
       case Some(bitrate) => Some(CompressAudio(input, output, bitrate, outputFormat, w, parseFloat)))
    case NoBranch => None
  }

  /** An image source is compressed with the image size percentage and the extension of its output as format. */
  lemma ProcessFileCompressesImage(input: string, output: string, options: Options, w: FileWorld,
                                   parseFloat: string -> Option<real>)
    requires SourceBranch(input) == ImageBranch
    ensures ProcessFile(input, output, options, w, parseFloat) ==
              Some(CompressImage(input, options.imageSizePercentage, ExtensionOf(output), w.image))
  {
  }

  /**
   * A video source with an `mp3` target goes to audio extraction with the
   * bitrate option as an integer; an option `int()` rejects raises before
   * anything runs.
   */
  lemma ProcessFileExtracts(input: string, output: string, options: Options, w: FileWorld,
                            parseFloat: string -> Option<real>)
    requires SourceBranch(input) == VideoBranch && Lower(ExtensionOf(output)) == "mp3"
    ensures ParseInt(options.audioBitrate).Some? ==>
              ProcessFile(input, output, options, w, parseFloat) ==
                Some(ExtractAudio(input, output, ParseInt(options.audioBitrate).value, w, parseFloat))
    ensures ParseInt(options.audioBitrate).None? ==>
              ProcessFile(input, output, options, w, parseFloat) == Some(JobRun([], Some(NotAnInteger(options.audioBitrate))))
    ensures ProcessFile(input, output, options, w, parseFloat).value.raised.None? ==>
              ParseInt(options.audioBitrate).Some? &&
              ProcessFile(input, output, options, w, parseFloat).value.events[0] ==
                Launched(ExtractionCommand(input, output, ParseInt(options.audioBitrate).value))
  {
  }

  /**
   * Any other target of a video source goes to video compression with the
   * video size percentage and the audio quality option; when it succeeds it
   * launched the command carrying the bitrate plan for the probed duration.
   */
  lemma ProcessFileTranscodesVideo(input: string, output: string, options: Options, w: FileWorld,
                                   parseFloat: string -> Option<real>)
    requires SourceBranch(input) == VideoBranch && Lower(ExtensionOf(output)) != "mp3"
    ensures ProcessFile(input, output, options, w, parseFloat) ==
              Some(CompressVideo(input, output, options.videoSizePercentage, ExtensionOf(output),
                                 options.highQualityAudio, w, parseFloat))
    ensures ProcessFile(input, output, options, w, parseFloat).value.raised.None? ==>
              DurationKnown(w, parseFloat) &&
              var plan := Plan(w.size, ParseDuration(w.probe.duration, parseFloat).value,
                               options.videoSizePercentage, options.highQualityAudio);
              plan.Some? &&
              ProcessFile(input, output, options, w, parseFloat).value.events[0] ==
                Launched(VideoCommand(input, output, plan.value, ExtensionOf(output)))
  {
  }

  /**
   * An audio source goes to audio compression with the bitrate option as an
   * integer and the target's format; an option `int()` rejects raises before
   * anything runs.
   */
  lemma ProcessFileTranscodesAudio(input: string, output: string, options: Options, w: FileWorld,
                                   parseFloat: string -> Option<real>)
    requires SourceBranch(input) == AudioBranch
    ensures ParseInt(options.audioBitrate).Some? ==>
              ProcessFile(input, output, options, w, parseFloat) ==
                Some(CompressAudio(input, output, ParseInt(options.audioBitrate).value, ExtensionOf(output), w, parseFloat))
    ensures ParseInt(options.audioBitrate).None? ==>
              ProcessFile(input, output, options, w, parseFloat) == Some(JobRun([], Some(NotAnInteger(options.audioBitrate))))
    ensures ProcessFile(input, output, options, w, parseFloat).value.raised.None? ==>
              ParseInt(options.audioBitrate).Some? &&
              ProcessFile(input, output, options, w, parseFloat).value.events[0] ==
                Launched(AudioCommand(input, output, ParseInt(options.audioBitrate).value, ExtensionOf(output)))
  {
  }
}
