/**
 * The part of the window's export that decides what the worker receives:
 * the file filter used when files are added, and the plan that pairs each
 * input with the path of its compressed copy.
 */
module Export {
  import opened Wrappers
  import opened Text
  import opened Paths
  import opened Strategy

  // ---------------------------------------------------------------------------
  // The file filter

  /** The fourteen extensions the window accepts, with their dots. */
  const SupportedExtensions: seq<string> :=
    [".png", ".jpg", ".jpeg", ".webp", ".mp4", ".mov", ".avi", ".mkv",
     ".mp3", ".wav", ".flac", ".aac", ".ogg", ".m4a"]

  /** `is_supported_file`: the lower-cased path ends with one of the dotted extensions. */
  predicate IsSupportedFile(path: string) {
    EndsWithAny(Lower(path), SupportedExtensions)
  }

  lemma LowerCharIdempotent(c: char)
    ensures LowerChar(LowerChar(c)) == LowerChar(c)
  {
  }

  lemma LowerIdempotent(s: string)
    ensures Lower(Lower(s)) == Lower(s)
  {
    forall i | 0 <= i < |s|
      ensures Lower(Lower(s))[i] == Lower(s)[i]
    {
      LowerCharIdempotent(s[i]);
    }
  }

  /** The filter ignores case: a path and its lower-cased form are accepted alike. */
  lemma SupportedIgnoresCase(path: string)
    ensures IsSupportedFile(path) <==> IsSupportedFile(Lower(path))
  {
    LowerIdempotent(path);
  }

  lemma DottedSuffix(s: string, ext: string)
    requires EndsWith(s, "." + ext)
    ensures EndsWith(s, ext)
  {
    assert s[|s| - |ext|..] == s[|s| - |ext| - 1..][1..];
  }

  /** Every file the filter accepts reaches one of the three transcoders. */
  lemma SupportedFilesHaveATranscoder(path: string)
    requires IsSupportedFile(path)
    ensures SourceBranch(path) != NoBranch
  {
    var name := Lower(path);
    var k :| 0 <= k < |SupportedExtensions| && EndsWith(name, SupportedExtensions[k]);
    var undotted := SupportedExtensions[k][1..];
    assert SupportedExtensions[k] == "." + undotted;
    DottedSuffix(name, undotted);
    if k < 4 {
      assert undotted == ImageSuffixes[k];
    } else if k < 9 {
      assert undotted == VideoSuffixes[k - 4];
    } else {
      assert undotted == AudioOnlySuffixes[k - 9];
    }
  }

  /**
   * The worker's dispatch tests the suffixes without their dot, so it also
   * takes a name the filter refuses, such as `xpng`.
   */
  lemma DispatchWiderThanFilter()
    ensures SourceBranch("xpng") == ImageBranch && !IsSupportedFile("xpng")
  {
    assert Lower("xpng") == "xpng";
    assert EndsWith("xpng", ImageSuffixes[0]);
    forall k | 0 <= k < |SupportedExtensions|
      ensures !EndsWith("xpng", SupportedExtensions[k])
    {
      var e := SupportedExtensions[k];
      if |e| <= 4 {
        assert e[0] == '.';
        assert "xpng"[4 - |e|] != '.';
        assert "xpng"[4 - |e|..][0] != e[0];
      }
    }
  }

  // ---------------------------------------------------------------------------
  // The output plan

  /** The texts of the three format boxes. */
  datatype Formats = Formats(image: string, video: string, audio: string)

  /** The format chosen for an input by the same suffix tests as the worker's, or `None` for an input that is passed over. */
  function ChosenFormat(path: string, formats: Formats): (ext: Option<string>)
    ensures ext.None? <==> SourceBranch(path) == NoBranch
    ensures SourceBranch(path) == ImageBranch ==> ext == Some(formats.image)
    ensures SourceBranch(path) == VideoBranch ==> ext == Some(formats.video)
    ensures SourceBranch(path) == AudioBranch ==> ext == Some(formats.audio)
  {
    match SourceBranch(path)
    case ImageBranch => Some(formats.image)
    case VideoBranch => Some(formats.video)
    case AudioBranch => Some(formats.audio)
    case NoBranch => None
  }

  /** Where the compressed copy of `path` goes: `stem_compressed.ext` in the output folder. */
  function PlannedOutput(path: string, folder: string, ext: string): string {
    Join(folder, CompressedName(Stem(path), ext))
  }

  /** What one input adds to the plan, given the format chosen for it: its pair, or nothing for an input that is passed over. */
  function PlanEntry(path: string, folder: string, chosen: Option<string>): seq<(string, string)> {
    match chosen
    case None => []
    case Some(ext) => [(path, PlannedOutput(path, folder, ext))]
  }

  /** The pairs planned for the inputs, in input order. */
  function Plan(inputs: seq<string>, folder: string, formats: Formats): seq<(string, string)> {
    if inputs == [] then []
    else
      var last := inputs[|inputs| - 1];
      Plan(inputs[..|inputs| - 1], folder, formats) + PlanEntry(last, folder, ChosenFormat(last, formats))
  }

  /** An input's entry is its own pair with its chosen format, when it has one. */
  lemma PlanEntrySound(path: string, folder: string, chosen: Option<string>)
    ensures |PlanEntry(path, folder, chosen)| == if chosen.Some? then 1 else 0
    ensures forall e :: e in PlanEntry(path, folder, chosen) ==>
              e.0 == path && chosen.Some? && e.1 == PlannedOutput(path, folder, chosen.value)
  {
    if chosen.Some? {
      assert PlanEntry(path, folder, chosen) == [(path, PlannedOutput(path, folder, chosen.value))];
    }
  }

  /** One more input extends the plan by that input's entry. */
  lemma PlanStep(inputs: seq<string>, i: nat, folder: string, formats: Formats)
    requires i < |inputs|
    ensures Plan(inputs[..i + 1], folder, formats) ==
              Plan(inputs[..i], folder, formats) + PlanEntry(inputs[i], folder, ChosenFormat(inputs[i], formats))
  {
    assert inputs[..i + 1][..i] == inputs[..i];
  }

  /** The loop of `export_compressed` that builds `files_to_process`. */
  method PrepareOutputs(inputs: seq<string>, folder: string, formats: Formats) returns (filesToProcess: seq<(string, string)>)
    ensures filesToProcess == Plan(inputs, folder, formats)
  {
    filesToProcess := [];
    for i := 0 to |inputs|
      invariant filesToProcess == Plan(inputs[..i], folder, formats)
    {
      var path := inputs[i];
      var ext := ChosenFormat(path, formats);
      PlanStep(inputs, i, folder, formats);
      if ext.None? {
        continue;
      }
      var output := Join(folder, CompressedName(Stem(path), ext.value));
      filesToProcess := filesToProcess + [(path, output)];
    }
    assert inputs[..|inputs|] == inputs;
  }

  /**
   * Every planned pair starts from an input that has a transcoder, and its
   * output is that input's compressed name, with the format chosen for it,
   * in the output folder.
   */
  lemma {:induction false} PlanSound(inputs: seq<string>, folder: string, formats: Formats)
    ensures forall e :: e in Plan(inputs, folder, formats) ==>
              e.0 in inputs && ChosenFormat(e.0, formats).Some? &&
              e.1 == PlannedOutput(e.0, folder, ChosenFormat(e.0, formats).value)
  {
    if inputs != [] {
      var init := inputs[..|inputs| - 1];
      var last := inputs[|inputs| - 1];
      PlanSound(init, folder, formats);
      PlanEntrySound(last, folder, ChosenFormat(last, formats));
      assert Plan(inputs, folder, formats) == Plan(init, folder, formats) + PlanEntry(last, folder, ChosenFormat(last, formats));
      assert forall x :: x in init ==> x in inputs;
    }
  }

  /** Every input that has a transcoder is planned; only the others are dropped. */
  lemma {:induction false} PlanComplete(inputs: seq<string>, folder: string, formats: Formats, i: nat)
    requires i < |inputs| && SourceBranch(inputs[i]) != NoBranch
    ensures exists e :: e in Plan(inputs, folder, formats) && e.0 == inputs[i]
  {
    var init := inputs[..|inputs| - 1];
    var last := inputs[|inputs| - 1];
    assert Plan(inputs, folder, formats) == Plan(init, folder, formats) + PlanEntry(last, folder, ChosenFormat(last, formats));
    if i == |inputs| - 1 {
      PlanEntrySound(last, folder, ChosenFormat(last, formats));
      assert PlanEntry(last, folder, ChosenFormat(last, formats))[0] in Plan(inputs, folder, formats);
    } else {
      assert init[i] == inputs[i];
      PlanComplete(init, folder, formats, i);
    }
  }

  /** The plan never holds more pairs than there are inputs. */
  lemma {:induction false} PlanLength(inputs: seq<string>, folder: string, formats: Formats)
    ensures |Plan(inputs, folder, formats)| <= |inputs|
  {
    if inputs != [] {
      PlanLength(inputs[..|inputs| - 1], folder, formats);
    }
  }

  /**
   * The worker reads the target format back from the extension of each
   * planned output, and gets the format chosen for that input, provided the
   * format text holds no dot or separator.
   */
  lemma PlannedFormatReadBack(path: string, folder: string, ext: string)
    requires '.' !in ext && '/' !in ext
    ensures ExtensionOf(PlannedOutput(path, folder, ext)) == ext
  {
    ExtensionOfPlannedPath(folder, Stem(path), ext);
  }
}
