/**
 * The bitrate planner of `compress_video`: from the original file size, the
 * duration and the target percentage to the video and audio bitrates passed to
 * the encoder.
 */
module Bitrate {
  import opened Wrappers
  import opened Numeric

  const MinVideoBitrate: int := 100000
  const MaxVideoBitrate: int := 50000000

  /** The bitrates written into the encoder command, in bits per second. */
  datatype BitratePlan = BitratePlan(videoBps: int, audioBps: int)

  /** The audio bitrate of a video transcode: fixed by the high-quality flag. */
  function AudioBitrate(highQualityAudio: bool): (bps: int)
    ensures bps > 0
    ensures bps == 256000 <==> highQualityAudio
    ensures bps == 64000 <==> !highQualityAudio
  {
    if highQualityAudio then 256000 else 64000
  }

  /** The total bitrate that would make the output `targetPercentage`% of the original size. */
  function RequestedBitrate(originalSize: int, duration: real, targetPercentage: int): real
    requires duration != 0.0
  {
    (originalSize as real * (targetPercentage as real / 100.0)) * 8.0 / duration
  }

  /**
   * The plan, or `None` where the division by the duration raises
   * `ZeroDivisionError`. The total is raised to at least the audio bitrate
   * plus the video floor, the audio share is taken off, the video part is
   * capped and then truncated to an integer.
   */
  function Plan(originalSize: int, duration: real, targetPercentage: int, highQualityAudio: bool): (r: Option<BitratePlan>)
    ensures r.None? <==> duration == 0.0
    ensures r.Some? ==> MinVideoBitrate <= r.value.videoBps <= MaxVideoBitrate
    ensures r.Some? ==> r.value.audioBps == AudioBitrate(highQualityAudio)
  {
    if duration == 0.0 then None
    else
      var audio := AudioBitrate(highQualityAudio);
      var total := Max(RequestedBitrate(originalSize, duration, targetPercentage), (audio + MinVideoBitrate) as real);
      var video := Min(total - audio as real, MaxVideoBitrate as real);
      Some(BitratePlan(Trunc(video), audio))
  }

  /** A request below the audio bitrate plus the floor yields exactly the video floor. */
  lemma PlanFloor(originalSize: int, duration: real, targetPercentage: int, highQualityAudio: bool)
    requires duration != 0.0
    requires RequestedBitrate(originalSize, duration, targetPercentage) <
             (AudioBitrate(highQualityAudio) + MinVideoBitrate) as real
    ensures Plan(originalSize, duration, targetPercentage, highQualityAudio).value.videoBps == MinVideoBitrate
  {
  }

  /** A request at or above the audio bitrate plus the ceiling yields exactly the video ceiling. */
  lemma PlanCeiling(originalSize: int, duration: real, targetPercentage: int, highQualityAudio: bool)
    requires duration != 0.0
    requires RequestedBitrate(originalSize, duration, targetPercentage) >=
             (AudioBitrate(highQualityAudio) + MaxVideoBitrate) as real
    ensures Plan(originalSize, duration, targetPercentage, highQualityAudio).value.videoBps == MaxVideoBitrate
  {
  }

  /**
   * Between the clamps, video plus audio is the requested total rounded down:
   * the plan spends the whole budget, less than one bit per second short.
   */
  lemma PlanMeetsRequest(originalSize: int, duration: real, targetPercentage: int, highQualityAudio: bool)
    requires duration != 0.0
    requires var audio := AudioBitrate(highQualityAudio) as real;
             var requested := RequestedBitrate(originalSize, duration, targetPercentage);
             audio + MinVideoBitrate as real <= requested <= audio + MaxVideoBitrate as real
    ensures var plan := Plan(originalSize, duration, targetPercentage, highQualityAudio).value;
            var requested := RequestedBitrate(originalSize, duration, targetPercentage);
            (plan.videoBps + plan.audioBps) as real <= requested < (plan.videoBps + plan.audioBps) as real + 1.0
  {
  }

  /** The requested total grows with the target percentage for a real file and a positive duration. */
  lemma RequestedMonotone(originalSize: int, duration: real, p1: int, p2: int)
    requires originalSize >= 0 && duration > 0.0 && p1 <= p2
    ensures RequestedBitrate(originalSize, duration, p1) <= RequestedBitrate(originalSize, duration, p2)
  {
    var s := originalSize as real;
    assert s * (p1 as real / 100.0) <= s * (p2 as real / 100.0) by {
      assert p1 as real / 100.0 <= p2 as real / 100.0;
    }
    var a := (s * (p1 as real / 100.0)) * 8.0;
    var b := (s * (p2 as real / 100.0)) * 8.0;
    assert a <= b;
    assert a / duration <= b / duration;
  }

  /** The video bitrate never decreases when the target percentage grows. */
  lemma PlanMonotone(originalSize: int, duration: real, p1: int, p2: int, highQualityAudio: bool)
    requires originalSize >= 0 && duration > 0.0 && p1 <= p2
    ensures Plan(originalSize, duration, p1, highQualityAudio).value.videoBps <=
            Plan(originalSize, duration, p2, highQualityAudio).value.videoBps
  {
    RequestedMonotone(originalSize, duration, p1, p2);
    var audio := AudioBitrate(highQualityAudio);
    var t1 := Max(RequestedBitrate(originalSize, duration, p1), (audio + MinVideoBitrate) as real);
    var t2 := Max(RequestedBitrate(originalSize, duration, p2), (audio + MinVideoBitrate) as real);
    var v1 := Min(t1 - audio as real, MaxVideoBitrate as real);
    var v2 := Min(t2 - audio as real, MaxVideoBitrate as real);
    assert v1 <= v2;
    assert Trunc(v1) <= Trunc(v2);
  }

  /**
   * Only a zero duration is refused: a negative one is planned like any
   * other, and a file of non-negative size then gets the video floor.
   */
  lemma PlanNegativeDuration(originalSize: int, duration: real, targetPercentage: int, highQualityAudio: bool)
    requires originalSize >= 0 && targetPercentage >= 0 && duration < 0.0
    ensures Plan(originalSize, duration, targetPercentage, highQualityAudio) ==
            Some(BitratePlan(MinVideoBitrate, AudioBitrate(highQualityAudio)))
  {
    var budget := (originalSize as real * (targetPercentage as real / 100.0)) * 8.0;
    assert budget >= 0.0;
    assert budget / duration <= 0.0;
    PlanFloor(originalSize, duration, targetPercentage, highQualityAudio);
  }

  /** 10 MB over 100 s at 50% with high-quality audio: 400 kbps in all, 144 kbps of video. */
  lemma PlanExample()
    ensures Plan(10000000, 100.0, 50, true) == Some(BitratePlan(144000, 256000))
  {
    assert RequestedBitrate(10000000, 100.0, 50) == 400000.0;
  }
}
