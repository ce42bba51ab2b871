/**
 * The progress protocol shared by the three transcoders: the encoder's merged
 * output is read line by line, every `out_time_ms=<integer>` line becomes a
 * completion fraction of the job, a malformed payload is logged and skipped,
 * and the exit code decides the job once the stream has ended.
 */
module Encoder {
  import opened Wrappers
  import opened Text
  import opened Numeric

  /** The marker of a progress line. */
  const ProgressKey: string := "out_time_ms="

  /** What one line of encoder output does to the job. */
  datatype LineEffect =
    | Ignored                                   // no marker: nothing happens
    | Report(fraction: real)                    // the progress callback is called
    | Malformed(value: string, line: string)    // "Non-integer out_time_ms encountered" is logged
    | DivisionByZero                            // `ZeroDivisionError` escapes the loop

  /** What the reading loop reports upward while the stream lasts. */
  datatype ProgressEvent = Fraction(fraction: real) | NonIntegerLogged(payload: string, line: string)

  /** How the stream stopped being read: at its end, or by the division error. */
  datatype StreamEnd = EndOfStream | ZeroDivision

  datatype Scan = Scan(events: seq<ProgressEvent>, end: StreamEnd)

  /** The job's verdict once reading has stopped. */
  datatype Status = Succeeded | ExitFailed(code: int) | Aborted

  /** The marker contains '=', so a marked line still has one after `strip()`. */
  lemma MarkedLineHasSeparator(line: string)
    requires Contains(line, ProgressKey)
    ensures '=' in Strip(line)
  {
    assert |ProgressKey| == 12;
    var i :| OccursAt(line, ProgressKey, i);
    assert OccursAt(line, ProgressKey, i);
    assert line[i..i + 12] == ProgressKey;
    assert line[i + 11] == ProgressKey[11] == '=';
    StripKeeps(line, i + 11);
  }

  /** `line.strip().split('=')[1]`: the text between the first and the second '='. */
  function Payload(line: string): (value: string)
    requires Contains(line, ProgressKey)
    ensures '=' !in value
  {
    MarkedLineHasSeparator(line);
    Split(Strip(line), '=')[1]
  }

  /** `min(out_time_ms / (duration * 1000000), 1.0)`. */
  function ProgressFraction(outTimeMs: int, duration: real): (f: real)
    requires duration != 0.0
    ensures f <= 1.0
  {
    Min(outTimeMs as real / (duration * 1000000.0), 1.0)
  }

  /** What a single line does. */
  function Effect(line: string, duration: real): (e: LineEffect)
    ensures e == Ignored <==> !Contains(line, ProgressKey)
    ensures Contains(line, ProgressKey) ==>
              (e.Malformed? <==> ParseInt(Payload(line)) == None)
    ensures e.Malformed? ==> e.value == Payload(line) && e.line == Strip(line)
    ensures e.DivisionByZero? <==> Contains(line, ProgressKey) && ParseInt(Payload(line)).Some? && duration == 0.0
    ensures e.Report? ==> e.fraction == ProgressFraction(ParseInt(Payload(line)).value, duration)
  {
    if !Contains(line, ProgressKey) then Ignored
    else
      var value := Payload(line);
      match ParseInt(value)
      case None => Malformed(value, Strip(line))
      case Some(t) =>
        if duration == 0.0 then DivisionByZero else Report(ProgressFraction(t, duration))
  }

  /**
   * The loop over the remaining lines: `lines` are those `readline` returns
   * before it returns '' with the process finished.
   */
  function ScanLines(lines: seq<string>, duration: real): Scan
    decreases |lines|
  {
    if lines == [] then Scan([], EndOfStream)
    else
      match Effect(lines[0], duration)
      case Ignored => ScanLines(lines[1..], duration)
      case Report(f) => Prepend([Fraction(f)], ScanLines(lines[1..], duration))
      case Malformed(v, l) => Prepend([NonIntegerLogged(v, l)], ScanLines(lines[1..], duration))
      case DivisionByZero => Scan([], ZeroDivision)
  }

  function Prepend(events: seq<ProgressEvent>, rest: Scan): Scan {
    Scan(events + rest.events, rest.end)
  }

  /** After the stream: `wait()` and the exit-code test, unless the loop was left by the division error. */
  function Conclude(scan: Scan, exitCode: int): (s: Status)
    ensures s.Aborted? <==> scan.end.ZeroDivision?
    ensures s.ExitFailed? <==> scan.end.EndOfStream? && exitCode != 0
    ensures s.ExitFailed? ==> s.code == exitCode
  {
    if scan.end.ZeroDivision? then Aborted
    else if exitCode != 0 then ExitFailed(exitCode)
    else Succeeded
  }

  predicate FractionsAtMostOne(events: seq<ProgressEvent>) {
    forall k :: 0 <= k < |events| && events[k].Fraction? ==> events[k].fraction <= 1.0
  }

  /**
   * The reading loop of an encoder run with the given output lines and exit
   * code: the events it reports and the verdict.
   */
  method ReadProgress(lines: seq<string>, duration: real, exitCode: int)
    returns (events: seq<ProgressEvent>, status: Status)
    ensures Scan(events, if status == Aborted then ZeroDivision else EndOfStream) == ScanLines(lines, duration)
    ensures status == Conclude(ScanLines(lines, duration), exitCode)
    ensures FractionsAtMostOne(events)
  {
    events := [];
    var i := 0;
    ghost var whole := ScanLines(lines, duration);
    while i < |lines|
      invariant 0 <= i <= |lines|
      invariant whole == Prepend(events, ScanLines(lines[i..], duration))
      invariant FractionsAtMostOne(events)
    {
      var effect := Effect(lines[i], duration);
      if effect.DivisionByZero? {
        ScanStep(lines, i, duration);
        assert events + [] == events;
        status := Aborted;
        return;
      }
      ScanAdvance(lines, i, duration, events);
      EffectFractionsAtMostOne(lines[i], duration);
      FractionsConcat(events + EventsOf(effect), events, EventsOf(effect));
      events := events + EventsOf(effect);
      i := i + 1;
    }
    assert lines[i..] == [] && events + [] == events;
    status := if exitCode != 0 then ExitFailed(exitCode) else Succeeded;
  }

  /** The events a line that does not abort the loop adds to the report. */
  function EventsOf(effect: LineEffect): seq<ProgressEvent> {
    match effect
    case Report(f) => [Fraction(f)]
    case Malformed(v, l) => [NonIntegerLogged(v, l)]
    case _ => []
  }

  /** The events of one line report fractions of at most 1. */
  lemma EffectFractionsAtMostOne(line: string, duration: real)
    ensures FractionsAtMostOne(EventsOf(Effect(line, duration)))
  {
    var effect := Effect(line, duration);
    if effect.Report? {
      assert effect.fraction <= 1.0;
      assert EventsOf(effect) == [Fraction(effect.fraction)];
    }
  }

  lemma FractionsConcat(whole: seq<ProgressEvent>, a: seq<ProgressEvent>, b: seq<ProgressEvent>)
    requires whole == a + b && FractionsAtMostOne(a) && FractionsAtMostOne(b)
    ensures FractionsAtMostOne(whole)
  {
    forall k | 0 <= k < |whole| && whole[k].Fraction?
      ensures whole[k].fraction <= 1.0
    {
      if k >= |a| {
        assert whole[k] == b[k - |a|];
      }
    }
  }

  /** A line that does not abort moves its events from the unread part into the report. */
  lemma ScanAdvance(lines: seq<string>, i: nat, duration: real, events: seq<ProgressEvent>)
    requires i < |lines| && !Effect(lines[i], duration).DivisionByZero?
    ensures Prepend(events, ScanLines(lines[i..], duration)) ==
            Prepend(events + EventsOf(Effect(lines[i], duration)), ScanLines(lines[i + 1..], duration))
  {
    ScanStep(lines, i, duration);
    PrependTwice(events, EventsOf(Effect(lines[i], duration)), ScanLines(lines[i + 1..], duration));
  }

  lemma PrependTwice(a: seq<ProgressEvent>, b: seq<ProgressEvent>, rest: Scan)
    ensures Prepend(a, Prepend(b, rest)) == Prepend(a + b, rest)
  {
    assert a + (b + rest.events) == (a + b) + rest.events;
  }

  /** One step of the loop: the scan of `lines[i..]` in terms of line `i` and the scan after it. */
  lemma ScanStep(lines: seq<string>, i: nat, duration: real)
    requires i < |lines|
    ensures ScanLines(lines[i..], duration) ==
              match Effect(lines[i], duration)
              case Ignored => ScanLines(lines[i + 1..], duration)
              case Report(f) => Prepend([Fraction(f)], ScanLines(lines[i + 1..], duration))
              case Malformed(v, l) => Prepend([NonIntegerLogged(v, l)], ScanLines(lines[i + 1..], duration))
              case DivisionByZero => Scan([], ZeroDivision)
  {
    assert lines[i..][0] == lines[i];
    assert lines[i..][1..] == lines[i + 1..];
  }

  /** Every fraction the loop reports is at most 1. */
  lemma {:induction false} ScanFractionsAtMostOne(lines: seq<string>, duration: real)
    ensures FractionsAtMostOne(ScanLines(lines, duration).events)
  {
    if lines != [] {
      ScanFractionsAtMostOne(lines[1..], duration);
      var rest := ScanLines(lines[1..], duration);
      var effect := Effect(lines[0], duration);
      match effect
      case Ignored =>
        assert ScanLines(lines, duration) == rest;
      case Report(f) =>
        assert f <= 1.0;
        assert ScanLines(lines, duration) == Prepend([Fraction(f)], rest);
        FractionsPrepend(ScanLines(lines, duration), [Fraction(f)], rest);
      case Malformed(v, l) =>
        assert ScanLines(lines, duration) == Prepend([NonIntegerLogged(v, l)], rest);
        FractionsPrepend(ScanLines(lines, duration), [NonIntegerLogged(v, l)], rest);
      case DivisionByZero =>
        assert ScanLines(lines, duration).events == [];
    }
  }

  lemma FractionsPrepend(whole: Scan, events: seq<ProgressEvent>, rest: Scan)
    requires whole == Prepend(events, rest) && FractionsAtMostOne(events) && FractionsAtMostOne(rest.events)
    ensures FractionsAtMostOne(whole.events)
  {
    FractionsConcat(whole.events, events, rest.events);
  }

  /** The number of lines that carry the progress marker. */
  function CountMarked(lines: seq<string>): nat {
    if lines == [] then 0
    else (if Contains(lines[0], ProgressKey) then 1 else 0) + CountMarked(lines[1..])
  }

  /** Only marked lines produce events, each at most one. */
  lemma {:induction false} ScanOnlyMarkedLines(lines: seq<string>, duration: real)
    ensures |ScanLines(lines, duration).events| <= CountMarked(lines)
  {
    if lines != [] {
      ScanOnlyMarkedLines(lines[1..], duration);
    }
  }

  /** With a non-zero duration the stream is always read to its end. */
  lemma {:induction false} ScanReadsToEnd(lines: seq<string>, duration: real)
    ensures duration != 0.0 ==> ScanLines(lines, duration).end == EndOfStream
  {
    if lines != [] {
      ScanReadsToEnd(lines[1..], duration);
    }
  }

  /** The line the encoder writes for `out_time_ms` = `t`, newline included. */
  function ProgressLine(t: int): string {
    ProgressKey + IntToString(t) + "\n"
  }

  lemma IntToStringHasNoSeparator(n: int)
    ensures '=' !in IntToString(n)
  {
    var s := IntToString(n);
    forall k | 0 <= k < |s| ensures s[k] != '=' {
      if n < 0 && k > 0 { assert s[k] == NatToString(-n)[k - 1]; }
    }
  }

  /** `strip()` of a progress line removes exactly its newline. */
  lemma StripProgressLine(t: int)
    ensures Strip(ProgressLine(t)) == ProgressKey + IntToString(t)
  {
    var digits := IntToString(t);
    var body := ProgressKey + digits;
    assert body[0] == 'o' && body[|body| - 1] == digits[|digits| - 1];
    StripLineEnd(body);
  }

  /** The payload of a progress line is the rendered integer. */
  lemma PayloadOfProgressLine(t: int)
    ensures Contains(ProgressLine(t), ProgressKey)
    ensures Payload(ProgressLine(t)) == IntToString(t)
  {
    var digits := IntToString(t);
    var line := ProgressLine(t);
    assert OccursAt(line, ProgressKey, 0);
    StripProgressLine(t);
    var key := "out_time_ms";
    IntToStringHasNoSeparator(t);
    assert ProgressKey + digits == key + ['='] + digits;
    SplitOnce(ProgressKey + digits, '=', key, digits);
  }

  /**
   * The protocol round trip: a well-formed progress line for `t` reports
   * `min(t / (duration * 10^6), 1.0)`.
   */
  lemma ProgressLineRoundTrip(t: int, duration: real)
    requires duration != 0.0
    ensures Effect(ProgressLine(t), duration) == Report(ProgressFraction(t, duration))
  {
    PayloadOfProgressLine(t);
    ParseIntOfIntToString(t);
  }

  /** For a positive duration and a non-negative time the fraction lies in [0, 1] and reaches 1 exactly at the duration. */
  lemma FractionInUnitInterval(t: int, duration: real)
    requires duration > 0.0 && t >= 0
    ensures 0.0 <= ProgressFraction(t, duration) <= 1.0
    ensures ProgressFraction(t, duration) == 1.0 <==> t as real >= duration * 1000000.0
  {
    var d := duration * 1000000.0;
    var x := t as real / d;
    assert x * d == t as real;
    assert x >= 1.0 <==> t as real >= d;
  }

  /** A later encoder time never gives a smaller fraction. */
  lemma FractionMonotone(t1: int, t2: int, duration: real)
    requires duration > 0.0 && t1 <= t2
    ensures ProgressFraction(t1, duration) <= ProgressFraction(t2, duration)
  {
    var d := duration * 1000000.0;
    assert t1 as real / d <= t2 as real / d;
  }
}
