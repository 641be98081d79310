/**
 * The transport-position timecode of a clip: the position is scaled to a time
 * counted in sixtieths of a second, decomposed into hours, minutes, seconds,
 * sub-seconds and frames (two sub-seconds per frame), and rendered in one of
 * several views. Arithmetic is on exact reals.
 */
module Timecode {
  import opened Wrappers
  import opened Text

  const SubSecondsInSecond: int := 60
  const SecondsInMinute: int := 60
  const MinutesInHour: int := 60
  const FramesInMinute: int := SubSecondsInSecond * SecondsInMinute
  const FramesInHour: int := FramesInMinute * MinutesInHour

  /** `(value / 100) * 6`, or `((max - value) / 100) * 6 + 0.6` when the
      remaining time is shown. */
  function ScaledTime(value: real, max: real, remaining: bool): real
  {
    if remaining then ((max - value) / 100.0) * 6.0 + 0.6 else (value / 100.0) * 6.0
  }

  function Abs(x: real): real
  {
    if x < 0.0 then -x else x
  }

  /** `Math.floor(Math.abs(x))`. */
  function FloorAbs(x: real): nat
  {
    Abs(x).Floor
  }

  datatype Parts = Parts(hours: nat, minutes: nat, seconds: nat, subSeconds: nat, frames: nat)

  /** Whole `unit`s in `r`: the floored magnitude of `r / unit`. */
  function Quot(r: real, unit: real): nat
    requires unit > 0.0
  {
    FloorAbs(r / unit)
  }

  /** What is left of `r` once its whole `unit`s are taken off. */
  function Rem(r: real, unit: real): real
    requires unit > 0.0
  {
    r - Quot(r, unit) as real * unit
  }

  /** Each component is the floored magnitude of what is left once the larger
      units are taken off (`time - hours * framesInHour - minutes * framesInMinute ...`,
      evaluated left to right). */
  function Decompose(time: real): Parts
  {
    var hour, minute, second := FramesInHour as real, FramesInMinute as real, SubSecondsInSecond as real;
    var hours := Quot(time, hour);
    var minutes := Quot(Rem(time, hour), minute);
    var seconds := Quot(Rem(Rem(time, hour), minute), second);
    var subSeconds := FloorAbs(Rem(Rem(Rem(time, hour), minute), second));
    Parts(hours, minutes, seconds, subSeconds, subSeconds / 2)
  }

  /** Taking off whole hours, minutes or seconds leaves less than one of
      them, and fewer than `radix` of them fit below `radix` larger units. */
  lemma QuotRem(r: real, unit: real, below: real)
    requires 0.0 <= r < below
    requires || (unit == FramesInHour as real && below >= 0.0)
             || (unit == FramesInMinute as real && below == FramesInHour as real)
             || (unit == SubSecondsInSecond as real && below == FramesInMinute as real)
    ensures 0.0 <= Rem(r, unit) < unit
    ensures unit != FramesInHour as real ==> Quot(r, unit) < 60
  {
    var x := r / unit;
    var q := Quot(r, unit);
    assert x >= 0.0 && Abs(x) == x;
    assert q as real <= x < q as real + 1.0;
    if unit == FramesInHour as real {
      assert x * 216000.0 == r;
    } else if unit == FramesInMinute as real {
      assert x * 3600.0 == r;
      assert x < 60.0;
    } else {
      assert x * 60.0 == r;
      assert x < 60.0;
    }
  }

  lemma FloorShift(time: real, whole: int, frac: real)
    requires time == whole as real + frac && 0.0 <= frac < 1.0
    ensures time.Floor == whole
  {
  }

  /** For a time that is not negative the components are the mixed-radix
      digits of its integer part, each below its radix, and a frame is two
      sub-seconds. */
  lemma DecomposeExact(time: real)
    requires time >= 0.0
    ensures var p := Decompose(time);
      && p.hours * FramesInHour + p.minutes * FramesInMinute + p.seconds * SubSecondsInSecond + p.subSeconds == time.Floor
      && p.minutes < MinutesInHour && p.seconds < SecondsInMinute && p.subSeconds < SubSecondsInSecond
      && p.frames * 2 <= p.subSeconds < p.frames * 2 + 2 && p.frames < 30
  {
    var hour, minute, second := FramesInHour as real, FramesInMinute as real, SubSecondsInSecond as real;
    var p := Decompose(time);
    QuotRem(time, hour, time + 1.0);
    var r1 := Rem(time, hour);
    QuotRem(r1, minute, hour);
    var r2 := Rem(r1, minute);
    QuotRem(r2, second, minute);
    var r3 := Rem(r2, second);
    assert Abs(r3) == r3;
    var sub := p.subSeconds;
    assert sub as real <= r3 < sub as real + 1.0;
    var whole := p.hours * 216000 + p.minutes * 3600 + p.seconds * 60 + sub;
    assert time == p.hours as real * 216000.0 + p.minutes as real * 3600.0 + p.seconds as real * 60.0 + r3;
    FloorShift(time, whole, r3 - sub as real);
  }

  /** The bounds alone: every component below its radix. */
  lemma DecomposeBounds(time: real)
    requires time >= 0.0
    ensures var p := Decompose(time);
      p.minutes < 60 && p.seconds < 60 && p.subSeconds < 60 && p.frames < 30
  {
    DecomposeExact(time);
  }

  datatype View =
    | FullSeconds | Frames | Seconds | Minutes | Hours | Direction
    | TimestampFrame | Timestamp | TimestampFrameNoHours | TimestampNoHours

  /** The option value that selects a view. */
  function ViewName(v: View): string
  {
    match v
    case FullSeconds => "fullSeconds"
    case Frames => "frames"
    case Seconds => "seconds"
    case Minutes => "minutes"
    case Hours => "hours"
    case Direction => "direction"
    case TimestampFrame => "timestampFrame"
    case Timestamp => "timestamp"
    case TimestampFrameNoHours => "timestampFrame_noHours"
    case TimestampNoHours => "timestamp_noHours"
  }

  /** The view option's names; any other name is an unknown view. A known
      name is the name of the view it selects. */
  function ViewOf(name: string): (r: Option<View>)
    ensures r.Some? ==> ViewName(r.value) == name
  {
    match name
    case "fullSeconds" => Some(FullSeconds)
    case "frames" => Some(Frames)
    case "seconds" => Some(Seconds)
    case "minutes" => Some(Minutes)
    case "hours" => Some(Hours)
    case "direction" => Some(Direction)
    case "timestampFrame" => Some(TimestampFrame)
    case "timestamp" => Some(Timestamp)
    case "timestampFrame_noHours" => Some(TimestampFrameNoHours)
    case "timestamp_noHours" => Some(TimestampNoHours)
    case _ => None
  }

  /** Every view is selected by its own name, so distinct views have distinct
      names. */
  lemma ViewNamesSelect(v: View)
    ensures ViewOf(ViewName(v)) == Some(v)
  {
    match v
    case FullSeconds =>
    case Frames =>
    case Seconds =>
    case Minutes =>
    case Hours =>
    case Direction =>
    case TimestampFrame =>
    case Timestamp =>
    case TimestampFrameNoHours =>
    case TimestampNoHours =>
  }

  /** A feedback text with its optional font size. */
  datatype Rendered = Rendered(text: string, size: Option<nat>)

  /** `Math.round(x)`: halves round up. */
  function JsRound(x: real): int
  {
    (x + 0.5).Floor
  }

  /** `(n / 10).toFixed(1)` for an integer `n`: the tenths of `n` with one
      decimal. */
  function TenthsText(n: int): (t: string)
    ensures |t| >= 3 && t[|t| - 2] == '.'
    ensures n >= 0 ==> ParseDigits(t[..|t| - 2]) * 10 + ParseDigits(t[|t| - 1..]) == n
  {
    var a: nat := if n < 0 then -n else n;
    var whole := NatToString(a / 10);
    ParseNatToString(a / 10);
    var t := (if n < 0 then "-" else "") + whole + "." + [DigitChar(a % 10)];
    assert n >= 0 ==> t[..|t| - 2] == whole;
    assert t[|t| - 1..] == [DigitChar(a % 10)];
    assert ParseDigits([DigitChar(a % 10)]) == a % 10 by {
      assert [DigitChar(a % 10)][..0] == [];
    }
    t
  }

  function Sign(remaining: bool): string
  {
    if remaining then "-" else ""
  }

  /** The text of a known view; `value` is the raw position, `time` the
      scaled time. */
  function RenderView(view: View, value: real, time: real, remaining: bool): Rendered
  {
    var p := Decompose(time);
    match view
    case FullSeconds => Rendered(TenthsText(JsRound(value / 100.0)) + "s", Some(14))
    case Frames => Rendered(Pad2(p.frames), None)
    case Seconds => Rendered(Pad2(p.seconds), None)
    case Minutes => Rendered(Pad2(p.minutes), None)
    case Hours => Rendered(Pad2(p.hours), None)
    case Direction => Rendered(if remaining then "-" else "+", None)
    case TimestampFrame =>
      Rendered(Sign(remaining) + Pad2(p.hours) + ":" + Pad2(p.minutes) + ":" + Pad2(p.seconds) + ": " + Pad2(p.frames), Some(14))
    case Timestamp =>
      Rendered(Sign(remaining) + Pad2(p.hours) + ":" + Pad2(p.minutes) + ":" + Pad2(p.seconds), Some(14))
    case TimestampFrameNoHours =>
      Rendered(Sign(remaining) + Pad2(p.hours * 60 + p.minutes) + ":" + Pad2(p.seconds) + ": " + Pad2(p.frames), Some(14))
    case TimestampNoHours =>
      Rendered(Sign(remaining) + Pad2(p.hours * 60 + p.minutes) + ":" + Pad2(p.seconds), Some(18))
  }

  /** The single-component views are two zero-padded digits that read back
      as the component, and the direction glyph is '-' exactly when counting
      down. */
  lemma SingleViewsReadBack(value: real, time: real, remaining: bool)
    requires time >= 0.0
    ensures var p := Decompose(time);
      && |RenderView(Frames, value, time, remaining).text| == 2
      && ParseDigits(RenderView(Frames, value, time, remaining).text) == p.frames
      && |RenderView(Seconds, value, time, remaining).text| == 2
      && ParseDigits(RenderView(Seconds, value, time, remaining).text) == p.seconds
      && |RenderView(Minutes, value, time, remaining).text| == 2
      && ParseDigits(RenderView(Minutes, value, time, remaining).text) == p.minutes
      && (p.hours < 100 ==> |RenderView(Hours, value, time, remaining).text| == 2)
      && ParseDigits(RenderView(Hours, value, time, remaining).text) == p.hours
      && (RenderView(Direction, value, time, remaining).text == "-" <==> remaining)
  {
    DecomposeBounds(time);
  }

  /** The timestamp view reads back as hours, minutes and seconds between
      colons, after a '-' exactly when counting down. */
  lemma TimestampReadsBack(value: real, time: real, remaining: bool)
    requires time >= 0.0 && Decompose(time).hours < 100
    ensures var p := Decompose(time);
      var t := RenderView(Timestamp, value, time, remaining).text;
      var o := if remaining then 1 else 0;
      && |t| == o + 8
      && (t[0] == '-' <==> remaining)
      && ParseDigits(t[o..o + 2]) == p.hours && t[o + 2] == ':'
      && ParseDigits(t[o + 3..o + 5]) == p.minutes && t[o + 5] == ':'
      && ParseDigits(t[o + 6..o + 8]) == p.seconds
  {
    DecomposeBounds(time);
    var p := Decompose(time);
    var hh, mm, ss := Pad2(p.hours), Pad2(p.minutes), Pad2(p.seconds);
    assert RenderView(Timestamp, value, time, remaining).text == Sign(remaining) + hh + ":" + mm + ":" + ss;
    ThreeFields(Sign(remaining), hh, mm, ss);
    assert !remaining ==> IsDigit(hh[0]);
  }

  lemma ThreeFields(pre: string, a: string, b: string, c: string)
    requires |a| == 2 && |b| == 2 && |c| == 2
    ensures var t := pre + a + ":" + b + ":" + c;
      var o := |pre|;
      && |t| == o + 8
      && t[o..o + 2] == a && t[o + 2] == ':'
      && t[o + 3..o + 5] == b && t[o + 5] == ':'
      && t[o + 6..o + 8] == c
      && (o == 0 ==> t[0] == a[0])
  {
    var t := pre + a + ":" + b + ":" + c;
    assert t == pre + (a + (":" + (b + (":" + c))));
  }

  lemma ColonTail(pre: string, a: string, b: string)
    requires |b| == 2
    ensures var t := pre + a + ":" + b;
      && |t| == |pre| + |a| + 3
      && t[|pre|..|t| - 3] == a && t[|t| - 3] == ':' && t[|t| - 2..] == b
  {
    var t := pre + a + ":" + b;
    assert t == pre + (a + (":" + b));
  }

  /** The views without hours fold the hours into the minutes field as
      `hours * 60 + minutes`, whatever its width. */
  lemma NoHoursFolds(value: real, time: real, remaining: bool)
    requires time >= 0.0
    ensures var p := Decompose(time);
      var t := RenderView(TimestampNoHours, value, time, remaining).text;
      var o := if remaining then 1 else 0;
      && |t| >= o + 5
      && ParseDigits(t[o..|t| - 3]) == p.hours * 60 + p.minutes
      && t[|t| - 3] == ':'
      && ParseDigits(t[|t| - 2..]) == p.seconds
  {
    DecomposeBounds(time);
    var p := Decompose(time);
    var hm, ss := Pad2(p.hours * 60 + p.minutes), Pad2(p.seconds);
    assert RenderView(TimestampNoHours, value, time, remaining).text == Sign(remaining) + hm + ":" + ss;
    ColonTail(Sign(remaining), hm, ss);
  }

  /** Four two-character fields: three separated by colons, the last after
      ": ". */
  lemma FourFields(pre: string, a: string, b: string, c: string, d: string)
    requires |a| == 2 && |b| == 2 && |c| == 2 && |d| == 2
    ensures var t := pre + a + ":" + b + ":" + c + ": " + d;
      var o := |pre|;
      && |t| == o + 12
      && t[o..o + 2] == a && t[o + 2] == ':'
      && t[o + 3..o + 5] == b && t[o + 5] == ':'
      && t[o + 6..o + 8] == c && t[o + 8..o + 10] == ": "
      && t[o + 10..] == d
      && (o == 0 ==> t[0] == a[0])
  {
    var t := pre + a + ":" + b + ":" + c + ": " + d;
    assert t == pre + (a + (":" + (b + (":" + (c + (": " + d))))));
  }

  /** The timestamp-with-frames view reads back as the timestamp followed by
      ": " and the frames. */
  lemma TimestampFrameReadsBack(value: real, time: real, remaining: bool)
    requires time >= 0.0 && Decompose(time).hours < 100
    ensures var p := Decompose(time);
      var t := RenderView(TimestampFrame, value, time, remaining).text;
      var o := if remaining then 1 else 0;
      && |t| == o + 12
      && (t[0] == '-' <==> remaining)
      && ParseDigits(t[o..o + 2]) == p.hours && t[o + 2] == ':'
      && ParseDigits(t[o + 3..o + 5]) == p.minutes && t[o + 5] == ':'
      && ParseDigits(t[o + 6..o + 8]) == p.seconds
      && t[o + 8..o + 10] == ": "
      && ParseDigits(t[o + 10..]) == p.frames
  {
    DecomposeBounds(time);
    var p := Decompose(time);
    var hh, mm, ss, ff := Pad2(p.hours), Pad2(p.minutes), Pad2(p.seconds), Pad2(p.frames);
    assert RenderView(TimestampFrame, value, time, remaining).text == Sign(remaining) + hh + ":" + mm + ":" + ss + ": " + ff;
    FourFields(Sign(remaining), hh, mm, ss, ff);
    assert !remaining ==> IsDigit(hh[0]);
  }

  /** The folded minutes, a colon, the seconds, then ": " and the frames. */
  lemma FoldedFields(pre: string, a: string, c: string, d: string)
    requires |c| == 2 && |d| == 2
    ensures var t := pre + a + ":" + c + ": " + d;
      && |t| == |pre| + |a| + 7
      && t[|pre|..|t| - 7] == a && t[|t| - 7] == ':'
      && t[|t| - 6..|t| - 4] == c && t[|t| - 4..|t| - 2] == ": "
      && t[|t| - 2..] == d
  {
    var t := pre + a + ":" + c + ": " + d;
    assert t == pre + (a + (":" + (c + (": " + d))));
  }

  /** The frames view without hours: the folded minutes, a colon, the
      seconds, then ": " and the frames. */
  lemma FrameNoHoursFolds(value: real, time: real, remaining: bool)
    requires time >= 0.0
    ensures var p := Decompose(time);
      var t := RenderView(TimestampFrameNoHours, value, time, remaining).text;
      var o := if remaining then 1 else 0;
      && |t| >= o + 9
      && ParseDigits(t[o..|t| - 7]) == p.hours * 60 + p.minutes
      && t[|t| - 7] == ':'
      && ParseDigits(t[|t| - 6..|t| - 4]) == p.seconds
      && t[|t| - 4..|t| - 2] == ": "
      && ParseDigits(t[|t| - 2..]) == p.frames
  {
    DecomposeBounds(time);
    var p := Decompose(time);
    var hm, ss, ff := Pad2(p.hours * 60 + p.minutes), Pad2(p.seconds), Pad2(p.frames);
    assert RenderView(TimestampFrameNoHours, value, time, remaining).text == Sign(remaining) + hm + ":" + ss + ": " + ff;
    FoldedFields(Sign(remaining), hm, ss, ff);
  }

  /** At the end of a countdown (the position at its maximum) the scaled
      time is 0.6 and every component is zero. */
  lemma CountdownEnd(max: real)
    ensures ScaledTime(max, max, true) == 0.6
    ensures Decompose(0.6) == Parts(0, 0, 0, 0, 0)
  {
    DecomposeExact(0.6);
  }

  /** At the start of a countdown over a range of 100 (the position at 0)
      the scaled time is 6.6: six sub-seconds, so three frames, and the
      direction glyph is '-'. */
  lemma CountdownStart(remaining: bool)
    ensures ScaledTime(0.0, 100.0, true) == 6.6
    ensures Decompose(6.6) == Parts(0, 0, 0, 6, 3)
    ensures RenderView(Direction, 0.0, 6.6, true).text == "-"
    ensures RenderView(Frames, 0.0, 6.6, remaining).text == "03"
  {
    DecomposeExact(6.6);
    assert (6.6).Floor == 6;
  }
}
