/**
 * Geometry of the aspect-ratio and resolution tools: the pad or crop box
 * for a `num:den` target, and the `scale` filter for a resolution string.
 */
module Geometry {
  import opened Common
  import opened Text
  import opened Fallback

  /** Width and height of the input's first video stream, as the probe reports them. */
  datatype Dimensions = Dimensions(width: nat, height: nat)

  /** The ways an aspect-ratio request fails before any engine invocation. */
  datatype AspectError =
    | NoVideoStream
    | InvalidRatioFormat
    | DivisionByZero
    | InvalidResizeMode(mode: string)

  function AspectErrorMessage(e: AspectError): string
  {
    match e
    case NoVideoStream => "Error: No video stream found in the input file."
    case InvalidRatioFormat => "Error: Invalid target_aspect_ratio format. Expected 'num:den' (e.g., '16:9')."
    case DivisionByZero => "An unexpected error occurred: division by zero"
    case InvalidResizeMode(mode) => "Error: Invalid resize_mode '" + mode + "'. Must be 'pad' or 'crop'."
  }

  /** What the video filter must do to reach the target ratio. */
  datatype AspectPlan =
    | AlreadyMatches
      // scale to fit inside the box (keeping the ratio), then pad centred to the box
    | PadTo(width: int, height: int, color: string)
      // cut the box out of the frame at offset (x, y)
    | CropTo(width: int, height: int, x: real, y: real)

  /** The tolerance under which two ratios count as equal. */
  const Tolerance: real := 0.0001

  function Abs(x: real): real { if x < 0.0 then -x else x }

  /** Python's `int(x)` on a float: truncation toward zero. */
  function Trunc(x: real): (n: int)
    ensures 0.0 <= x ==> n as real <= x < n as real + 1.0
    ensures x < 0.0 ==> x <= n as real <= 0.0
  {
    if x >= 0.0 then x.Floor else -((-x).Floor)
  }

  /** `num, den = map(int, s.split(':'))`: exactly two integer fields. */
  function ParseRatio(s: string): (r: Result<(int, int), AspectError>)
    ensures r.Ok? <==>
              && |Split(s, ':')| == 2
              && ParseInt(Split(s, ':')[0]).Some?
              && ParseInt(Split(s, ':')[1]).Some?
    ensures r.Err? ==> r.error == InvalidRatioFormat
  {
    var parts := Split(s, ':');
    if |parts| == 2 && ParseInt(parts[0]).Some? && ParseInt(parts[1]).Some? then
      Ok((ParseInt(parts[0]).value, ParseInt(parts[1]).value))
    else Err(InvalidRatioFormat)
  }

  /** A ratio written as `num:den` reads back as that pair. */
  lemma ParseRatioRendered(num: int, den: int)
    ensures ParseRatio(IntStr(num) + ":" + IntStr(den)) == Ok((num, den))
  {
    IntStrChars(num);
    IntStrChars(den);
    assert IntStr(num) + ":" + IntStr(den) == Join([IntStr(num), IntStr(den)], ':');
    SplitJoin([IntStr(num), IntStr(den)], ':');
    ParseIntStr(num);
    ParseIntStr(den);
  }

  /** The ratio `width/height` of the input frame. */
  function Ratio(d: Dimensions): real
    requires d.height > 0
  {
    d.width as real / d.height as real
  }

  /** Whether the frame already has ratio `t`, up to the tolerance. */
  predicate Matches(d: Dimensions, t: real)
    requires d.height > 0
  {
    Abs(Ratio(d) - t) < Tolerance
  }

  /**
   * The pad or crop box for target ratio `t`: a frame wider than the target
   * keeps its height, a narrower one keeps its width.
   */
  function BoxFor(d: Dimensions, t: real): (int, int)
    requires d.height > 0 && !Matches(d, t)
  {
    if Ratio(d) > t then (Trunc(d.height as real * t), d.height as int)
    else (d.width as int, Trunc(d.width as real / t))
  }

  /** The pad or crop plan for an aspect-ratio request, or the error the tool reports. */
  function PlanAspect(video: Option<Dimensions>, ratio: string, mode: string, color: string)
    : (r: Result<AspectPlan, AspectError>)
    ensures video.None? ==> r == Err(NoVideoStream)
    ensures video.Some? && ParseRatio(ratio).Err? ==> r == Err(InvalidRatioFormat)
    ensures r.Ok? ==> mode == "pad" || mode == "crop"
    ensures r.Ok? && r.value.PadTo? ==> mode == "pad" && r.value.color == color
    ensures r.Ok? && r.value.CropTo? ==> mode == "crop"
    ensures r.Ok? ==> var d := video.value;
                      var (num, den) := ParseRatio(ratio).value;
                      && d.height > 0 && den != 0
                      && (r.value.AlreadyMatches? <==> Matches(d, num as real / den as real))
                      && (!r.value.AlreadyMatches? ==> Box(r.value) == BoxFor(d, num as real / den as real))
    ensures (r.Err? && video.Some? && ParseRatio(ratio).Ok? && ParseRatio(ratio).value.1 != 0
             && video.value.height > 0) ==> r == Err(InvalidResizeMode(mode))
    ensures r == Err(InvalidResizeMode(mode)) ==> mode != "pad" && mode != "crop"
    ensures r == Err(DivisionByZero) <==>
              video.Some? && ParseRatio(ratio).Ok? && (ParseRatio(ratio).value.1 == 0 || video.value.height == 0)
    ensures r.Ok? <==>
              && video.Some? && ParseRatio(ratio).Ok? && ParseRatio(ratio).value.1 != 0
              && video.value.height > 0 && (mode == "pad" || mode == "crop")
    ensures r.Ok? && r.value.CropTo? ==>
              var d := video.value;
              var (num, den) := ParseRatio(ratio).value;
              if Ratio(d) > num as real / den as real
              then r.value.x == (d.width - r.value.width) as real / 2.0 && r.value.y == 0.0
              else r.value.x == 0.0 && r.value.y == (d.height - r.value.height) as real / 2.0
  {
    if video.None? then Err(NoVideoStream)
    else
      var d := video.value;
      match ParseRatio(ratio)
      case Err(e) => Err(e)
      case Ok((num, den)) =>
        if den == 0 || d.height == 0 then Err(DivisionByZero)
        else
          var t := num as real / den as real;
          if mode != "pad" && mode != "crop" then Err(InvalidResizeMode(mode))
          else if Matches(d, t) then Ok(AlreadyMatches)
          else
            var (bw, bh) := BoxFor(d, t);
            if mode == "pad" then Ok(PadTo(bw, bh, color))
            else Ok(CropTo(bw, bh, (d.width - bw) as real / 2.0, (d.height - bh) as real / 2.0))
  }

  /** The box a pad or crop plan targets. */
  function Box(p: AspectPlan): (int, int)
    requires !p.AlreadyMatches?
  {
    match p
    case PadTo(w, h, _) => (w, h)
    case CropTo(w, h, _, _) => (w, h)
  }

  lemma BelowRatio(w: real, h: real, t: real)
    requires h > 0.0 && w / h > t
    ensures h * t < w
  {
    assert w == (w / h) * h;
  }

  lemma AboveRatio(w: real, h: real, t: real)
    requires h > 0.0 && t > 0.0 && w / h < t
    ensures w / t < h
  {
    assert w == (w / h) * h;
    assert w / t == (w / h) * (h / t);
    assert h / t > 0.0;
  }

  /**
   * When the frame is wider than the target, the box keeps the height and
   * takes the largest whole width not above `height * t` (for a
   * non-negative target); otherwise the
   * target is positive and the box keeps the width and takes the largest
   * whole height not above `width / t`. Either way the box fits inside the
   * original frame, strictly smaller along the changed side.
   */
  lemma BoxGeometry(d: Dimensions, t: real)
    requires d.height > 0 && !Matches(d, t)
    ensures var (bw, bh) := BoxFor(d, t);
            && bw <= d.width && bh <= d.height
            && (Ratio(d) > t ==>
                  bh == d.height
                  && (t >= 0.0 ==> 0 <= bw < d.width && bw as real <= d.height as real * t < bw as real + 1.0))
            && (Ratio(d) <= t ==>
                  t > 0.0 && bw == d.width && 0 <= bh < d.height
                  && bh as real <= d.width as real / t < bh as real + 1.0)
  {
    var w := d.width as real;
    var h := d.height as real;
    if Ratio(d) > t {
      BelowRatio(w, h, t);
    } else {
      assert Ratio(d) < t;
      assert t > 0.0;
      AboveRatio(w, h, t);
      assert w / t >= 0.0;
    }
  }

  /** The crop offsets `(iw-w)/2` and `(ih-h)/2` are never negative. */
  lemma CropOffsetsNonNegative(d: Dimensions, ratio: string, color: string)
    requires PlanAspect(Some(d), ratio, "crop", color).Ok?
    ensures var p := PlanAspect(Some(d), ratio, "crop", color).value;
            p.CropTo? ==> p.x >= 0.0 && p.y >= 0.0
  {
    var p := PlanAspect(Some(d), ratio, "crop", color).value;
    if p.CropTo? {
      var (num, den) := ParseRatio(ratio).value;
      BoxGeometry(d, num as real / den as real);
    }
  }

  /** `scale` to fit inside the `w` by `h` box keeping the ratio, then `pad` centred to the box in `color`. */
  function PadFilter(w: int, h: int, color: string): string
  {
    "scale=" + IntStr(w) + ":" + IntStr(h) + ":force_original_aspect_ratio=decrease,pad="
    + IntStr(w) + ":" + IntStr(h) + ":(ow-iw)/2:(oh-ih)/2:" + color
  }

  /** `crop=w:h:x:y`, with the offsets written as engine expressions. */
  function CropFilter(w: int, h: int, x: string, y: string): string
  {
    "crop=" + Join([IntStr(w), IntStr(h), x, y], ':')
  }

  /**
   * The video filter the aspect-ratio tool runs once the frame does not
   * already match: the pad filter, or a crop that keeps the height and
   * centres horizontally (frame wider than the target) or keeps the width
   * and centres vertically.
   */
  function AspectFilter(d: Dimensions, t: real, crop: bool, color: string): (f: string)
    requires d.height > 0 && !Matches(d, t)
    ensures |f| >= 5 && (f[..5] == "crop=" <==> crop)
  {
    if !crop then
      var (w, h) := BoxFor(d, t);
      assert PadFilter(w, h, color)[..5] == "scale";
      PadFilter(w, h, color)
    else if Ratio(d) > t then
      var w := Trunc(d.height as real * t);
      CropFilter(w, d.height, "(iw-" + IntStr(w) + ")/2", "0")
    else
      var h := Trunc(d.width as real / t);
      CropFilter(d.width, h, "0", "(ih-" + IntStr(h) + ")/2")
  }

  /** The four `:`-separated fields of a crop filter read back, the box as integers. */
  lemma CropFilterReadsBack(w: int, h: int, x: string, y: string)
    requires ':' !in x && ':' !in y
    ensures var f := CropFilter(w, h, x, y);
            && f[..5] == "crop="
            && Split(f[5..], ':') == [IntStr(w), IntStr(h), x, y]
            && ParseInt(Split(f[5..], ':')[0]) == Some(w)
            && ParseInt(Split(f[5..], ':')[1]) == Some(h)
  {
    IntStrChars(w);
    IntStrChars(h);
    var f := CropFilter(w, h, x, y);
    assert f[5..] == Join([IntStr(w), IntStr(h), x, y], ':');
    SplitJoin([IntStr(w), IntStr(h), x, y], ':');
    ParseIntStr(w);
    ParseIntStr(h);
  }

  /**
   * The crop filter's width and height fields read back as the box for the
   * target, and its offsets are `(iw-w)/2` and `0` for a frame wider than
   * the target, `0` and `(ih-h)/2` otherwise.
   */
  lemma CropFilterFields(d: Dimensions, t: real, color: string)
    requires d.height > 0 && !Matches(d, t)
    ensures var f := AspectFilter(d, t, true, color);
            var (bw, bh) := BoxFor(d, t);
            var fields := Split(f[5..], ':');
            && |fields| == 4
            && ParseInt(fields[0]) == Some(bw)
            && ParseInt(fields[1]) == Some(bh)
            && (Ratio(d) > t ==> fields[2..] == ["(iw-" + IntStr(bw) + ")/2", "0"])
            && (Ratio(d) <= t ==> fields[2..] == ["0", "(ih-" + IntStr(bh) + ")/2"])
  {
    var (bw, bh) := BoxFor(d, t);
    IntStrChars(bw);
    IntStrChars(bh);
    if Ratio(d) > t {
      var x := "(iw-" + IntStr(bw) + ")/2";
      assert ':' !in x;
      assert AspectFilter(d, t, true, color) == CropFilter(bw, bh, x, "0");
      CropFilterReadsBack(bw, bh, x, "0");
    } else {
      var y := "(ih-" + IntStr(bh) + ")/2";
      assert ':' !in y;
      assert AspectFilter(d, t, true, color) == CropFilter(bw, bh, "0", y);
      CropFilterReadsBack(bw, bh, "0", y);
    }
  }

  /**
   * The filter the tool runs carries the planned box: a pad filter for the
   * pad plan; for a crop, the width and height fields read back as the
   * plan's box, and the offset expressions are `(iw-w)/2` and `0` or `0`
   * and `(ih-h)/2`, whose values on the input frame are the plan's offsets.
   */
  lemma AspectFilterOfPlan(d: Dimensions, ratio: string, mode: string, color: string)
    requires PlanAspect(Some(d), ratio, mode, color).Ok?
    requires !PlanAspect(Some(d), ratio, mode, color).value.AlreadyMatches?
    ensures var p := PlanAspect(Some(d), ratio, mode, color).value;
            var (num, den) := ParseRatio(ratio).value;
            var t := num as real / den as real;
            var f := AspectFilter(d, t, mode == "crop", color);
            var fields := Split(f[5..], ':');
            && (p.PadTo? ==> f == PadFilter(p.width, p.height, color))
            && (p.CropTo? ==>
                  && |fields| == 4
                  && ParseInt(fields[0]) == Some(p.width)
                  && ParseInt(fields[1]) == Some(p.height)
                  && (Ratio(d) > t ==>
                        && fields[2..] == ["(iw-" + IntStr(p.width) + ")/2", "0"]
                        && p.x == (d.width - p.width) as real / 2.0 && p.y == 0.0)
                  && (Ratio(d) <= t ==>
                        && fields[2..] == ["0", "(ih-" + IntStr(p.height) + ")/2"]
                        && p.x == 0.0 && p.y == (d.height - p.height) as real / 2.0))
  {
    var p := PlanAspect(Some(d), ratio, mode, color).value;
    var (num, den) := ParseRatio(ratio).value;
    var t := num as real / den as real;
    assert Box(p) == BoxFor(d, t);
    if p.CropTo? {
      CropFilterFields(d, t, color);
    }
  }

  /**
   * The status string of the aspect-ratio tool. `first` and `second` are what
   * the engine answers to the first invocation (stream copy, or filter with
   * audio copy) and to the second (re-encode).
   */
  function ChangeAspectRatio(video: Option<Dimensions>, ratio: string, mode: string, color: string,
                             outputPath: string, first: Attempt, second: Attempt): (msg: string)
    ensures PlanAspect(video, ratio, mode, color).Err? ==>
              msg == AspectErrorMessage(PlanAspect(video, ratio, mode, color).error)
    ensures PlanAspect(video, ratio, mode, color) == Ok(AlreadyMatches) && first.Succeeded? ==>
              msg == "Video aspect ratio already matches. Copied to " + outputPath + "."
    ensures PlanAspect(video, ratio, mode, color) == Ok(AlreadyMatches) && first.Failed? && second.Succeeded? ==>
              msg == "Video aspect ratio already matches. Re-encoded to " + outputPath + "."
    ensures PlanAspect(video, ratio, mode, color) == Ok(AlreadyMatches) && first.Failed? && second.Failed? ==>
              msg == "Error changing aspect ratio: " + second.diagnostic
    ensures PlanAspect(video, ratio, mode, color).Ok? && PlanAspect(video, ratio, mode, color) != Ok(AlreadyMatches)
            && first.Succeeded? ==>
              msg == "Video aspect ratio changed (audio copy) to " + ratio + " using " + mode + ". Saved to " + outputPath
    ensures PlanAspect(video, ratio, mode, color).Ok? && PlanAspect(video, ratio, mode, color) != Ok(AlreadyMatches)
            && first.Failed? && second.Succeeded? ==>
              msg == "Video aspect ratio changed (audio re-encoded) to " + ratio + " using " + mode + ". Saved to "
                     + outputPath
    ensures PlanAspect(video, ratio, mode, color).Ok? && first.Failed? && second.Failed?
            && PlanAspect(video, ratio, mode, color) != Ok(AlreadyMatches) ==>
              msg == "Error changing aspect ratio. Audio copy attempt failed: " + first.diagnostic
                     + ". Full re-encode attempt also failed: " + second.diagnostic + "."
  {
    match PlanAspect(video, ratio, mode, color)
    case Err(e) => AspectErrorMessage(e)
    case Ok(AlreadyMatches) =>
      // the re-encode after a failed copy is not guarded: its failure
      // reaches the tool's outer handler
      (match RunWithFallback(first, second).outcome
       case PrimaryOk => "Video aspect ratio already matches. Copied to " + outputPath + "."
       case FallbackOk => "Video aspect ratio already matches. Re-encoded to " + outputPath + "."
       case BothFailed(_, f) => "Error changing aspect ratio: " + f)
    case Ok(_) =>
      Report(RunWithFallback(first, second).outcome,
             Wording("Video aspect ratio changed (audio copy) to " + ratio + " using " + mode + ". Saved to " + outputPath,
                     "Video aspect ratio changed (audio re-encoded) to " + ratio + " using " + mode + ". Saved to "
                     + outputPath,
                     "Error changing aspect ratio. Audio copy attempt failed: ",
                     ". Full re-encode attempt also failed: ",
                     "."))
  }

  // ---------------------------------------------------------------------
  // Resolution strings
  // ---------------------------------------------------------------------

  /** A resolution request: an explicit `WxH`, or a height with the width left to the engine. */
  datatype ScaleTarget = ExactSize(spec: string) | HeightOnly(height: string)

  /** `'x' in resolution` decides between the two readings. */
  function ScaleTargetOf(resolution: string): (t: ScaleTarget)
    ensures t.ExactSize? <==> 'x' in resolution
  {
    if 'x' in resolution then ExactSize(resolution) else HeightOnly(resolution)
  }

  /** The `scale` filter for a target: `-2` asks the engine for an even width that keeps the ratio. */
  function ScaleFilter(t: ScaleTarget): string
  {
    match t
    case ExactSize(spec) => "scale=" + spec
    case HeightOnly(h) => "scale=-2:" + h
  }

  /**
   * The video filter of the format-conversion tool: none when the
   * resolution is absent, empty, or `preserve` in any letter case.
   */
  function ConvertScaleFilter(resolution: Option<string>): (f: Option<string>)
    ensures f.None? <==> resolution.None? || resolution.value == "" || Lower(resolution.value) == "preserve"
    ensures f.Some? ==> f.value == ScaleFilter(ScaleTargetOf(resolution.value))
  {
    if resolution.None? || resolution.value == "" || Lower(resolution.value) == "preserve" then None
    else Some(ScaleFilter(ScaleTargetOf(resolution.value)))
  }

  /**
   * The conversion filter is one filter, not a chain: it holds a `,` exactly
   * when the resolution does, and it ends with the resolution as given.
   */
  lemma ConvertScaleFilterCarriesResolution(resolution: Option<string>)
    ensures var f := ConvertScaleFilter(resolution);
            f.Some? ==>
              && (',' in f.value <==> ',' in resolution.value)
              && |resolution.value| <= |f.value|
              && f.value[|f.value| - |resolution.value|..] == resolution.value
  {
    var f := ConvertScaleFilter(resolution);
    if f.Some? {
      var res := resolution.value;
      var prefix := if 'x' in res then "scale=" else "scale=-2:";
      assert f.value == prefix + res;
      assert ',' !in prefix;
      if ',' in res {
        var k :| 0 <= k < |res| && res[k] == ',';
        assert f.value[|prefix| + k] == ',';
      }
    }
  }

  /** Worked example: `W` then `x` then `H` scales to exactly that size. */
  lemma ExactResolution(w: nat, h: nat)
    ensures ScaleFilter(ScaleTargetOf(NatStr(w) + "x" + NatStr(h))) == "scale=" + NatStr(w) + "x" + NatStr(h)
  {
    assert (NatStr(w) + "x" + NatStr(h))[|NatStr(w)|] == 'x';
  }

  /** Worked example: a bare number is a target height; the width becomes `-2`. */
  lemma HeightOnlyResolution(h: nat)
    ensures ScaleFilter(ScaleTargetOf(NatStr(h))) == "scale=-2:" + NatStr(h)
  {
    IntStrChars(h);
    assert IntStr(h) == NatStr(h);
    assert 'x' !in NatStr(h) by {
      forall k | 0 <= k < |NatStr(h)| ensures NatStr(h)[k] != 'x' { assert IsDigit(NatStr(h)[k]); }
    }
  }
}
