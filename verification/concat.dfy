/**
 * Concatenation planning: argument validation in the source's order, then
 * one of three plans — re-encode a single clip, join exactly two clips with
 * a cross-fade (`xfade`) after normalising both, or normalise every clip to
 * the first one's geometry and join them with the concat demuxer.
 */
module Concat {
  import opened Common
  import opened Text
  import opened Probe

  /** The 37 `xfade` transition names the source accepts, in sorted order. */
  const EffectNames: seq<string> := [
    "circleclose", "circlecrop", "circleopen", "diagbl", "diagbr", "diagtl", "diagtr",
    "dissolve", "distance", "fade", "fadeblack", "fadegrays", "fadewhite", "hblur",
    "hlslice", "horzclose", "horzopen", "hrslice", "pixelize", "radial", "rectcrop",
    "slidedown", "slideleft", "slideright", "slideup", "smoothdown", "smoothleft",
    "smoothright", "smoothup", "vdslice", "vertclose", "vertopen", "vuslice",
    "wipedown", "wipeleft", "wiperight", "wipeup"]

  /** Floors of the cross-fade normalisation target. */
  const XfadeMinWidth: int := 640
  const XfadeMinHeight: int := 360
  const XfadeMinFps: real := 30.0

  /** Defaults of the plain concatenation target when the first clip reports none. */
  const PlainDefaultWidth: int := 1280
  const PlainDefaultHeight: int := 720
  const PlainDefaultFps: real := 30.0

  /** A transition is requested when the effect is present and non-empty (Python truthiness). */
  predicate Requested(effect: Option<string>)
  {
    effect.Some? && effect.value != ""
  }

  /** Every clip is re-encoded to this size and frame rate before joining. */
  datatype NormTarget = NormTarget(width: int, height: int, fps: real)

  datatype ConcatPlan =
    | SingleReencode(path: string)
    | Xfade(target: NormTarget, effect: string, duration: real, offset: real, withAudio: bool)
    | PlainConcat(target: NormTarget, paths: seq<string>)

  datatype ConcatError =
    | NoPaths
    | DurationRequired
    | NonPositiveDuration
    | InvalidEffect(effect: string)
    | InputNotFound(path: string)
    | XfadeNeedsVideo
    | TransitionTooLong(duration: real, firstDuration: real)
    | TooLongForNormalized(duration: real, normalizedDuration: real)
    | TooManyForXfade(effect: string, count: nat)

  /** `names` joined by `", "`. */
  function CommaList(names: seq<string>): string
  {
    if |names| == 0 then ""
    else if |names| == 1 then names[0]
    else names[0] + ", " + CommaList(names[1..])
  }

  /** The messages whose text is fixed or assembled from the request alone. */
  function ConcatErrorMessage(e: ConcatError): Option<string>
  {
    match e
    case NoPaths => Some("Error: No video paths provided for concatenation.")
    case DurationRequired => Some("Error: transition_duration is required when transition_effect is specified.")
    case NonPositiveDuration => Some("Error: transition_duration must be positive.")
    case InvalidEffect(effect) =>
      Some("Error: Invalid transition_effect '" + effect + "'. Valid options: " + CommaList(EffectNames))
    case InputNotFound(path) => Some("Error: Input video file not found at " + path)
    case XfadeNeedsVideo => Some("Error: xfade transition requires both inputs to be videos.")
    case TooManyForXfade(effect, count) =>
      Some("Error: xfade transition ('" + effect + "') is currently only supported for exactly two videos. Found "
           + IntStr(count) + " videos.")
    // these two print Python floats, whose rendering is not modelled
    case TransitionTooLong(_, _) => None
    case TooLongForNormalized(_, _) => None
  }

  /** The first path, in order, that does not exist. */
  function FirstMissing(paths: seq<string>, existing: set<string>): (r: Option<string>)
    ensures r.None? <==> forall i :: 0 <= i < |paths| ==> paths[i] in existing
    ensures r.Some? ==> r.value !in existing
    ensures r.Some? ==> exists i :: 0 <= i < |paths| && paths[i] == r.value && (forall j :: 0 <= j < i ==> paths[j] in existing)
  {
    if |paths| == 0 then None
    else if paths[0] !in existing then Some(paths[0])
    else
      var r := FirstMissing(paths[1..], existing);
      if r.Some? then
        assert exists i :: 0 <= i < |paths| - 1 && paths[1..][i] == r.value
                           && forall j :: 0 <= j < i ==> paths[1..][j] in existing;
        var i :| 0 <= i < |paths| - 1 && paths[1..][i] == r.value
                 && forall j :: 0 <= j < i ==> paths[1..][j] in existing;
        assert paths[i + 1] == r.value;
        assert forall j :: 0 <= j < i + 1 ==> paths[j] in existing by {
          forall j | 0 <= j < i + 1 ensures paths[j] in existing {
            if j > 0 { assert paths[j] == paths[1..][j - 1]; }
          }
        }
        r
      else
        assert forall i :: 0 <= i < |paths| ==> paths[i] in existing by {
          forall i | 0 <= i < |paths| ensures paths[i] in existing {
            if i > 0 { assert paths[i] == paths[1..][i - 1]; }
          }
        }
        r
  }

  function MaxInt(a: int, b: int): int { if a >= b then a else b }
  function MaxReal(a: real, b: real): real { if a >= b then a else b }

  /**
   * The cross-fade target: the larger of the two clips in each dimension and
   * frame rate, but never below 640x360 at 30 fps — the least such bound, so
   * it equals one of the three candidates. The source's guard against a
   * non-positive frame rate is kept although it cannot fire.
   */
  function XfadeTarget(p1: MediaProperties, p2: MediaProperties): (t: NormTarget)
    ensures t.width >= p1.width && t.width >= p2.width && t.width >= XfadeMinWidth
    ensures t.width == p1.width || t.width == p2.width || t.width == XfadeMinWidth
    ensures t.height >= p1.height && t.height >= p2.height && t.height >= XfadeMinHeight
    ensures t.height == p1.height || t.height == p2.height || t.height == XfadeMinHeight
    ensures t.fps >= p1.avgFps && t.fps >= p2.avgFps && t.fps >= XfadeMinFps
    ensures t.fps == p1.avgFps || t.fps == p2.avgFps || t.fps == XfadeMinFps
  {
    var fps := MaxReal(MaxReal(p1.avgFps, p2.avgFps), XfadeMinFps);
    NormTarget(MaxInt(MaxInt(p1.width, p2.width), XfadeMinWidth),
               MaxInt(MaxInt(p1.height, p2.height), XfadeMinHeight),
               if fps <= 0.0 then XfadeMinFps else fps)
  }

  /** The plain-concatenation target: the first clip's values, with defaults for non-positive ones. */
  function PlainTarget(first: MediaProperties): (t: NormTarget)
    ensures t.width > 0 && t.height > 0 && t.fps > 0.0
    ensures first.width > 0 ==> t.width == first.width
    ensures first.height > 0 ==> t.height == first.height
    ensures first.avgFps > 0.0 ==> t.fps == first.avgFps
    ensures first.width <= 0 ==> t.width == PlainDefaultWidth
    ensures first.height <= 0 ==> t.height == PlainDefaultHeight
    ensures first.avgFps <= 0.0 ==> t.fps == PlainDefaultFps
  {
    var fps := if first.avgFps > 0.0 then first.avgFps else PlainDefaultFps;
    NormTarget(if first.width > 0 then first.width else PlainDefaultWidth,
               if first.height > 0 then first.height else PlainDefaultHeight,
               if fps <= 0.0 then PlainDefaultFps else fps)
  }

  /** The validation that precedes any probing, in the source's order. */
  function Validate(paths: seq<string>, effect: Option<string>, duration: Option<real>,
                    existing: set<string>): Option<ConcatError>
  {
    if |paths| == 0 then Some(NoPaths)
    else if Requested(effect) && duration.None? then Some(DurationRequired)
    else if Requested(effect) && duration.value <= 0.0 then Some(NonPositiveDuration)
    else if Requested(effect) && effect.value !in EffectNames then Some(InvalidEffect(effect.value))
    else if FirstMissing(paths, existing).Some? then Some(InputNotFound(FirstMissing(paths, existing).value))
    else None
  }

  /**
   * The concatenation request. `probe` gives each existing file's normalised
   * properties, and `normalizedDuration` is the probed duration of the first
   * clip after normalisation (only read on the cross-fade path).
   */
  function PlanConcat(paths: seq<string>, effect: Option<string>, duration: Option<real>,
                      existing: set<string>, probe: string -> MediaProperties,
                      normalizedDuration: real): (r: Result<ConcatPlan, ConcatError>)
    ensures |paths| == 0 ==> r == Err(NoPaths)
    ensures |paths| > 0 && Requested(effect) && duration.None? ==> r == Err(DurationRequired)
    ensures |paths| > 0 && Requested(effect) && duration.Some? && duration.value <= 0.0 ==>
              r == Err(NonPositiveDuration)
    ensures r.Err? && r.error.InvalidEffect? <==>
              |paths| > 0 && Requested(effect) && duration.Some? && duration.value > 0.0
              && effect.value !in EffectNames
    ensures r.Err? && r.error.InvalidEffect? ==> r.error.effect == effect.value
    ensures r.Ok? ==> forall i :: 0 <= i < |paths| ==> paths[i] in existing
    ensures r.Ok? && r.value.SingleReencode? <==> r.Ok? && |paths| == 1
    ensures r.Ok? && r.value.Xfade? ==>
              && |paths| == 2 && Requested(effect) && r.value.effect in EffectNames
              && probe(paths[0]).hasVideo && probe(paths[1]).hasVideo
              && r.value.duration > 0.0
              && r.value.duration < probe(paths[0]).duration
              && 0.0 < r.value.offset < normalizedDuration
              && r.value.offset + r.value.duration == normalizedDuration
              && r.value.target == XfadeTarget(probe(paths[0]), probe(paths[1]))
              && (r.value.withAudio <==> probe(paths[0]).hasAudio && probe(paths[1]).hasAudio)
    ensures r.Ok? && r.value.PlainConcat? ==>
              && !Requested(effect) && |paths| >= 2
              && r.value.paths == paths
              && r.value.target == PlainTarget(probe(paths[0]))
    ensures Validate(paths, effect, duration, existing).None? && Requested(effect) && |paths| > 2 ==>
              r == Err(TooManyForXfade(effect.value, |paths|))
    // the first missing input is reported once the transition arguments pass
    ensures |paths| > 0 && (Requested(effect) ==> duration.Some? && duration.value > 0.0 && effect.value in EffectNames)
            && FirstMissing(paths, existing).Some? ==>
              r == Err(InputNotFound(FirstMissing(paths, existing).value))
    ensures r.Err? && r.error.InputNotFound? ==> r.error.path !in existing && r.error.path in paths
    ensures Validate(paths, effect, duration, existing).None? && |paths| == 1 ==> r == Ok(SingleReencode(paths[0]))
    ensures Validate(paths, effect, duration, existing).None? && !Requested(effect) && |paths| >= 2 ==>
              r.Ok? && r.value.PlainConcat?
    // two clips with a transition: which check rejects the request, and when it is accepted
    ensures Validate(paths, effect, duration, existing).None? && Requested(effect) && |paths| == 2 ==>
              && ((!probe(paths[0]).hasVideo || !probe(paths[1]).hasVideo) ==> r == Err(XfadeNeedsVideo))
              && (probe(paths[0]).hasVideo && probe(paths[1]).hasVideo && duration.value >= probe(paths[0]).duration ==>
                    r == Err(TransitionTooLong(duration.value, probe(paths[0]).duration)))
              && (probe(paths[0]).hasVideo && probe(paths[1]).hasVideo && duration.value < probe(paths[0]).duration
                  && duration.value >= normalizedDuration ==>
                    r == Err(TooLongForNormalized(duration.value, normalizedDuration)))
              && (r.Ok? <==> probe(paths[0]).hasVideo && probe(paths[1]).hasVideo
                             && duration.value < probe(paths[0]).duration && duration.value < normalizedDuration)
              && (r.Ok? ==> r.value.Xfade? && r.value.effect == effect.value && r.value.duration == duration.value)
  {
    var v := Validate(paths, effect, duration, existing);
    if v.Some? then Err(v.value)
    else if |paths| == 1 then Ok(SingleReencode(paths[0]))
    else if Requested(effect) && |paths| == 2 then
      var p1 := probe(paths[0]);
      var p2 := probe(paths[1]);
      var td := duration.value;
      if !p1.hasVideo || !p2.hasVideo then Err(XfadeNeedsVideo)
      else if td >= p1.duration then Err(TransitionTooLong(td, p1.duration))
      else if td >= normalizedDuration then Err(TooLongForNormalized(td, normalizedDuration))
      else Ok(Xfade(XfadeTarget(p1, p2), effect.value, td, normalizedDuration - td, p1.hasAudio && p2.hasAudio))
    else if Requested(effect) then Err(TooManyForXfade(effect.value, |paths|))
    else Ok(PlainConcat(PlainTarget(probe(paths[0])), paths))
  }

  /** Without a requested transition nothing about the duration is checked, even a negative one. */
  lemma DurationIgnoredWithoutEffect(paths: seq<string>, effect: Option<string>, d1: Option<real>, d2: Option<real>,
                                     existing: set<string>, probe: string -> MediaProperties, nd: real)
    requires !Requested(effect)
    ensures PlanConcat(paths, effect, d1, existing, probe, nd) == PlanConcat(paths, effect, d2, existing, probe, nd)
  {
  }

  /** A single clip is re-encoded whatever transition accompanies it, once the arguments are valid. */
  lemma SingleClipIgnoresTransition(path: string, effect: Option<string>, duration: Option<real>,
                                    existing: set<string>, probe: string -> MediaProperties, nd: real)
    requires path in existing
    requires Requested(effect) ==> duration.Some? && duration.value > 0.0 && effect.value in EffectNames
    ensures PlanConcat([path], effect, duration, existing, probe, nd) == Ok(SingleReencode(path))
  {
    assert FirstMissing([path], existing) == None;
  }
}
