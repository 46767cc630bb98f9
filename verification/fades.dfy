/**
 * Basic transitions: a fade from black over the first `d` seconds or to
 * black over the last `d` seconds of a video, with the audio passed through
 * unfaded, written by a stream-copy attempt and a re-encode fallback.
 */
module Fades {
  import opened Common
  import opened Probe
  import opened Fallback

  /** The fade filter's type and time window, in seconds from the start of the video. */
  datatype Fade = FadeIn(start: real, duration: real) | FadeOut(start: real, duration: real)

  /** The fade and which streams are written. */
  datatype FadeJob = FadeJob(fade: Fade, withVideo: bool, withAudio: bool)

  datatype FadeError =
    | InputNotFound(path: string)
    | NonPositiveDuration
    | ExceedsDuration(duration: real, total: real)
    | UnsupportedType(transitionType: string)
    | NoStreams

  function FadeErrorMessage(e: FadeError): Option<string>
  {
    match e
    case InputNotFound(path) => Some("Error: Input video file not found at " + path)
    case NonPositiveDuration => Some("Error: Transition duration must be positive.")
    // prints Python floats, whose rendering is not modelled
    case ExceedsDuration(_, _) => None
    case UnsupportedType(t) => Some("Error: Unsupported transition_type '" + t + "'. Supported: 'fade_in', 'fade_out'.")
    case NoStreams => Some("Error: No suitable video or audio streams found to apply transition.")
  }

  predicate IsFadeIn(t: string) { t == "fade_in" || t == "crossfade_from_black" }
  predicate IsFadeOut(t: string) { t == "fade_out" || t == "crossfade_to_black" }

  /**
   * The transition request for a file whose probed properties are `props`.
   * The checks run in the source's order: existence, a positive duration, a
   * duration within the video, a known type, some stream to write.
   */
  function PlanFade(path: string, exists_: bool, transitionType: string, d: real, props: MediaProperties)
    : (r: Result<FadeJob, FadeError>)
    ensures !exists_ ==> r == Err(InputNotFound(path))
    ensures exists_ && d <= 0.0 ==> r == Err(NonPositiveDuration)
    ensures exists_ && d > 0.0 && d > props.duration ==> r == Err(ExceedsDuration(d, props.duration))
    ensures r == Err(UnsupportedType(transitionType)) <==>
              exists_ && 0.0 < d <= props.duration && !IsFadeIn(transitionType) && !IsFadeOut(transitionType)
    ensures r.Ok? <==>
              exists_ && 0.0 < d <= props.duration
              && (IsFadeIn(transitionType) || IsFadeOut(transitionType))
              && (props.hasVideo || props.hasAudio)
    ensures r.Ok? ==>
              && r.value.fade.duration == d
              && 0.0 <= r.value.fade.start
              && r.value.fade.start + d <= props.duration
              && (r.value.withVideo <==> props.hasVideo)
              && (r.value.withAudio <==> props.hasAudio)
    ensures r.Ok? && IsFadeIn(transitionType) ==> r.value.fade == FadeIn(0.0, d)
    ensures r.Ok? && IsFadeOut(transitionType) ==>
              r.value.fade.FadeOut? && r.value.fade.start + d == props.duration
  {
    if !exists_ then Err(InputNotFound(path))
    else if d <= 0.0 then Err(NonPositiveDuration)
    else if d > props.duration then Err(ExceedsDuration(d, props.duration))
    else
      var fade :=
        if IsFadeIn(transitionType) then Some(FadeIn(0.0, d))
        else if IsFadeOut(transitionType) then Some(FadeOut(props.duration - d, d))
        else None;
      if fade.None? then Err(UnsupportedType(transitionType))
      else if !props.hasVideo && !props.hasAudio then Err(NoStreams)
      else Ok(FadeJob(fade.value, props.hasVideo, props.hasAudio))
  }

  /** The wording of the transition tool: audio copy first, full re-encode second. */
  function FadeWording(transitionType: string, outputPath: string): Wording
  {
    Wording(
      "Transition '" + transitionType + "' applied successfully (audio copied). Output: " + outputPath,
      "Transition '" + transitionType + "' applied successfully (audio re-encoded/processed). Output: " + outputPath,
      "Error applying transition. Audio copy failed: ",
      ". Full re-encode failed: ",
      ".")
  }

  /**
   * The status of a planned transition, given what the engine answers to
   * the copy attempt and to the re-encode attempt.
   */
  function FadeStatus(transitionType: string, outputPath: string, copy: Attempt, reencode: Attempt)
    : (msg: string)
    ensures copy.Succeeded? ==>
              msg == "Transition '" + transitionType + "' applied successfully (audio copied). Output: " + outputPath
    ensures copy.Failed? && reencode.Succeeded? ==>
              msg == "Transition '" + transitionType + "' applied successfully (audio re-encoded/processed). Output: "
                     + outputPath
    ensures copy.Failed? && reencode.Failed? ==>
              msg == "Error applying transition. Audio copy failed: " + copy.diagnostic
                     + ". Full re-encode failed: " + reencode.diagnostic + "."
  {
    Report(RunWithFallback(copy, reencode).outcome, FadeWording(transitionType, outputPath))
  }

  /** The cross-fade names are aliases of the plain fades. */
  lemma CrossfadeAliases(path: string, exists_: bool, d: real, props: MediaProperties)
    ensures PlanFade(path, exists_, "crossfade_from_black", d, props) == PlanFade(path, exists_, "fade_in", d, props)
    ensures PlanFade(path, exists_, "crossfade_to_black", d, props) == PlanFade(path, exists_, "fade_out", d, props)
  {
  }
}
