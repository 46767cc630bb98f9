/**
 * Normalisation of a probe report into the `MediaProperties` record every
 * multi-clip operation reads: missing fields take fixed defaults and the
 * average frame rate fraction `num/den` becomes frames per second.
 */
module Probe {
  import opened Common
  import opened Text

  /** The fields of the first video stream the probe reports, each possibly absent. */
  datatype VideoStreamInfo = VideoStreamInfo(
    width: Option<int>,
    height: Option<int>,
    avgFrameRate: Option<string>)

  /** The fields of the first audio stream the probe reports, each possibly absent. */
  datatype AudioStreamInfo = AudioStreamInfo(
    sampleRate: Option<string>,
    channels: Option<int>,
    channelLayout: Option<string>)

  /** What the external probe returns for one file. */
  datatype ProbeReport = ProbeReport(
    formatDuration: Option<string>,
    video: Option<VideoStreamInfo>,
    audio: Option<AudioStreamInfo>)

  datatype MediaProperties = MediaProperties(
    duration: real,
    hasVideo: bool,
    hasAudio: bool,
    width: int,
    height: int,
    avgFps: real,
    sampleRate: int,
    channels: int,
    channelLayout: string)

  /** A probe field that could not be read as a number; the source raises a `RuntimeError`. */
  datatype ProbeError = Unreadable(field: string)

  const DefaultFps: real := 30.0
  const DefaultSampleRate: int := 44100
  const DefaultChannels: int := 2
  const DefaultChannelLayout: string := "stereo"

  /** Frames per second from the reported `num/den` average frame rate. */
  function FrameRate(video: Option<VideoStreamInfo>): (r: Result<real, ProbeError>)
    ensures video.None? || video.value.avgFrameRate.None? ==> r == Ok(DefaultFps)
    ensures video.Some? && video.value.avgFrameRate == Some("0/0") ==> r == Ok(DefaultFps)
  {
    if video.Some? && video.value.avgFrameRate.Some? && video.value.avgFrameRate.value != "0/0" then
      var parts := Split(video.value.avgFrameRate.value, '/');
      if |parts| != 2 then Err(Unreadable("avg_frame_rate"))
      else
        match (ParseInt(parts[0]), ParseInt(parts[1]))
        case (Some(num), Some(den)) =>
          if den > 0 then Ok(num as real / den as real) else Ok(DefaultFps)
        case _ => Err(Unreadable("avg_frame_rate"))
    else Ok(DefaultFps)
  }

  /** The normalised properties of one probed file, or the field that could not be read. */
  function Normalize(p: ProbeReport): (r: Result<MediaProperties, ProbeError>)
    ensures r.Ok? ==> r.value.hasVideo == p.video.Some? && r.value.hasAudio == p.audio.Some?
    ensures r.Ok? && p.formatDuration.None? ==> r.value.duration == 0.0
    ensures r.Ok? && p.formatDuration.Some? ==> Some(r.value.duration) == ParseDecimal(p.formatDuration.value)
    ensures r.Ok? ==> r.value.width == (if p.video.Some? then p.video.value.width.GetOr(0) else 0)
    ensures r.Ok? ==> r.value.height == (if p.video.Some? then p.video.value.height.GetOr(0) else 0)
    ensures r.Ok? && (p.audio.None? || p.audio.value.sampleRate.None?) ==> r.value.sampleRate == DefaultSampleRate
    ensures r.Ok? && (p.audio.None? || p.audio.value.channels.None?) ==> r.value.channels == DefaultChannels
    ensures r.Ok? && (p.audio.None? || p.audio.value.channelLayout.None?) ==> r.value.channelLayout == DefaultChannelLayout
    ensures r.Ok? && p.audio.Some? && p.audio.value.sampleRate.Some? ==>
              ParseInt(p.audio.value.sampleRate.value) == Some(r.value.sampleRate)
    ensures r.Ok? && p.audio.Some? && p.audio.value.channels.Some? ==> r.value.channels == p.audio.value.channels.value
    ensures r.Ok? && p.audio.Some? && p.audio.value.channelLayout.Some? ==>
              r.value.channelLayout == p.audio.value.channelLayout.value
    ensures r.Ok? ==> FrameRate(p.video) == Ok(r.value.avgFps)
    ensures r.Err? <==>
              || (p.formatDuration.Some? && ParseDecimal(p.formatDuration.value).None?)
              || (p.audio.Some? && p.audio.value.sampleRate.Some? && ParseInt(p.audio.value.sampleRate.value).None?)
              || FrameRate(p.video).Err?
  {
    var duration := if p.formatDuration.Some? then ParseDecimal(p.formatDuration.value) else Some(0.0);
    var sampleRate :=
      if p.audio.Some? && p.audio.value.sampleRate.Some? then ParseInt(p.audio.value.sampleRate.value)
      else Some(DefaultSampleRate);
    if duration.None? then Err(Unreadable("duration"))
    else if sampleRate.None? then Err(Unreadable("sample_rate"))
    else
      match FrameRate(p.video)
      case Err(e) => Err(e)
      case Ok(fps) =>
        Ok(MediaProperties(
          duration := duration.value,
          hasVideo := p.video.Some?,
          hasAudio := p.audio.Some?,
          width := if p.video.Some? then p.video.value.width.GetOr(0) else 0,
          height := if p.video.Some? then p.video.value.height.GetOr(0) else 0,
          avgFps := fps,
          sampleRate := sampleRate.value,
          channels := if p.audio.Some? then p.audio.value.channels.GetOr(DefaultChannels) else DefaultChannels,
          channelLayout :=
            if p.audio.Some? then p.audio.value.channelLayout.GetOr(DefaultChannelLayout) else DefaultChannelLayout))
  }

  /**
   * A reported rate `num/den` gives `num/den` frames per second when the
   * denominator is positive and the default 30 otherwise.
   */
  lemma {:induction false} FrameRateOfFraction(num: int, den: int, w: Option<int>, h: Option<int>)
    ensures FrameRate(Some(VideoStreamInfo(w, h, Some(IntStr(num) + "/" + IntStr(den)))))
         == Ok(if den > 0 then num as real / den as real else DefaultFps)
  {
    var rate := IntStr(num) + "/" + IntStr(den);
    IntStrChars(num);
    IntStrChars(den);
    assert rate == Join([IntStr(num), IntStr(den)], '/');
    SplitJoin([IntStr(num), IntStr(den)], '/');
    ParseIntStr(num);
    ParseIntStr(den);
    if rate == "0/0" {
      assert rate[..|IntStr(num)|] == IntStr(num) == "0";
      ParseIntStr(0);
      assert IntStr(den) == rate[2..] == "0";
    }
  }

  /**
   * Reading back a report rendered from a record: integer fields printed in
   * decimal and a `num/den` frame rate give the record, with the fields
   * the report left out at their defaults.
   */
  lemma {:induction false} NormalizeReadsBack(w: int, h: int, num: int, den: int, rate: int, ch: int, layout: string)
    ensures Normalize(ProbeReport(None,
                                  Some(VideoStreamInfo(Some(w), Some(h), Some(IntStr(num) + "/" + IntStr(den)))),
                                  Some(AudioStreamInfo(Some(IntStr(rate)), Some(ch), Some(layout)))))
         == Ok(MediaProperties(0.0, true, true, w, h, if den > 0 then num as real / den as real else DefaultFps,
                               rate, ch, layout))
  {
    FrameRateOfFraction(num, den, Some(w), Some(h));
    ParseIntStr(rate);
  }
}
