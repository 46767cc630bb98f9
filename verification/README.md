# video-audio-mcp planning core in Dafny

`server.py` of video-audio-mcp exposes video and audio editing tools. Each tool
checks its arguments, probes the media, builds an ffmpeg filter graph and runs
the engine, often with a second attempt if the first fails. This project
models the pure planning logic inside those tools as Dafny functions over
immutable records. The ffmpeg runs and the probe results are taken as inputs.

- `Common`: `Option` and `Result`.
- `Text`: Python's `str.split`, `join`, `replace` and `lower`, and the `int()` / `float()` parsing used by the tools, plus number rendering.
- `TimeParse`: `_parse_time_to_seconds` (numbers, `H:M:S`, `M:S`, plain seconds, the error for other colon strings).
- `Probe`: `_get_media_properties`. Turns a probe report into the media-property record, with its defaults and frame-rate derivation.
- `Fallback`: `_run_ffmpeg_with_fallback` as a two-step state machine over attempt outcomes. Also the same pattern inlined in `trim_video`, `change_aspect_ratio` and `add_basic_transitions`.
- `Geometry`:
  - `change_aspect_ratio`: ratio parsing, the already-matches tolerance, the pad/crop box and its offsets, and the mode errors.
  - The `WxH` / `-2:H` scale choice of `set_video_resolution` and `convert_video_properties`.
- `Tempo`: `change_video_speed`. The video PTS factor and the chain of `atempo` stages.
- `Silence`: `remove_silence`. Keep intervals from detected silences, the `between(t,s,e)+…` select expression, and the error order.
- `Concat`: `concatenate_videos`. Argument checks in order, the xfade and plain-concat normalisation targets, and the xfade offset.
- `StableSort`: a stable index sort. It stands in for Python's `sorted` with a key.
- `BRoll`: `add_b_roll`.
  - Clips are ordered stably by insert time.
  - Positions are validated and mapped to overlay coordinates.
  - Per-clip checks in the source's order (file, video stream, duration, position, `float` of transition duration and audio mix), then scale and fade filters.
  - The reported error is that of the failing clip that sorts first.
  - The overlay label chain `[0:v]→[v0]→…→[v]` with enable windows, and its rendering.
- `Fades`: `add_basic_transitions`. The fade window, the validation order, and the status messages.
- `Overlays`: drawtext escaping in `add_text_overlay`, and the image-overlay position, scale and enable expression in `add_image_overlay`.

Time is modelled as `real` and pixels as `int`. Python's `int(float)` truncates toward zero; this is written out as `Geometry.Trunc`. A file-existence check is a boolean or a `set<string>` of existing paths. The probe of a path is a function `string -> MediaProperties`.

## Model

| member | source | states |
|---|---|---|
| TimeParse.ParseTime | server.py:1223-1235 | A number passes through unchanged. A colon string with three or more colons is rejected naming the input. A string without a colon parses as plain seconds exactly when it is a decimal number. |
| TimeParse.ClockHoursMinutesSeconds | server.py:1226-1230 | For any colon-free fields `a:b:c`: integer hours and minutes and decimal seconds give 3600·H + 60·M + S. Otherwise the first field, left to right, that does not read is the error. |
| TimeParse.ClockMinutesSeconds | server.py:1226-1232 | For any colon-free fields `a:b`: integer minutes and decimal seconds give 60·M + S. Otherwise the first field that does not read is the error. |
| TimeParse.PlainSeconds | server.py:1235 | Any string without a colon is read as plain seconds, and is itself the error when it is not a decimal. |
| TimeParse.ClockOfIntegers | server.py:1229-1230 | Hours and minutes printed as decimal integers read back as themselves: `IntStr(h):IntStr(m):S` gives 3600·h + 60·m + S. |
| Probe.FrameRate | server.py:1255-1262 | The frame rate is 30 when there is no video stream, no `avg_frame_rate`, or the rate is `0/0`. |
| Probe.FrameRateOfFraction | server.py:1255-1262 | A rate `num/den` gives num/den when den > 0, and 30 otherwise. |
| Probe.Normalize | server.py:1244-1262 | The stream flags follow stream presence. A missing duration is 0, and a present one is its parsed value. A missing width or height is 0. A missing sample rate, channel count or layout is 44100, 2 or `stereo`; a present one is its parsed or given value. The fps agrees with `FrameRate`. The record is an error exactly when a present field does not parse. |
| Probe.NormalizeReadsBack | server.py:1244-1262 | A report printed from a record (integer fields in decimal, the frame rate as `num/den`) normalises back to that record, with a missing duration read as 0. |
| Fallback.RunWithFallback | server.py:332-344 | There are one or two attempts, and the primary comes first. The fallback is attempted exactly when the primary fails. The result is tagged primary or fallback by which attempt succeeded. Both attempts failed exactly when both diagnostics are kept, primary first. |
| Fallback.DiagnosticsInOrder | server.py:341-344 | In the both-failed message the primary diagnostic appears before the fallback diagnostic. |
| Fallback.RunHelper | server.py:332-344 | The three status messages of the helper: primary success, fallback success, and both failures with both diagnostics. |
| Fallback.RunTrim | server.py:54-70 | The same two-step pattern with the codec-copy and re-encode messages of `trim_video`. |
| Geometry.Trunc | server.py:193-199 | `int()` of a float truncates toward zero. |
| Geometry.ParseRatio | server.py:174-175 | A ratio parses exactly when it is two integers around one colon. Anything else gives the invalid-format error. |
| Geometry.ParseRatioRendered | server.py:174 | A rendered `num:den` parses back to (num, den). |
| Geometry.PlanAspect | server.py:166-219 | No video stream and a malformed ratio are errors, checked in that order. Only `pad` and `crop` succeed, and pad keeps the colour. A ratio within 1e-4 of w/h is a pass-through copy; any other success targets the box of `BoxFor`. A zero denominator or zero height is the division error, and only then. The request succeeds exactly when there is a video, the ratio reads, the denominator and height are non-zero and the mode is `pad` or `crop`; past those checks the only error is the resize-mode error, and only for another mode. A crop of a frame wider than the target sits at x = (w - new width)/2, y = 0; any other crop at x = 0, y = (h - new height)/2. |
| Geometry.BoxGeometry | server.py:193-217 | When w/h is above the target, the box is `(trunc(h·num/den), h)` with width < w. Otherwise it is `(w, trunc(w·den/num))` with height ≤ h. The box never exceeds the original. |
| Geometry.CropOffsetsNonNegative | server.py:212-217 | The crop offsets, x = (w - new width)/2 with y = 0, or x = 0 with y = (h - new height)/2, are never negative. |
| Geometry.AspectFilter | server.py:192-217 | The filter is a crop filter exactly when the mode is crop; otherwise it is the scale-then-pad filter. |
| Geometry.CropFilterReadsBack | server.py:214-217 | A crop filter splits at `:` into its four fields. The width and height fields read back as the integers written. |
| Geometry.CropFilterFields | server.py:212-217 | The crop fields read back as the box for the target. The offsets are `(iw-w)/2` and `0` when the frame is wider than the target, and `0` and `(ih-h)/2` otherwise. |
| Geometry.AspectFilterOfPlan | server.py:192-217 | The filter the tool runs carries the planned box: the pad filter for a pad plan. For a crop plan, the width and height fields read back as the plan's box, and the offset fields are the expressions whose values on the frame are the plan's offsets. |
| Geometry.ChangeAspectRatio | server.py:183-237 | Planning errors come before any engine run. A matching ratio is copied, or re-encoded when the copy fails. Any other plan reports "changed (audio copy)" or, after a failed copy, "changed (audio re-encoded)", naming the ratio, mode and output. The failure messages name the stage that failed. |
| Geometry.ScaleTargetOf | server.py:128-132 | A resolution with an `x` is an exact `WxH` size. Anything else is a height with automatic even width. |
| Geometry.ConvertScaleFilter | server.py:128-132 | No scale filter for a missing, empty or `preserve` resolution. Otherwise the filter is chosen from the resolution. |
| Geometry.ConvertScaleFilterCarriesResolution | server.py:128-132 | The conversion filter ends with the resolution as given. It contains a `,`, and so becomes a filter chain, exactly when the resolution does. |
| Geometry.ExactResolution | server.py:375-376 | Worked example: `WxH` gives `scale=WxH`. |
| Geometry.HeightOnlyResolution | server.py:377-378 | Worked example: a bare height H gives `scale=-2:H`. |
| Tempo.AtempoChain | server.py:1055-1077 | Every stage lies in [0.5, 2.0]. An in-range factor is the single stage. A slower factor is 0.5 stages and then either a last remainder in [0.5, 0.99) with product equal to the factor, or no remainder when it would have been in [0.99, 1). A faster factor mirrors this with 2.0 stages, a remainder in (1.01, 2.0], and a dropped one in (1, 1.01]. |
| Tempo.SlowChain | server.py:1059-1066 | The slow branch: 0.5 stages, then a remainder in [0.5, 0.99) making the product the factor, or none when the factor is within a factor 0.99 of the product. |
| Tempo.FastChain | server.py:1067-1074 | The fast branch: 2.0 stages, then a remainder in (1.01, 2.0] making the product the factor, or none when the factor is within a factor 1.01 of the product. |
| Tempo.PlanSpeed | server.py:1048-1081 | A factor ≤ 0 is rejected before anything else, then a missing input. Otherwise the PTS factor is 1/speed, every stage is in range, and the stages split the factor as the chain describes. |
| Silence.KeepFrom | server.py:1171-1180 | Every keep interval has start < end. |
| Silence.KeepFromShape | server.py:1169-1180 | For ordered silences the keep intervals lie within [position, total] and ascend. |
| Silence.KeepFromCovers | server.py:1169-1180 | A time is in a keep interval exactly when it is in no remaining silence span. |
| Silence.KeepPartition | server.py:1164-1182 | For ordered silences the keep intervals lie within [0, total] and ascend. A time in [0, total) is kept exactly when no silence covers it. |
| Silence.TrailingSilence | server.py:1173 | A final start without an end silences up to the total duration, so nothing after it is kept. |
| Silence.SelectExprTerms | server.py:1186-1193 | Splitting the select expression at `+` gives exactly one `between(t,s,e)` term per keep interval, in order. |
| Silence.RemoveSilence | server.py:1117-1213 | The errors come in order: missing input, then non-positive minimum, then no sound to keep, then no streams. The file is copied unchanged exactly when it exists, the minimum is positive and no silence was detected. When there is sound to keep and at least one stream, the result is a segment selection. Each present stream selects the keep intervals through the `between` sum, the same expression for both. |
| Silence.SelectMatchesKeep | server.py:1186-1200 | Each planned select splits at `+` into one `between(t,s,e)` term per kept interval, in order. |
| Silence.Example | server.py:1169-1180 | Worked example: silences [2,3] and [6,8] in 10 s keep [0,2], [3,6] and [8,10]. |
| StableSort.Insert | server.py:1381 | Inserting an index into a stably sorted list keeps it stably sorted and adds exactly that index. |
| StableSort.SortPrefix | server.py:1381 | The first n indices, stably sorted. |
| StableSort.StableOrder | server.py:1381 | The result is a permutation of the indices. Keys ascend along it, and equal keys keep their original order. |
| Concat.FirstMissing | server.py:840-845 | No result exactly when every path exists. Otherwise the result is the first path that does not exist. |
| Concat.XfadeTarget | server.py:879-884 | Each of width, height and fps is the maximum of the two clips and the floor 640/360/30. It is at least every input and equals one of them. |
| Concat.PlainTarget | server.py:984-988 | The first clip's width, height and fps, each replaced by 1280/720/30 when not positive. |
| Concat.PlanConcat | server.py:815-1000 | The checks come in order: empty list, effect without duration, non-positive duration, unknown effect, the first missing file, more than two clips. A single clip is re-encoded; valid clips without an effect are joined plainly. Two clips with an effect are rejected for a missing video, then a transition as long as clip 1, then one as long as normalised clip 1; otherwise they cross-fade. The xfade offset is positive, and offset + duration is the normalised clip-1 duration. |
| Concat.DurationIgnoredWithoutEffect | server.py:820-838 | Without an effect the duration argument changes nothing. |
| Concat.SingleClipIgnoresTransition | server.py:847-856 | A single valid clip is re-encoded whatever transition was requested. |
| BRoll.ParsePosition | server.py:1393-1396 | Exactly the six valid names parse, each to the position it names. |
| BRoll.ParsePositionName | server.py:1362 | Every position's name parses back to it. |
| BRoll.OverlayOrigin | server.py:1441-1453 | Fullscreen is at (0,0). Corners are inset 10 px from their two edges. Center leaves equal margins on both sides. |
| BRoll.ClipFilters | server.py:1403-1424 | The first filter scales fullscreen clips to the main size and the others by the factor. A fade-in is present exactly for `transition_in == 'fade'`. A fade-out ends the list and starts at max(0, dur − td). |
| BRoll.ParseKeys | server.py:1381 | Every insert time parses, or the error is that of the first clip, in request order, whose insert time does not parse. |
| BRoll.CheckClip | server.py:1382-1466 | A not-found error exactly when the path is missing. Skipped exactly when there is no video. Then, in order: a duration that does not parse, an unknown position (the error names the position and path), and a transition duration or audio mix that `float` cannot read. A passing clip gets scale 1.0 fullscreen / 0.5 otherwise unless given, fade length 0.5 unless given, audio mix 0 unless given, its transitions, and the filters of `ClipFilters` over the probed duration. |
| BRoll.ProcessFrom | server.py:1381-1466 | At most one placement per remaining clip. On success every remaining clip path exists. |
| BRoll.ProcessFromFirstError | server.py:1381-1466 | The pass fails exactly when some remaining clip fails, with the error of the first such clip along the sorted order. |
| BRoll.ProcessFromPlaces | server.py:1381-1466 | Placements follow the sorted order. Every clip with video in the remaining order is placed, and only those. |
| BRoll.ChainFrom | server.py:1479-1523 | Overlay k reads the previous label and layer k+1, and writes `[v{k}]`. The last writes `[v]`. Each enable window is [start, start + duration] of its clip. |
| BRoll.ChainLabelsDistinct | server.py:1485-1519 | The output labels of the chain are pairwise distinct. |
| BRoll.FilterComplexParts | server.py:1523 | Splitting the filter graph at `;` gives back exactly one overlay text per overlay, in order. |
| BRoll.SlideTestAsWritten | server.py:1491 | The slide test raises exactly when `transition_in` is absent, or it has no `slide` and `transition_out` is absent. |
| BRoll.ChainAsWrittenAgrees | server.py:1485-1520 | When the slide test does not raise, the as-written chain equals the corrected chain: the two branches emit the same filter. |
| BRoll.ChainAsWrittenFailsWithoutTransition | server.py:1491 | A placed clip without transitions makes the as-written chain fail. |
| BRoll.ChainAsWrittenStopsAt | server.py:1491 | Any clip whose slide test raises makes the as-written chain fail from every earlier clip on. |
| BRoll.AddBRoll | server.py:1349-1531 | A missing main video is rejected first. The main video is copied exactly when it exists and there are no clips. A main video without a video stream is rejected. Then the first unreadable insert time is reported. Otherwise the request fails exactly when some clip fails, and reports the failing clip that comes first in stable order of insert time. A successful request with clips reports no valid clips exactly when no clip has a video stream, and composes otherwise. A composition places the selected clips with their settings in stable order, chains them with the corrected chain, and maps the main audio exactly when it exists. The code as written fails instead for a clip without `transition_in` (see Findings and `AsWrittenRequestFails`). |
| BRoll.FailuresInStableOrder | server.py:1381-1396 | Along the stable order the pass fails exactly when some requested clip fails, with the error of the failing clip that sorts first. |
| BRoll.AsWrittenRequestFails | server.py:1485-1491 | A request the model composes fails as written once one of its clips with video leaves out `transition_in`. |
| BRoll.AsWrittenSelectionFails | server.py:1485-1491 | Any stable selection of the request fails the as-written second pass once a requested clip with video leaves out `transition_in`. |
| BRoll.SingleClipFailure | server.py:1381-1396 | A one-clip request fails exactly when its clip fails, with that clip's error, e.g. the unknown-position error naming position and path. |
| BRoll.PlacedSelection | server.py:1381-1466 | The placements are the video-bearing clips in stable order of insert time, each with the settings its checks gave. |
| BRoll.ProcessFromSources | server.py:1382-1466 | Every placement names a requested clip, carries its path, and carries the settings its checks gave. |
| BRoll.ProcessFromBadTime | server.py:1391-1392 | A time error in the pass comes from one of the clips' time strings. |
| BRoll.PlacedInStableOrder | server.py:1381 | Placement starts ascend. Equal starts keep the request order. |
| BRoll.PlacedCoverVideoClips | server.py:1386-1388 | A clip is placed exactly when its probe reports a video stream. |
| Fades.PlanFade | server.py:1586-1622 | The checks come in order: missing input, non-positive duration, duration beyond the video, unknown type, no streams. A fade-in covers [0, d]. A fade-out starts at total − d ≥ 0 and ends at total. |
| Fades.FadeStatus | server.py:1624-1635 | The audio-copy, re-encode and both-failed status messages. |
| Fades.CrossfadeAliases | server.py:1604-1607 | `crossfade_from_black` plans like `fade_in`, and `crossfade_to_black` like `fade_out`. |
| Overlays.EscapeRoundTrip | server.py:610 | Unescaping the escaped text gives the text back. |
| Overlays.EscapeAsWrittenIsEscape | server.py:610 | The chain of four replacements equals putting one backslash before each of `\ ' : ,`. |
| Overlays.ImageScale | server.py:701-707 | No scale unless a width or height is given. A missing side becomes `-1`. |
| Overlays.ImageXY | server.py:716-733 | A named position uses its expressions. An unknown name without a colon stays at (0,0). |
| Overlays.CustomCoordinates | server.py:728-732 | `x=A:y=B` places the image at (A, B). |
| Overlays.NamedPositionsAsBRoll | server.py:718-727 | The five named image positions use the same 10 px insets and centering as the B-roll positions. |
| Overlays.EnableExpr | server.py:738-744 | No enable expression without a start and an end. With an end it is `between(t,start-or-0,end)`. With only a start it is `gte(t,start)`. |
| Overlays.PlanImageOverlay | server.py:688-744 | A missing video, then a missing image. Opacity is applied only when it is in [0, 1]. The position, scale and enable follow the helpers above. |

## Left out

- Every ffmpeg/ffprobe run, `subprocess.run` and `run_async`. Engine outcomes are `Fallback.Attempt` inputs, and probe results are input records or a probe function.
- The regex scraping of silencedetect's stderr (server.py:1138-1139). The parsed start and end lists are inputs.
- Temporary directories, their cleanup, and writing the concat manifest. These have no planning content.
- `audio_mix` in B-roll is read with `float` and recorded but never applied. The model reads it, and its error, but nothing uses the value.
- IEEE floating point: times and factors are exact reals. A tempo chain computed in floats can differ from the exact one by rounding.
- Python's rendering of floats in filter strings and messages is a parameter `fmt: real -> string`. Messages that print floats are not rendered; their error values carry the numbers instead.
- Python `int()` / `float()` accept whitespace, underscores, exponents, `inf` and `nan`. The model accepts an optional sign, ASCII digits and at most one decimal point.
- Silence.SelectExprTerms and BRoll.FilterComplexParts: these assume the float rendering produces no `+` or `;`.
- Silence.KeepPartition: stated for ordered detections only. The code does not check the order and relies on silencedetect reporting in order.
- Failures of intermediate steps are not modelled; the model assumes these steps succeed. They are: a failed normalisation encode in concat, which returns "Error normalizing first video" or "Error normalizing second video" (server.py:902, 919) or "Error normalizing video {i}" (server.py:1006); a failed per-clip encode in B-roll, which returns "Error processing B-roll {i}" (server.py:1438); and a probe failure, which raises RuntimeError and is reported by `add_b_roll` as "Runtime error during B-roll processing" (server.py:1568-1569) and by the other tools through their own exception handlers.
- The concat check "At least one video is required" cannot be reached once the empty list is rejected, so it is not modelled.
- The xfade and fade filter strings themselves: the model gives their parameters (effect, duration, offset, window), not the text.
- The B-roll default duration is `str(probe duration)` parsed back. It is taken to be the probe duration itself.
- The B-roll per-clip filters are a list of filter values, not the rendered `scale=…,fade=…` string.
- BRoll.BRollErrorMessage: the text Python's `float` and `int` put in their ValueError (reported as "Error with input values (e.g., time format): …", server.py:1566-1567) is not rendered; `BadNumber` and `NotANumber` carry the offending text instead.
- Text overlay: only the escaping. The font, colour, box and position parameters are passed straight to the engine.
- MCP registration, `health_check`, the subtitle tool, and the pass-through wrappers for codecs, bitrates, frame rates and audio tracks. They contain no planning logic.
- Pad/crop sizes are not rounded to even values, because the code does not round them.
- BRoll.AddBRoll: clips missing `clip_path` or `insert_at_timestamp` are not modelled. The code raises KeyError (server.py:1381-1382), which the generic handler reports as "An unexpected error occurred in add_b_roll: …" (server.py:1570-1571). The model's clip record always has both fields.
- Geometry.PlanAspect: a zero denominator or zero height raises ZeroDivisionError in the code and lands in the generic unexpected-error message; the model follows the code.

## Findings

| source | as written | input that shows it | evidently intended | confidence | as-written member | corrected member |
|---|---|---|---|---|---|---|
| server.py:1491 | `'slide' in clip['transition_in']` is evaluated for every placed clip, and `transition_in` is `None` when the request omits it, so the membership test raises TypeError and the tool returns its generic unexpected-error message | one existing B-roll clip with video, `{'clip_path': p, 'insert_at_timestamp': '1'}` and no transitions | an absent transition means "no slide", and the overlay is built (both branches emit the same filter anyway) | not executed | BRoll.ChainAsWrittenFailsWithoutTransition and, for the whole request, BRoll.AsWrittenRequestFails (about BRoll.ChainAsWritten) | BRoll.ChainFrom, with BRoll.ChainAsWrittenAgrees |
