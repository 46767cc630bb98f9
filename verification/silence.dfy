/**
 * Silence removal: the detected silence starts and ends, together with the
 * media's total duration, become the ordered list of intervals to keep, and
 * then one `select` expression applied alike to video and audio.
 */
module Silence {
  import opened Common
  import opened Text

  datatype Interval = Interval(start: real, end: real)

  /** The end of silence `i`; a start the detector never closed runs to the end of the media. */
  function SilenceEnd(ends: seq<real>, i: nat, total: real): real
  {
    if i < |ends| then ends[i] else total
  }

  /**
   * The keep intervals produced from silence `i` on, with the cursor at
   * `pos`: the sound before each silence, then the sound after the last one.
   */
  function KeepFrom(starts: seq<real>, ends: seq<real>, total: real, i: nat, pos: real): (r: seq<Interval>)
    requires i <= |starts|
    ensures forall k :: 0 <= k < |r| ==> r[k].start < r[k].end
    decreases |starts| - i
  {
    if i == |starts| then
      (if pos < total then [Interval(pos, total)] else [])
    else
      (if starts[i] > pos then [Interval(pos, starts[i])] else [])
      + KeepFrom(starts, ends, total, i + 1, SilenceEnd(ends, i, total))
  }

  /** The keep intervals for a whole detection pass: the cursor starts at 0. */
  function KeepIntervals(starts: seq<real>, ends: seq<real>, total: real): seq<Interval>
  {
    KeepFrom(starts, ends, total, 0, 0.0)
  }

  /**
   * A well-formed detection: silences lie in `[0, total]`, each starts no
   * later than it ends, and each ends no later than the next starts.
   */
  predicate Ordered(starts: seq<real>, ends: seq<real>, total: real)
  {
    && (forall i :: 0 <= i < |starts| ==> 0.0 <= starts[i] <= SilenceEnd(ends, i, total) <= total)
    && (forall i :: 0 <= i < |starts| - 1 ==> SilenceEnd(ends, i, total) <= starts[i + 1])
  }

  /** `t` lies in one of the keep intervals (each taken half-open). */
  predicate InKeep(keep: seq<Interval>, t: real)
  {
    exists k :: 0 <= k < |keep| && keep[k].start <= t < keep[k].end
  }

  /** `t` lies in one of the silences numbered `i` or later. */
  predicate InSilenceFrom(starts: seq<real>, ends: seq<real>, total: real, i: nat, t: real)
  {
    exists j :: i <= j < |starts| && starts[j] <= t < SilenceEnd(ends, j, total)
  }

  /** Every interval of `keep` lies within `[lo, hi]`. */
  predicate Within(keep: seq<Interval>, lo: real, hi: real)
  {
    forall k :: 0 <= k < |keep| ==> lo <= keep[k].start && keep[k].end <= hi
  }

  /** Each interval of `keep` ends no later than the next one starts. */
  predicate Ascending(keep: seq<Interval>)
  {
    forall k :: 0 <= k < |keep| - 1 ==> keep[k].end <= keep[k + 1].start
  }

  /** The facts about silence `i` that one step of the keep computation uses. */
  lemma OrderedAt(starts: seq<real>, ends: seq<real>, total: real, i: nat)
    requires Ordered(starts, ends, total) && i < |starts|
    ensures 0.0 <= starts[i] <= SilenceEnd(ends, i, total) <= total
    ensures i + 1 < |starts| ==> SilenceEnd(ends, i, total) <= starts[i + 1]
  {
  }

  /** At most one interval ending by `mid`, followed by ascending ones starting from `mid`, is ascending. */
  lemma AppendShape(head: seq<Interval>, rest: seq<Interval>, lo: real, mid: real, hi: real)
    requires |head| <= 1 && mid <= hi
    requires Within(head, lo, mid) && Within(rest, mid, hi) && Ascending(rest)
    requires lo <= mid
    ensures Within(head + rest, lo, hi) && Ascending(head + rest)
  {
    var r := head + rest;
    forall k | 0 <= k < |r| ensures lo <= r[k].start && r[k].end <= hi {
      if k >= |head| {
        assert r[k] == rest[k - |head|];
      }
    }
    forall k | 0 <= k < |r| - 1 ensures r[k].end <= r[k + 1].start {
      if k >= |head| {
        assert r[k] == rest[k - |head|] && r[k + 1] == rest[k + 1 - |head|];
      } else {
        assert r[k + 1] == rest[0];
      }
    }
  }

  /** Keep intervals lie between the cursor and the end, in ascending order. */
  lemma {:induction false} KeepFromShape(starts: seq<real>, ends: seq<real>, total: real, i: nat, pos: real)
    requires Ordered(starts, ends, total) && i <= |starts|
    requires 0.0 <= pos && (i < |starts| ==> pos <= starts[i])
    ensures Within(KeepFrom(starts, ends, total, i, pos), pos, total)
    ensures Ascending(KeepFrom(starts, ends, total, i, pos))
    decreases |starts| - i
  {
    if i < |starts| {
      var e := SilenceEnd(ends, i, total);
      OrderedAt(starts, ends, total, i);
      KeepFromShape(starts, ends, total, i + 1, e);
      var head := if starts[i] > pos then [Interval(pos, starts[i])] else [];
      AppendShape(head, KeepFrom(starts, ends, total, i + 1, e), pos, e, total);
    } else if pos < total {
      assert KeepFrom(starts, ends, total, i, pos) == [Interval(pos, total)];
    }
  }

  /**
   * From the cursor on, a time is kept exactly when no remaining silence
   * covers it.
   */
  lemma {:induction false} KeepFromCovers(starts: seq<real>, ends: seq<real>, total: real, i: nat, pos: real, t: real)
    requires Ordered(starts, ends, total) && i <= |starts|
    requires 0.0 <= pos <= t < total && (i < |starts| ==> pos <= starts[i])
    ensures InKeep(KeepFrom(starts, ends, total, i, pos), t) <==> !InSilenceFrom(starts, ends, total, i, t)
    decreases |starts| - i
  {
    var r := KeepFrom(starts, ends, total, i, pos);
    if i == |starts| {
      assert r == [Interval(pos, total)];
      assert r[0].start <= t < r[0].end;
    } else {
      var s := starts[i];
      var e := SilenceEnd(ends, i, total);
      var head := if s > pos then [Interval(pos, s)] else [];
      var rest := KeepFrom(starts, ends, total, i + 1, e);
      assert r == head + rest;
      OrderedAt(starts, ends, total, i);
      if t < s {
        LaterSilencesStartAfter(starts, ends, total, i);
        BeforeSilence(starts, ends, total, i, pos, t, rest);
      } else if t < e {
        KeepFromShape(starts, ends, total, i + 1, e);
        InsideSilence(starts, ends, total, i, pos, t, rest);
      } else {
        KeepFromCovers(starts, ends, total, i + 1, e, t);
        AfterSilence(starts, ends, total, i, pos, t, rest);
      }
    }
  }

  /** Before silence `i` starts, the time is kept and no later silence covers it. */
  lemma BeforeSilence(starts: seq<real>, ends: seq<real>, total: real, i: nat, pos: real, t: real, rest: seq<Interval>)
    requires i < |starts| && pos <= t < starts[i]
    requires forall j :: i < j < |starts| ==> SilenceEnd(ends, i, total) <= starts[j]
    requires starts[i] <= SilenceEnd(ends, i, total)
    ensures InKeep([Interval(pos, starts[i])] + rest, t)
    ensures !InSilenceFrom(starts, ends, total, i, t)
  {
    var r := [Interval(pos, starts[i])] + rest;
    assert r[0].start <= t < r[0].end;
  }

  /** Inside silence `i`, the time is covered and no keep interval holds it. */
  lemma InsideSilence(starts: seq<real>, ends: seq<real>, total: real, i: nat, pos: real, t: real, rest: seq<Interval>)
    requires i < |starts| && starts[i] <= t < SilenceEnd(ends, i, total)
    requires Within(rest, SilenceEnd(ends, i, total), total)
    ensures InSilenceFrom(starts, ends, total, i, t)
    ensures var head := if starts[i] > pos then [Interval(pos, starts[i])] else [];
            !InKeep(head + rest, t)
  {
    var head := if starts[i] > pos then [Interval(pos, starts[i])] else [];
    var r := head + rest;
    forall k | 0 <= k < |r| ensures !(r[k].start <= t < r[k].end) {
      if k >= |head| {
        assert r[k] == rest[k - |head|];
      } else {
        assert r[k] == Interval(pos, starts[i]);
      }
    }
  }

  /** After silence `i` ends, the remaining intervals and silences decide. */
  lemma AfterSilence(starts: seq<real>, ends: seq<real>, total: real, i: nat, pos: real, t: real, rest: seq<Interval>)
    requires i < |starts| && starts[i] <= SilenceEnd(ends, i, total) <= t
    requires InKeep(rest, t) <==> !InSilenceFrom(starts, ends, total, i + 1, t)
    ensures var head := if starts[i] > pos then [Interval(pos, starts[i])] else [];
            InKeep(head + rest, t) <==> !InSilenceFrom(starts, ends, total, i, t)
  {
    var head := if starts[i] > pos then [Interval(pos, starts[i])] else [];
    var r := head + rest;
    if InKeep(rest, t) {
      var k :| 0 <= k < |rest| && rest[k].start <= t < rest[k].end;
      assert r[k + |head|] == rest[k];
    }
    if InKeep(r, t) {
      var k :| 0 <= k < |r| && r[k].start <= t < r[k].end;
      assert rest[k - |head|] == r[k];
    }
    if InSilenceFrom(starts, ends, total, i, t) {
      var j :| i <= j < |starts| && starts[j] <= t < SilenceEnd(ends, j, total);
      assert j != i;
      assert InSilenceFrom(starts, ends, total, i + 1, t);
    }
    if InSilenceFrom(starts, ends, total, i + 1, t) {
      var j :| i + 1 <= j < |starts| && starts[j] <= t < SilenceEnd(ends, j, total);
      assert InSilenceFrom(starts, ends, total, i, t);
    }
  }

  /** Silence `j` after silence `i` starts no earlier than silence `i` ends. */
  lemma LaterSilencesStartAfter(starts: seq<real>, ends: seq<real>, total: real, i: nat)
    requires Ordered(starts, ends, total) && i < |starts|
    ensures forall j :: i < j < |starts| ==> SilenceEnd(ends, i, total) <= starts[j]
  {
    forall j | i < j < |starts| ensures SilenceEnd(ends, i, total) <= starts[j] {
      LaterSilenceStep(starts, ends, total, i, j);
    }
  }

  lemma {:induction false} LaterSilenceStep(starts: seq<real>, ends: seq<real>, total: real, i: nat, j: nat)
    requires Ordered(starts, ends, total) && i < j < |starts|
    ensures SilenceEnd(ends, i, total) <= starts[j]
    decreases j - i
  {
    if j > i + 1 {
      LaterSilenceStep(starts, ends, total, i, j - 1);
    }
  }

  /**
   * For an ordered detection, the keep intervals and the silences partition
   * `[0, total)`: every time is in exactly one of them. The keep intervals
   * are non-empty, ascending and within `[0, total]`.
   */
  lemma KeepPartition(starts: seq<real>, ends: seq<real>, total: real)
    requires Ordered(starts, ends, total)
    ensures Within(KeepIntervals(starts, ends, total), 0.0, total)
    ensures Ascending(KeepIntervals(starts, ends, total))
    ensures forall t :: 0.0 <= t < total ==>
              (InKeep(KeepIntervals(starts, ends, total), t) <==> !InSilenceFrom(starts, ends, total, 0, t))
  {
    KeepFromShape(starts, ends, total, 0, 0.0);
    forall t | 0.0 <= t < total
      ensures InKeep(KeepIntervals(starts, ends, total), t) <==> !InSilenceFrom(starts, ends, total, 0, t)
    {
      KeepFromCovers(starts, ends, total, 0, 0.0, t);
    }
  }

  /** A silence left open at the end of the media leaves nothing to keep after its start. */
  lemma TrailingSilence(starts: seq<real>, ends: seq<real>, total: real)
    requires Ordered(starts, ends, total) && |ends| < |starts|
    ensures var keep := KeepIntervals(starts, ends, total);
            forall k :: 0 <= k < |keep| ==> keep[k].end <= starts[|ends|]
  {
    var keep := KeepIntervals(starts, ends, total);
    var m := |ends|;
    KeepPartition(starts, ends, total);
    forall k | 0 <= k < |keep| ensures keep[k].end <= starts[m] {
      var t := if keep[k].start > starts[m] then keep[k].start else starts[m];
      assert t < keep[k].end ==> InKeep(keep, t);
      assert starts[m] <= t < SilenceEnd(ends, m, total) ==> InSilenceFrom(starts, ends, total, 0, t);
    }
  }

  // ---------------------------------------------------------------------
  // The select expression and the whole request
  // ---------------------------------------------------------------------

  /** One `between(t,start,end)` term; `fmt` is how the source prints a number. */
  function Term(iv: Interval, fmt: real -> string): string
  {
    "between(t," + fmt(iv.start) + "," + fmt(iv.end) + ")"
  }

  /** The terms of all keep intervals joined by `+` (a sum of 0/1 values acts as "or"). */
  function SelectExpr(keep: seq<Interval>, fmt: real -> string): string
    requires |keep| >= 1
  {
    Join(seq(|keep|, k requires 0 <= k < |keep| => Term(keep[k], fmt)), '+')
  }

  /** When printed numbers hold no `+`, the expression has exactly one term per keep interval. */
  lemma SelectExprTerms(keep: seq<Interval>, fmt: real -> string)
    requires |keep| >= 1
    requires forall x :: '+' !in fmt(x)
    ensures Split(SelectExpr(keep, fmt), '+') == seq(|keep|, k requires 0 <= k < |keep| => Term(keep[k], fmt))
    ensures |Split(SelectExpr(keep, fmt), '+')| == |keep|
  {
    var terms := seq(|keep|, k requires 0 <= k < |keep| => Term(keep[k], fmt));
    forall k | 0 <= k < |terms| ensures '+' !in terms[k] {
      var iv := keep[k];
      assert terms[k] == "between(t," + fmt(iv.start) + "," + fmt(iv.end) + ")";
      assert '+' !in fmt(iv.start) && '+' !in fmt(iv.end);
    }
    SplitJoin(terms, '+');
  }

  datatype SilenceError =
    | InputNotFound(path: string)
    | NonPositiveMinDuration
    | NoSoundSegments
    | NoStreams

  function SilenceErrorMessage(e: SilenceError): string
  {
    match e
    case InputNotFound(path) => "Error: Input media file not found at " + path
    case NonPositiveMinDuration => "Error: Minimum silence duration must be positive."
    case NoSoundSegments =>
      "Error: No sound segments were identified to keep. The media might be entirely silent according to the thresholds, or too short."
    case NoStreams => "Error: The input media does not seem to have video or audio streams."
  }

  /** What the engine is asked to do: copy the file, or select the keep intervals per stream. */
  datatype SilencePlan =
    | CopyUnchanged
    | SelectSegments(keep: seq<Interval>, videoSelect: Option<string>, audioSelect: Option<string>)

  /**
   * The silence-removal request. `starts` and `ends` are the detector's
   * findings, `total` the probed duration, `hasVideo`/`hasAudio` the probed
   * streams.
   */
  function RemoveSilence(path: string, exists_: bool, minSilenceMs: int,
                         starts: seq<real>, ends: seq<real>, total: real,
                         hasVideo: bool, hasAudio: bool, fmt: real -> string)
    : (r: Result<SilencePlan, SilenceError>)
    ensures !exists_ ==> r == Err(InputNotFound(path))
    ensures exists_ && minSilenceMs <= 0 ==> r == Err(NonPositiveMinDuration)
    ensures r == Ok(CopyUnchanged) <==> exists_ && minSilenceMs > 0 && |starts| == 0
    ensures (exists_ && minSilenceMs > 0 && |starts| > 0 && |KeepIntervals(starts, ends, total)| > 0
             && (hasVideo || hasAudio)) ==> r.Ok? && r.value.SelectSegments?
    ensures exists_ && minSilenceMs > 0 && |starts| > 0 && |KeepIntervals(starts, ends, total)| == 0 ==>
              r == Err(NoSoundSegments)
    ensures r == Err(NoStreams) <==>
              exists_ && minSilenceMs > 0 && |starts| > 0 && |KeepIntervals(starts, ends, total)| > 0
              && !hasVideo && !hasAudio
    ensures r.Ok? && r.value.SelectSegments? ==>
              && r.value.keep == KeepIntervals(starts, ends, total)
              && |r.value.keep| >= 1
              && (r.value.videoSelect.Some? <==> hasVideo)
              && (r.value.audioSelect.Some? <==> hasAudio)
              && (hasVideo && hasAudio ==> r.value.videoSelect == r.value.audioSelect)
              && (hasVideo ==> r.value.videoSelect == Some(SelectExpr(r.value.keep, fmt)))
              && (hasAudio ==> r.value.audioSelect == Some(SelectExpr(r.value.keep, fmt)))
  {
    if !exists_ then Err(InputNotFound(path))
    else if minSilenceMs <= 0 then Err(NonPositiveMinDuration)
    else if |starts| == 0 then Ok(CopyUnchanged)
    else
      var keep := KeepIntervals(starts, ends, total);
      if |keep| == 0 then Err(NoSoundSegments)
      else if !hasVideo && !hasAudio then Err(NoStreams)
      else
        var expr := SelectExpr(keep, fmt);
        Ok(SelectSegments(keep,
                          if hasVideo then Some(expr) else None,
                          if hasAudio then Some(expr) else None))
  }

  /**
   * Reading the planned select back: each stream's expression splits at `+`
   * into one `between` term per interval that survives silence removal.
   */
  lemma SelectMatchesKeep(path: string, minSilenceMs: int, starts: seq<real>, ends: seq<real>, total: real,
                          hasVideo: bool, hasAudio: bool, fmt: real -> string)
    requires forall x :: '+' !in fmt(x)
    requires RemoveSilence(path, true, minSilenceMs, starts, ends, total, hasVideo, hasAudio, fmt).Ok?
    ensures var r := RemoveSilence(path, true, minSilenceMs, starts, ends, total, hasVideo, hasAudio, fmt);
            var keep := KeepIntervals(starts, ends, total);
            r.value.SelectSegments? ==>
              && (hasVideo ==> Split(r.value.videoSelect.value, '+') == seq(|keep|, k requires 0 <= k < |keep| => Term(keep[k], fmt)))
              && (hasAudio ==> Split(r.value.audioSelect.value, '+') == seq(|keep|, k requires 0 <= k < |keep| => Term(keep[k], fmt)))
  {
    var keep := KeepIntervals(starts, ends, total);
    if |keep| >= 1 {
      SelectExprTerms(keep, fmt);
    }
  }

  /** Worked example: three-second and two-second silences in a ten-second file leave three stretches of sound. */
  lemma Example()
    ensures KeepIntervals([2.0, 6.0], [3.0, 8.0], 10.0)
         == [Interval(0.0, 2.0), Interval(3.0, 6.0), Interval(8.0, 10.0)]
  {
  }
}
