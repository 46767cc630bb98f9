/**
 * B-roll composition: clips are taken in stable order of their insertion
 * time, each is checked, scaled and faded on its own, and the survivors are
 * laid over the main video by a chain of `overlay` filters, each enabled
 * during its clip's window.
 */
module BRoll {
  import opened Common
  import opened Text
  import opened TimeParse
  import opened Probe
  import opened StableSort

  /** A numeric argument as the caller supplies it: a number, or a string for `float` to read. */
  datatype NumberArg = Number(x: real) | NumberText(s: string)

  /** Python's `float` of the argument; `None` where it raises `ValueError`. */
  function ToFloat(a: NumberArg): Option<real>
  {
    match a
    case Number(x) => Some(x)
    case NumberText(s) => ParseDecimal(s)
  }

  /** `float` of an optional argument, with `d` when it is absent. */
  function NumberOr(a: Option<NumberArg>, d: real): Option<real>
  {
    if a.None? then Some(d) else ToFloat(a.value)
  }

  /** One requested B-roll clip; every field but the path and the insertion time may be absent. */
  datatype BRollClip = BRollClip(
    clipPath: string,
    insertAt: TimeValue,
    duration: Option<TimeValue>,
    position: Option<string>,
    scale: Option<real>,
    transitionIn: Option<string>,
    transitionOut: Option<string>,
    transitionDuration: Option<NumberArg>,
    audioMix: Option<NumberArg>)

  datatype Position = Fullscreen | TopLeft | TopRight | BottomLeft | BottomRight | Center

  function PositionName(p: Position): string
  {
    match p
    case Fullscreen => "fullscreen"
    case TopLeft => "top-left"
    case TopRight => "top-right"
    case BottomLeft => "bottom-left"
    case BottomRight => "bottom-right"
    case Center => "center"
  }

  /** The position a name denotes; only the six hyphenated names are accepted. */
  function ParsePosition(s: string): (r: Option<Position>)
    ensures r.Some? ==> PositionName(r.value) == s
    ensures r.None? <==> s !in {"fullscreen", "top-left", "top-right", "bottom-left", "bottom-right", "center"}
  {
    if s == "fullscreen" then Some(Fullscreen)
    else if s == "top-left" then Some(TopLeft)
    else if s == "top-right" then Some(TopRight)
    else if s == "bottom-left" then Some(BottomLeft)
    else if s == "bottom-right" then Some(BottomRight)
    else if s == "center" then Some(Center)
    else None
  }

  lemma ParsePositionName(p: Position)
    ensures ParsePosition(PositionName(p)) == Some(p)
  {
  }

  const DefaultPosition: string := "fullscreen"
  const DefaultTransitionDuration: real := 0.5
  const DefaultAudioMix: real := 0.0
  const FullscreenScale: real := 1.0
  const InsetScale: real := 0.5

  /** Margin between a corner overlay and the frame edges, in pixels. */
  const Inset: real := 10.0

  /** One overlay coordinate as an expression over the main size `W` and the layer size `w`. */
  datatype Coord = Origin | Near | Far | Middle

  /** The coordinate as the filter text writes it (`W`/`H` main size, `w`/`h` layer size). */
  function CoordText(c: Coord, big: string, small: string): string
  {
    match c
    case Origin => "0"
    case Near => "10"
    case Far => big + "-" + small + "-10"
    case Middle => "(" + big + "-" + small + ")/2"
  }

  /** The value the filter computes for the coordinate. */
  function CoordValue(c: Coord, main: real, layer: real): real
  {
    match c
    case Origin => 0.0
    case Near => Inset
    case Far => main - layer - Inset
    case Middle => (main - layer) / 2.0
  }

  /** The horizontal and vertical coordinate of a position. */
  function Placement(p: Position): (Coord, Coord)
  {
    match p
    case Fullscreen => (Origin, Origin)
    case TopLeft => (Near, Near)
    case TopRight => (Far, Near)
    case BottomLeft => (Near, Far)
    case BottomRight => (Far, Far)
    case Center => (Middle, Middle)
  }

  /**
   * Where the layer's top-left corner lands on a `mainW x mainH` frame for a
   * `w x h` layer: corners keep 10 pixels from their two edges, the centre
   * leaves equal margins, fullscreen sits at the origin.
   */
  function OverlayOrigin(p: Position, mainW: real, mainH: real, w: real, h: real): (o: (real, real))
    ensures p == Fullscreen ==> o == (0.0, 0.0)
    ensures p == TopLeft || p == BottomLeft ==> o.0 == Inset
    ensures p == TopRight || p == BottomRight ==> mainW - (o.0 + w) == Inset
    ensures p == TopLeft || p == TopRight ==> o.1 == Inset
    ensures p == BottomLeft || p == BottomRight ==> mainH - (o.1 + h) == Inset
    ensures p == Center ==> o.0 == mainW - (o.0 + w) && o.1 == mainH - (o.1 + h)
  {
    var (x, y) := Placement(p);
    (CoordValue(x, mainW, w), CoordValue(y, mainH, h))
  }

  /** The per-clip filters: one scale, then the optional fades. */
  datatype ClipFilter =
    | ScaleTo(width: int, height: int)
    | ScaleBy(factor: real)
    | FadeIn(duration: real)
    | FadeOut(start: real, duration: real)

  function MaxReal(a: real, b: real): real { if a >= b then a else b }

  /**
   * Filters for one clip: fullscreen scales to the main size, other
   * positions by the factor; a `fade` entry fades in from 0, a `fade` exit
   * fades out over the clip's last `td` seconds (from 0 when the clip is
   * shorter).
   */
  function ClipFilters(p: Position, factor: real, mainW: int, mainH: int,
                       tin: Option<string>, tout: Option<string>, td: real, clipDuration: real)
    : (fs: seq<ClipFilter>)
    ensures |fs| >= 1
    ensures p == Fullscreen ==> fs[0] == ScaleTo(mainW, mainH)
    ensures p != Fullscreen ==> fs[0] == ScaleBy(factor)
    ensures FadeIn(td) in fs <==> tin == Some("fade")
    ensures forall k :: 0 <= k < |fs| && fs[k].FadeOut? ==>
              tout == Some("fade") && fs[k].start >= 0.0 && fs[k].duration == td
              && (td <= clipDuration ==> fs[k].start + td == clipDuration)
              && (td > clipDuration ==> fs[k].start == 0.0)
    ensures tout == Some("fade") ==> fs[|fs| - 1].FadeOut?
  {
    var scale := if p == Fullscreen then ScaleTo(mainW, mainH) else ScaleBy(factor);
    var fadeIn := if tin == Some("fade") then [FadeIn(td)] else [];
    var fadeOut := if tout == Some("fade") then [FadeOut(MaxReal(0.0, clipDuration - td), td)] else [];
    [scale] + fadeIn + fadeOut
  }

  /** What the first pass settles for one clip with video. */
  datatype ClipSettings = ClipSettings(
    duration: real,
    position: Position,
    scale: real,
    filters: seq<ClipFilter>,
    transitionIn: Option<string>,
    transitionOut: Option<string>,
    transitionDuration: real,
    audioMix: real)

  /** A clip that survived the checks, in the order it will be overlaid. */
  datatype Placed = Placed(
    sortedIndex: nat,        // position in the stable order; names the intermediate file
    clipIndex: nat,          // position in the request
    source: string,
    start: real,
    clip: ClipSettings)

  datatype BRollError =
    | MainNotFound(path: string)
    | MainNoVideo(path: string)
    | BadTime(error: TimeError)
    | ClipNotFound(path: string)
    | InvalidPosition(position: string, path: string)
    | BadNumber(text: string)   // `float` of a transition duration or audio mix raised

  function BRollErrorMessage(e: BRollError): Option<string>
  {
    match e
    case MainNotFound(path) => Some("Error: Main video file not found at " + path)
    case MainNoVideo(path) => Some("Error: Main video " + path + " has no video stream.")
    case BadTime(InvalidTimeFormat(text)) =>
      Some("Error with input values (e.g., time format): Invalid time format: " + text)
    // the text of Python's own number-conversion errors is not modelled
    case BadTime(NotANumber(_)) => None
    case ClipNotFound(path) => Some("Error: B-roll clip not found at " + path)
    case InvalidPosition(position, path) => Some("Error: Invalid position '" + position + "' for B-roll " + path)
    case BadNumber(_) => None
  }

  /** The insertion times of all clips, read in request order; the first unreadable one is the error. */
  function ParseKeys(clips: seq<BRollClip>): (r: Result<seq<real>, TimeError>)
    ensures r.Ok? ==> |r.value| == |clips|
    ensures r.Ok? ==> forall i :: 0 <= i < |clips| ==> ParseTime(clips[i].insertAt) == Ok(r.value[i])
    ensures r.Err? ==> exists i :: 0 <= i < |clips| && ParseTime(clips[i].insertAt) == Err(r.error)
                                   && forall j :: 0 <= j < i ==> ParseTime(clips[j].insertAt).Ok?
  {
    if |clips| == 0 then Ok([])
    else
      match ParseTime(clips[0].insertAt)
      case Err(e) => Err(e)
      case Ok(t) =>
        match ParseKeys(clips[1..])
        case Err(e) =>
          assert exists i :: 1 <= i < |clips| && ParseTime(clips[i].insertAt) == Err(e)
                             && forall j :: 0 <= j < i ==> ParseTime(clips[j].insertAt).Ok? by {
            var k :| 0 <= k < |clips[1..]| && ParseTime(clips[1..][k].insertAt) == Err(e)
                     && forall j :: 0 <= j < k ==> ParseTime(clips[1..][j].insertAt).Ok?;
            assert clips[1..][k] == clips[k + 1];
            forall j | 0 <= j < k + 1 ensures ParseTime(clips[j].insertAt).Ok? {
              if j > 0 { assert clips[j] == clips[1..][j - 1]; }
            }
          }
          Err(e)
        case Ok(rest) =>
          assert forall i :: 1 <= i < |clips| ==> ParseTime(clips[i].insertAt) == Ok(rest[i - 1]) by {
            forall i | 1 <= i < |clips| ensures ParseTime(clips[i].insertAt) == Ok(rest[i - 1]) {
              assert clips[1..][i - 1] == clips[i];
            }
          }
          Ok([t] + rest)
  }

  /** The position name a clip asks for. */
  function PositionOf(c: BRollClip): string
  {
    c.position.GetOr(DefaultPosition)
  }

  /** The clip's duration: its own time argument, or the probed duration when it gives none. */
  function ClipDuration(c: BRollClip, probe: string -> MediaProperties): Result<real, TimeError>
  {
    if c.duration.None? then Ok(probe(c.clipPath).duration) else ParseTime(c.duration.value)
  }

  /**
   * The clip stops the request: its file is missing, or it has video and one
   * of its duration, position, transition duration or audio mix is unusable.
   */
  predicate ClipFails(c: BRollClip, existing: set<string>, probe: string -> MediaProperties)
  {
    || c.clipPath !in existing
    || (probe(c.clipPath).hasVideo
        && (|| ClipDuration(c, probe).Err?
            || ParsePosition(PositionOf(c)).None?
            || NumberOr(c.transitionDuration, DefaultTransitionDuration).None?
            || NumberOr(c.audioMix, DefaultAudioMix).None?))
  }

  /**
   * The first-pass checks of one clip, in the source's order: a missing file
   * stops the request, a clip without video is skipped, then its duration,
   * position, transition duration and audio mix are read, and the first
   * unusable one stops the request. A clip that passes gets its scale
   * (1.0 fullscreen, 0.5 otherwise, unless given), its fade length (0.5
   * unless given) and its filters.
   */
  function CheckClip(c: BRollClip, existing: set<string>, probe: string -> MediaProperties,
                     mainW: int, mainH: int): (r: Result<Option<ClipSettings>, BRollError>)
    ensures r == Err(ClipNotFound(c.clipPath)) <==> c.clipPath !in existing
    ensures r == Ok(None) <==> c.clipPath in existing && !probe(c.clipPath).hasVideo
    ensures r.Err? <==> ClipFails(c, existing, probe)
    ensures c.clipPath in existing && probe(c.clipPath).hasVideo && ClipDuration(c, probe).Err? ==>
              r == Err(BadTime(ClipDuration(c, probe).error))
    ensures r == Err(InvalidPosition(PositionOf(c), c.clipPath)) <==>
              c.clipPath in existing && probe(c.clipPath).hasVideo && ClipDuration(c, probe).Ok?
              && ParsePosition(PositionOf(c)).None?
    ensures c.clipPath in existing && probe(c.clipPath).hasVideo && ClipDuration(c, probe).Ok?
            && ParsePosition(PositionOf(c)).Some? && NumberOr(c.transitionDuration, DefaultTransitionDuration).None? ==>
              r == Err(BadNumber(c.transitionDuration.value.s))
    ensures c.clipPath in existing && probe(c.clipPath).hasVideo && ClipDuration(c, probe).Ok?
            && ParsePosition(PositionOf(c)).Some? && NumberOr(c.transitionDuration, DefaultTransitionDuration).Some?
            && NumberOr(c.audioMix, DefaultAudioMix).None? ==>
              r == Err(BadNumber(c.audioMix.value.s))
    ensures r.Ok? && r.value.Some? ==>
              var s := r.value.value;
              && probe(c.clipPath).hasVideo
              && ClipDuration(c, probe) == Ok(s.duration)
              && PositionName(s.position) == PositionOf(c)
              && s.scale == c.scale.GetOr(if s.position == Fullscreen then FullscreenScale else InsetScale)
              && NumberOr(c.transitionDuration, DefaultTransitionDuration) == Some(s.transitionDuration)
              && NumberOr(c.audioMix, DefaultAudioMix) == Some(s.audioMix)
              && s.transitionIn == c.transitionIn && s.transitionOut == c.transitionOut
              && s.filters == ClipFilters(s.position, s.scale, mainW, mainH, c.transitionIn, c.transitionOut,
                                          s.transitionDuration, probe(c.clipPath).duration)
  {
    if c.clipPath !in existing then Err(ClipNotFound(c.clipPath))
    else
      var props := probe(c.clipPath);
      if !props.hasVideo then Ok(None)
      else
        var duration := ClipDuration(c, probe);
        if duration.Err? then Err(BadTime(duration.error))
        else
          match ParsePosition(PositionOf(c))
          case None => Err(InvalidPosition(PositionOf(c), c.clipPath))
          case Some(p) =>
            var factor := c.scale.GetOr(if p == Fullscreen then FullscreenScale else InsetScale);
            match NumberOr(c.transitionDuration, DefaultTransitionDuration)
            case None => Err(BadNumber(c.transitionDuration.value.s))
            case Some(td) =>
              match NumberOr(c.audioMix, DefaultAudioMix)
              case None => Err(BadNumber(c.audioMix.value.s))
              case Some(mix) =>
                Ok(Some(ClipSettings(duration.value, p, factor,
                                     ClipFilters(p, factor, mainW, mainH, c.transitionIn, c.transitionOut, td, props.duration),
                                     c.transitionIn, c.transitionOut, td, mix)))
  }

  /** Positions of `order` are all positions of the request. */
  predicate OrderOf(clips: seq<BRollClip>, order: seq<nat>)
  {
    forall m :: 0 <= m < |order| ==> order[m] < |clips|
  }

  /**
   * The first pass over the stable order from position `k` on: the clip at
   * position `m` is checked, placed as the `m`-th intermediate clip, or
   * skipped; the first failing clip ends the pass.
   */
  function ProcessFrom(clips: seq<BRollClip>, keys: seq<real>, order: seq<nat>, k: nat,
                       existing: set<string>, probe: string -> MediaProperties,
                       mainW: int, mainH: int): (r: Result<seq<Placed>, BRollError>)
    requires |keys| == |clips| && OrderOf(clips, order) && k <= |order|
    ensures r.Ok? ==> |r.value| <= |order| - k
    ensures r.Ok? ==> forall m :: k <= m < |order| ==> clips[order[m]].clipPath in existing
    decreases |order| - k
  {
    if k == |order| then Ok([])
    else
      var c := clips[order[k]];
      match CheckClip(c, existing, probe, mainW, mainH)
      case Err(e) => Err(e)
      case Ok(one) =>
        var rest := ProcessFrom(clips, keys, order, k + 1, existing, probe, mainW, mainH);
        if rest.Err? then rest
        else if one.None? then rest
        else Ok([Placed(k, order[k], c.clipPath, keys[order[k]], one.value)] + rest.value)
  }

  /**
   * The pass fails exactly when some remaining clip fails, and then with the
   * error of the first such clip along the stable order.
   */
  lemma {:induction false} ProcessFromFirstError(clips: seq<BRollClip>, keys: seq<real>, order: seq<nat>, k: nat,
                                                 existing: set<string>, probe: string -> MediaProperties,
                                                 mainW: int, mainH: int)
    requires |keys| == |clips| && OrderOf(clips, order) && k <= |order|
    ensures var r := ProcessFrom(clips, keys, order, k, existing, probe, mainW, mainH);
            r.Err? <==> exists m :: k <= m < |order| && ClipFails(clips[order[m]], existing, probe)
    ensures var r := ProcessFrom(clips, keys, order, k, existing, probe, mainW, mainH);
            r.Err? ==> exists m :: k <= m < |order| && CheckClip(clips[order[m]], existing, probe, mainW, mainH) == Err(r.error)
                                   && forall j :: k <= j < m ==> !ClipFails(clips[order[j]], existing, probe)
    decreases |order| - k
  {
    if k < |order| {
      var r := ProcessFrom(clips, keys, order, k, existing, probe, mainW, mainH);
      var one := CheckClip(clips[order[k]], existing, probe, mainW, mainH);
      if one.Err? {
        assert r == Err(one.error);
        assert ClipFails(clips[order[k]], existing, probe);
      } else {
        ProcessFromFirstError(clips, keys, order, k + 1, existing, probe, mainW, mainH);
        var rest := ProcessFrom(clips, keys, order, k + 1, existing, probe, mainW, mainH);
        assert !ClipFails(clips[order[k]], existing, probe);
        assert r.Err? <==> rest.Err?;
        if rest.Err? {
          assert r == rest;
          var m :| k + 1 <= m < |order| && CheckClip(clips[order[m]], existing, probe, mainW, mainH) == Err(rest.error)
                   && forall j :: k + 1 <= j < m ==> !ClipFails(clips[order[j]], existing, probe);
          assert forall j :: k <= j < m ==> !ClipFails(clips[order[j]], existing, probe);
        }
        assert (exists m :: k <= m < |order| && ClipFails(clips[order[m]], existing, probe))
               <==> (exists m :: k + 1 <= m < |order| && ClipFails(clips[order[m]], existing, probe));
      }
    }
  }

  /** Some placed clip came from position `m` of the stable order. */
  predicate IsPlaced(ps: seq<Placed>, m: nat)
  {
    exists i :: 0 <= i < |ps| && ps[i].sortedIndex == m
  }

  /**
   * Placed clips come from positions `k..` of the stable order, strictly
   * along it, and carry that position's request index and start time.
   */
  predicate PlacedFrom(keys: seq<real>, order: seq<nat>, k: nat, ps: seq<Placed>)
  {
    && (forall i :: 0 <= i < |ps| ==>
          && k <= ps[i].sortedIndex < |order|
          && order[ps[i].sortedIndex] < |keys|
          && ps[i].clipIndex == order[ps[i].sortedIndex]
          && ps[i].start == keys[ps[i].clipIndex])
    && (forall i, j :: 0 <= i < j < |ps| ==> ps[i].sortedIndex < ps[j].sortedIndex)
  }

  /** From position `k` on, a position is placed exactly when its clip has video. */
  predicate CoversFrom(clips: seq<BRollClip>, order: seq<nat>, k: nat, ps: seq<Placed>,
                       probe: string -> MediaProperties)
    requires OrderOf(clips, order)
  {
    forall m :: k <= m < |order| ==> (probe(clips[order[m]].clipPath).hasVideo <==> IsPlaced(ps, m))
  }

  lemma PlacedFromCons(keys: seq<real>, order: seq<nat>, k: nat, p: Placed, ps: seq<Placed>)
    requires PlacedFrom(keys, order, k + 1, ps)
    requires k < |order| && order[k] < |keys|
    requires p.sortedIndex == k && p.clipIndex == order[k] && p.start == keys[order[k]]
    ensures PlacedFrom(keys, order, k, [p] + ps)
    ensures IsPlaced([p] + ps, k)
    ensures forall m :: m > k ==> (IsPlaced([p] + ps, m) <==> IsPlaced(ps, m))
  {
    var r := [p] + ps;
    assert r[0] == p;
    forall m | m > k ensures IsPlaced(r, m) <==> IsPlaced(ps, m) {
      if IsPlaced(r, m) {
        var i :| 0 <= i < |r| && r[i].sortedIndex == m;
        assert r[i] == ps[i - 1];
      }
      if IsPlaced(ps, m) {
        var i :| 0 <= i < |ps| && ps[i].sortedIndex == m;
        assert r[i + 1] == ps[i];
      }
    }
  }

  /** What the first pass guarantees about the clips it places. */
  lemma {:induction false} ProcessFromPlaces(clips: seq<BRollClip>, keys: seq<real>, order: seq<nat>, k: nat,
                                             existing: set<string>, probe: string -> MediaProperties,
                                             mainW: int, mainH: int)
    requires |keys| == |clips| && OrderOf(clips, order) && k <= |order|
    requires ProcessFrom(clips, keys, order, k, existing, probe, mainW, mainH).Ok?
    ensures var ps := ProcessFrom(clips, keys, order, k, existing, probe, mainW, mainH).value;
            PlacedFrom(keys, order, k, ps) && CoversFrom(clips, order, k, ps, probe)
    decreases |order| - k
  {
    if k < |order| {
      var c := clips[order[k]];
      var one := CheckClip(c, existing, probe, mainW, mainH);
      var rest := ProcessFrom(clips, keys, order, k + 1, existing, probe, mainW, mainH).value;
      ProcessFromPlaces(clips, keys, order, k + 1, existing, probe, mainW, mainH);
      var ps := ProcessFrom(clips, keys, order, k, existing, probe, mainW, mainH).value;
      if one.value.None? {
        assert ps == rest;
        assert !IsPlaced(ps, k);
      } else {
        var p := Placed(k, order[k], c.clipPath, keys[order[k]], one.value.value);
        assert ps == [p] + rest;
        PlacedFromCons(keys, order, k, p, rest);
      }
    }
  }

  // ---------------------------------------------------------------------
  // The overlay chain
  // ---------------------------------------------------------------------

  /** Stream labels of the chain: the main input, an intermediate result, the final video. */
  datatype Label = MainVideo | Chained(index: nat) | FinalVideo

  function LabelText(l: Label): string
  {
    match l
    case MainVideo => "[0:v]"
    case Chained(i) => "[v" + IntStr(i) + "]"
    case FinalVideo => "[v]"
  }

  /** One overlay: `input` with input file `layer` on top, enabled during `[from, until]`. */
  datatype Overlay = Overlay(input: Label, layer: nat, x: Coord, y: Coord, from: real, until: real, output: Label)

  /** The overlay of one placed clip, layer `layer`, reading `input` and writing `output`. */
  function Step(c: Placed, layer: nat, input: Label, output: Label): Overlay
  {
    Overlay(input, layer, Placement(c.clip.position).0, Placement(c.clip.position).1, c.start, c.start + c.clip.duration, output)
  }

  /**
   * The overlays for clips `i..` when the running video is `current`: each
   * writes `[v<i>]` for the next to read, and the last writes `[v]`.
   */
  function ChainFrom(placed: seq<Placed>, i: nat, current: Label): (os: seq<Overlay>)
    requires i <= |placed|
    ensures |os| == |placed| - i
    ensures |os| > 0 ==> os[0].input == current
    ensures forall k :: 0 <= k < |os| ==> os[k].layer == i + k + 1
    ensures forall k :: 0 <= k < |os| - 1 ==> os[k].output == Chained(i + k) && os[k + 1].input == os[k].output
    ensures |os| > 0 ==> os[|os| - 1].output == FinalVideo
    ensures forall k :: 0 <= k < |os| ==>
              && (os[k].x, os[k].y) == Placement(placed[i + k].clip.position)
              && os[k].from == placed[i + k].start
              && os[k].until == placed[i + k].start + placed[i + k].clip.duration
    decreases |placed| - i
  {
    if i == |placed| then []
    else
      var c := placed[i];
      var output := if i < |placed| - 1 then Chained(i) else FinalVideo;
      [Step(c, i + 1, current, output)] + ChainFrom(placed, i + 1, output)
  }

  /** The whole chain starts from the main video. */
  function Chain(placed: seq<Placed>): (os: seq<Overlay>)
  {
    ChainFrom(placed, 0, MainVideo)
  }

  /** No label except the final one is written twice, and only the last overlay writes `[v]`. */
  lemma ChainLabelsDistinct(placed: seq<Placed>)
    ensures var os := Chain(placed);
            forall a, b :: 0 <= a < b < |os| ==> os[a].output != os[b].output
  {
    var os := Chain(placed);
    forall a, b | 0 <= a < b < |os| ensures os[a].output != os[b].output {
      if b < |os| - 1 {
        assert os[a].output == Chained(a) && os[b].output == Chained(b);
      }
    }
  }

  /** The filter text of one overlay; `fmt` is how the source prints a number. */
  function OverlayText(o: Overlay, fmt: real -> string): string
  {
    OverlayInputs(o) + OverlayPlace(o) + OverlayWindow(o, fmt) + LabelText(o.output)
  }

  /** The two inputs: the previous label and the clip's layer. */
  function OverlayInputs(o: Overlay): string
  {
    LabelText(o.input) + "[" + IntStr(o.layer) + ":v]overlay="
  }

  function OverlayPlace(o: Overlay): string
  {
    "x=" + CoordText(o.x, "W", "w") + ":y=" + CoordText(o.y, "H", "h") + ":"
  }

  function OverlayWindow(o: Overlay, fmt: real -> string): string
  {
    "enable='between(t," + fmt(o.from) + "," + fmt(o.until) + ")'"
  }

  function FilterComplex(os: seq<Overlay>, fmt: real -> string): string
    requires |os| >= 1
  {
    Join(seq(|os|, k requires 0 <= k < |os| => OverlayText(os[k], fmt)), ';')
  }

  lemma LabelTextNoSemicolon(l: Label)
    ensures ';' !in LabelText(l)
  {
    if l.Chained? {
      IntStrChars(l.index);
    }
  }

  lemma CoordTextNoSemicolon(c: Coord, big: string, small: string)
    requires ';' !in big && ';' !in small
    ensures ';' !in CoordText(c, big, small)
  {
  }

  lemma OverlayTextNoSemicolon(o: Overlay, fmt: real -> string)
    requires forall t :: ';' !in fmt(t)
    ensures ';' !in OverlayText(o, fmt)
  {
    InputsNoSemicolon(o);
    PlaceNoSemicolon(o);
    WindowNoSemicolon(o, fmt);
    LabelTextNoSemicolon(o.output);
  }

  lemma InputsNoSemicolon(o: Overlay)
    ensures ';' !in OverlayInputs(o)
  {
    LabelTextNoSemicolon(o.input);
    IntStrChars(o.layer);
  }

  lemma PlaceNoSemicolon(o: Overlay)
    ensures ';' !in OverlayPlace(o)
  {
    CoordTextNoSemicolon(o.x, "W", "w");
    CoordTextNoSemicolon(o.y, "H", "h");
  }

  lemma WindowNoSemicolon(o: Overlay, fmt: real -> string)
    requires forall t :: ';' !in fmt(t)
    ensures ';' !in OverlayWindow(o, fmt)
  {
    assert ';' !in fmt(o.from) && ';' !in fmt(o.until);
  }

  /** When printed numbers hold no `;`, the filter graph has one overlay filter per placed clip. */
  lemma FilterComplexParts(os: seq<Overlay>, fmt: real -> string)
    requires |os| >= 1
    requires forall t :: ';' !in fmt(t)
    ensures Split(FilterComplex(os, fmt), ';') == seq(|os|, k requires 0 <= k < |os| => OverlayText(os[k], fmt))
  {
    var texts := seq(|os|, k requires 0 <= k < |os| => OverlayText(os[k], fmt));
    forall k | 0 <= k < |texts| ensures ';' !in texts[k] {
      OverlayTextNoSemicolon(os[k], fmt);
    }
    SplitJoin(texts, ';');
  }

  // ---------------------------------------------------------------------
  // The slide check of the second pass, as written and as intended
  // ---------------------------------------------------------------------

  /** Python's `a in b` on strings: `a` occurs in `b`. */
  predicate Occurs(a: string, b: string)
    decreases |b|
  {
    StartsWith(b, a) || (|b| > 0 && Occurs(a, b[1..]))
  }

  /**
   * The second pass tests `'slide' in transition_in or 'slide' in
   * transition_out` before building each overlay. With an entry absent the
   * test reads a missing value and raises `TypeError`: `None` here.
   */
  function SlideTestAsWritten(tin: Option<string>, tout: Option<string>): (r: Option<bool>)
    ensures r.None? <==> tin.None? || (!Occurs("slide", tin.value) && tout.None?)
  {
    if tin.None? then None
    else if Occurs("slide", tin.value) then Some(true)
    else if tout.None? then None
    else Some(Occurs("slide", tout.value))
  }

  /**
   * The second pass as written: both outcomes of the slide test build the
   * same overlay, but a clip whose test raises ends the request with the
   * generic "unexpected error" message.
   */
  function ChainAsWritten(placed: seq<Placed>, i: nat, current: Label): (r: Option<seq<Overlay>>)
    requires i <= |placed|
    decreases |placed| - i
  {
    if i == |placed| then Some([])
    else
      var c := placed[i];
      if SlideTestAsWritten(c.clip.transitionIn, c.clip.transitionOut).None? then None
      else
        var output := if i < |placed| - 1 then Chained(i) else FinalVideo;
        var rest := ChainAsWritten(placed, i + 1, output);
        if rest.None? then None
        else Some([Step(c, i + 1, current, output)] + rest.value)
  }

  /** Whenever the slide test does not raise, the as-written pass builds exactly the intended chain. */
  lemma {:induction false} ChainAsWrittenAgrees(placed: seq<Placed>, i: nat, current: Label)
    requires i <= |placed|
    requires forall k :: i <= k < |placed| ==>
               SlideTestAsWritten(placed[k].clip.transitionIn, placed[k].clip.transitionOut).Some?
    ensures ChainAsWritten(placed, i, current) == Some(ChainFrom(placed, i, current))
    decreases |placed| - i
  {
    if i < |placed| {
      var c := placed[i];
      var output := if i < |placed| - 1 then Chained(i) else FinalVideo;
      assert SlideTestAsWritten(c.clip.transitionIn, c.clip.transitionOut).Some?;
      ChainAsWrittenAgrees(placed, i + 1, output);
      assert ChainAsWritten(placed, i, current) == Some([Step(c, i + 1, current, output)] + ChainFrom(placed, i + 1, output));
    }
  }

  /** A clip that leaves its entry transition out, as the request allows, makes the as-written pass fail. */
  lemma ChainAsWrittenFailsWithoutTransition(placed: seq<Placed>, i: nat, current: Label)
    requires i < |placed| && placed[i].clip.transitionIn.None?
    ensures ChainAsWritten(placed, 0, current).None?
  {
    ChainAsWrittenStopsAt(placed, 0, i, current);
  }

  /** Any clip whose slide test raises makes the as-written pass fail from every earlier clip on. */
  lemma {:induction false} ChainAsWrittenStopsAt(placed: seq<Placed>, j: nat, i: nat, current: Label)
    requires j <= i < |placed| && SlideTestAsWritten(placed[i].clip.transitionIn, placed[i].clip.transitionOut).None?
    ensures ChainAsWritten(placed, j, current).None?
    decreases i - j
  {
    if j < i {
      var output := if j < |placed| - 1 then Chained(j) else FinalVideo;
      ChainAsWrittenStopsAt(placed, j + 1, i, output);
    }
  }

  // ---------------------------------------------------------------------
  // The whole request
  // ---------------------------------------------------------------------

  datatype BRollPlan =
    | CopyMain                 // no clips requested
    | NoValidClips             // no requested clip had video
    | Compose(placed: seq<Placed>, overlays: seq<Overlay>, mapMainAudio: bool)

  /** `e` is what reading one of the clip's time arguments reports. */
  predicate TimeErrorFrom(c: BRollClip, e: TimeError)
  {
    ParseTime(c.insertAt) == Err(e) || (c.duration.Some? && ParseTime(c.duration.value) == Err(e))
  }

  /**
   * The placed clips are exactly the requested clips that have video, each
   * at its parsed insertion time with the settings its checks gave, in
   * ascending order of that time, and in request order among equal times.
   */
  predicate StableSelection(clips: seq<BRollClip>, ps: seq<Placed>, existing: set<string>,
                            probe: string -> MediaProperties, mainW: int, mainH: int)
  {
    && (forall i :: 0 <= i < |ps| ==>
          && ps[i].clipIndex < |clips|
          && ps[i].source == clips[ps[i].clipIndex].clipPath
          && ParseTime(clips[ps[i].clipIndex].insertAt) == Ok(ps[i].start)
          && CheckClip(clips[ps[i].clipIndex], existing, probe, mainW, mainH) == Ok(Some(ps[i].clip)))
    && (forall i, j :: 0 <= i < j < |ps| ==> ps[i].start <= ps[j].start)
    && (forall i, j :: 0 <= i < j < |ps| && ps[i].start == ps[j].start ==> ps[i].clipIndex < ps[j].clipIndex)
    && (forall c :: 0 <= c < |clips| ==>
          (probe(clips[c].clipPath).hasVideo <==> exists i :: 0 <= i < |ps| && ps[i].clipIndex == c))
  }

  /**
   * `e` is the error of the failing clip that comes first in the stable
   * order of insertion times `keys`.
   */
  predicate FirstFailure(clips: seq<BRollClip>, keys: seq<real>, existing: set<string>,
                         probe: string -> MediaProperties, mainW: int, mainH: int, e: BRollError)
    requires |keys| == |clips|
  {
    exists c :: 0 <= c < |clips| && CheckClip(clips[c], existing, probe, mainW, mainH) == Err(e)
                && forall d :: 0 <= d < |clips| && d != c && ClipFails(clips[d], existing, probe) ==> Before(keys, c, d)
  }

  /**
   * The B-roll request over the main video at `mainPath`. `existing` is the
   * set of existing files and `probe` each file's properties.
   */
  function AddBRoll(mainPath: string, clips: seq<BRollClip>, existing: set<string>,
                    probe: string -> MediaProperties): (r: Result<BRollPlan, BRollError>)
    ensures mainPath !in existing ==> r == Err(MainNotFound(mainPath))
    ensures r == Ok(CopyMain) <==> mainPath in existing && |clips| == 0
    ensures mainPath in existing && |clips| > 0 && !probe(mainPath).hasVideo ==> r == Err(MainNoVideo(mainPath))
    ensures mainPath in existing && |clips| > 0 && probe(mainPath).hasVideo && ParseKeys(clips).Err? ==>
              r == Err(BadTime(ParseKeys(clips).error))
    ensures r.Err? && r.error.BadTime? ==> exists i :: 0 <= i < |clips| && TimeErrorFrom(clips[i], r.error.error)
    ensures mainPath in existing && |clips| > 0 && probe(mainPath).hasVideo && ParseKeys(clips).Ok? ==>
              (r.Err? <==> exists c :: 0 <= c < |clips| && ClipFails(clips[c], existing, probe))
    ensures mainPath in existing && |clips| > 0 && probe(mainPath).hasVideo && ParseKeys(clips).Ok? && r.Err? ==>
              FirstFailure(clips, ParseKeys(clips).value, existing, probe,
                           probe(mainPath).width, probe(mainPath).height, r.error)
    ensures r.Ok? && r.value.Compose? ==>
              && |r.value.placed| >= 1
              && StableSelection(clips, r.value.placed, existing, probe, probe(mainPath).width, probe(mainPath).height)
              && r.value.overlays == Chain(r.value.placed)
              && (r.value.mapMainAudio <==> probe(mainPath).hasAudio)
    ensures r.Ok? && r.value.NoValidClips? ==>
              |clips| > 0 && forall c :: 0 <= c < |clips| ==> !probe(clips[c].clipPath).hasVideo
    ensures r.Ok? && |clips| > 0 ==>
              && (r.value.NoValidClips? || r.value.Compose?)
              && (r.value.NoValidClips? <==> forall c :: 0 <= c < |clips| ==> !probe(clips[c].clipPath).hasVideo)
  {
    if mainPath !in existing then Err(MainNotFound(mainPath))
    else if |clips| == 0 then Ok(CopyMain)
    else
      var main := probe(mainPath);
      if !main.hasVideo then Err(MainNoVideo(mainPath))
      else
        var keys := ParseKeys(clips);
        if keys.Err? then Err(BadTime(keys.error))
        else
          var order := StableOrder(keys.value);
          var placed := ProcessFrom(clips, keys.value, order, 0, existing, probe, main.width, main.height);
          FailuresInStableOrder(clips, keys.value, order, existing, probe, main.width, main.height);
          if placed.Err? then
            ProcessFromBadTime(clips, keys.value, order, 0, existing, probe, main.width, main.height);
            Err(placed.error)
          else
            ProcessFromPlaces(clips, keys.value, order, 0, existing, probe, main.width, main.height);
            PlacedCoverVideoClips(clips, keys.value, order, placed.value, probe);
            if |placed.value| == 0 then Ok(NoValidClips)
            else
              PlacedSelection(clips, keys.value, order, 0, existing, probe, main.width, main.height);
              assert probe(clips[placed.value[0].clipIndex].clipPath).hasVideo;
              Ok(Compose(placed.value, Chain(placed.value), main.hasAudio))
  }

  /**
   * Along the stable order, the pass fails exactly when some requested clip
   * fails, and then with the error of the failing clip that sorts first.
   */
  lemma FailuresInStableOrder(clips: seq<BRollClip>, keys: seq<real>, order: seq<nat>, existing: set<string>,
                              probe: string -> MediaProperties, mainW: int, mainH: int)
    requires |keys| == |clips| && order == StableOrder(keys)
    ensures OrderOf(clips, order)
    ensures var r := ProcessFrom(clips, keys, order, 0, existing, probe, mainW, mainH);
            && (r.Err? <==> exists c :: 0 <= c < |clips| && ClipFails(clips[c], existing, probe))
            && (r.Err? ==> FirstFailure(clips, keys, existing, probe, mainW, mainH, r.error))
  {
    assert OrderOf(clips, order);
    var r := ProcessFrom(clips, keys, order, 0, existing, probe, mainW, mainH);
    ProcessFromFirstError(clips, keys, order, 0, existing, probe, mainW, mainH);
    if exists c :: 0 <= c < |clips| && ClipFails(clips[c], existing, probe) {
      var c :| 0 <= c < |clips| && ClipFails(clips[c], existing, probe);
      assert c in order;
      var m :| 0 <= m < |order| && order[m] == c;
      assert ClipFails(clips[order[m]], existing, probe);
    }
    if r.Err? {
      var m :| 0 <= m < |order| && CheckClip(clips[order[m]], existing, probe, mainW, mainH) == Err(r.error)
               && forall j :: 0 <= j < m ==> !ClipFails(clips[order[j]], existing, probe);
      var c := order[m];
      forall d | 0 <= d < |clips| && d != c && ClipFails(clips[d], existing, probe)
        ensures Before(keys, c, d)
      {
        assert d in order;
        var n :| 0 <= n < |order| && order[n] == d;
        assert ClipFails(clips[order[n]], existing, probe);
        assert n >= m;
        assert n != m;
        assert keys[order[m]] <= keys[order[n]];
      }
      assert CheckClip(clips[c], existing, probe, mainW, mainH) == Err(r.error);
    }
  }

  /**
   * A stable selection fails the as-written second pass as soon as one of
   * the requested clips with video leaves out its entry transition.
   */
  lemma AsWrittenSelectionFails(clips: seq<BRollClip>, placed: seq<Placed>, existing: set<string>,
                                probe: string -> MediaProperties, mainW: int, mainH: int, c: nat)
    requires StableSelection(clips, placed, existing, probe, mainW, mainH)
    requires c < |clips| && probe(clips[c].clipPath).hasVideo && clips[c].transitionIn.None?
    ensures ChainAsWritten(placed, 0, MainVideo).None?
  {
    var i :| 0 <= i < |placed| && placed[i].clipIndex == c;
    assert CheckClip(clips[c], existing, probe, mainW, mainH) == Ok(Some(placed[i].clip));
    ChainAsWrittenFailsWithoutTransition(placed, i, MainVideo);
  }

  /**
   * A request the corrected model composes fails as written as soon as one
   * of its clips with video leaves out its entry transition.
   */
  lemma AsWrittenRequestFails(mainPath: string, clips: seq<BRollClip>, existing: set<string>,
                              probe: string -> MediaProperties, c: nat)
    requires AddBRoll(mainPath, clips, existing, probe).Ok? && AddBRoll(mainPath, clips, existing, probe).value.Compose?
    requires c < |clips| && probe(clips[c].clipPath).hasVideo && clips[c].transitionIn.None?
    ensures ChainAsWritten(AddBRoll(mainPath, clips, existing, probe).value.placed, 0, MainVideo).None?
  {
    AsWrittenSelectionFails(clips, AddBRoll(mainPath, clips, existing, probe).value.placed, existing, probe,
                            probe(mainPath).width, probe(mainPath).height, c);
  }

  /** A single-clip request reports its clip's own failure, such as an unknown position. */
  lemma SingleClipFailure(mainPath: string, clip: BRollClip, existing: set<string>, probe: string -> MediaProperties)
    requires mainPath in existing && probe(mainPath).hasVideo && ParseTime(clip.insertAt).Ok?
    ensures var r := AddBRoll(mainPath, [clip], existing, probe);
            && (r.Err? <==> ClipFails(clip, existing, probe))
            && (r.Err? ==> Err(r.error) == CheckClip(clip, existing, probe, probe(mainPath).width, probe(mainPath).height))
  {
    var clips := [clip];
    assert ParseKeys(clips).Ok? by {
      assert ParseKeys(clips[1..]) == Ok([]);
    }
  }

  /** The first pass selects the clips with video, in stable order of insertion time. */
  lemma PlacedSelection(clips: seq<BRollClip>, keys: seq<real>, order: seq<nat>, k: nat,
                        existing: set<string>, probe: string -> MediaProperties, mainW: int, mainH: int)
    requires k == 0 && ParseKeys(clips) == Ok(keys) && order == StableOrder(keys)
    requires ProcessFrom(clips, keys, order, 0, existing, probe, mainW, mainH).Ok?
    ensures StableSelection(clips, ProcessFrom(clips, keys, order, 0, existing, probe, mainW, mainH).value,
                            existing, probe, mainW, mainH)
  {
    var ps := ProcessFrom(clips, keys, order, 0, existing, probe, mainW, mainH).value;
    ProcessFromPlaces(clips, keys, order, 0, existing, probe, mainW, mainH);
    PlacedCoverVideoClips(clips, keys, order, ps, probe);
    PlacedInStableOrder(clips, keys, order, ps);
    ProcessFromSources(clips, keys, order, 0, existing, probe, mainW, mainH);
  }

  /** Each placed clip names a requested clip, carries its path and the settings its checks gave. */
  predicate Settled(clips: seq<BRollClip>, ps: seq<Placed>, existing: set<string>,
                    probe: string -> MediaProperties, mainW: int, mainH: int)
  {
    forall i :: 0 <= i < |ps| ==>
      && ps[i].clipIndex < |clips|
      && ps[i].source == clips[ps[i].clipIndex].clipPath
      && CheckClip(clips[ps[i].clipIndex], existing, probe, mainW, mainH) == Ok(Some(ps[i].clip))
  }

  /** Each placed clip carries its request's path and the settings its checks gave. */
  lemma {:induction false} ProcessFromSources(clips: seq<BRollClip>, keys: seq<real>, order: seq<nat>, k: nat,
                                              existing: set<string>, probe: string -> MediaProperties,
                                              mainW: int, mainH: int)
    requires |keys| == |clips| && OrderOf(clips, order) && k <= |order|
    ensures var r := ProcessFrom(clips, keys, order, k, existing, probe, mainW, mainH);
            r.Ok? ==> Settled(clips, r.value, existing, probe, mainW, mainH)
    decreases |order| - k
  {
    if k < |order| {
      ProcessFromSources(clips, keys, order, k + 1, existing, probe, mainW, mainH);
      var c := clips[order[k]];
      var one := CheckClip(c, existing, probe, mainW, mainH);
      var rest := ProcessFrom(clips, keys, order, k + 1, existing, probe, mainW, mainH);
      if one.Ok? && one.value.Some? && rest.Ok? {
        var p := Placed(k, order[k], c.clipPath, keys[order[k]], one.value.value);
        var r := [p] + rest.value;
        assert ProcessFrom(clips, keys, order, k, existing, probe, mainW, mainH) == Ok(r);
        assert Settled(clips, rest.value, existing, probe, mainW, mainH);
        forall i | 0 <= i < |r|
          ensures && r[i].clipIndex < |clips|
                  && r[i].source == clips[r[i].clipIndex].clipPath
                  && CheckClip(clips[r[i].clipIndex], existing, probe, mainW, mainH) == Ok(Some(r[i].clip))
        {
          if i > 0 {
            assert r[i] == rest.value[i - 1];
          }
        }
      }
    }
  }

  /** A time error from the first pass comes from some clip's duration. */
  lemma {:induction false} ProcessFromBadTime(clips: seq<BRollClip>, keys: seq<real>, order: seq<nat>, k: nat,
                                              existing: set<string>, probe: string -> MediaProperties,
                                              mainW: int, mainH: int)
    requires |keys| == |clips| && OrderOf(clips, order) && k <= |order|
    ensures var r := ProcessFrom(clips, keys, order, k, existing, probe, mainW, mainH);
            r.Err? && r.error.BadTime? ==> exists i :: 0 <= i < |clips| && TimeErrorFrom(clips[i], r.error.error)
    decreases |order| - k
  {
    if k < |order| {
      var c := clips[order[k]];
      var one := CheckClip(c, existing, probe, mainW, mainH);
      if one.Err? && one.error.BadTime? {
        assert TimeErrorFrom(c, one.error.error);
      } else if one.Ok? {
        ProcessFromBadTime(clips, keys, order, k + 1, existing, probe, mainW, mainH);
      }
    }
  }

  /** The placed clips ascend by start and keep request order on ties, because the stable order does. */
  lemma PlacedInStableOrder(clips: seq<BRollClip>, keys: seq<real>, order: seq<nat>, ps: seq<Placed>)
    requires |keys| == |clips| && order == StableOrder(keys) && PlacedFrom(keys, order, 0, ps)
    ensures forall i, j :: 0 <= i < j < |ps| ==> ps[i].start <= ps[j].start
    ensures forall i, j :: 0 <= i < j < |ps| && ps[i].start == ps[j].start ==> ps[i].clipIndex < ps[j].clipIndex
  {
    forall i, j | 0 <= i < j < |ps|
      ensures ps[i].start <= ps[j].start
      ensures ps[i].start == ps[j].start ==> ps[i].clipIndex < ps[j].clipIndex
    {
      var a := ps[i].sortedIndex;
      var b := ps[j].sortedIndex;
      assert a < b;
      assert keys[order[a]] <= keys[order[b]];
    }
  }

  /** A request position is placed exactly when its clip has video. */
  lemma PlacedCoverVideoClips(clips: seq<BRollClip>, keys: seq<real>, order: seq<nat>, ps: seq<Placed>,
                              probe: string -> MediaProperties)
    requires |keys| == |clips| && order == StableOrder(keys) && PlacedFrom(keys, order, 0, ps)
    requires CoversFrom(clips, order, 0, ps, probe)
    ensures forall c :: 0 <= c < |clips| ==>
              (probe(clips[c].clipPath).hasVideo <==> exists i :: 0 <= i < |ps| && ps[i].clipIndex == c)
  {
    forall c | 0 <= c < |clips|
      ensures probe(clips[c].clipPath).hasVideo <==> exists i :: 0 <= i < |ps| && ps[i].clipIndex == c
    {
      assert c in order;
      var m :| 0 <= m < |order| && order[m] == c;
      assert probe(clips[order[m]].clipPath).hasVideo <==> IsPlaced(ps, m);
      if exists i :: 0 <= i < |ps| && ps[i].clipIndex == c {
        var i :| 0 <= i < |ps| && ps[i].clipIndex == c;
        var n := ps[i].sortedIndex;
        assert order[n] == order[m];
        assert n == m;
      }
      if IsPlaced(ps, m) {
        var i :| 0 <= i < |ps| && ps[i].sortedIndex == m;
        assert ps[i].clipIndex == c;
      }
    }
  }
}
