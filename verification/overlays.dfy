/**
 * Two small pieces of overlay planning: the escaping applied to drawtext
 * text, and the image overlay's scale, position and enable window.
 */
module Overlays {
  import opened Common
  import opened Text
  import BRoll

  // ---------------------------------------------------------------------
  // drawtext escaping
  // ---------------------------------------------------------------------

  /** The characters drawtext treats specially inside a quoted option value. */
  predicate Special(c: char)
  {
    c == '\\' || c == '\'' || c == ':' || c == ','
  }

  /** The source's escaping: four successive replacements, the backslash first. */
  function EscapeAsWritten(text: string): string
  {
    Replace(Replace(Replace(Replace(text, '\\', "\\\\"), '\'', "\\'"), ':', "\\:"), ',', "\\,")
  }

  /** Each special character prefixed with a backslash, every other character kept. */
  function Escape(text: string): (r: string)
    ensures |r| >= |text|
  {
    if |text| == 0 then ""
    else (if Special(text[0]) then ['\\', text[0]] else [text[0]]) + Escape(text[1..])
  }

  /** Reading an escaped string back: a backslash takes the next character literally. */
  function Unescape(s: string): string
  {
    if |s| == 0 then ""
    else if s[0] == '\\' && |s| >= 2 then [s[1]] + Unescape(s[2..])
    else [s[0]] + Unescape(s[1..])
  }

  /** Escaping loses nothing: reading the escaped text back gives the original. */
  lemma {:induction false} EscapeRoundTrip(text: string)
    ensures Unescape(Escape(text)) == text
  {
    if |text| != 0 {
      EscapeRoundTrip(text[1..]);
      var e := Escape(text);
      if Special(text[0]) {
        assert e == ['\\', text[0]] + Escape(text[1..]);
        assert e[2..] == Escape(text[1..]);
      } else {
        assert e == [text[0]] + Escape(text[1..]);
        assert e[1..] == Escape(text[1..]);
      }
      assert text == [text[0]] + text[1..];
    }
  }

  lemma EscapeAsWrittenAppend(a: string, b: string)
    ensures EscapeAsWritten(a + b) == EscapeAsWritten(a) + EscapeAsWritten(b)
  {
    ReplaceAppend(a, b, '\\', "\\\\");
    var a1 := Replace(a, '\\', "\\\\");
    var b1 := Replace(b, '\\', "\\\\");
    ReplaceAppend(a1, b1, '\'', "\\'");
    var a2 := Replace(a1, '\'', "\\'");
    var b2 := Replace(b1, '\'', "\\'");
    ReplaceAppend(a2, b2, ':', "\\:");
    var a3 := Replace(a2, ':', "\\:");
    var b3 := Replace(b2, ':', "\\:");
    ReplaceAppend(a3, b3, ',', "\\,");
  }

  /** On one character the four replacements add exactly one backslash before a special one. */
  lemma EscapeAsWrittenChar(c: char)
    ensures EscapeAsWritten([c]) == if Special(c) then ['\\', c] else [c]
  {
    var bs: string := ['\\'];
    assert Replace(bs, '\'', "\\'") == bs && Replace(bs, ':', "\\:") == bs && Replace(bs, ',', "\\,") == bs;
    if c == '\\' {
      assert Replace([c], '\\', "\\\\") == bs + bs;
      ReplaceAppend(bs, bs, '\'', "\\'");
      ReplaceAppend(bs, bs, ':', "\\:");
      ReplaceAppend(bs, bs, ',', "\\,");
    } else if c == '\'' {
      assert Replace([c], '\'', "\\'") == bs + [c];
      ReplaceAppend(bs, [c], ':', "\\:");
      ReplaceAppend(bs, [c], ',', "\\,");
    } else if c == ':' {
      assert Replace([c], ':', "\\:") == bs + [c];
      ReplaceAppend(bs, [c], ',', "\\,");
    }
  }

  /** The source's chain of replacements is the prefix-each-special-character escaping. */
  lemma {:induction false} EscapeAsWrittenIsEscape(text: string)
    ensures EscapeAsWritten(text) == Escape(text)
  {
    if |text| != 0 {
      assert text == [text[0]] + text[1..];
      EscapeAsWrittenAppend([text[0]], text[1..]);
      EscapeAsWrittenChar(text[0]);
      EscapeAsWrittenIsEscape(text[1..]);
    }
  }

  // ---------------------------------------------------------------------
  // Image overlay
  // ---------------------------------------------------------------------

  /** A string argument counts as given when present and non-empty (Python truthiness). */
  predicate Given(s: Option<string>)
  {
    s.Some? && s.value != ""
  }

  /**
   * The image's scale arguments: none when neither side is given; a side
   * left out becomes `-1`, which keeps the image's aspect ratio.
   */
  function ImageScale(width: Option<string>, height: Option<string>): (r: Option<(string, string)>)
    ensures r.None? <==> !Given(width) && !Given(height)
    ensures r.Some? ==> r.value.0 == (if Given(width) then width.value else "-1")
    ensures r.Some? ==> r.value.1 == (if Given(height) then height.value else "-1")
    ensures r.Some? ==> r.value.0 != "-1" || r.value.1 != "-1" || width == Some("-1") || height == Some("-1")
  {
    if !Given(width) && !Given(height) then None
    else Some((if Given(width) then width.value else "-1", if Given(height) then height.value else "-1"))
  }

  /** The text after the first `=` of a `key=value` piece, as `piece.split('=')[1]`. */
  function FieldValue(piece: string): string
    requires '=' in piece
  {
    CountPositive(piece, '=');
    SplitCount(piece, '=');
    Split(piece, '=')[1]
  }

  /** Custom coordinates: every `x=` piece and every `y=` piece overrides the earlier ones. */
  function CustomXY(pieces: seq<string>, x: string, y: string): (string, string)
  {
    if |pieces| == 0 then (x, y)
    else
      var p := pieces[0];
      var x' := if StartsWith(p, "x=") then (assert p[1] == '='; FieldValue(p)) else x;
      var y' := if StartsWith(p, "y=") then (assert p[1] == '='; FieldValue(p)) else y;
      CustomXY(pieces[1..], x', y')
  }

  /** The five named positions, written with underscores in this tool. */
  function NamedXY(position: string): Option<(string, string)>
  {
    if position == "top_left" then Some(("10", "10"))
    else if position == "top_right" then Some(("main_w-overlay_w-10", "10"))
    else if position == "bottom_left" then Some(("10", "main_h-overlay_h-10"))
    else if position == "bottom_right" then Some(("main_w-overlay_w-10", "main_h-overlay_h-10"))
    else if position == "center" then Some(("(main_w-overlay_w)/2", "(main_h-overlay_h)/2"))
    else None
  }

  /**
   * The overlay coordinates of a position: a named position, custom
   * `x=..:y=..` pieces, or the top-left origin for anything else.
   */
  function ImageXY(position: string): (xy: (string, string))
    ensures NamedXY(position).Some? ==> xy == NamedXY(position).value
    ensures NamedXY(position).None? && ':' !in position ==> xy == ("0", "0")
  {
    if NamedXY(position).Some? then NamedXY(position).value
    else if ':' in position then CustomXY(Split(position, ':'), "0", "0")
    else ("0", "0")
  }

  /** A piece `k=v` with no `=` in `v` has value `v`. */
  lemma FieldOf(k: char, v: string)
    requires k != '=' && '=' !in v
    ensures FieldValue([k, '='] + v) == v
  {
    assert [k, '='] + v == [k] + ['='] + v;
    SplitAfterPiece([k], '=', v);
    SplitNoSeparator(v, '=');
  }

  /** Two separator-free pieces joined by the separator split back into the two. */
  lemma SplitTwo(a: string, b: string, sep: char)
    requires sep !in a && sep !in b
    ensures Split(a + [sep] + b, sep) == [a, b]
  {
    SplitAfterPiece(a, sep, b);
    SplitNoSeparator(b, sep);
  }

  /** `x=A:y=B` places the image at `(A, B)` when neither holds a `:` or `=`. */
  lemma CustomCoordinates(a: string, b: string)
    requires ':' !in a && '=' !in a && ':' !in b && '=' !in b
    ensures ImageXY("x=" + a + ":y=" + b) == (a, b)
  {
    var xa := "x=" + a;
    var yb := "y=" + b;
    var s := "x=" + a + ":y=" + b;
    assert s == xa + [':'] + yb;
    SplitTwo(xa, yb, ':');
    FieldOf('x', a);
    FieldOf('y', b);
    assert StartsWith(xa, "x=") && !StartsWith(xa, "y=");
    assert StartsWith(yb, "y=") && !StartsWith(yb, "x=");
    assert CustomXY([yb], a, "0") == CustomXY([], a, b);
    assert CustomXY([xa, yb], "0", "0") == CustomXY([yb], a, "0");
    assert s[0] == 'x' && s[|xa|] == ':';
  }

  /** The underscore name of a B-roll position other than fullscreen. */
  function UnderscoreName(p: BRoll.Position): string
  {
    match p
    case Fullscreen => ""
    case TopLeft => "top_left"
    case TopRight => "top_right"
    case BottomLeft => "bottom_left"
    case BottomRight => "bottom_right"
    case Center => "center"
  }

  /**
   * The named image positions follow the same placement rule as the B-roll
   * positions, written over `main_w`/`overlay_w` instead of `W`/`w`.
   */
  lemma NamedPositionsAsBRoll(p: BRoll.Position)
    requires p != BRoll.Fullscreen
    ensures ImageXY(UnderscoreName(p)) ==
              (BRoll.CoordText(BRoll.Placement(p).0, "main_w", "overlay_w"),
               BRoll.CoordText(BRoll.Placement(p).1, "main_h", "overlay_h"))
  {
    assert BRoll.CoordText(BRoll.Far, "main_w", "overlay_w") == "main_w-overlay_w-10";
    assert BRoll.CoordText(BRoll.Far, "main_h", "overlay_h") == "main_h-overlay_h-10";
    assert BRoll.CoordText(BRoll.Middle, "main_w", "overlay_w") == "(main_w-overlay_w)/2";
    assert BRoll.CoordText(BRoll.Middle, "main_h", "overlay_h") == "(main_h-overlay_h)/2";
  }

  /**
   * When the overlay is shown: always without bounds; from the start
   * (0 when absent) to the end when an end is given; otherwise from the
   * start on.
   */
  function EnableExpr(start: Option<string>, end: Option<string>): (r: Option<string>)
    ensures r.None? <==> start.None? && end.None?
    ensures end.Some? ==> r == Some("between(t," + start.GetOr("0") + "," + end.value + ")")
    ensures start.Some? && end.None? ==> r == Some("gte(t," + start.value + ")")
  {
    if start.None? && end.None? then None
    else if end.Some? then Some("between(t," + start.GetOr("0") + "," + end.value + ")")
    else Some("gte(t," + start.value + ")")
  }

  datatype ImageOverlayError = VideoNotFound(path: string) | ImageNotFound(path: string)

  function ImageOverlayErrorMessage(e: ImageOverlayError): string
  {
    match e
    case VideoNotFound(path) => "Error: Input video file not found at " + path
    case ImageNotFound(path) => "Error: Overlay image file not found at " + path
  }

  /** The image overlay's filter settings; `opacity` is applied only when in `[0, 1]`. */
  datatype ImageOverlayPlan = ImageOverlayPlan(
    scale: Option<(string, string)>,
    opacity: Option<real>,
    x: string,
    y: string,
    enable: Option<string>)

  function PlanImageOverlay(videoPath: string, imagePath: string, existing: set<string>,
                            position: string, opacity: Option<real>,
                            start: Option<string>, end: Option<string>,
                            width: Option<string>, height: Option<string>)
    : (r: Result<ImageOverlayPlan, ImageOverlayError>)
    ensures videoPath !in existing ==> r == Err(VideoNotFound(videoPath))
    ensures videoPath in existing && imagePath !in existing ==> r == Err(ImageNotFound(imagePath))
    ensures r.Ok? <==> videoPath in existing && imagePath in existing
    ensures r.Ok? ==> (r.value.opacity.Some? <==> opacity.Some? && 0.0 <= opacity.value <= 1.0)
    ensures r.Ok? && r.value.opacity.Some? ==> r.value.opacity == opacity
    ensures r.Ok? ==> (r.value.x, r.value.y) == ImageXY(position)
    ensures r.Ok? ==> r.value.scale == ImageScale(width, height) && r.value.enable == EnableExpr(start, end)
  {
    if videoPath !in existing then Err(VideoNotFound(videoPath))
    else if imagePath !in existing then Err(ImageNotFound(imagePath))
    else
      var xy := ImageXY(position);
      Ok(ImageOverlayPlan(ImageScale(width, height),
                          if opacity.Some? && 0.0 <= opacity.value <= 1.0 then opacity else None,
                          xy.0, xy.1, EnableExpr(start, end)))
  }
}
