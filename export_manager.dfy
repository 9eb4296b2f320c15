/**
 * The exporter of js/export-manager.js: dispatch on the chosen format,
 * the raster export (an off-screen canvas at a resolution multiplier that
 * receives the background, the grid and every stored stroke), the SVG
 * document and the download file name.
 *
 * The form controls the exporter reads (format, resolution, background
 * colour and opacity, grid switch) arrive as an `ExportForm`; the clock
 * arrives as the ISO-8601 text `isoNow`; JavaScript's conversion of a
 * non-integer number to text is the parameter `fmt`.
 */
module Export {
  import opened Utils
  import opened Drawing
  import opened Lines
  import Canvas

  /** The values of the export-format, export-resolution, bg-color, bg-opacity and show-grid controls. */
  datatype ExportForm = ExportForm(format: string, resolution: real, bgColor: string, bgOpacity: int, showGrid: bool)

  /** The name of the application, used in SVG titles and file names. */
  const AppName: string := "线迹幻境"

  // ---------------------------------------------------------------------
  // File names
  // ---------------------------------------------------------------------

  /** `iso.replace(/:/g, '-')`. */
  function ReplaceColons(iso: string): (t: string)
    ensures |t| == |iso|
    ensures forall i :: 0 <= i < |t| ==> t[i] == if iso[i] == ':' then '-' else iso[i]
  {
    if iso == [] then [] else [if iso[0] == ':' then '-' else iso[0]] + ReplaceColons(iso[1..])
  }

  /** `.substring(0, 19)`: the first 19 characters, or the whole text when it is shorter. */
  function Timestamp(iso: string): (ts: string)
  {
    var t := ReplaceColons(iso);
    if |t| <= 19 then t else t[..19]
  }

  /**
   * The timestamp holds no colon, keeps every other character of the
   * clock text in place, and is 19 characters long whenever the clock
   * text is (an ISO-8601 instant always is longer).
   */
  lemma TimestampShape(iso: string)
    ensures var ts := Timestamp(iso);
            |ts| == (if |iso| <= 19 then |iso| else 19)
            && (forall i :: 0 <= i < |ts| ==> ts[i] != ':')
            && (forall i :: 0 <= i < |ts| && iso[i] != ':' ==> ts[i] == iso[i])
  {
  }

  /** `线迹幻境-{width}x{height}-{timestamp}.{extension}`. */
  function FileName(width: int, height: int, iso: string, extension: string): (name: string)
  {
    (AppName + "-") + (IntToString(width) + "x" + IntToString(height) + "-" + Timestamp(iso)) + ("." + extension)
  }

  /** The outer pieces of a three-part concatenation are its prefix and its suffix. */
  lemma ConcatParts<T>(a: seq<T>, b: seq<T>, c: seq<T>)
    ensures (a + b + c)[..|a|] == a && (a + b + c)[|a| + |b|..] == c
  {
  }

  /** The file name ends with the extension after a dot, and starts with the application name. */
  lemma FileNameShape(width: int, height: int, iso: string, extension: string)
    ensures var name := FileName(width, height, iso, extension);
            |name| > |extension| + 1
            && name[|name| - |extension| - 1..] == "." + extension
            && name[..|AppName| + 1] == AppName + "-"
  {
    var middle := IntToString(width) + "x" + IntToString(height) + "-" + Timestamp(iso);
    ConcatParts(AppName + "-", middle, "." + extension);
  }

  // ---------------------------------------------------------------------
  // Raster export
  // ---------------------------------------------------------------------

  /** The off-screen canvas, the commands drawn on it, and how it is encoded and named. */
  datatype RasterImage = RasterImage(canvasWidth: int, canvasHeight: int, ops: seq<DrawOp>,
                                     mimeType: string, quality: Option<real>, filename: string)

  /**
   * A side of the export canvas: size·resolution, of which the canvas's
   * integer size attribute keeps the whole part; exact when the product
   * is whole.
   */
  function ScaledSize(size: int, resolution: real): (n: int)
    requires size >= 0 && resolution > 0.0
    ensures 0 <= n
    ensures n as real <= size as real * resolution < n as real + 1.0
    ensures forall k: int :: k as real == resolution ==> n == size * k
  {
    MulNonNegative(size as real, resolution);
    Floor(size as real * resolution)
  }

  /**
   * The grid drawn on the export canvas: spacing 20·resolution, line
   * width 0.5·resolution, from 0 to width·resolution (and height·resolution)
   * inclusive; vertical lines first.
   */
  function ExportGridOps(width: int, height: int, resolution: real): (ops: seq<DrawOp>)
    requires resolution > 0.0
    ensures |ops| == TickCount(width as real * resolution, 20.0 * resolution)
                     + TickCount(height as real * resolution, 20.0 * resolution)
  {
    var step := 20.0 * resolution;
    var w, h := width as real * resolution, height as real * resolution;
    var xs, ys := Ticks(w, step), Ticks(h, step);
    seq(|xs|, i requires 0 <= i < |xs| =>
          StrokeSegment(Segment(Point(xs[i], 0.0), Point(xs[i], h)), "#cccccc", 0.5 * resolution, 0.5))
    + seq(|ys|, j requires 0 <= j < |ys| =>
          StrokeSegment(Segment(Point(0.0, ys[j]), Point(w, ys[j])), "#cccccc", 0.5 * resolution, 0.5))
  }

  /** The background the raster export paints: always for jpg, and for png only when the opacity is positive. */
  function RasterBackground(format: string, bgColor: string, opacity: real, canvasWidth: int, canvasHeight: int)
    : (ops: seq<DrawOp>)
    ensures |ops| <= 1
    ensures |ops| == 1 <==> format != "png" || opacity > 0.0
    ensures |ops| == 1 ==> ops[0] == FillRect(bgColor, opacity, canvasWidth as real, canvasHeight as real)
  {
    if format != "png" || opacity > 0.0 then [FillRect(bgColor, opacity, canvasWidth as real, canvasHeight as real)]
    else []
  }

  /** Every stored stroke drawn at the resolution multiplier, in stored order. */
  function LineOps(lines: seq<Stroke>, resolution: real): (ops: seq<DrawOp>)
    ensures |ops| == |lines|
    ensures forall i :: 0 <= i < |lines| ==> ops[i] == DrawLineOnCanvas(lines[i], resolution)
  {
    seq(|lines|, i requires 0 <= i < |lines| => DrawLineOnCanvas(lines[i], resolution))
  }

  // ---------------------------------------------------------------------
  // SVG document
  // ---------------------------------------------------------------------

  /** The parts the SVG document is assembled from, in document order. */
  datatype SvgElement =
    | Background(rectWidth: int, rectHeight: int, fill: string, fillOpacity: real)
    | GridStart
    | GridLine(x1: int, y1: int, x2: int, y2: int)
    | GridEnd
    | LinesStart
    | PathElement(from: Point, control1: Point, control2: Point, to: Point,
                  stroke: string, strokeWidth: real, lineCap: string)
    | LinesEnd

  /** The prologue, the root element's opening tag, the title and the description. */
  function Header(width: int, height: int): string
  {
    "<?xml version=\"1.0\" encoding=\"UTF-8\" standalone=\"no\"?>\n"
    + "<!DOCTYPE svg PUBLIC \"-//W3C//DTD SVG 1.1//EN\" \"http://www.w3.org/Graphics/SVG/1.1/DTD/svg11.dtd\">\n"
    + "<svg width=\"" + IntToString(width) + "\" height=\"" + IntToString(height)
    + "\" viewBox=\"0 0 " + IntToString(width) + " " + IntToString(height) + "\" \n"
    + "     xmlns=\"http://www.w3.org/2000/svg\" version=\"1.1\">\n"
    + "<title>" + AppName + "</title>\n"
    + "<desc>Generated by " + AppName + "</desc>"
  }

  /** The path data `M sx sy C c1x c1y, c2x c2y, ex ey`: a move-to and one absolute cubic Bézier (SVG 1.1, section 8.3.6). */
  function PathData(from: Point, control1: Point, control2: Point, to: Point, fmt: real -> string): string
  {
    "M " + fmt(from.x) + " " + fmt(from.y)
    + " C " + fmt(control1.x) + " " + fmt(control1.y)
    + ", " + fmt(control2.x) + " " + fmt(control2.y)
    + ", " + fmt(to.x) + " " + fmt(to.y)
  }

  /** The text each part contributes, newline first, as the exporter appends it. */
  function Render(e: SvgElement, fmt: real -> string): string
  {
    match e
    case Background(w, h, fill, opacity) =>
      "\n<rect x=\"0\" y=\"0\" width=\"" + IntToString(w) + "\" height=\"" + IntToString(h)
      + "\" fill=\"" + fill + "\" fill-opacity=\"" + fmt(opacity) + "\"/>"
    case GridStart => "\n<g id=\"grid\" stroke=\"#cccccc\" stroke-width=\"0.5\" stroke-opacity=\"0.5\">"
    case GridLine(x1, y1, x2, y2) =>
      "\n  <line x1=\"" + IntToString(x1) + "\" y1=\"" + IntToString(y1)
      + "\" x2=\"" + IntToString(x2) + "\" y2=\"" + IntToString(y2) + "\" />"
    case GridEnd => "\n</g>"
    case LinesStart => "\n<g id=\"lines\">"
    case PathElement(from, c1, c2, to, stroke, strokeWidth, cap) =>
      "\n  <path d=\"" + PathData(from, c1, c2, to, fmt) + "\" \n"
      + "      stroke=\"" + stroke + "\" stroke-width=\"" + fmt(strokeWidth)
      + "\" stroke-linecap=\"" + cap + "\" fill=\"none\" />"
    case LinesEnd => "\n</g>\n</svg>"
  }

  /** The concatenated text of a run of parts. */
  function RenderAll(es: seq<SvgElement>, fmt: real -> string): string
  {
    if es == [] then "" else RenderAll(es[..|es| - 1], fmt) + Render(es[|es| - 1], fmt)
  }

  /** The document text: the header, then the text of each part in order. */
  function Document(width: int, height: int, parts: seq<SvgElement>, fmt: real -> string): string
  {
    Header(width, height) + RenderAll(parts, fmt)
  }

  lemma RenderAllSnoc(es: seq<SvgElement>, e: SvgElement, fmt: real -> string)
    ensures RenderAll(es + [e], fmt) == RenderAll(es, fmt) + Render(e, fmt)
  {
    assert (es + [e])[..|es|] == es;
  }

  /** The first n vertical grid lines: x = 0, 20, …, each spanning the height. */
  function VerticalGridLines(height: int, n: nat): (ls: seq<SvgElement>)
    ensures |ls| == n
  {
    seq(n, i => GridLine(i * 20, 0, i * 20, height))
  }

  lemma VerticalGridLinesSnoc(height: int, n: nat)
    ensures VerticalGridLines(height, n + 1) == VerticalGridLines(height, n) + [GridLine(n * 20, 0, n * 20, height)]
  {
    assert VerticalGridLines(height, n + 1)[..n] == VerticalGridLines(height, n);
  }

  /** The first n horizontal grid lines: y = 0, 20, …, each spanning the width. */
  function HorizontalGridLines(width: int, n: nat): (ls: seq<SvgElement>)
    ensures |ls| == n
  {
    seq(n, j => GridLine(0, j * 20, width, j * 20))
  }

  lemma HorizontalGridLinesSnoc(width: int, n: nat)
    ensures HorizontalGridLines(width, n + 1) == HorizontalGridLines(width, n) + [GridLine(0, n * 20, width, n * 20)]
  {
    assert HorizontalGridLines(width, n + 1)[..n] == HorizontalGridLines(width, n);
  }

  /** The grid lines of the SVG: x = 0, 20, … up to width, then y = 0, 20, … up to height. */
  function GridLines(width: int, height: int): (ls: seq<SvgElement>)
    requires width >= 0 && height >= 0
    ensures |ls| == (width / 20 + 1) + (height / 20 + 1)
  {
    VerticalGridLines(height, width / 20 + 1) + HorizontalGridLines(width, height / 20 + 1)
  }

  /** The path of one stored stroke, with its colour, width and cap. */
  function PathOf(s: Stroke): SvgElement
  {
    PathElement(s.startPoint, s.controlPoint1, s.controlPoint2, s.endPoint, CssText(s.color), s.width, s.lineCap)
  }

  /** One path per stroke, in stroke order. */
  function PathsOf(lines: seq<Stroke>): (ps: seq<SvgElement>)
    ensures |ps| == |lines|
    ensures forall i :: 0 <= i < |lines| ==> ps[i] == PathOf(lines[i])
  {
    seq(|lines|, i requires 0 <= i < |lines| => PathOf(lines[i]))
  }

  /** The grid group: its opening tag, the grid lines, its closing tag. */
  function GridGroupParts(width: int, height: int): (ps: seq<SvgElement>)
    requires width >= 0 && height >= 0
  {
    [GridStart] + GridLines(width, height) + [GridEnd]
  }

  /** The lines group: its opening tag, one path per stroke, then the closing tags. */
  function LinesGroupParts(lines: seq<Stroke>): (ps: seq<SvgElement>)
  {
    [LinesStart] + PathsOf(lines) + [LinesEnd]
  }

  /** The parts of the document after the header: the rectangle if the opacity is positive, the grid group if shown, the lines group. */
  function SvgElements(width: int, height: int, bgColor: string, opacity: real, showGrid: bool,
                       lines: seq<Stroke>): seq<SvgElement>
    requires width >= 0 && height >= 0
  {
    (if opacity > 0.0 then [Background(width, height, bgColor, opacity)] else [])
    + (if showGrid then GridGroupParts(width, height) else [])
    + LinesGroupParts(lines)
  }

  /** How many parts come before the lines group: the rectangle, then the grid group. */
  function LinesGroupIndex(width: int, height: int, opacity: real, showGrid: bool): nat
    requires width >= 0 && height >= 0
  {
    (if opacity > 0.0 then 1 else 0) + (if showGrid then |GridLines(width, height)| + 2 else 0)
  }

  /**
   * The background rectangle is present iff the opacity is positive, and
   * is then the first part, covering the whole canvas with the chosen
   * colour at that opacity.
   */
  lemma SvgBackgroundIff(width: int, height: int, bgColor: string, opacity: real, showGrid: bool,
                         lines: seq<Stroke>)
    requires width >= 0 && height >= 0
    ensures var es := SvgElements(width, height, bgColor, opacity, showGrid, lines);
            (opacity > 0.0 <==> exists i :: 0 <= i < |es| && es[i].Background?)
            && (opacity > 0.0 ==> es[0] == Background(width, height, bgColor, opacity))
  {
    var es := SvgElements(width, height, bgColor, opacity, showGrid, lines);
    var b := if opacity > 0.0 then 1 else 0;
    var g := LinesGroupIndex(width, height, opacity, showGrid);
    assert forall i :: b <= i < |es| ==> !es[i].Background? by {
      forall i | b <= i < |es|
        ensures !es[i].Background?
      {
        if i < g {
          assert showGrid;
        }
      }
    }
    if opacity > 0.0 {
      assert es[0].Background?;
    }
  }

  /**
   * The grid group holds ⌊width/20⌋ + 1 vertical lines at x = 20·i
   * spanning the height, then ⌊height/20⌋ + 1 horizontal lines at
   * y = 20·j spanning the width, between its opening and closing tags.
   */
  lemma GridGroupShape(width: int, height: int)
    requires width >= 0 && height >= 0
    ensures var gp := GridGroupParts(width, height);
            var nx, ny := width / 20 + 1, height / 20 + 1;
            |gp| == nx + ny + 2 && gp[0] == GridStart && gp[nx + ny + 1] == GridEnd
            && (forall i :: 0 < i < nx + ny + 1 ==> gp[i].GridLine?)
            && (forall i :: 0 <= i < nx ==> gp[1 + i] == GridLine(i * 20, 0, i * 20, height))
            && (forall j :: 0 <= j < ny ==> gp[1 + nx + j] == GridLine(0, j * 20, width, j * 20))
  {
    GridGroupEnds(width, height);
    GridGroupVertical(width, height);
    GridGroupHorizontal(width, height);
  }

  lemma GridGroupEnds(width: int, height: int)
    requires width >= 0 && height >= 0
    ensures var gp := GridGroupParts(width, height);
            var n := width / 20 + 1 + height / 20 + 1;
            |gp| == n + 2 && gp[0] == GridStart && gp[n + 1] == GridEnd
            && (forall i :: 0 < i < n + 1 ==> gp[i].GridLine?)
  {
    var gp, gl := GridGroupParts(width, height), GridLines(width, height);
    assert forall i :: 0 <= i < |gl| ==> gp[1 + i] == gl[i];
  }

  lemma GridGroupVertical(width: int, height: int)
    requires width >= 0 && height >= 0
    ensures var gp := GridGroupParts(width, height);
            forall i :: 0 <= i < width / 20 + 1 ==> gp[1 + i] == GridLine(i * 20, 0, i * 20, height)
  {
    var gp, gl := GridGroupParts(width, height), GridLines(width, height);
    var nx := width / 20 + 1;
    forall i | 0 <= i < nx
      ensures gp[1 + i] == GridLine(i * 20, 0, i * 20, height)
    {
      assert gp[1 + i] == gl[i] == VerticalGridLines(height, nx)[i];
    }
  }

  lemma GridGroupHorizontal(width: int, height: int)
    requires width >= 0 && height >= 0
    ensures var gp := GridGroupParts(width, height);
            var nx := width / 20 + 1;
            forall j :: 0 <= j < height / 20 + 1 ==> gp[1 + nx + j] == GridLine(0, j * 20, width, j * 20)
  {
    var gp, gl := GridGroupParts(width, height), GridLines(width, height);
    var nx, ny := width / 20 + 1, height / 20 + 1;
    forall j | 0 <= j < ny
      ensures gp[1 + nx + j] == GridLine(0, j * 20, width, j * 20)
    {
      assert gp[1 + nx + j] == gl[nx + j] == HorizontalGridLines(width, ny)[j];
    }
  }

  /**
   * The grid group is present iff the grid is shown, right after the
   * rectangle (if any), and no grid line appears outside it.
   */
  lemma SvgGridIff(width: int, height: int, bgColor: string, opacity: real, showGrid: bool, lines: seq<Stroke>)
    requires width >= 0 && height >= 0
    ensures var es := SvgElements(width, height, bgColor, opacity, showGrid, lines);
            var b := if opacity > 0.0 then 1 else 0;
            var gp := GridGroupParts(width, height);
            (showGrid <==> exists i :: 0 <= i < |es| && es[i] == GridStart)
            && (forall i :: 0 <= i < |es| && es[i].GridLine? ==> showGrid && b < i < b + |gp| - 1)
            && (showGrid ==> b + |gp| <= |es| && es[b..b + |gp|] == gp)
  {
    var es := SvgElements(width, height, bgColor, opacity, showGrid, lines);
    var b := if opacity > 0.0 then 1 else 0;
    var gp := GridGroupParts(width, height);
    var front: seq<SvgElement> := if opacity > 0.0 then [Background(width, height, bgColor, opacity)] else [];
    var grid := if showGrid then gp else [];
    var back := LinesGroupParts(lines);
    assert es == front + grid + back;
    GridGroupShape(width, height);
    assert forall i :: 0 <= i < |back| ==> !back[i].GridStart? && !back[i].GridLine? by {
      LinesGroupHasNoGrid(lines);
    }
    forall i | 0 <= i < |es| && (es[i] == GridStart || es[i].GridLine?)
      ensures showGrid && b <= i < b + |gp| - 1
      ensures es[i] == GridStart ==> i == b
    {
      assert b <= i < b + |grid|;
      assert es[i] == grid[i - b];
    }
    if showGrid {
      assert es[b] == GridStart;
      assert es[b..b + |gp|] == gp;
    }
  }

  /** The lines group holds no grid element. */
  lemma LinesGroupHasNoGrid(lines: seq<Stroke>)
    ensures forall i :: 0 <= i < |LinesGroupParts(lines)| ==>
              !LinesGroupParts(lines)[i].GridStart? && !LinesGroupParts(lines)[i].GridLine?
  {
    var ps := LinesGroupParts(lines);
    forall i | 0 <= i < |ps|
      ensures !ps[i].GridStart? && !ps[i].GridLine?
    {
      if 0 < i < |ps| - 1 {
        assert ps[i] == PathOf(lines[i - 1]);
      }
    }
  }

  /** The parts before the lines group: the rectangle if the opacity is positive, then the grid group if shown. */
  function FrontParts(width: int, height: int, bgColor: string, opacity: real, showGrid: bool): seq<SvgElement>
    requires width >= 0 && height >= 0
  {
    (if opacity > 0.0 then [Background(width, height, bgColor, opacity)] else [])
    + (if showGrid then GridGroupParts(width, height) else [])
  }

  /** The parts before the lines group end where the lines group index says, and none of them is a path. */
  lemma FrontHasNoPath(width: int, height: int, bgColor: string, opacity: real, showGrid: bool)
    requires width >= 0 && height >= 0
    ensures var front := FrontParts(width, height, bgColor, opacity, showGrid);
            |front| == LinesGroupIndex(width, height, opacity, showGrid)
            && forall i :: 0 <= i < |front| ==> !front[i].PathElement?
  {
    if showGrid {
      GridGroupEnds(width, height);
    }
  }

  /** The lines group opens, holds one path per stroke in order, and closes; only its interior is paths. */
  lemma LinesGroupShape(lines: seq<Stroke>)
    ensures var tail := LinesGroupParts(lines);
            |tail| == |lines| + 2 && tail[0] == LinesStart && tail[|tail| - 1] == LinesEnd
            && (forall i :: 0 <= i < |lines| ==> tail[1 + i] == PathOf(lines[i]))
            && (forall i :: 0 <= i < |tail| ==> (tail[i].PathElement? <==> 0 < i < |tail| - 1))
  {
    var paths := PathsOf(lines);
    var tail := LinesGroupParts(lines);
    forall i | 0 <= i < |lines|
      ensures tail[1 + i] == PathOf(lines[i])
    {
      assert tail[1 + i] == paths[i];
    }
    forall i | 0 < i < |tail| - 1
      ensures tail[i].PathElement?
    {
      assert tail[i] == PathOf(lines[i - 1]);
    }
  }

  /**
   * The lines group holds one path per stored stroke, in stored order,
   * each carrying its stroke's points, colour, width and cap; it is the
   * last group, and nothing else is a path.
   */
  lemma SvgPathPerLine(width: int, height: int, bgColor: string, opacity: real, showGrid: bool, lines: seq<Stroke>)
    requires width >= 0 && height >= 0
    ensures var es := SvgElements(width, height, bgColor, opacity, showGrid, lines);
            var g := LinesGroupIndex(width, height, opacity, showGrid);
            |es| == g + |lines| + 2
            && es[g] == LinesStart && es[|es| - 1] == LinesEnd
            && (forall i :: 0 <= i < |lines| ==> es[g + 1 + i] == PathOf(lines[i]))
            && (forall i :: 0 <= i < |es| ==> (es[i].PathElement? <==> g < i < |es| - 1))
  {
    var es := SvgElements(width, height, bgColor, opacity, showGrid, lines);
    var g := LinesGroupIndex(width, height, opacity, showGrid);
    var front := FrontParts(width, height, bgColor, opacity, showGrid);
    var tail := LinesGroupParts(lines);
    assert es == front + tail;
    FrontHasNoPath(width, height, bgColor, opacity, showGrid);
    LinesGroupShape(lines);
    forall i | 0 <= i < |lines|
      ensures es[g + 1 + i] == PathOf(lines[i])
    {
      assert es[g + 1 + i] == tail[1 + i];
    }
    forall i | 0 <= i < |es|
      ensures es[i].PathElement? <==> g < i < |es| - 1
    {
      if i < g {
        assert es[i] == front[i];
      } else {
        assert es[i] == tail[i - g];
      }
    }
  }

  /** The curve a path element describes, as the context command that draws it at resolution 1. */
  function CurveOf(e: SvgElement): (op: DrawOp)
    requires e.PathElement?
  {
    StrokeBezier(e.from, e.control1, e.control2, e.to, e.stroke, e.strokeWidth, e.lineCap)
  }

  /**
   * The SVG and the raster export draw the same curves: the i-th stroke
   * drawn at a resolution multiplier is the i-th SVG path scaled by it.
   */
  lemma SvgMatchesRaster(width: int, height: int, bgColor: string, opacity: real, showGrid: bool,
                         lines: seq<Stroke>, resolution: real, i: nat)
    requires width >= 0 && height >= 0
    requires i < |lines|
    ensures var es := SvgElements(width, height, bgColor, opacity, showGrid, lines);
            var g := LinesGroupIndex(width, height, opacity, showGrid);
            es[g + 1 + i].PathElement?
            && LineOps(lines, resolution)[i] == ScaleOp(CurveOf(es[g + 1 + i]), resolution)
  {
    SvgPathPerLine(width, height, bgColor, opacity, showGrid, lines);
    var s := lines[i];
    assert ScalePoint(s.startPoint, 1.0) == s.startPoint;
    DrawAtResolution(s, resolution);
  }

  /** The segment a grid line element draws. */
  function GridSegment(e: SvgElement): Segment
    requires e.GridLine?
  {
    Segment(Point(e.x1 as real, e.y1 as real), Point(e.x2 as real, e.y2 as real))
  }

  /**
   * The export grid is the SVG grid scaled by the resolution multiplier:
   * the same number of lines, each the SVG line's segment scaled, drawn
   * #cccccc at half opacity with a line width of 0.5·resolution.
   */
  lemma ExportGridIsScaledSvgGrid(width: int, height: int, resolution: real)
    requires width >= 0 && height >= 0 && resolution > 0.0
    ensures var ops := ExportGridOps(width, height, resolution);
            var gl := GridLines(width, height);
            |ops| == |gl|
            && forall i :: 0 <= i < |gl| ==>
                 gl[i].GridLine?
                 && ops[i] == StrokeSegment(ScaleSegment(GridSegment(gl[i]), resolution), "#cccccc", 0.5 * resolution, 0.5)
  {
    var ops := ExportGridOps(width, height, resolution);
    var gl := GridLines(width, height);
    var nx := width / 20 + 1;
    assert |ops| == |gl| by {
      ScaledTicks(width, resolution);
      ScaledTicks(height, resolution);
    }
    forall i | 0 <= i < |gl|
      ensures gl[i].GridLine?
      ensures ops[i] == StrokeSegment(ScaleSegment(GridSegment(gl[i]), resolution), "#cccccc", 0.5 * resolution, 0.5)
    {
      if i < nx {
        assert gl[i] == GridLine(i * 20, 0, i * 20, height);
        ExportGridVertical(width, height, resolution, i);
      } else {
        assert gl[i] == GridLine(0, (i - nx) * 20, width, (i - nx) * 20);
        ExportGridHorizontal(width, height, resolution, i - nx);
      }
    }
  }

  /** The i-th vertical line of the export grid is the SVG's line x = 20·i scaled. */
  lemma ExportGridVertical(width: int, height: int, resolution: real, i: nat)
    requires width >= 0 && height >= 0 && resolution > 0.0
    requires i <= width / 20
    ensures i < |ExportGridOps(width, height, resolution)|
    ensures ExportGridOps(width, height, resolution)[i]
              == StrokeSegment(ScaleSegment(GridSegment(GridLine(i * 20, 0, i * 20, height)), resolution),
                               "#cccccc", 0.5 * resolution, 0.5)
  {
    ScaledTicks(width, resolution);
    ScaledTicks(height, resolution);
    assert |ExportGridOps(width, height, resolution)| == (width / 20 + 1) + (height / 20 + 1);
    var xs := Ticks(width as real * resolution, 20.0 * resolution);
    var x := (i * 20) as real;
    assert xs[i] == x * resolution;
    assert ExportGridOps(width, height, resolution)[i]
           == StrokeSegment(Segment(Point(xs[i], 0.0), Point(xs[i], height as real * resolution)),
                            "#cccccc", 0.5 * resolution, 0.5);
  }

  /** The j-th horizontal line of the export grid is the SVG's line y = 20·j scaled. */
  lemma ExportGridHorizontal(width: int, height: int, resolution: real, j: nat)
    requires width >= 0 && height >= 0 && resolution > 0.0
    requires j <= height / 20
    ensures width / 20 + 1 + j < |ExportGridOps(width, height, resolution)|
    ensures ExportGridOps(width, height, resolution)[width / 20 + 1 + j]
              == StrokeSegment(ScaleSegment(GridSegment(GridLine(0, j * 20, width, j * 20)), resolution),
                               "#cccccc", 0.5 * resolution, 0.5)
  {
    ScaledTicks(width, resolution);
    ScaledTicks(height, resolution);
    assert |ExportGridOps(width, height, resolution)| == (width / 20 + 1) + (height / 20 + 1);
    var ys := Ticks(height as real * resolution, 20.0 * resolution);
    var y := (j * 20) as real;
    assert ys[j] == y * resolution;
    assert ExportGridOps(width, height, resolution)[width / 20 + 1 + j]
           == StrokeSegment(Segment(Point(0.0, ys[j]), Point(width as real * resolution, ys[j])),
                            "#cccccc", 0.5 * resolution, 0.5);
  }

  /** The export grid's positions along one side: the SVG positions 20·i, each times the resolution. */
  lemma ScaledTicks(size: int, resolution: real)
    requires size >= 0 && resolution > 0.0
    ensures |Ticks(size as real * resolution, 20.0 * resolution)| == size / 20 + 1
    ensures forall i :: 0 <= i <= size / 20 ==>
              Ticks(size as real * resolution, 20.0 * resolution)[i] == (i * 20) as real * resolution
  {
    TicksScale(size as real, 20.0, resolution);
    Canvas.GridTickCount(size, 20);
  }

  /** What exportImage produces: an encoded raster canvas, or an SVG document with its file name. */
  datatype Artifact = Raster(image: RasterImage) | Svg(content: string, svgFilename: string)

  class ExportManager {
    const canvasManager: Canvas.CanvasManager
    const lineGenerator: Lines.LineGenerator

    constructor (canvasManager: Canvas.CanvasManager, lineGenerator: Lines.LineGenerator)
      ensures this.canvasManager == canvasManager && this.lineGenerator == lineGenerator
    {
      this.canvasManager := canvasManager;
      this.lineGenerator := lineGenerator;
    }

    /**
     * drawGridOnCanvas: the two `x += gridSize` loops over the scaled
     * canvas, recorded as the commands they emit.
     */
    method DrawGridOnCanvas(width: int, height: int, resolution: real) returns (ops: seq<DrawOp>)
      requires resolution > 0.0
      ensures ops == ExportGridOps(width, height, resolution)
    {
      var step := 20.0 * resolution;
      var w, h := width as real * resolution, height as real * resolution;
      var xs := Steps(w, step);
      var ys := Steps(h, step);
      ops := [];
      var i := 0;
      while i < |xs|
        invariant 0 <= i <= |xs|
        invariant ops == seq(i, k requires 0 <= k < i =>
                               StrokeSegment(Segment(Point(xs[k], 0.0), Point(xs[k], h)), "#cccccc", 0.5 * resolution, 0.5))
      {
        ops := ops + [StrokeSegment(Segment(Point(xs[i], 0.0), Point(xs[i], h)), "#cccccc", 0.5 * resolution, 0.5)];
        i := i + 1;
      }
      ghost var vertical := ops;
      var j := 0;
      while j < |ys|
        invariant 0 <= j <= |ys|
        invariant ops == vertical + seq(j, k requires 0 <= k < j =>
                                          StrokeSegment(Segment(Point(0.0, ys[k]), Point(w, ys[k])), "#cccccc", 0.5 * resolution, 0.5))
      {
        ops := ops + [StrokeSegment(Segment(Point(0.0, ys[j]), Point(w, ys[j])), "#cccccc", 0.5 * resolution, 0.5)];
        j := j + 1;
      }
    }

    /** The `for (const line of lines)` loop of the raster export: each stroke drawn at the resolution multiplier. */
    method DrawLines(lines: seq<Stroke>, resolution: real) returns (ops: seq<DrawOp>)
      ensures ops == LineOps(lines, resolution)
    {
      ops := [];
      var i := 0;
      while i < |lines|
        invariant 0 <= i <= |lines|
        invariant ops == LineOps(lines[..i], resolution)
      {
        assert lines[..i + 1] == lines[..i] + [lines[i]];
        ops := ops + [DrawLineOnCanvas(lines[i], resolution)];
        i := i + 1;
      }
      assert lines[..i] == lines;
    }

    /**
     * exportRasterImage: a canvas of ⌊width·resolution⌋ × ⌊height·resolution⌋
     * (the size attributes keep the whole part), the background unless
     * the format is png and the opacity is 0, the grid when shown, then
     * every stored stroke scaled by the resolution; PNG, or JPEG at
     * quality 0.9.
     */
    method ExportRasterImage(form: ExportForm, isoNow: string) returns (img: RasterImage)
      requires form.resolution > 0.0
      requires canvasManager.width >= 0 && canvasManager.height >= 0
      ensures img.canvasWidth == ScaledSize(canvasManager.width, form.resolution)
      ensures img.canvasHeight == ScaledSize(canvasManager.height, form.resolution)
      ensures img.ops == RasterBackground(form.format, form.bgColor, form.bgOpacity as real / 100.0,
                                          img.canvasWidth, img.canvasHeight)
                         + (if form.showGrid then ExportGridOps(canvasManager.width, canvasManager.height, form.resolution) else [])
                         + LineOps(lineGenerator.lines, form.resolution)
      ensures img.mimeType == (if form.format == "png" then "image/png" else "image/jpeg")
      ensures img.quality == (if form.format == "jpg" then Some(0.9) else None)
      ensures img.filename == FileName(canvasManager.width, canvasManager.height, isoNow, form.format)
    {
      var size := canvasManager.GetSize();
      var width, height := size.0, size.1;
      var canvasWidth := ScaledSize(width, form.resolution);
      var canvasHeight := ScaledSize(height, form.resolution);
      var background := [];
      var opacity := form.bgOpacity as real / 100.0;
      if form.format != "png" || opacity > 0.0 {
        background := [FillRect(form.bgColor, opacity, canvasWidth as real, canvasHeight as real)];
      }
      assert background == RasterBackground(form.format, form.bgColor, opacity, canvasWidth, canvasHeight);
      var grid := [];
      if form.showGrid {
        grid := DrawGridOnCanvas(width, height, form.resolution);
      }
      var lines := lineGenerator.GetLines();
      var strokes := DrawLines(lines, form.resolution);
      var ops := background + grid + strokes;
      var mimeType := if form.format == "png" then "image/png" else "image/jpeg";
      var quality := if form.format == "jpg" then Some(0.9) else None;
      img := RasterImage(canvasWidth, canvasHeight, ops, mimeType, quality, FileName(width, height, isoNow, form.format));
    }

    /** The grid group of the SVG: its opening tag, the two grid loops, its closing tag. */
    method GridGroup(width: int, height: int) returns (parts: seq<SvgElement>)
      requires width >= 0 && height >= 0
      ensures parts == GridGroupParts(width, height)
    {
      parts := [GridStart];
      var x := 0;
      while x <= width
        invariant x % 20 == 0 && 0 <= x <= (width / 20 + 1) * 20
        invariant parts == [GridStart] + VerticalGridLines(height, x / 20)
        decreases width - x
      {
        VerticalGridLinesSnoc(height, x / 20);
        parts := parts + [GridLine(x, 0, x, height)];
        x := x + 20;
      }
      ghost var vertical := parts;
      var y := 0;
      while y <= height
        invariant y % 20 == 0 && 0 <= y <= (height / 20 + 1) * 20
        invariant parts == vertical + HorizontalGridLines(width, y / 20)
        decreases height - y
      {
        HorizontalGridLinesSnoc(width, y / 20);
        parts := parts + [GridLine(0, y, width, y)];
        y := y + 20;
      }
      parts := parts + [GridEnd];
    }

    /** The lines group of the SVG: its opening tag, one path per stroke in stored order, then the closing tags. */
    method LinesGroup(lines: seq<Stroke>) returns (parts: seq<SvgElement>)
      ensures parts == LinesGroupParts(lines)
    {
      parts := [LinesStart];
      var i := 0;
      while i < |lines|
        invariant 0 <= i <= |lines|
        invariant parts == [LinesStart] + PathsOf(lines[..i])
      {
        assert lines[..i + 1] == lines[..i] + [lines[i]];
        parts := parts + [PathOf(lines[i])];
        i := i + 1;
      }
      assert lines[..i] == lines;
      parts := parts + [LinesEnd];
    }

    /**
     * exportSVG: the rectangle (when the opacity is positive), the grid
     * group (when shown) and the lines group, appended in document order
     * by the same loops as the source; the document text is the header
     * followed by the text of each part.
     */
    method ExportSvg(form: ExportForm, isoNow: string, fmt: real -> string)
      returns (parts: seq<SvgElement>, content: string, filename: string)
      requires canvasManager.width >= 0 && canvasManager.height >= 0
      ensures var w, h := canvasManager.width, canvasManager.height;
              parts == SvgElements(w, h, form.bgColor, form.bgOpacity as real / 100.0, form.showGrid, lineGenerator.lines)
              && content == Document(w, h, parts, fmt)
              && filename == FileName(w, h, isoNow, "svg")
    {
      var size := canvasManager.GetSize();
      var width, height := size.0, size.1;
      var opacity := form.bgOpacity as real / 100.0;
      parts := [];
      if opacity > 0.0 {
        parts := parts + [Background(width, height, form.bgColor, opacity)];
      }
      ghost var background := parts;
      assert background == if opacity > 0.0 then [Background(width, height, form.bgColor, opacity)] else [];
      if form.showGrid {
        var grid := GridGroup(width, height);
        parts := parts + grid;
      } else {
        assert parts == background + [];
      }
      ghost var grid := if form.showGrid then GridGroupParts(width, height) else [];
      assert parts == background + grid;
      var lines := lineGenerator.GetLines();
      var paths := LinesGroup(lines);
      parts := parts + paths;
      assert parts == SvgElements(width, height, form.bgColor, opacity, form.showGrid, lines);
      assert width == canvasManager.width && height == canvasManager.height && lines == lineGenerator.lines;
      content := Document(width, height, parts, fmt);
      filename := FileName(width, height, isoNow, "svg");
    }

    /**
     * exportImage: png and jpg go to the raster export, svg to the SVG
     * export, and any other format produces nothing.
     */
    method ExportImage(form: ExportForm, isoNow: string, fmt: real -> string) returns (result: Option<Artifact>)
      requires form.format == "png" || form.format == "jpg" ==> form.resolution > 0.0
      requires canvasManager.width >= 0 && canvasManager.height >= 0
      ensures (form.format == "png" || form.format == "jpg") <==> result.Some? && result.value.Raster?
      ensures form.format == "svg" <==> result.Some? && result.value.Svg?
      ensures result.Some? && result.value.Raster? ==>
                var img, w, h := result.value.image, canvasManager.width, canvasManager.height;
                img.canvasWidth == ScaledSize(w, form.resolution)
                && img.canvasHeight == ScaledSize(h, form.resolution)
                && img.ops == RasterBackground(form.format, form.bgColor, form.bgOpacity as real / 100.0,
                                               img.canvasWidth, img.canvasHeight)
                              + (if form.showGrid then ExportGridOps(w, h, form.resolution) else [])
                              + LineOps(lineGenerator.lines, form.resolution)
                && img.mimeType == (if form.format == "png" then "image/png" else "image/jpeg")
                && img.quality == (if form.format == "jpg" then Some(0.9) else None)
                && img.filename == FileName(w, h, isoNow, form.format)
      ensures result.Some? && result.value.Svg? ==>
                var w, h := canvasManager.width, canvasManager.height;
                result.value.content
                  == Document(w, h, SvgElements(w, h, form.bgColor, form.bgOpacity as real / 100.0,
                                                form.showGrid, lineGenerator.lines), fmt)
                && result.value.svgFilename == FileName(w, h, isoNow, "svg")
    {
      if form.format == "png" || form.format == "jpg" {
        var img := ExportRasterImage(form, isoNow);
        result := Some(Raster(img));
      } else if form.format == "svg" {
        var _, content, filename := ExportSvg(form, isoNow, fmt);
        result := Some(Svg(content, filename));
      } else {
        result := None;
      }
    }
  }
}
