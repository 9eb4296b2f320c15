/**
 * The monolithic engine of script.js: the page's own LineGenerator
 * class, which sizes the canvas, generates strokes on the fly while it
 * draws the preview, and exports a PNG/JPG (redrawn at a whole
 * resolution multiplier) or an SVG document.
 *
 * It differs from the modular engine in the stroke rule (real-valued
 * endpoints, control points pushed off the quarter and three-quarter
 * points of the segment, black strokes only), in drawing (coordinates
 * snapped to pixel centres, a 50-unit grid, the background's alpha
 * written into the colour text) and in exporting (a fresh batch of
 * strokes per export, no grid).
 *
 * Draws are consumed in the source's order: width; the cap coin (mixed
 * caps only); the mode coin (mixed mode only); the orientation coin
 * (through strokes only); the endpoint draws (2 through, 4 random); the
 * four control-point draws.
 */
module Script {
  import opened Utils
  import opened Drawing
  import Canvas
  import Lines
  import Export

  /** The form controls generateLine reads; curveStrength is the slider's whole percentage. */
  datatype LineForm = LineForm(lineMode: string, curveStrength: int, minWidth: real, maxWidth: real, capMode: string)

  /** One generated stroke: a cubic Bézier from start to end, with its width and cap. */
  datatype Line = Line(start: Point, end: Point, control1: Point, control2: Point, width: real, cap: string)

  /** The values the line-mode radio group offers. */
  predicate KnownLineMode(lineMode: string)
  {
    lineMode == "mixed" || lineMode == "through" || lineMode == "random"
  }

  /** `options[Math.floor(r * options.length)]`: a uniformly chosen element. */
  function Choice(r: real, options: seq<string>): (s: string)
    requires 0.0 <= r < 1.0 && |options| > 0
    ensures s in options
  {
    var n := |options| as real;
    var i := Floor(r * n);
    DrawScales(r, n);
    assert 0.0 <= r * n < n;
    assert i as real <= r * n < (i + 1) as real;
    options[i]
  }

  /** Of two options the first is chosen exactly when the draw is below one half. */
  lemma ChoiceOfTwo(r: real, a: string, b: string)
    requires 0.0 <= r < 1.0
    ensures Choice(r, [a, b]) == if r < 0.5 then a else b
  {
    if r < 0.5 {
      assert Floor(r * 2.0) == 0;
    } else {
      assert Floor(r * 2.0) == 1;
    }
  }

  const Modes: seq<string> := ["through", "random"]

  const CapOptions: seq<string> := ["butt", "round"]

  /** `Math.random() * size`: a position along one side of the canvas, in [0, size). */
  function Along(r: real, size: int): (v: real)
    ensures 0.0 <= r < 1.0 && size >= 0 ==> 0.0 <= v <= size as real && (size > 0 ==> v < size as real)
  {
    var s := size as real;
    if 0.0 <= r < 1.0 && s >= 0.0 then DrawScales(r, s); r * s
    else r * s
  }

  /**
   * The two ends of an edge-to-edge stroke: from the left edge to the
   * right one when the orientation coin is above 0.5, otherwise from the
   * top edge to the bottom one, at random positions along the edges.
   */
  function ThroughEnds(width: int, height: int, rand: Stream, j: nat): (d: Lines.Drawn<(Point, Point)>)
    ensures d.next == j + 3
  {
    if rand(j) > 0.5 then
      Lines.Drawn((Point(0.0, Along(rand(j + 1), height)), Point(width as real, Along(rand(j + 2), height))), j + 3)
    else
      Lines.Drawn((Point(Along(rand(j + 1), width), 0.0), Point(Along(rand(j + 2), width), height as real)), j + 3)
  }

  /** The two ends of a free stroke: four random coordinates. */
  function RandomEnds(width: int, height: int, rand: Stream, j: nat): (d: Lines.Drawn<(Point, Point)>)
    ensures d.next == j + 4
  {
    Lines.Drawn((Point(Along(rand(j), width), Along(rand(j + 1), height)),
                 Point(Along(rand(j + 2), width), Along(rand(j + 3), height))), j + 4)
  }

  /** The endpoint branch of generateLine: mixed mode first picks `through` or `random` from Modes. */
  function Endpoints(lineMode: string, width: int, height: int, rand: Stream, j: nat): Lines.Drawn<(Point, Point)>
    requires Uniform(rand) && KnownLineMode(lineMode)
  {
    if lineMode == "mixed" then
      if Choice(rand(j), Modes) == "through" then ThroughEnds(width, height, rand, j + 1)
      else RandomEnds(width, height, rand, j + 1)
    else if lineMode == "through" then ThroughEnds(width, height, rand, j)
    else RandomEnds(width, height, rand, j)
  }

  /** The cap: drawn from CapOptions in mixed cap mode, otherwise the selected value itself. */
  function PickCap(capMode: string, rand: Stream, j: nat): Lines.Drawn<string>
    requires Uniform(rand)
  {
    if capMode == "mixed" then Lines.Drawn(Choice(rand(j), CapOptions), j + 1)
    else Lines.Drawn(capMode, j)
  }

  /** `(Math.random() - 0.5) * size * curveStrength`: the push of a control point along one axis. */
  function Wobble(r: real, size: real, curveStrength: real): real
  {
    (r - 0.5) * size * curveStrength
  }

  /** The point a fraction t of the way from start to end, pushed by a wobble on each axis. */
  function ControlPoint(start: Point, end: Point, t: real, rx: real, ry: real,
                        width: int, height: int, curveStrength: real): Point
  {
    Point(start.x + (end.x - start.x) * t + Wobble(rx, width as real, curveStrength),
          start.y + (end.y - start.y) * t + Wobble(ry, height as real, curveStrength))
  }

  /** `parseInt(curve-strength) / 100`. */
  function CurveStrength(f: LineForm): real
  {
    f.curveStrength as real / 100.0
  }

  /** generateLine on a width × height canvas, reading the stream from index k. */
  function GenerateLine(f: LineForm, width: int, height: int, rand: Stream, k: nat): Lines.Drawn<Line>
    requires Uniform(rand) && KnownLineMode(f.lineMode)
  {
    var lineWidth := f.minWidth + rand(k) * (f.maxWidth - f.minWidth);
    var cap := PickCap(f.capMode, rand, k + 1);
    var ends := Endpoints(f.lineMode, width, height, rand, cap.next);
    var j := ends.next;
    var cs := CurveStrength(f);
    Lines.Drawn(Line(ends.value.0, ends.value.1,
                     ControlPoint(ends.value.0, ends.value.1, 0.25, rand(j), rand(j + 1), width, height, cs),
                     ControlPoint(ends.value.0, ends.value.1, 0.75, rand(j + 2), rand(j + 3), width, height, cs),
                     lineWidth, cap.value), j + 4)
  }

  // ---------------------------------------------------------------------
  // Properties of one stroke
  // ---------------------------------------------------------------------

  /** A point of the closed canvas rectangle. */
  predicate InBox(p: Point, width: int, height: int)
  {
    0.0 <= p.x <= width as real && 0.0 <= p.y <= height as real
  }

  /** A point strictly inside the canvas on the far sides: [0, width) × [0, height). */
  predicate InOpenBox(p: Point, width: int, height: int)
  {
    0.0 <= p.x < width as real && 0.0 <= p.y < height as real
  }

  /** The index of the first endpoint draw: after the width and, in mixed cap mode, the cap coin. */
  function EndpointStart(f: LineForm, rand: Stream, k: nat): nat
    requires Uniform(rand)
  {
    PickCap(f.capMode, rand, k + 1).next
  }

  /** An edge-to-edge stroke touches opposite edges, horizontally exactly when its coin is above 0.5, and stays in the canvas. */
  lemma ThroughEndsPlaced(width: int, height: int, rand: Stream, j: nat)
    requires Uniform(rand) && width >= 0 && height >= 0
    ensures var (s, e) := ThroughEnds(width, height, rand, j).value;
            EdgeToEdge(s, e, width, height) && InBox(s, width, height) && InBox(e, width, height)
            && (rand(j) > 0.5 ==> s.x == 0.0 && e.x == width as real)
            && (rand(j) <= 0.5 ==> s.y == 0.0 && e.y == height as real)
  {
    assert 0.0 <= rand(j + 1) < 1.0 && 0.0 <= rand(j + 2) < 1.0;
  }

  /** A free stroke has both ends in [0, width) × [0, height) on a canvas of positive size. */
  lemma RandomEndsInside(width: int, height: int, rand: Stream, j: nat)
    requires Uniform(rand) && width > 0 && height > 0
    ensures var (s, e) := RandomEnds(width, height, rand, j).value;
            InOpenBox(s, width, height) && InOpenBox(e, width, height)
  {
    assert 0.0 <= rand(j) < 1.0 && 0.0 <= rand(j + 1) < 1.0;
    assert 0.0 <= rand(j + 2) < 1.0 && 0.0 <= rand(j + 3) < 1.0;
  }

  lemma RandomEndsInBox(width: int, height: int, rand: Stream, j: nat)
    requires Uniform(rand) && width >= 0 && height >= 0
    ensures var (s, e) := RandomEnds(width, height, rand, j).value;
            InBox(s, width, height) && InBox(e, width, height)
  {
    assert 0.0 <= rand(j) < 1.0 && 0.0 <= rand(j + 1) < 1.0;
    assert 0.0 <= rand(j + 2) < 1.0 && 0.0 <= rand(j + 3) < 1.0;
  }

  /**
   * Mixed line mode picks `through` when the mode draw is below one half
   * and `random` otherwise, then reads that mode's endpoints after it.
   */
  lemma MixedModePick(width: int, height: int, rand: Stream, j: nat)
    requires Uniform(rand)
    ensures Endpoints("mixed", width, height, rand, j)
            == if rand(j) < 0.5 then ThroughEnds(width, height, rand, j + 1) else RandomEnds(width, height, rand, j + 1)
  {
    ChoiceOfTwo(rand(j), "through", "random");
  }

  /**
   * Where a generated stroke lies: in `through` mode it runs between
   * opposite edges; in `random` mode both ends are in [0, width) ×
   * [0, height); in every mode both ends are in the closed canvas.
   */
  lemma EndpointsPlaced(f: LineForm, width: int, height: int, rand: Stream, k: nat)
    requires Uniform(rand) && KnownLineMode(f.lineMode) && width >= 0 && height >= 0
    ensures var l := GenerateLine(f, width, height, rand, k).value;
            InBox(l.start, width, height) && InBox(l.end, width, height)
            && (f.lineMode == "through" ==> EdgeToEdge(l.start, l.end, width, height))
            && (f.lineMode == "random" && width > 0 && height > 0 ==>
                  InOpenBox(l.start, width, height) && InOpenBox(l.end, width, height))
  {
    var j := EndpointStart(f, rand, k);
    var ends := Endpoints(f.lineMode, width, height, rand, j);
    var l := GenerateLine(f, width, height, rand, k).value;
    assert l.start == ends.value.0 && l.end == ends.value.1;
    var jt := if f.lineMode == "mixed" then j + 1 else j;
    ThroughEndsPlaced(width, height, rand, jt);
    RandomEndsInBox(width, height, rand, jt);
    if f.lineMode == "random" && width > 0 && height > 0 {
      RandomEndsInside(width, height, rand, j);
    }
  }

  /** A wobble is at most half of size·curveStrength either way, strictly less upwards, and 0 at zero strength. */
  lemma WobbleBound(r: real, size: real, curveStrength: real)
    requires 0.0 <= r < 1.0 && size >= 0.0 && curveStrength >= 0.0
    ensures var m := size * curveStrength / 2.0;
            -m <= Wobble(r, size, curveStrength) <= m
            && (m > 0.0 ==> Wobble(r, size, curveStrength) < m)
            && (curveStrength == 0.0 ==> Wobble(r, size, curveStrength) == 0.0)
  {
    WobbleLower(r, size, curveStrength);
    WobbleUpper(r, size, curveStrength);
  }

  lemma WobbleLower(r: real, size: real, curveStrength: real)
    requires 0.0 <= r < 1.0 && size >= 0.0 && curveStrength >= 0.0
    ensures -(size * curveStrength / 2.0) <= Wobble(r, size, curveStrength)
  {
    var m := size * curveStrength;
    MulNonNegative(size, curveStrength);
    DrawScales(r, m);
    assert Wobble(r, size, curveStrength) == r * m - m / 2.0;
  }

  lemma WobbleUpper(r: real, size: real, curveStrength: real)
    requires 0.0 <= r < 1.0 && size >= 0.0 && curveStrength >= 0.0
    ensures Wobble(r, size, curveStrength) <= size * curveStrength / 2.0
    ensures size * curveStrength > 0.0 ==> Wobble(r, size, curveStrength) < size * curveStrength / 2.0
  {
    var m := size * curveStrength;
    MulNonNegative(size, curveStrength);
    DrawScales(r, m);
    assert Wobble(r, size, curveStrength) == r * m - m / 2.0;
  }

  /** `c` lies within mx of `target` on x and my on y, strictly below on the far side when the margin is positive. */
  predicate Near(c: Point, target: Point, mx: real, my: real)
  {
    target.x - mx <= c.x <= target.x + mx && (mx > 0.0 ==> c.x < target.x + mx)
    && target.y - my <= c.y <= target.y + my && (my > 0.0 ==> c.y < target.y + my)
  }

  /** The point a quarter of the way from a to b. */
  function QuarterPoint(a: Point, b: Point): Point
  {
    Point((3.0 * a.x + b.x) / 4.0, (3.0 * a.y + b.y) / 4.0)
  }

  /** One coordinate of a control point: the point a fraction t along [a, b], within size·cs/2 of it. */
  lemma AxisBound(a: real, b: real, t: real, r: real, size: real, curveStrength: real)
    requires 0.0 <= r < 1.0 && size >= 0.0 && curveStrength >= 0.0
    ensures var c := a + (b - a) * t + Wobble(r, size, curveStrength);
            var target := a + (b - a) * t;
            var m := size * curveStrength / 2.0;
            target - m <= c <= target + m && (m > 0.0 ==> c < target + m)
            && (curveStrength == 0.0 ==> c == target)
  {
    WobbleBound(r, size, curveStrength);
  }

  lemma ControlPointBound(start: Point, end: Point, t: real, rx: real, ry: real,
                          width: int, height: int, curveStrength: real)
    requires 0.0 <= rx < 1.0 && 0.0 <= ry < 1.0
    requires width >= 0 && height >= 0 && curveStrength >= 0.0
    ensures var c := ControlPoint(start, end, t, rx, ry, width, height, curveStrength);
            var target := Point(start.x + (end.x - start.x) * t, start.y + (end.y - start.y) * t);
            Near(c, target, width as real * curveStrength / 2.0, height as real * curveStrength / 2.0)
            && (curveStrength == 0.0 ==> c == target)
  {
    var c := ControlPoint(start, end, t, rx, ry, width, height, curveStrength);
    AxisBound(start.x, end.x, t, rx, width as real, curveStrength);
    AxisBound(start.y, end.y, t, ry, height as real, curveStrength);
    assert c.x == start.x + (end.x - start.x) * t + Wobble(rx, width as real, curveStrength);
    assert c.y == start.y + (end.y - start.y) * t + Wobble(ry, height as real, curveStrength);
  }

  /** The first control point of generateLine lies near the quarter point of the chord. */
  lemma NearQuarterPoint(s: Point, e: Point, c: Point, rx: real, ry: real,
                         width: int, height: int, curveStrength: real)
    requires 0.0 <= rx < 1.0 && 0.0 <= ry < 1.0
    requires width >= 0 && height >= 0 && curveStrength >= 0.0
    requires c == ControlPoint(s, e, 0.25, rx, ry, width, height, curveStrength)
    ensures Near(c, QuarterPoint(s, e), width as real * curveStrength / 2.0, height as real * curveStrength / 2.0)
    ensures curveStrength == 0.0 ==> c == QuarterPoint(s, e)
  {
    ControlPointBound(s, e, 0.25, rx, ry, width, height, curveStrength);
    assert Point(s.x + (e.x - s.x) * 0.25, s.y + (e.y - s.y) * 0.25) == QuarterPoint(s, e);
  }

  /** The second control point of generateLine lies near the three-quarter point of the chord. */
  lemma NearThreeQuarterPoint(s: Point, e: Point, c: Point, rx: real, ry: real,
                              width: int, height: int, curveStrength: real)
    requires 0.0 <= rx < 1.0 && 0.0 <= ry < 1.0
    requires width >= 0 && height >= 0 && curveStrength >= 0.0
    requires c == ControlPoint(s, e, 0.75, rx, ry, width, height, curveStrength)
    ensures Near(c, QuarterPoint(e, s), width as real * curveStrength / 2.0, height as real * curveStrength / 2.0)
    ensures curveStrength == 0.0 ==> c == QuarterPoint(e, s)
  {
    ControlPointBound(s, e, 0.75, rx, ry, width, height, curveStrength);
    assert Point(s.x + (e.x - s.x) * 0.75, s.y + (e.y - s.y) * 0.75) == QuarterPoint(e, s);
  }

  /** Which draws make up a generated stroke: its ends come from Endpoints, its control points from the four draws after them. */
  lemma GenerateLineParts(f: LineForm, width: int, height: int, rand: Stream, k: nat)
    requires Uniform(rand) && KnownLineMode(f.lineMode)
    ensures var ends := Endpoints(f.lineMode, width, height, rand, EndpointStart(f, rand, k));
            var n := ends.next;
            var l := GenerateLine(f, width, height, rand, k).value;
            l.start == ends.value.0 && l.end == ends.value.1
            && l.control1 == ControlPoint(l.start, l.end, 0.25, rand(n), rand(n + 1), width, height, CurveStrength(f))
            && l.control2 == ControlPoint(l.start, l.end, 0.75, rand(n + 2), rand(n + 3), width, height, CurveStrength(f))
  {
  }

  /**
   * Control point 1 lies within width·cs/2 (x) and height·cs/2 (y) of the
   * point a quarter of the way from start to end, with cs the curve
   * strength as a fraction; at zero strength it is exactly that point.
   */
  lemma Control1NearQuarter(f: LineForm, width: int, height: int, rand: Stream, k: nat)
    requires Uniform(rand) && KnownLineMode(f.lineMode)
    requires width >= 0 && height >= 0 && f.curveStrength >= 0
    ensures var l := GenerateLine(f, width, height, rand, k).value;
            var cs := CurveStrength(f);
            Near(l.control1, QuarterPoint(l.start, l.end), width as real * cs / 2.0, height as real * cs / 2.0)
            && (f.curveStrength == 0 ==> l.control1 == QuarterPoint(l.start, l.end))
  {
    var n := Endpoints(f.lineMode, width, height, rand, EndpointStart(f, rand, k)).next;
    var l := GenerateLine(f, width, height, rand, k).value;
    var cs := CurveStrength(f);
    assert l.control1 == ControlPoint(l.start, l.end, 0.25, rand(n), rand(n + 1), width, height, cs) by {
      GenerateLineParts(f, width, height, rand, k);
    }
    NearQuarterPoint(l.start, l.end, l.control1, rand(n), rand(n + 1), width, height, cs);
  }

  /** Control point 2 likewise, around the point three quarters of the way from start to end. */
  lemma Control2NearThreeQuarters(f: LineForm, width: int, height: int, rand: Stream, k: nat)
    requires Uniform(rand) && KnownLineMode(f.lineMode)
    requires width >= 0 && height >= 0 && f.curveStrength >= 0
    ensures var l := GenerateLine(f, width, height, rand, k).value;
            var cs := CurveStrength(f);
            Near(l.control2, QuarterPoint(l.end, l.start), width as real * cs / 2.0, height as real * cs / 2.0)
            && (f.curveStrength == 0 ==> l.control2 == QuarterPoint(l.end, l.start))
  {
    var n := Endpoints(f.lineMode, width, height, rand, EndpointStart(f, rand, k)).next;
    var l := GenerateLine(f, width, height, rand, k).value;
    var cs := CurveStrength(f);
    assert l.control2 == ControlPoint(l.start, l.end, 0.75, rand(n + 2), rand(n + 3), width, height, cs) by {
      GenerateLineParts(f, width, height, rand, k);
    }
    NearThreeQuarterPoint(l.start, l.end, l.control2, rand(n + 2), rand(n + 3), width, height, cs);
  }

  /** The width lies in [minWidth, maxWidth), and is minWidth when the two are equal. */
  lemma WidthInRange(f: LineForm, width: int, height: int, rand: Stream, k: nat)
    requires Uniform(rand) && KnownLineMode(f.lineMode)
    requires f.minWidth <= f.maxWidth
    ensures var w := GenerateLine(f, width, height, rand, k).value.width;
            f.minWidth <= w && (f.minWidth < f.maxWidth ==> w < f.maxWidth)
            && (f.minWidth == f.maxWidth ==> w == f.minWidth)
  {
    RandomFloatRange(rand(k), f.minWidth, f.maxWidth);
    assert GenerateLine(f, width, height, rand, k).value.width == RandomFloat(rand(k), f.minWidth, f.maxWidth);
  }

  /** Mixed caps give butt below one half and round otherwise; any other cap mode is used as it is. */
  lemma CapChoice(f: LineForm, width: int, height: int, rand: Stream, k: nat)
    requires Uniform(rand) && KnownLineMode(f.lineMode)
    ensures var cap := GenerateLine(f, width, height, rand, k).value.cap;
            (f.capMode == "mixed" ==> cap == if rand(k + 1) < 0.5 then "butt" else "round")
            && (f.capMode != "mixed" ==> cap == f.capMode)
  {
    ChoiceOfTwo(rand(k + 1), "butt", "round");
  }

  /** A stroke reads between 8 draws (set cap, through mode) and 11 (mixed cap, mixed mode, free stroke). */
  lemma GenerateLineDraws(f: LineForm, width: int, height: int, rand: Stream, k: nat)
    requires Uniform(rand) && KnownLineMode(f.lineMode)
    ensures k + 8 <= GenerateLine(f, width, height, rand, k).next <= k + 11
  {
  }

  // ---------------------------------------------------------------------
  // Batches
  // ---------------------------------------------------------------------

  /** generateLine on a fixed canvas and stream, as a function of the index it starts reading at. */
  function Generator(f: LineForm, width: int, height: int, rand: Stream): nat -> Lines.Drawn<Line>
    requires Uniform(rand) && KnownLineMode(f.lineMode)
  {
    (j: nat) => GenerateLine(f, width, height, rand, j)
  }

  /** `for (let i = 0; i < lineCount; i++)` runs lineCount times, or not at all for a count below 1. */
  function StrokeCount(lineCount: int): (n: nat)
    ensures lineCount >= 0 ==> n == lineCount
    ensures lineCount < 0 ==> n == 0
  {
    if lineCount < 0 then 0 else lineCount
  }

  // ---------------------------------------------------------------------
  // Drawing the preview
  // ---------------------------------------------------------------------

  /** A pixel centre: a whole number plus one half. */
  predicate PixelCentre(v: real)
  {
    Floor(v - 0.5) as real == v - 0.5
  }

  /** `Math.floor(v) + 0.5`: the centre of the pixel v falls in. */
  function Snap(v: real): (c: real)
    ensures PixelCentre(c)
    ensures v - 0.5 < c <= v + 0.5
  {
    Floor(v) as real + 0.5
  }

  /** Snapping a pixel centre leaves it where it is. */
  lemma SnapIdempotent(v: real)
    ensures Snap(Snap(v)) == Snap(v)
  {
    var f := Floor(v);
    assert Floor(f as real + 0.5) == f;
  }

  function SnapPoint(p: Point): Point
  {
    Point(Snap(p.x), Snap(p.y))
  }

  /** q is p moved to the centre of its pixel: both coordinates pixel centres, within half a pixel. */
  predicate Snapped(q: Point, p: Point)
  {
    PixelCentre(q.x) && PixelCentre(q.y)
    && p.x - 0.5 < q.x <= p.x + 0.5 && p.y - 0.5 < q.y <= p.y + 0.5
  }

  /** `line.cap || 'round'`: an empty cap falls back to round. */
  function CapOrRound(cap: string): (c: string)
    ensures c != ""
    ensures cap != "" ==> c == cap
  {
    if cap == "" then "round" else cap
  }

  /**
   * drawLine: the stroke in black at its own width, every point moved to
   * the centre of its pixel, with the stroke's cap (round when empty).
   */
  function DrawLine(l: Line): (op: DrawOp)
    ensures op.StrokeBezier? && op.bezierStyle == "#000000" && op.bezierWidth == l.width
    ensures op.bezierCap == CapOrRound(l.cap)
    ensures Snapped(op.start, l.start) && Snapped(op.control1, l.control1)
            && Snapped(op.control2, l.control2) && Snapped(op.end, l.end)
  {
    StrokeBezier(SnapPoint(l.start), SnapPoint(l.control1), SnapPoint(l.control2), SnapPoint(l.end),
                 "#000000", l.width, CapOrRound(l.cap))
  }

  /** The vertical half of drawGrid: `x = 0; x <= width; x += 50`, each line at the pixel centre ⌊x⌋ + 0.5. */
  function VerticalGridOps(width: int, height: int): (ops: seq<DrawOp>)
  {
    var xs := Ticks(width as real, 50.0);
    seq(|xs|, i requires 0 <= i < |xs| =>
          StrokeSegment(Segment(Point(Snap(xs[i]), 0.0), Point(Snap(xs[i]), height as real)), "#e0e0e0", 0.5, 1.0))
  }

  /** The horizontal half of drawGrid. */
  function HorizontalGridOps(width: int, height: int): (ops: seq<DrawOp>)
  {
    var ys := Ticks(height as real, 50.0);
    seq(|ys|, j requires 0 <= j < |ys| =>
          StrokeSegment(Segment(Point(0.0, Snap(ys[j])), Point(width as real, Snap(ys[j]))), "#e0e0e0", 0.5, 1.0))
  }

  function GridOps(width: int, height: int): seq<DrawOp>
  {
    VerticalGridOps(width, height) + HorizontalGridOps(width, height)
  }

  /**
   * The preview grid: light grey half-pixel lines every 50 units, both
   * far edges included (⌊size / 50⌋ + 1 lines per axis), each at the
   * pixel centre half a unit past its multiple of 50 and spanning the
   * whole canvas.
   */
  lemma GridOpsShape(width: int, height: int)
    requires width >= 0 && height >= 0
    ensures var v := VerticalGridOps(width, height);
            |v| == width / 50 + 1
            && forall i :: 0 <= i < |v| ==>
                 v[i] == StrokeSegment(Segment(Point((i * 50) as real + 0.5, 0.0), Point((i * 50) as real + 0.5, height as real)),
                                       "#e0e0e0", 0.5, 1.0)
    ensures var h := HorizontalGridOps(width, height);
            |h| == height / 50 + 1
            && forall j :: 0 <= j < |h| ==>
                 h[j] == StrokeSegment(Segment(Point(0.0, (j * 50) as real + 0.5), Point(width as real, (j * 50) as real + 0.5)),
                                       "#e0e0e0", 0.5, 1.0)
  {
    Canvas.GridTickCount(width, 50);
    Canvas.GridTickCount(height, 50);
  }

  /** `Number.prototype.toString(16)` of an integer: a minus sign before the digits of a negative one. */
  function HexText(n: int): string
  {
    if n >= 0 then Digits(n, 16) else "-" + Digits(-n, 16)
  }

  /** `Math.round(alpha * 255).toString(16).padStart(2, '0')`. */
  function AlphaHex(alpha: real): string
  {
    PadStart(HexText(Round(alpha * 255.0)), 2, '0')
  }

  /** The background fill of draw and exportImage: the colour text with the opacity (a percentage) appended as hex alpha. */
  function BackgroundFill(bgColor: string, bgOpacity: int): string
  {
    bgColor + AlphaHex(bgOpacity as real / 100.0)
  }

  /**
   * For an opacity in [0, 100] the fill is the colour text followed by
   * exactly two hex digits, which read back as round(opacity · 255 / 100).
   */
  lemma BackgroundFillAlpha(bgColor: string, bgOpacity: int)
    requires 0 <= bgOpacity <= 100
    ensures var s := BackgroundFill(bgColor, bgOpacity);
            var n := Round(bgOpacity as real / 100.0 * 255.0);
            0 <= n <= 255 && |s| == |bgColor| + 2 && s[..|bgColor|] == bgColor
            && ParseDigits(s[|bgColor|..], 16) == n
  {
    var x := bgOpacity as real / 100.0 * 255.0;
    var n := Round(x);
    RoundMonotonic(0.0, x);
    RoundOfInteger(0);
    RoundMonotonic(x, 255.0);
    RoundOfInteger(255);
    assert Power(16, 2) == 256;
    DigitsLength(n, 16, 2);
    var d := Digits(n, 16);
    ParseDigitsOfDigits(n, 16);
    var alpha := PadStart(d, 2, '0');
    if |d| == 1 {
      assert alpha == ['0'] + d;
      ParseDigitsLeadingZero(d, 16);
    } else {
      assert alpha == d;
    }
    var s := BackgroundFill(bgColor, bgOpacity);
    assert s == bgColor + alpha;
    assert s[|bgColor|..] == alpha;
  }

  /** Full opacity appends `ff`, zero opacity `00`. */
  lemma BackgroundFillEnds(bgColor: string)
    ensures BackgroundFill(bgColor, 100) == bgColor + "ff"
    ensures BackgroundFill(bgColor, 0) == bgColor + "00"
  {
    assert Round(100 as real / 100.0 * 255.0) == 255;
    assert Digits(15, 16) == "f";
    assert Digits(255, 16) == "ff";
    assert Round(0 as real / 100.0 * 255.0) == 0;
    assert Digits(0, 16) == "0";
    assert PadStart("0", 2, '0') == "00";
  }

  /** The strokes of the preview, each drawn by drawLine, in order. */
  function PreviewOps(lines: seq<Line>): (ops: seq<DrawOp>)
    ensures |ops| == |lines|
  {
    seq(|lines|, i requires 0 <= i < |lines| => DrawLine(lines[i]))
  }

  lemma PreviewOpsSnoc(lines: seq<Line>, l: Line)
    ensures PreviewOps(lines + [l]) == PreviewOps(lines) + [DrawLine(l)]
  {
    assert forall i :: 0 <= i < |lines| ==> PreviewOps(lines + [l])[i] == PreviewOps(lines)[i];
  }

  /** How many Bézier curves a list of commands strokes. */
  function CountCurves(ops: seq<DrawOp>): nat
  {
    if ops == [] then 0
    else CountCurves(ops[..|ops| - 1]) + (if ops[|ops| - 1].StrokeBezier? then 1 else 0)
  }

  lemma {:induction false} CountCurvesAppend(a: seq<DrawOp>, b: seq<DrawOp>)
    ensures CountCurves(a + b) == CountCurves(a) + CountCurves(b)
    decreases |b|
  {
    if b != [] {
      assert (a + b)[..|a + b| - 1] == a + b[..|b| - 1];
      CountCurvesAppend(a, b[..|b| - 1]);
    } else {
      assert a + b == a;
    }
  }

  /** A list of Bézier strokes counts one curve each; a list with none counts zero. */
  lemma {:induction false} CountCurvesUniform(ops: seq<DrawOp>)
    ensures (forall i :: 0 <= i < |ops| ==> ops[i].StrokeBezier?) ==> CountCurves(ops) == |ops|
    ensures (forall i :: 0 <= i < |ops| ==> !ops[i].StrokeBezier?) ==> CountCurves(ops) == 0
    decreases |ops|
  {
    if ops != [] {
      CountCurvesUniform(ops[..|ops| - 1]);
    }
  }

  /**
   * What draw paints, in order: the clear of the old backing store, the
   * background over the current one, the grid when shown, then one curve
   * per generated stroke.
   */
  function DrawOps(c: Controls, clearWidth: int, clearHeight: int, canvasWidth: int, canvasHeight: int,
                   width: int, height: int, lines: seq<Line>): seq<DrawOp>
  {
    [ClearRect(clearWidth as real, clearHeight as real),
     FillRect(BackgroundFill(c.bgColor, c.bgOpacity), 1.0, canvasWidth as real, canvasHeight as real)]
    + (if c.showGrid then GridOps(width, height) else [])
    + PreviewOps(lines)
  }

  /** The grid strokes straight segments only. */
  lemma GridHasNoCurves(width: int, height: int)
    ensures forall i :: 0 <= i < |GridOps(width, height)| ==> !GridOps(width, height)[i].StrokeBezier?
  {
    var v, h := VerticalGridOps(width, height), HorizontalGridOps(width, height);
    assert forall i :: 0 <= i < |v| ==> v[i].StrokeSegment?;
    assert forall j :: 0 <= j < |h| ==> h[j].StrokeSegment?;
  }

  /** The background and grid are no curves: draw strokes exactly as many curves as it generated lines. */
  lemma DrawCurveCount(c: Controls, clearWidth: int, clearHeight: int, canvasWidth: int, canvasHeight: int,
                       width: int, height: int, lines: seq<Line>)
    ensures CountCurves(DrawOps(c, clearWidth, clearHeight, canvasWidth, canvasHeight, width, height, lines)) == |lines|
  {
    var head := [ClearRect(clearWidth as real, clearHeight as real),
                 FillRect(BackgroundFill(c.bgColor, c.bgOpacity), 1.0, canvasWidth as real, canvasHeight as real)];
    var grid: seq<DrawOp> := if c.showGrid then GridOps(width, height) else [];
    var curves := PreviewOps(lines);
    assert CountCurves(head) == 0 by { CountCurvesUniform(head); }
    assert CountCurves(grid) == 0 by { GridHasNoCurves(width, height); CountCurvesUniform(grid); }
    assert CountCurves(curves) == |lines| by { CountCurvesUniform(curves); }
    CountCurvesAppend(head, grid);
    CountCurvesAppend(head + grid, curves);
  }

  /** The pieces draw issues, put together, are DrawOps, with one curve per line. */
  lemma DrawOpsAssemble(c: Controls, clearWidth: int, clearHeight: int, canvasWidth: int, canvasHeight: int,
                        width: int, height: int, grid: seq<DrawOp>, lines: seq<Line>)
    requires grid == if c.showGrid then GridOps(width, height) else []
    ensures var ops := [ClearRect(clearWidth as real, clearHeight as real),
                        FillRect(BackgroundFill(c.bgColor, c.bgOpacity), 1.0, canvasWidth as real, canvasHeight as real)]
                       + grid + PreviewOps(lines);
            ops == DrawOps(c, clearWidth, clearHeight, canvasWidth, canvasHeight, width, height, lines)
            && CountCurves(ops) == |lines|
  {
    DrawCurveCount(c, clearWidth, clearHeight, canvasWidth, canvasHeight, width, height, lines);
  }

  // ---------------------------------------------------------------------
  // Export
  // ---------------------------------------------------------------------

  /** The form controls draw and the exports read; bgOpacity is the slider's percentage. */
  datatype Controls = Controls(line: LineForm, highQuality: bool, bgColor: string, bgOpacity: int,
                               showGrid: bool, lineCount: int, format: string, resolution: int)

  /** `iso.replace(/[:.]/g, '-')`. */
  function ReplaceSeparators(iso: string): (t: string)
    ensures |t| == |iso|
    ensures forall i :: 0 <= i < |t| ==> t[i] == if iso[i] == ':' || iso[i] == '.' then '-' else iso[i]
  {
    if iso == [] then []
    else [if iso[0] == ':' || iso[0] == '.' then '-' else iso[0]] + ReplaceSeparators(iso[1..])
  }

  /** `线迹幻境_{timestamp}.{format}`. */
  function ExportFileName(iso: string, format: string): string
  {
    Export.AppName + "_" + ReplaceSeparators(iso) + "." + format
  }

  /**
   * The file name starts with the application name and an underscore,
   * ends with a dot and the format, and between them is the clock text
   * of the same length with no colon or dot left in it.
   */
  lemma ExportFileNameShape(iso: string, format: string)
    ensures var name := ExportFileName(iso, format);
            var head := |Export.AppName| + 1;
            |name| == head + |iso| + 1 + |format|
            && name[..head] == Export.AppName + "_"
            && name[head + |iso|..] == "." + format
            && forall i :: head <= i < head + |iso| ==> name[i] != ':' && name[i] != '.'
  {
    var name := ExportFileName(iso, format);
    var head := |Export.AppName| + 1;
    var t := ReplaceSeparators(iso);
    assert name == (Export.AppName + "_") + t + ("." + format);
    assert forall i :: head <= i < head + |iso| ==> name[i] == t[i - head];
  }

  /** The type exportImage asks toDataURL for, as written: `image/${format}`. */
  function MimeAsWritten(format: string): string
  {
    "image/" + format
  }

  /**
   * The type evidently meant: JPEG for `jpg` (the one format given a
   * quality), `image/{format}` for every other format.
   */
  function MimeType(format: string): (m: string)
    ensures format != "jpg" ==> m == MimeAsWritten(format)
  {
    if format == "jpg" then "image/jpeg" else MimeAsWritten(format)
  }

  /**
   * The type a canvas actually encodes for a requested type: the HTML
   * standard's rule for serialising a bitmap to a file falls back to PNG
   * for a type the user agent does not support, such as `image/jpg`.
   * PNG and JPEG are taken as the supported types, which covers every
   * type this program requests.
   */
  function EncodedType(mime: string): (t: string)
    ensures t == "image/png" || t == "image/jpeg"
    ensures (mime == "image/png" || mime == "image/jpeg") <==> t == mime
  {
    if mime == "image/png" || mime == "image/jpeg" then mime else "image/png"
  }

  /** As written, a `jpg` export requests `image/jpg`, which is no supported type: the file is encoded as PNG. */
  lemma JpgAsWrittenEncodesPng()
    ensures MimeAsWritten("jpg") == "image/jpg"
    ensures EncodedType(MimeAsWritten("jpg")) == "image/png"
  {
    assert "image/jpg" != "image/jpeg" by {
      assert |"image/jpg"| != |"image/jpeg"|;
    }
  }

  /** With the intended type each offered raster format is encoded as itself. */
  lemma MimeTypeEncodesFormat(format: string)
    requires format == "png" || format == "jpg"
    ensures EncodedType(MimeType(format)) == if format == "png" then "image/png" else "image/jpeg"
  {
    assert MimeAsWritten("png") == "image/png";
  }

  /** drawLineOnCanvas: the stroke in black with every coordinate and the width multiplied by the resolution. */
  function DrawLineOnCanvas(l: Line, resolution: int): DrawOp
  {
    var r := resolution as real;
    StrokeBezier(ScalePoint(l.start, r), ScalePoint(l.control1, r), ScalePoint(l.control2, r),
                 ScalePoint(l.end, r), "#000000", l.width * r, l.cap)
  }

  /** Exporting at resolution r draws the resolution-1 curve scaled by r: only pixel density changes. */
  lemma ExportCurveScales(l: Line, resolution: int)
    ensures DrawLineOnCanvas(l, resolution) == Lines.ScaleOp(DrawLineOnCanvas(l, 1), resolution as real)
  {
    assert ScalePoint(l.start, 1.0) == l.start && ScalePoint(l.end, 1.0) == l.end;
    assert ScalePoint(l.control1, 1.0) == l.control1 && ScalePoint(l.control2, 1.0) == l.control2;
  }

  /** A curve command with every point moved to its pixel centre. */
  function SnapOp(op: DrawOp): DrawOp
    requires op.StrokeBezier?
  {
    op.(start := SnapPoint(op.start), control1 := SnapPoint(op.control1),
        control2 := SnapPoint(op.control2), end := SnapPoint(op.end))
  }

  /** The preview draws the resolution-1 export curve snapped to pixel centres (for a stroke with a cap). */
  lemma PreviewIsSnappedExport(l: Line)
    requires l.cap != ""
    ensures DrawLine(l) == SnapOp(DrawLineOnCanvas(l, 1))
  {
    assert ScalePoint(l.start, 1.0) == l.start && ScalePoint(l.end, 1.0) == l.end;
    assert ScalePoint(l.control1, 1.0) == l.control1 && ScalePoint(l.control2, 1.0) == l.control2;
  }

  /** The export strokes, each drawn at the resolution, in order. */
  function ExportCurves(lines: seq<Line>, resolution: int): (ops: seq<DrawOp>)
    ensures |ops| == |lines|
  {
    seq(|lines|, i requires 0 <= i < |lines| => DrawLineOnCanvas(lines[i], resolution))
  }

  lemma ExportCurvesSnoc(lines: seq<Line>, l: Line, resolution: int)
    ensures ExportCurves(lines + [l], resolution) == ExportCurves(lines, resolution) + [DrawLineOnCanvas(l, resolution)]
  {
    assert forall i :: 0 <= i < |lines| ==>
             ExportCurves(lines + [l], resolution)[i] == ExportCurves(lines, resolution)[i];
  }

  /** The SVG `path` element of one stroke. */
  datatype SvgPath = SvgPath(d: string, stroke: string, strokeWidth: real, fill: string, lineCap: string)

  /** The SVG element exportSVG builds: its size attributes, the background `rect`, and one path per stroke. */
  datatype SvgImage = SvgImage(width: int, height: int, xmlns: string, viewBox: string,
                               rectWidth: string, rectHeight: string, rectFill: string, rectOpacity: real,
                               paths: seq<SvgPath>)

  const SvgNamespace: string := "http://www.w3.org/2000/svg"

  /** `0 0 {width} {height}`. */
  function ViewBox(width: int, height: int): string
  {
    "0 0 " + IntToString(width) + " " + IntToString(height)
  }

  /** `M{x},{y} C{x},{y} {x},{y} {x},{y}`, numbers written by fmt (JavaScript's number-to-text). */
  function CurveText(start: Point, control1: Point, control2: Point, end: Point, fmt: real -> string): string
  {
    "M" + fmt(start.x) + "," + fmt(start.y)
    + " C" + fmt(control1.x) + "," + fmt(control1.y)
    + " " + fmt(control2.x) + "," + fmt(control2.y)
    + " " + fmt(end.x) + "," + fmt(end.y)
  }

  function PathOf(l: Line, fmt: real -> string): SvgPath
  {
    SvgPath(CurveText(l.start, l.control1, l.control2, l.end, fmt), "#000000", l.width, "none", l.cap)
  }

  function SvgPaths(lines: seq<Line>, fmt: real -> string): (ps: seq<SvgPath>)
    ensures |ps| == |lines|
  {
    seq(|lines|, i requires 0 <= i < |lines| => PathOf(lines[i], fmt))
  }

  lemma SvgPathsSnoc(lines: seq<Line>, l: Line, fmt: real -> string)
    ensures SvgPaths(lines + [l], fmt) == SvgPaths(lines, fmt) + [PathOf(l, fmt)]
  {
    assert forall i :: 0 <= i < |lines| ==> SvgPaths(lines + [l], fmt)[i] == SvgPaths(lines, fmt)[i];
  }

  /**
   * A stroke's SVG path describes the very curve the raster export draws
   * at resolution 1: the same four points, colour, width and cap.
   */
  lemma SvgPathIsExportCurve(l: Line, fmt: real -> string)
    ensures var op := DrawLineOnCanvas(l, 1);
            var p := PathOf(l, fmt);
            p.d == CurveText(op.start, op.control1, op.control2, op.end, fmt)
            && p.stroke == op.bezierStyle && p.strokeWidth == op.bezierWidth && p.lineCap == op.bezierCap
  {
    assert ScalePoint(l.start, 1.0) == l.start && ScalePoint(l.end, 1.0) == l.end;
    assert ScalePoint(l.control1, 1.0) == l.control1 && ScalePoint(l.control2, 1.0) == l.control2;
  }

  /** What exportImage produces: an encoded raster canvas, or an SVG element and its file name. */
  datatype Artifact = Raster(image: Export.RasterImage) | Svg(svg: SvgImage, svgFilename: string)

  /** `this.currentScaleFactor || 1`. */
  function ScaleOrOne(scale: real): real
  {
    if scale == 0.0 then 1.0 else scale
  }

  // ---------------------------------------------------------------------
  // The stroke loops of draw, exportImage and exportSVG:
  // `for (let i = 0; i < lineCount; i++)`, one generateLine per turn.
  // ---------------------------------------------------------------------

  /**
   * What draw issues once the backing store is settled: the clear of the
   * old store, the background over the current one, the grid when shown,
   * then the strokes; exactly one curve per stroke.
   */
  method Paint(c: Controls, clearWidth: int, clearHeight: int, canvasWidth: int, canvasHeight: int,
               width: int, height: int, grid: seq<DrawOp>, rand: Stream, k: nat) returns (ops: seq<DrawOp>, next: nat)
    requires Uniform(rand) && KnownLineMode(c.line.lineMode)
    requires grid == if c.showGrid then GridOps(width, height) else []
    ensures var b := Lines.Batch(Generator(c.line, width, height, rand), k, StrokeCount(c.lineCount));
            ops == DrawOps(c, clearWidth, clearHeight, canvasWidth, canvasHeight, width, height, b.value)
            && next == b.next
    ensures CountCurves(ops) == StrokeCount(c.lineCount)
  {
    var background := FillRect(BackgroundFill(c.bgColor, c.bgOpacity), 1.0, canvasWidth as real, canvasHeight as real);
    ghost var b := Lines.Batch(Generator(c.line, width, height, rand), k, StrokeCount(c.lineCount));
    ops, next := DrawStrokes(c.line, width, height, rand, k, c.lineCount,
                             [ClearRect(clearWidth as real, clearHeight as real), background] + grid);
    DrawOpsAssemble(c, clearWidth, clearHeight, canvasWidth, canvasHeight, width, height, grid, b.value);
  }

  /** The preview loop: each stroke drawn by drawLine as soon as it is generated, after the commands already issued. */
  method DrawStrokes(f: LineForm, width: int, height: int, rand: Stream, k: nat, lineCount: int, issued: seq<DrawOp>)
    returns (ops: seq<DrawOp>, next: nat)
    requires Uniform(rand) && KnownLineMode(f.lineMode)
    ensures var b := Lines.Batch(Generator(f, width, height, rand), k, StrokeCount(lineCount));
            ops == issued + PreviewOps(b.value) && next == b.next
  {
    ghost var gen := Generator(f, width, height, rand);
    ghost var lines: seq<Line> := [];
    ops := issued;
    next := k;
    var i: nat := 0;
    while i < lineCount
      invariant i <= StrokeCount(lineCount)
      invariant Lines.Batch(gen, k, i) == Lines.Drawn(lines, next)
      invariant ops == issued + PreviewOps(lines)
    {
      var line := GenerateLine(f, width, height, rand, next);
      Lines.BatchSnoc(gen, k, i, lines, next);
      PreviewOpsSnoc(lines, line.value);
      ops := ops + [DrawLine(line.value)];
      lines := lines + [line.value];
      next := line.next;
      i := i + 1;
    }
    assert i == StrokeCount(lineCount);
  }

  /** The raster export loop: each stroke drawn by drawLineOnCanvas at the resolution. */
  method DrawStrokesAt(f: LineForm, width: int, height: int, rand: Stream, k: nat, lineCount: int, resolution: int,
                       issued: seq<DrawOp>)
    returns (ops: seq<DrawOp>, next: nat)
    requires Uniform(rand) && KnownLineMode(f.lineMode)
    ensures var b := Lines.Batch(Generator(f, width, height, rand), k, StrokeCount(lineCount));
            ops == issued + ExportCurves(b.value, resolution) && next == b.next
  {
    ghost var gen := Generator(f, width, height, rand);
    ghost var lines: seq<Line> := [];
    ops := issued;
    next := k;
    var i: nat := 0;
    while i < lineCount
      invariant i <= StrokeCount(lineCount)
      invariant Lines.Batch(gen, k, i) == Lines.Drawn(lines, next)
      invariant ops == issued + ExportCurves(lines, resolution)
    {
      var line := GenerateLine(f, width, height, rand, next);
      Lines.BatchSnoc(gen, k, i, lines, next);
      ExportCurvesSnoc(lines, line.value, resolution);
      ops := ops + [DrawLineOnCanvas(line.value, resolution)];
      lines := lines + [line.value];
      next := line.next;
      i := i + 1;
    }
    assert i == StrokeCount(lineCount);
  }

  /** The SVG loop: one path element per generated stroke. */
  method PathStrokes(f: LineForm, width: int, height: int, rand: Stream, k: nat, lineCount: int, fmt: real -> string)
    returns (paths: seq<SvgPath>, next: nat)
    requires Uniform(rand) && KnownLineMode(f.lineMode)
    ensures var b := Lines.Batch(Generator(f, width, height, rand), k, StrokeCount(lineCount));
            paths == SvgPaths(b.value, fmt) && next == b.next
  {
    ghost var gen := Generator(f, width, height, rand);
    ghost var lines: seq<Line> := [];
    paths := [];
    next := k;
    var i: nat := 0;
    while i < lineCount
      invariant i <= StrokeCount(lineCount)
      invariant Lines.Batch(gen, k, i) == Lines.Drawn(lines, next)
      invariant paths == SvgPaths(lines, fmt)
    {
      var line := GenerateLine(f, width, height, rand, next);
      Lines.BatchSnoc(gen, k, i, lines, next);
      SvgPathsSnoc(lines, line.value, fmt);
      paths := paths + [PathOf(line.value, fmt)];
      lines := lines + [line.value];
      next := line.next;
      i := i + 1;
    }
    assert i == StrokeCount(lineCount);
  }

  // ---------------------------------------------------------------------
  // The page's LineGenerator object
  // ---------------------------------------------------------------------

  class LineGenerator {
    /** Logical size of the artwork. */
    var width: int
    var height: int
    /** The scale factor last passed to setCanvasSize. */
    var currentScaleFactor: real
    /** The canvas element: backing-store size, CSS size and its context's transform. */
    var canvasWidth: int
    var canvasHeight: int
    var styleWidth: real
    var styleHeight: real
    var transform: Canvas.Transform

    /** A generator over a canvas element whose backing store is canvasWidth × canvasHeight. */
    constructor (canvasWidth: int, canvasHeight: int)
      ensures width == 500 && height == 500 && currentScaleFactor == 1.0
      ensures this.canvasWidth == canvasWidth && this.canvasHeight == canvasHeight
      ensures styleWidth == canvasWidth as real && styleHeight == canvasHeight as real
      ensures transform == Canvas.Identity
    {
      width, height := 500, 500;
      currentScaleFactor := 1.0;
      this.canvasWidth, this.canvasHeight := canvasWidth, canvasHeight;
      styleWidth, styleHeight := canvasWidth as real, canvasHeight as real;
      transform := Canvas.Identity;
    }

    /**
     * setCanvasSize: sizes the backing store by the resolution policy
     * (the logical size under high quality with a shrunk display, else
     * the display box in device pixels), sets the CSS box and records
     * the scale factor. The logical size is untouched.
     */
    method SetCanvasSize(displayWidth: real, displayHeight: real, scaleFactor: real,
                         highQuality: bool, platformRatio: Option<real>)
      modifies this
      ensures width == old(width) && height == old(height)
      ensures Canvas.Surface(canvasWidth, canvasHeight, transform)
              == Canvas.Backing(Canvas.Fit(displayWidth, displayHeight, scaleFactor), width, height,
                                highQuality, DevicePixelRatio(platformRatio))
      ensures styleWidth == displayWidth && styleHeight == displayHeight
      ensures currentScaleFactor == scaleFactor
    {
      var dpr := DevicePixelRatio(platformRatio);
      if highQuality && scaleFactor < 1.0 {
        canvasWidth, canvasHeight := width, height;
        transform := Canvas.Identity;
        transform := Canvas.Transform(transform.scale, transform.offsetX + 0.5, transform.offsetY + 0.5);
        assert transform == Canvas.Transform(1.0, 0.5, 0.5);
      } else {
        canvasWidth := Round(displayWidth * dpr);
        canvasHeight := Round(displayHeight * dpr);
        transform := Canvas.Identity;
        transform := Canvas.Transform(transform.scale * dpr, transform.offsetX, transform.offsetY);
        transform := Canvas.Transform(transform.scale, transform.offsetX + 0.5, transform.offsetY + 0.5);
        assert transform == Canvas.Transform(dpr, 0.5, 0.5);
      }
      assert Canvas.Surface(canvasWidth, canvasHeight, transform)
             == Canvas.Backing(Canvas.Fit(displayWidth, displayHeight, scaleFactor), width, height, highQuality, dpr);
      styleWidth, styleHeight := displayWidth, displayHeight;
      currentScaleFactor := scaleFactor;
    }

    /**
     * initializeCanvas: takes the logical size from the form, unchecked,
     * decides the display box for the container's client size less the
     * 40-pixel margin, and sizes the canvas. When the chosen fit divides
     * by a zero side the source hands setCanvasSize JavaScript's
     * Infinity; the model has no such number and leaves the canvas
     * element and the scale factor as they were.
     */
    method InitializeCanvas(widthField: int, heightField: int, displayMode: string, container: Canvas.ClientBox,
                            highQuality: bool, platformRatio: Option<real>)
      requires container.clientWidth > Canvas.Margin && container.clientHeight > Canvas.Margin
      modifies this
      ensures width == widthField && height == heightField
      ensures var r := Canvas.Decide(width, height, container.clientWidth - Canvas.Margin,
                                     container.clientHeight - Canvas.Margin, displayMode);
              (r.Some? ==>
                 Canvas.Surface(canvasWidth, canvasHeight, transform)
                   == Canvas.Backing(r.value, width, height, highQuality, DevicePixelRatio(platformRatio))
                 && styleWidth == r.value.displayWidth && styleHeight == r.value.displayHeight
                 && currentScaleFactor == r.value.scale)
              && (r.None? ==>
                    canvasWidth == old(canvasWidth) && canvasHeight == old(canvasHeight)
                    && styleWidth == old(styleWidth) && styleHeight == old(styleHeight)
                    && transform == old(transform) && currentScaleFactor == old(currentScaleFactor))
    {
      width := widthField;
      height := heightField;
      var containerWidth := container.clientWidth - Canvas.Margin;
      var containerHeight := container.clientHeight - Canvas.Margin;
      var r := Canvas.Decide(width, height, containerWidth, containerHeight, displayMode);
      if r.Some? {
        SetCanvasSize(r.value.displayWidth, r.value.displayHeight, r.value.scale, highQuality, platformRatio);
      }
    }

    /** drawGrid: the two `x += 50` loops over the logical size, recorded as the lines they stroke. */
    method DrawGrid() returns (ops: seq<DrawOp>)
      ensures ops == GridOps(width, height)
    {
      var w, h := width as real, height as real;
      var xs := Steps(w, 50.0);
      var ys := Steps(h, 50.0);
      ops := [];
      var i := 0;
      while i < |xs|
        invariant 0 <= i <= |xs|
        invariant ops == VerticalGridOps(width, height)[..i]
      {
        var alignedX := Floor(xs[i]) as real + 0.5;
        ops := ops + [StrokeSegment(Segment(Point(alignedX, 0.0), Point(alignedX, h)), "#e0e0e0", 0.5, 1.0)];
        i := i + 1;
      }
      ghost var vertical := ops;
      var j := 0;
      while j < |ys|
        invariant 0 <= j <= |ys|
        invariant ops == vertical + HorizontalGridOps(width, height)[..j]
      {
        var alignedY := Floor(ys[j]) as real + 0.5;
        ops := ops + [StrokeSegment(Segment(Point(0.0, alignedY), Point(w, alignedY)), "#e0e0e0", 0.5, 1.0)];
        j := j + 1;
      }
    }

    /** Whether draw finds a high-quality shrunk display whose backing store is not the logical size. */
    predicate Resizes(highQuality: bool)
      reads this
    {
      highQuality && ScaleOrOne(currentScaleFactor) < 1.0 && (canvasWidth != width || canvasHeight != height)
    }
    /**
     * The high-quality step of draw: with a shrunk display, a backing
     * store that is not the logical size is reset to it, and assigning
     * the size resets the context's transform.
     */
    method SettleBacking(highQuality: bool)
      modifies this`canvasWidth, this`canvasHeight, this`transform
      ensures old(Resizes(highQuality)) ==>
                canvasWidth == width && canvasHeight == height && transform == Canvas.Identity
      ensures !old(Resizes(highQuality)) ==>
                canvasWidth == old(canvasWidth) && canvasHeight == old(canvasHeight) && transform == old(transform)
    {
      var scaleFactor := ScaleOrOne(currentScaleFactor);
      if highQuality && scaleFactor < 1.0 {
        if canvasWidth != width || canvasHeight != height {
          canvasWidth, canvasHeight := width, height;
          transform := Canvas.Identity;
        }
      }
    }

    /**
     * draw: clears the backing store; under high quality with a shrunk
     * display resets the backing store to the logical size if it is not
     * (which also resets the context's transform); paints the background
     * and, when shown, the grid; then generates and draws lineCount
     * strokes, reading the stream from k.
     */
    method Draw(c: Controls, rand: Stream, k: nat) returns (ops: seq<DrawOp>, next: nat)
      requires Uniform(rand) && KnownLineMode(c.line.lineMode)
      modifies this`canvasWidth, this`canvasHeight, this`transform
      ensures old(Resizes(c.highQuality)) ==>
                canvasWidth == width && canvasHeight == height && transform == Canvas.Identity
      ensures !old(Resizes(c.highQuality)) ==>
                canvasWidth == old(canvasWidth) && canvasHeight == old(canvasHeight) && transform == old(transform)
      ensures var b := Lines.Batch(Generator(c.line, width, height, rand), k, StrokeCount(c.lineCount));
              ops == DrawOps(c, old(canvasWidth), old(canvasHeight), canvasWidth, canvasHeight, width, height, b.value)
              && next == b.next
      ensures CountCurves(ops) == StrokeCount(c.lineCount)
    {
      var clearWidth, clearHeight := canvasWidth, canvasHeight;
      SettleBacking(c.highQuality);
      var grid := [];
      if c.showGrid {
        grid := DrawGrid();
      }
      ops, next := Paint(c, clearWidth, clearHeight, canvasWidth, canvasHeight, width, height, grid, rand, k);
    }

    /**
     * The png/jpg branch of exportImage: a canvas of width·resolution ×
     * height·resolution, the background, then lineCount freshly generated
     * strokes drawn at the resolution; encoded as the format's type (JPEG
     * for jpg, see MimeType), with quality 0.9 for jpg.
     */
    method ExportRaster(c: Controls, rand: Stream, k: nat, isoNow: string) returns (img: Export.RasterImage, next: nat)
      requires Uniform(rand) && KnownLineMode(c.line.lineMode)
      ensures img.canvasWidth == width * c.resolution && img.canvasHeight == height * c.resolution
      ensures var b := Lines.Batch(Generator(c.line, width, height, rand), k, StrokeCount(c.lineCount));
              img.ops == [FillRect(BackgroundFill(c.bgColor, c.bgOpacity), 1.0, img.canvasWidth as real, img.canvasHeight as real)]
                         + ExportCurves(b.value, c.resolution)
              && next == b.next
      ensures img.mimeType == MimeType(c.format)
      ensures img.quality == if c.format == "jpg" then Some(0.9) else None
      ensures img.filename == ExportFileName(isoNow, c.format)
    {
      var tempWidth := width * c.resolution;
      var tempHeight := height * c.resolution;
      var ops := [FillRect(BackgroundFill(c.bgColor, c.bgOpacity), 1.0, tempWidth as real, tempHeight as real)];
      ops, next := DrawStrokesAt(c.line, width, height, rand, k, c.lineCount, c.resolution, ops);
      var quality := if c.format == "jpg" then Some(0.9) else None;
      img := Export.RasterImage(tempWidth, tempHeight, ops, MimeType(c.format), quality, ExportFileName(isoNow, c.format));
    }

    /**
     * exportSVG: an `svg` element of the logical size with a full-size
     * background rect at opacity bgOpacity/100, then one black path per
     * freshly generated stroke; named like the raster export.
     */
    method ExportSvg(c: Controls, rand: Stream, k: nat, isoNow: string, fmt: real -> string)
      returns (svg: SvgImage, filename: string, next: nat)
      requires Uniform(rand) && KnownLineMode(c.line.lineMode)
      ensures var b := Lines.Batch(Generator(c.line, width, height, rand), k, StrokeCount(c.lineCount));
              svg == SvgImage(width, height, SvgNamespace, ViewBox(width, height), "100%", "100%",
                              c.bgColor, c.bgOpacity as real / 100.0, SvgPaths(b.value, fmt))
              && next == b.next
      ensures filename == ExportFileName(isoNow, "svg")
    {
      filename := ExportFileName(isoNow, "svg");
      var paths;
      paths, next := PathStrokes(c.line, width, height, rand, k, c.lineCount, fmt);
      svg := SvgImage(width, height, SvgNamespace, ViewBox(width, height), "100%", "100%",
                      c.bgColor, c.bgOpacity as real / 100.0, paths);
    }

    /** exportImage: SVG for the `svg` format, otherwise a raster image in the selected format. */
    method ExportImage(c: Controls, rand: Stream, k: nat, isoNow: string, fmt: real -> string)
      returns (artifact: Artifact, next: nat)
      requires Uniform(rand) && KnownLineMode(c.line.lineMode)
      ensures artifact.Svg? <==> c.format == "svg"
      ensures var b := Lines.Batch(Generator(c.line, width, height, rand), k, StrokeCount(c.lineCount));
              next == b.next
              && (artifact.Svg? ==>
                    artifact.svg == SvgImage(width, height, SvgNamespace, ViewBox(width, height), "100%", "100%",
                                             c.bgColor, c.bgOpacity as real / 100.0, SvgPaths(b.value, fmt))
                    && artifact.svgFilename == ExportFileName(isoNow, "svg"))
              && (artifact.Raster? ==>
                    artifact.image.canvasWidth == width * c.resolution
                    && artifact.image.canvasHeight == height * c.resolution
                    && artifact.image.ops
                         == [FillRect(BackgroundFill(c.bgColor, c.bgOpacity), 1.0,
                                      (width * c.resolution) as real, (height * c.resolution) as real)]
                            + ExportCurves(b.value, c.resolution)
                    && artifact.image.mimeType == MimeType(c.format)
                    && artifact.image.quality == (if c.format == "jpg" then Some(0.9) else None)
                    && artifact.image.filename == ExportFileName(isoNow, c.format))
    {
      if c.format == "svg" {
        var svg, filename;
        svg, filename, next := ExportSvg(c, rand, k, isoNow, fmt);
        artifact := Svg(svg, filename);
      } else {
        var img;
        img, next := ExportRaster(c, rand, k, isoNow);
        artifact := Raster(img);
      }
    }
  }
}
