/**
 * The stroke generator of js/line-generator.js: one randomized cubic
 * Bézier stroke per call, built from the generator's parameters and the
 * logical canvas size, and the batch the generator stores.
 *
 * Randomness is the injected stream `rand`; every function takes the
 * index `k` of the first unread draw and returns, with its value, the
 * index of the next one. Draws are consumed in the source's order:
 * width; the mode coin (mixed mode only); the orientation coin (through
 * strokes only); the endpoint draws (2 through, 4 random); the four
 * control-point offsets; the colour draws (10 for `theme`, 3 for
 * `random`); the cap coin (mixed caps only).
 */
module Lines {
  import opened Utils
  import opened Drawing
  import Canvas

  /** The generator's parameter record (this.params). */
  datatype Params = Params(lineMode: string, colorMode: string, minWidth: real, maxWidth: real,
                           curveStrength: real, lineCap: string)

  /** The parameters a new generator starts with. */
  const DefaultParams := Params("mixed", "black", 1.0, 5.0, 50.0, "mixed")

  /** A stroke colour: a hex code, or hue/saturation/lightness as in CSS `hsl()`. */
  datatype Color = Hex(code: string) | Hsl(hue: int, saturation: int, lightness: int)

  const Black := Hex("#000000")

  /** The colour as the CSS text the source stores: `#000000` or `hsl(H, S%, L%)`. */
  function CssText(c: Color): string
  {
    match c
    case Hex(code) => code
    case Hsl(h, s, l) => "hsl(" + IntToString(h) + ", " + IntToString(s) + "%, " + IntToString(l) + "%)"
  }

  /** One generated line: a cubic Bézier from startPoint to endPoint with its style. */
  datatype Stroke = Stroke(startPoint: Point, endPoint: Point, controlPoint1: Point, controlPoint2: Point,
                           width: real, color: Color, lineCap: string)

  /** A value computed from the stream, and the index of the next unread draw. */
  datatype Drawn<T> = Drawn(value: T, next: nat)

  /**
   * Whether the stroke goes edge to edge: always in `through` mode, on a
   * coin above 0.5 in `mixed` mode (the only mode that draws a coin),
   * never otherwise (`random` and unknown modes).
   */
  function ThroughChosen(lineMode: string, rand: Stream, k: nat): (d: Drawn<bool>)
  {
    if lineMode == "through" then Drawn(true, k)
    else if lineMode == "mixed" then Drawn(rand(k) > 0.5, k + 1)
    else Drawn(false, k)
  }

  /**
   * The two endpoints. A through stroke picks an orientation; horizontal
   * runs from the left edge to the right edge, vertical from the top edge
   * to the bottom edge, at random whole positions. A random stroke takes
   * four random whole coordinates in the canvas.
   */
  function Endpoints(lineMode: string, width: int, height: int, rand: Stream, k: nat): (d: Drawn<(Point, Point)>)
    requires Uniform(rand)
    requires width >= 0 && height >= 0
  {
    var through := ThroughChosen(lineMode, rand, k);
    var j := through.next;
    if through.value then
      if rand(j) > 0.5 then
        Drawn((Point(0.0, RandomInt(rand(j + 1), 0, height) as real),
               Point(width as real, RandomInt(rand(j + 2), 0, height) as real)), j + 3)
      else
        Drawn((Point(RandomInt(rand(j + 1), 0, width) as real, 0.0),
               Point(RandomInt(rand(j + 2), 0, width) as real, height as real)), j + 3)
    else
      Drawn((Point(RandomInt(rand(j), 0, width) as real, RandomInt(rand(j + 1), 0, height) as real),
             Point(RandomInt(rand(j + 2), 0, width) as real, RandomInt(rand(j + 3), 0, height) as real)), j + 4)
  }

  /** The midpoint of the segment, computed as start + (end - start) / 2. */
  function Center(start: Point, end: Point): Point
  {
    Point(start.x + (end.x - start.x) / 2.0, start.y + (end.y - start.y) / 2.0)
  }

  /** How far a control point may stray from the midpoint: the longer side times curveStrength / 100. */
  function MaxOffset(width: int, height: int, curveStrength: real): real
  {
    Max(width as real, height as real) * (curveStrength / 100.0)
  }

  /** The two control points: the midpoint, each shifted by its own two offsets drawn from [-maxOffset, maxOffset). */
  function ControlPoints(start: Point, end: Point, width: int, height: int, curveStrength: real,
                         rand: Stream, k: nat): (d: Drawn<(Point, Point)>)
  {
    var c := Center(start, end);
    var m := MaxOffset(width, height, curveStrength);
    Drawn((Point(c.x + RandomFloat(rand(k), -m, m), c.y + RandomFloat(rand(k + 1), -m, m)),
           Point(c.x + RandomFloat(rand(k + 2), -m, m), c.y + RandomFloat(rand(k + 3), -m, m))), k + 4)
  }

  /**
   * The stroke colour. `theme` builds all three candidate colours (blue,
   * green, magenta; nine draws) before a tenth draw picks one; `random`
   * draws hue, saturation and lightness; `black` and unknown modes give
   * black without drawing.
   */
  function PickColor(colorMode: string, rand: Stream, k: nat): (d: Drawn<Color>)
    requires Uniform(rand)
  {
    if colorMode == "black" then Drawn(Black, k)
    else if colorMode == "theme" then
      var themes := [
        Hsl(200 + RandomInt(rand(k), 0, 40), 70 + RandomInt(rand(k + 1), 0, 20), 45 + RandomInt(rand(k + 2), 0, 15)),
        Hsl(100 + RandomInt(rand(k + 3), 0, 40), 70 + RandomInt(rand(k + 4), 0, 20), 40 + RandomInt(rand(k + 5), 0, 15)),
        Hsl(280 + RandomInt(rand(k + 6), 0, 40), 70 + RandomInt(rand(k + 7), 0, 20), 45 + RandomInt(rand(k + 8), 0, 15))
      ];
      Drawn(themes[RandomInt(rand(k + 9), 0, |themes| - 1)], k + 10)
    else if colorMode == "random" then
      Drawn(Hsl(RandomInt(rand(k), 0, 360), RandomInt(rand(k + 1), 70, 100), RandomInt(rand(k + 2), 30, 70)), k + 3)
    else Drawn(Black, k)
  }

  /** The line cap: `butt` and `round` pass through, `mixed` flips a coin (above 0.5 is butt), anything else is butt. */
  function PickCap(lineCap: string, rand: Stream, k: nat): (d: Drawn<string>)
  {
    if lineCap == "butt" then Drawn("butt", k)
    else if lineCap == "round" then Drawn("round", k)
    else if lineCap == "mixed" then Drawn(if rand(k) > 0.5 then "butt" else "round", k + 1)
    else Drawn("butt", k)
  }

  /** generateLine for a canvas of the given logical size, reading the stream from index k. */
  function GenerateLine(p: Params, width: int, height: int, rand: Stream, k: nat): (d: Drawn<Stroke>)
    requires Uniform(rand)
    requires width >= 0 && height >= 0
  {
    var lineWidth := RandomFloat(rand(k), p.minWidth, p.maxWidth);
    var ends := Endpoints(p.lineMode, width, height, rand, k + 1);
    var start, end := ends.value.0, ends.value.1;
    var controls := ControlPoints(start, end, width, height, p.curveStrength, rand, ends.next);
    var color := PickColor(p.colorMode, rand, controls.next);
    var cap := PickCap(p.lineCap, rand, color.next);
    Drawn(Stroke(start, end, controls.value.0, controls.value.1, lineWidth, color.value, cap.value), cap.next)
  }

  // ---------------------------------------------------------------------
  // Properties of one stroke
  // ---------------------------------------------------------------------

  /** The stroke runs from the left edge to the right edge, or from the top edge to the bottom edge. */
  predicate TouchesOppositeEdges(s: Stroke, width: int, height: int)
  {
    EdgeToEdge(s.startPoint, s.endPoint, width, height)
  }

  /** The point lies in [0, width] × [0, height], far edges included. */
  predicate InCanvas(p: Point, width: int, height: int)
  {
    0.0 <= p.x <= width as real && 0.0 <= p.y <= height as real
  }

  /**
   * In `through` mode, and in `mixed` mode when the mode coin is above
   * 0.5, the stroke touches two opposite edges; it is horizontal exactly
   * when the orientation coin (the draw after the mode decision) is above
   * 0.5.
   */
  lemma ThroughTouchesEdges(p: Params, width: int, height: int, rand: Stream, k: nat)
    requires Uniform(rand) && width >= 0 && height >= 0
    requires p.lineMode == "through" || (p.lineMode == "mixed" && rand(k + 1) > 0.5)
    ensures var s := GenerateLine(p, width, height, rand, k).value;
            var coin := if p.lineMode == "through" then rand(k + 1) else rand(k + 2);
            TouchesOppositeEdges(s, width, height)
            && (coin > 0.5 ==> s.startPoint.x == 0.0 && s.endPoint.x == width as real)
            && (coin <= 0.5 ==> s.startPoint.y == 0.0 && s.endPoint.y == height as real)
  {
  }

  /** Every endpoint lies in the canvas, far edges included, at whole coordinates. */
  lemma EndpointsInCanvas(p: Params, width: int, height: int, rand: Stream, k: nat)
    requires Uniform(rand) && width >= 0 && height >= 0
    ensures var s := GenerateLine(p, width, height, rand, k).value;
            InCanvas(s.startPoint, width, height) && InCanvas(s.endPoint, width, height)
            && s.startPoint.x.Floor as real == s.startPoint.x && s.startPoint.y.Floor as real == s.startPoint.y
            && s.endPoint.x.Floor as real == s.endPoint.x && s.endPoint.y.Floor as real == s.endPoint.y
  {
    var ends := Endpoints(p.lineMode, width, height, rand, k + 1);
    var s := GenerateLine(p, width, height, rand, k).value;
    assert s.startPoint == ends.value.0 && s.endPoint == ends.value.1;
  }

  /**
   * Each control point differs from the midpoint of its segment by at
   * most maxOffset on each axis; a curve strength of 0 puts both exactly
   * on the midpoint.
   */
  lemma ControlPointsBound(start: Point, end: Point, width: int, height: int, curveStrength: real,
                           rand: Stream, k: nat)
    requires Uniform(rand) && width >= 0 && height >= 0
    requires curveStrength >= 0.0
    ensures var cps := ControlPoints(start, end, width, height, curveStrength, rand, k).value;
            var c := Center(start, end);
            var m := MaxOffset(width, height, curveStrength);
            -m <= cps.0.x - c.x <= m && -m <= cps.0.y - c.y <= m
            && -m <= cps.1.x - c.x <= m && -m <= cps.1.y - c.y <= m
            && (curveStrength == 0.0 ==> cps.0 == c && cps.1 == c)
  {
    var m := MaxOffset(width, height, curveStrength);
    MulNonNegative(Max(width as real, height as real), curveStrength / 100.0);
    RandomFloatSymmetric(rand(k), m);
    RandomFloatSymmetric(rand(k + 1), m);
    RandomFloatSymmetric(rand(k + 2), m);
    RandomFloatSymmetric(rand(k + 3), m);
  }

  /** ControlPointsBound for the stroke generateLine returns. */
  lemma ControlPointsNearCenter(p: Params, width: int, height: int, rand: Stream, k: nat)
    requires Uniform(rand) && width >= 0 && height >= 0
    requires p.curveStrength >= 0.0
    ensures var s := GenerateLine(p, width, height, rand, k).value;
            var c := Center(s.startPoint, s.endPoint);
            var m := MaxOffset(width, height, p.curveStrength);
            -m <= s.controlPoint1.x - c.x <= m && -m <= s.controlPoint1.y - c.y <= m
            && -m <= s.controlPoint2.x - c.x <= m && -m <= s.controlPoint2.y - c.y <= m
            && (p.curveStrength == 0.0 ==> s.controlPoint1 == c && s.controlPoint2 == c)
  {
    var ends := Endpoints(p.lineMode, width, height, rand, k + 1);
    ControlPointsBound(ends.value.0, ends.value.1, width, height, p.curveStrength, rand, ends.next);
  }

  /** The stroke width lies in [minWidth, maxWidth), and is exactly minWidth when the two are equal. */
  lemma WidthInRange(p: Params, width: int, height: int, rand: Stream, k: nat)
    requires Uniform(rand) && width >= 0 && height >= 0
    requires p.minWidth <= p.maxWidth
    ensures var s := GenerateLine(p, width, height, rand, k).value;
            p.minWidth <= s.width
            && (p.minWidth < p.maxWidth ==> s.width < p.maxWidth)
            && (p.minWidth == p.maxWidth ==> s.width == p.minWidth)
  {
    RandomFloatRange(rand(k), p.minWidth, p.maxWidth);
  }

  /** One of the three theme bands: blue, green (darker) or magenta. */
  predicate ThemeColor(c: Color)
  {
    c.Hsl? && 70 <= c.saturation <= 90
    && ((200 <= c.hue <= 240 && 45 <= c.lightness <= 60)
        || (100 <= c.hue <= 140 && 40 <= c.lightness <= 55)
        || (280 <= c.hue <= 320 && 45 <= c.lightness <= 60))
  }

  /**
   * `black` and unknown colour modes give #000000; `theme` gives a colour
   * of one of the three bands; `random` gives hue in [0, 360], saturation
   * in [70, 100] and lightness in [30, 70].
   */
  lemma ColorInRange(p: Params, width: int, height: int, rand: Stream, k: nat)
    requires Uniform(rand) && width >= 0 && height >= 0
    ensures var c := GenerateLine(p, width, height, rand, k).value.color;
            (p.colorMode != "theme" && p.colorMode != "random" ==> c == Black)
            && (p.colorMode == "theme" ==> ThemeColor(c))
            && (p.colorMode == "random" ==>
                  c.Hsl? && 0 <= c.hue <= 360 && 70 <= c.saturation <= 100 && 30 <= c.lightness <= 70)
  {
  }

  /** `butt` and `round` pass through, `mixed` gives one of the two, any other cap gives `butt`. */
  lemma CapChoice(p: Params, width: int, height: int, rand: Stream, k: nat)
    requires Uniform(rand) && width >= 0 && height >= 0
    ensures var cap := GenerateLine(p, width, height, rand, k).value.lineCap;
            (p.lineCap == "round" ==> cap == "round")
            && (p.lineCap != "round" && p.lineCap != "mixed" ==> cap == "butt")
            && (cap == "butt" || cap == "round")
  {
  }

  /** How many draws a stroke consumes, given whether it went edge to edge. */
  function DrawCount(p: Params, through: bool): nat
  {
    1
    + (if p.lineMode == "mixed" then 1 else 0)
    + (if through then 3 else 4)
    + 4
    + (if p.colorMode == "theme" then 10 else if p.colorMode == "random" then 3 else 0)
    + (if p.lineCap == "mixed" then 1 else 0)
  }

  /** A stroke consumes exactly DrawCount draws: between 8 and 21 of them. */
  lemma GenerateLineDraws(p: Params, width: int, height: int, rand: Stream, k: nat)
    requires Uniform(rand) && width >= 0 && height >= 0
    ensures var through := p.lineMode == "through" || (p.lineMode == "mixed" && rand(k + 1) > 0.5);
            GenerateLine(p, width, height, rand, k).next == k + DrawCount(p, through)
    ensures 8 <= GenerateLine(p, width, height, rand, k).next - k <= 21
  {
  }

  /** The two streams return the same draws at every index of [from, to). */
  predicate Agree(r1: Stream, r2: Stream, from: nat, to: nat)
  {
    forall i :: from <= i < to ==> r1(i) == r2(i)
  }

  lemma EndpointsReplay(lineMode: string, width: int, height: int, r1: Stream, r2: Stream, k: nat)
    requires Uniform(r1) && Uniform(r2) && width >= 0 && height >= 0
    requires Agree(r1, r2, k, Endpoints(lineMode, width, height, r1, k).next)
    ensures Endpoints(lineMode, width, height, r1, k) == Endpoints(lineMode, width, height, r2, k)
  {
    var t := ThroughChosen(lineMode, r1, k);
    assert t == ThroughChosen(lineMode, r2, k) by {
      if lineMode == "mixed" { assert r1(k) == r2(k); }
    }
    var j := t.next;
    assert r1(j) == r2(j) && r1(j + 1) == r2(j + 1) && r1(j + 2) == r2(j + 2);
    if !t.value {
      assert r1(j + 3) == r2(j + 3);
    }
  }

  lemma PickColorReplay(colorMode: string, r1: Stream, r2: Stream, k: nat)
    requires Uniform(r1) && Uniform(r2)
    requires Agree(r1, r2, k, PickColor(colorMode, r1, k).next)
    ensures PickColor(colorMode, r1, k) == PickColor(colorMode, r2, k)
  {
    if colorMode == "theme" || colorMode == "random" {
      assert r1(k) == r2(k) && r1(k + 1) == r2(k + 1) && r1(k + 2) == r2(k + 2);
    }
    if colorMode == "theme" {
      assert r1(k + 3) == r2(k + 3) && r1(k + 4) == r2(k + 4) && r1(k + 5) == r2(k + 5);
      assert r1(k + 6) == r2(k + 6) && r1(k + 7) == r2(k + 7) && r1(k + 8) == r2(k + 8);
      assert r1(k + 9) == r2(k + 9);
    }
  }

  lemma ControlPointsReplay(start: Point, end: Point, width: int, height: int, curveStrength: real,
                            r1: Stream, r2: Stream, k: nat)
    requires Agree(r1, r2, k, k + 4)
    ensures ControlPoints(start, end, width, height, curveStrength, r1, k)
            == ControlPoints(start, end, width, height, curveStrength, r2, k)
  {
    assert r1(k) == r2(k) && r1(k + 1) == r2(k + 1);
    assert r1(k + 2) == r2(k + 2) && r1(k + 3) == r2(k + 3);
  }

  lemma PickCapReplay(lineCap: string, r1: Stream, r2: Stream, k: nat)
    requires Agree(r1, r2, k, PickCap(lineCap, r1, k).next)
    ensures PickCap(lineCap, r1, k) == PickCap(lineCap, r2, k)
  {
    if lineCap == "mixed" {
      assert r1(k) == r2(k);
    }
  }

  /** The parts of a stroke read consecutive stretches of the stream, in the source's order. */
  lemma DrawsInOrder(p: Params, width: int, height: int, rand: Stream, k: nat)
    requires Uniform(rand) && width >= 0 && height >= 0
    ensures var ends := Endpoints(p.lineMode, width, height, rand, k + 1);
            var controls := ControlPoints(ends.value.0, ends.value.1, width, height, p.curveStrength, rand, ends.next);
            var color := PickColor(p.colorMode, rand, controls.next);
            var cap := PickCap(p.lineCap, rand, color.next);
            k + 1 <= ends.next && controls.next == ends.next + 4 && controls.next <= color.next <= cap.next
            && cap.next == GenerateLine(p, width, height, rand, k).next
  {
  }

  /**
   * Replaying the same draws replays the same stroke: only the draws the
   * stroke actually consumes matter.
   */
  lemma GenerateLineReplay(p: Params, width: int, height: int, r1: Stream, r2: Stream, k: nat)
    requires Uniform(r1) && Uniform(r2) && width >= 0 && height >= 0
    requires Agree(r1, r2, k, GenerateLine(p, width, height, r1, k).next)
    ensures GenerateLine(p, width, height, r1, k) == GenerateLine(p, width, height, r2, k)
  {
    DrawsInOrder(p, width, height, r1, k);
    PartsReplay(p, width, height, r1, r2, k);
    SameParts(p, width, height, r1, r2, k);
  }

  /** The parts of a stroke, read from two streams that agree on every draw the parts consume, are the same. */
  lemma PartsReplay(p: Params, width: int, height: int, r1: Stream, r2: Stream, k: nat)
    requires Uniform(r1) && Uniform(r2) && width >= 0 && height >= 0
    requires var ends := Endpoints(p.lineMode, width, height, r1, k + 1);
             var controls := ControlPoints(ends.value.0, ends.value.1, width, height, p.curveStrength, r1, ends.next);
             var color := PickColor(p.colorMode, r1, controls.next);
             Agree(r1, r2, k, PickCap(p.lineCap, r1, color.next).next)
    ensures r1(k) == r2(k)
    ensures var ends := Endpoints(p.lineMode, width, height, r1, k + 1);
            var controls := ControlPoints(ends.value.0, ends.value.1, width, height, p.curveStrength, r1, ends.next);
            var color := PickColor(p.colorMode, r1, controls.next);
            ends == Endpoints(p.lineMode, width, height, r2, k + 1)
            && controls == ControlPoints(ends.value.0, ends.value.1, width, height, p.curveStrength, r2, ends.next)
            && color == PickColor(p.colorMode, r2, controls.next)
            && PickCap(p.lineCap, r1, color.next) == PickCap(p.lineCap, r2, color.next)
  {
    var ends := Endpoints(p.lineMode, width, height, r1, k + 1);
    var controls := ControlPoints(ends.value.0, ends.value.1, width, height, p.curveStrength, r1, ends.next);
    var color := PickColor(p.colorMode, r1, controls.next);
    var cap := PickCap(p.lineCap, r1, color.next);
    assert k + 1 <= ends.next && controls.next == ends.next + 4 && controls.next <= color.next <= cap.next by {
      DrawsInOrder(p, width, height, r1, k);
    }
    assert r1(k) == r2(k);
    assert ends == Endpoints(p.lineMode, width, height, r2, k + 1) by {
      EndpointsReplay(p.lineMode, width, height, r1, r2, k + 1);
    }
    assert controls == ControlPoints(ends.value.0, ends.value.1, width, height, p.curveStrength, r2, ends.next) by {
      ControlPointsReplay(ends.value.0, ends.value.1, width, height, p.curveStrength, r1, r2, ends.next);
    }
    assert color == PickColor(p.colorMode, r2, controls.next) by {
      PickColorReplay(p.colorMode, r1, r2, controls.next);
    }
    assert cap == PickCap(p.lineCap, r2, color.next) by {
      PickCapReplay(p.lineCap, r1, r2, color.next);
    }
  }

  /** Two streams that give a stroke the same width draw and the same parts give it the same stroke. */
  lemma SameParts(p: Params, width: int, height: int, r1: Stream, r2: Stream, k: nat)
    requires Uniform(r1) && Uniform(r2) && width >= 0 && height >= 0
    requires r1(k) == r2(k)
    requires var ends := Endpoints(p.lineMode, width, height, r1, k + 1);
             var controls := ControlPoints(ends.value.0, ends.value.1, width, height, p.curveStrength, r1, ends.next);
             var color := PickColor(p.colorMode, r1, controls.next);
             ends == Endpoints(p.lineMode, width, height, r2, k + 1)
             && controls == ControlPoints(ends.value.0, ends.value.1, width, height, p.curveStrength, r2, ends.next)
             && color == PickColor(p.colorMode, r2, controls.next)
             && PickCap(p.lineCap, r1, color.next) == PickCap(p.lineCap, r2, color.next)
    ensures GenerateLine(p, width, height, r1, k) == GenerateLine(p, width, height, r2, k)
  {
  }

  /**
   * The scenario of a 500 × 500 canvas, through mode, black, butt caps,
   * widths fixed at 2, with every draw 0.5: the orientation coin is not
   * above 0.5, so the stroke is the vertical line x = 250 with both
   * control points at the centre.
   */
  lemma ExampleThroughStroke()
    ensures var p := Params("through", "black", 2.0, 2.0, 50.0, "butt");
            var half: Stream := i => 0.5;
            GenerateLine(p, 500, 500, half, 0).value
              == Stroke(Point(250.0, 0.0), Point(250.0, 500.0), Point(250.0, 250.0), Point(250.0, 250.0),
                        2.0, Black, "butt")
  {
    var half: Stream := i => 0.5;
    var start, end := Point(250.0, 0.0), Point(250.0, 500.0);
    assert RandomInt(0.5, 0, 500) == 250 by {
      assert 0.5 * 501.0 == 250.5;
    }
    assert Endpoints("through", 500, 500, half, 1) == Drawn((start, end), 4);
    assert Center(start, end) == Point(250.0, 250.0);
    assert MaxOffset(500, 500, 50.0) == 250.0;
    assert RandomFloat(0.5, -250.0, 250.0) == 0.0;
    assert ControlPoints(start, end, 500, 500, 50.0, half, 4)
           == Drawn((Point(250.0, 250.0), Point(250.0, 250.0)), 8);
    assert RandomFloat(0.5, 2.0, 2.0) == 2.0;
  }

  // ---------------------------------------------------------------------
  // Batches
  // ---------------------------------------------------------------------

  /** generateLine on a fixed canvas and stream, as a function of the index it starts reading at. */
  function Generator(p: Params, width: int, height: int, rand: Stream): nat -> Drawn<Stroke>
    requires Uniform(rand) && width >= 0 && height >= 0
  {
    (j: nat) => GenerateLine(p, width, height, rand, j)
  }

  /** `count` strokes generated one after another from index k, as generateLines does. */
  function Batch<T>(gen: nat -> Drawn<T>, k: nat, count: nat): (d: Drawn<seq<T>>)
    ensures |d.value| == count
    decreases count
  {
    if count == 0 then Drawn([], k)
    else
      var before := Batch(gen, k, count - 1);
      var line := gen(before.next);
      Drawn(before.value + [line.value], line.next)
  }

  /** Every stroke reads between 8 and 21 draws, so a batch of n reads between 8n and 21n. */
  lemma {:induction false} BatchDraws(p: Params, width: int, height: int, rand: Stream, k: nat, count: nat)
    requires Uniform(rand) && width >= 0 && height >= 0
    ensures var b := Batch(Generator(p, width, height, rand), k, count);
            k + 8 * count <= b.next <= k + 21 * count
    decreases count
  {
    if count > 0 {
      var before := Batch(Generator(p, width, height, rand), k, count - 1);
      BatchDraws(p, width, height, rand, k, count - 1);
      GenerateLineDraws(p, width, height, rand, before.next);
    }
  }

  /** Where a stroke may lie: endpoints in the canvas, and edge to edge in `through` mode. */
  predicate Placed(s: Stroke, lineMode: string, width: int, height: int)
  {
    InCanvas(s.startPoint, width, height) && InCanvas(s.endPoint, width, height)
    && (lineMode == "through" ==> TouchesOppositeEdges(s, width, height))
  }

  lemma GenerateLinePlaced(p: Params, width: int, height: int, rand: Stream, k: nat)
    requires Uniform(rand) && width >= 0 && height >= 0
    ensures Placed(GenerateLine(p, width, height, rand, k).value, p.lineMode, width, height)
  {
    EndpointsInCanvas(p, width, height, rand, k);
    if p.lineMode == "through" {
      ThroughTouchesEdges(p, width, height, rand, k);
    }
  }

  predicate AllPlaced(lines: seq<Stroke>, lineMode: string, width: int, height: int)
  {
    forall i :: 0 <= i < |lines| ==> Placed(lines[i], lineMode, width, height)
  }

  lemma AllPlacedSnoc(lines: seq<Stroke>, s: Stroke, lineMode: string, width: int, height: int)
    requires AllPlaced(lines, lineMode, width, height) && Placed(s, lineMode, width, height)
    ensures AllPlaced(lines + [s], lineMode, width, height)
  {
    var all := lines + [s];
    assert forall i :: 0 <= i < |lines| ==> all[i] == lines[i];
  }

  /** If every stroke a generator can produce is placed, so is every stroke of its batches. */
  lemma {:induction false} BatchPlaced(gen: nat -> Drawn<Stroke>, k: nat, count: nat,
                                       lineMode: string, width: int, height: int)
    requires forall j :: Placed(gen(j).value, lineMode, width, height)
    ensures AllPlaced(Batch(gen, k, count).value, lineMode, width, height)
    decreases count
  {
    if count > 0 {
      var before := Batch(gen, k, count - 1);
      BatchPlaced(gen, k, count - 1, lineMode, width, height);
      var line := gen(before.next);
      AllPlacedSnoc(before.value, line.value, lineMode, width, height);
      assert Batch(gen, k, count).value == before.value + [line.value];
    }
  }

  /** Every stroke generateLines stores has its endpoints in the canvas, and runs edge to edge in `through` mode. */
  lemma BatchInCanvas(p: Params, width: int, height: int, rand: Stream, k: nat, count: nat)
    requires Uniform(rand) && width >= 0 && height >= 0
    ensures AllPlaced(Batch(Generator(p, width, height, rand), k, count).value, p.lineMode, width, height)
  {
    var gen := Generator(p, width, height, rand);
    forall j: nat
      ensures Placed(gen(j).value, p.lineMode, width, height)
    {
      GenerateLinePlaced(p, width, height, rand, j);
    }
    BatchPlaced(gen, k, count, p.lineMode, width, height);
  }

  /** One more stroke extends the batch by what the generator draws from where the batch stopped. */
  lemma BatchSnoc<T>(gen: nat -> Drawn<T>, k: nat, count: nat, strokes: seq<T>, next: nat)
    requires Batch(gen, k, count) == Drawn(strokes, next)
    ensures Batch(gen, k, count + 1) == Drawn(strokes + [gen(next).value], gen(next).next)
  {
  }

  lemma PrefixOfSnoc<T>(lines: seq<T>, s: T, m: nat)
    requires m <= |lines|
    ensures (lines + [s])[..m] == lines[..m]
  {
  }

  /** A longer batch from the same start begins with the shorter one: strokes already generated are kept. */
  lemma {:induction false} BatchPrefix<T>(gen: nat -> Drawn<T>, k: nat, m: nat, n: nat)
    requires m <= n
    ensures Batch(gen, k, n).value[..m] == Batch(gen, k, m).value
    decreases n
  {
    if m < n {
      BatchPrefix(gen, k, m, n - 1);
      var before := Batch(gen, k, n - 1);
      var line := gen(before.next);
      assert Batch(gen, k, n).value == before.value + [line.value];
      PrefixOfSnoc(before.value, line.value, m);
    } else {
      assert Batch(gen, k, n).value[..m] == Batch(gen, k, n).value;
    }
  }

  // ---------------------------------------------------------------------
  // The generator object
  // ---------------------------------------------------------------------

  /** The copy of a stroke kept on the canvas element (canvas.__lines), in the older field names. */
  datatype StoredLine = StoredLine(start: Point, end: Point, controlPoints: seq<Point>,
                                   width: real, color: Color, cap: string)

  function Stored(s: Stroke): (l: StoredLine)
    ensures l.start == s.startPoint && l.end == s.endPoint
    ensures l.controlPoints == [s.controlPoint1, s.controlPoint2]
    ensures l.width == s.width && l.color == s.color && l.cap == s.lineCap
  {
    StoredLine(s.startPoint, s.endPoint, [s.controlPoint1, s.controlPoint2], s.width, s.color, s.lineCap)
  }

  /** The canvas copy loses nothing: two strokes with the same copy are the same stroke. */
  lemma StoredInjective(a: Stroke, b: Stroke)
    requires Stored(a) == Stored(b)
    ensures a == b
  {
    assert a.controlPoint1 == Stored(a).controlPoints[0] == Stored(b).controlPoints[0] == b.controlPoint1;
    assert a.controlPoint2 == Stored(a).controlPoints[1] == Stored(b).controlPoints[1] == b.controlPoint2;
  }

  /** The keys a setParams call supplies; None for a key it leaves out. */
  datatype ParamsUpdate = ParamsUpdate(lineMode: Option<string>, colorMode: Option<string>,
                                       minWidth: Option<real>, maxWidth: Option<real>,
                                       curveStrength: Option<real>, lineCap: Option<string>)

  function Pick<T>(supplied: Option<T>, current: T): T
  {
    if supplied.Some? then supplied.value else current
  }

  /** `{...params, ...update}`: each supplied key overwrites, every other key keeps its value. */
  function Merge(p: Params, u: ParamsUpdate): (q: Params)
    ensures u.lineMode.Some? ==> q.lineMode == u.lineMode.value
    ensures u.lineMode.None? ==> q.lineMode == p.lineMode
    ensures u.colorMode.Some? ==> q.colorMode == u.colorMode.value
    ensures u.colorMode.None? ==> q.colorMode == p.colorMode
    ensures u.minWidth.Some? ==> q.minWidth == u.minWidth.value
    ensures u.minWidth.None? ==> q.minWidth == p.minWidth
    ensures u.maxWidth.Some? ==> q.maxWidth == u.maxWidth.value
    ensures u.maxWidth.None? ==> q.maxWidth == p.maxWidth
    ensures u.curveStrength.Some? ==> q.curveStrength == u.curveStrength.value
    ensures u.curveStrength.None? ==> q.curveStrength == p.curveStrength
    ensures u.lineCap.Some? ==> q.lineCap == u.lineCap.value
    ensures u.lineCap.None? ==> q.lineCap == p.lineCap
  {
    Params(Pick(u.lineMode, p.lineMode), Pick(u.colorMode, p.colorMode), Pick(u.minWidth, p.minWidth),
           Pick(u.maxWidth, p.maxWidth), Pick(u.curveStrength, p.curveStrength), Pick(u.lineCap, p.lineCap))
  }

  /** Applying the same update twice is applying it once; an empty update changes nothing. */
  lemma MergeIdempotent(p: Params, u: ParamsUpdate)
    ensures Merge(Merge(p, u), u) == Merge(p, u)
    ensures Merge(p, ParamsUpdate(None, None, None, None, None, None)) == p
  {
  }

  /**
   * drawLineOnCanvas: the stroke as drawn at a resolution multiplier,
   * every coordinate and the width multiplied by it.
   */
  function DrawLineOnCanvas(s: Stroke, resolution: real): (op: DrawOp)
  {
    StrokeBezier(ScalePoint(s.startPoint, resolution), ScalePoint(s.controlPoint1, resolution),
                 ScalePoint(s.controlPoint2, resolution), ScalePoint(s.endPoint, resolution),
                 CssText(s.color), s.width * resolution, s.lineCap)
  }

  /** A drawn curve scaled by k: the same curve at k times the pixel density. */
  function ScaleOp(op: DrawOp, k: real): DrawOp
    requires op.StrokeBezier?
  {
    op.(start := ScalePoint(op.start, k), control1 := ScalePoint(op.control1, k),
        control2 := ScalePoint(op.control2, k), end := ScalePoint(op.end, k), bezierWidth := op.bezierWidth * k)
  }

  /**
   * Drawing at resolution k is drawing at resolution 1 and scaling by k:
   * the export only changes pixel density, never the shape.
   */
  lemma DrawAtResolution(s: Stroke, k: real)
    ensures DrawLineOnCanvas(s, k) == ScaleOp(DrawLineOnCanvas(s, 1.0), k)
  {
  }

  /**
   * drawLine: the stroke on the generator's own canvas, in its colour,
   * width and cap, which is drawLineOnCanvas at its default resolution 1.
   */
  function DrawLine(s: Stroke): (op: DrawOp)
    ensures op == DrawLineOnCanvas(s, 1.0)
    ensures op.StrokeBezier? && op.start == s.startPoint && op.end == s.endPoint
    ensures op.bezierWidth == s.width && op.bezierStyle == CssText(s.color) && op.bezierCap == s.lineCap
  {
    StrokeBezier(s.startPoint, s.controlPoint1, s.controlPoint2, s.endPoint, CssText(s.color), s.width, s.lineCap)
  }

  /** Which edge getRandomPointOnEdge is asked for: a number 0–3 or a name. */
  datatype Edge = EdgeIndex(index: int) | EdgeName(name: string)

  /** getRandomPointOnEdge given the draw r; an unknown edge gives the origin. */
  function RandomPointOnEdge(edge: Edge, width: int, height: int, r: real): (pt: Point)
    requires 0.0 <= r < 1.0 && width >= 0 && height >= 0
  {
    var side := match edge
                case EdgeIndex(i) => i
                case EdgeName(n) =>
                  if n == "top" then 0 else if n == "right" then 1
                  else if n == "bottom" then 2 else if n == "left" then 3 else -1;
    if side == 0 then Point(RandomInt(r, 0, width) as real, 0.0)
    else if side == 1 then Point(width as real, RandomInt(r, 0, height) as real)
    else if side == 2 then Point(RandomInt(r, 0, width) as real, height as real)
    else if side == 3 then Point(0.0, RandomInt(r, 0, height) as real)
    else Point(0.0, 0.0)
  }

  const EdgeNames: seq<string> := ["top", "right", "bottom", "left"]

  /**
   * The numeric and the named spelling of an edge give the same point, and
   * that point lies on the named side of the canvas.
   */
  lemma PointOnEdge(i: int, width: int, height: int, r: real)
    requires 0.0 <= r < 1.0 && width >= 0 && height >= 0
    requires 0 <= i < 4
    ensures var pt := RandomPointOnEdge(EdgeIndex(i), width, height, r);
            pt == RandomPointOnEdge(EdgeName(EdgeNames[i]), width, height, r)
            && InCanvas(pt, width, height)
            && (i == 0 ==> pt.y == 0.0) && (i == 1 ==> pt.x == width as real)
            && (i == 2 ==> pt.y == height as real) && (i == 3 ==> pt.x == 0.0)
  {
  }

  class LineGenerator {
    /** The canvas manager whose logical size every stroke is generated for. */
    const manager: Canvas.CanvasManager
    var params: Params
    /** this.lines: the current batch. */
    var lines: seq<Stroke>
    /** canvas.__lines: the same batch in the older record shape. */
    var canvasLines: seq<StoredLine>

    constructor (manager: Canvas.CanvasManager)
      ensures this.manager == manager
      ensures params == DefaultParams && lines == [] && canvasLines == []
    {
      this.manager := manager;
      params := DefaultParams;
      lines := [];
      canvasLines := [];
    }

    /** setParams: overwrites only the supplied keys. */
    method SetParams(u: ParamsUpdate)
      modifies this`params
      ensures params == Merge(old(params), u)
    {
      params := Merge(params, u);
    }

    /** getLines. */
    function GetLines(): (ls: seq<Stroke>)
      reads this
      ensures ls == lines
    {
      lines
    }

    /** clearLines: empties both stores. */
    method ClearLines()
      modifies this`lines, this`canvasLines
      ensures lines == [] && canvasLines == []
    {
      lines := [];
      canvasLines := [];
    }

    /** drawAllLines: one drawLine per stored stroke, in batch order. */
    method DrawAllLines() returns (ops: seq<DrawOp>)
      ensures |ops| == |lines|
      ensures forall i :: 0 <= i < |lines| ==> ops[i] == DrawLine(lines[i])
    {
      ops := [];
      for i := 0 to |lines|
        invariant |ops| == i
        invariant forall j :: 0 <= j < i ==> ops[j] == DrawLine(lines[j])
      {
        ops := ops + [DrawLine(lines[i])];
      }
    }

    /**
     * generateLines: replaces the batch wholesale with `count` new strokes
     * for the manager's current logical size, and keeps canvas.__lines in
     * step with it, element by element. Returns the index of the next
     * unread draw.
     */
    method GenerateLines(count: nat, rand: Stream, k: nat) returns (next: nat)
      requires Uniform(rand) && manager.width >= 0 && manager.height >= 0
      modifies this`lines, this`canvasLines
      ensures var b := Batch(Generator(params, manager.width, manager.height, rand), k, count);
              lines == b.value && next == b.next
      ensures |lines| == count && |canvasLines| == count
      ensures forall i :: 0 <= i < count ==> canvasLines[i] == Stored(lines[i])
    {
      lines := [];
      canvasLines := [];
      next := k;
      ghost var gen := Generator(params, manager.width, manager.height, rand);
      var i := 0;
      while i < count
        invariant 0 <= i <= count
        invariant Batch(gen, k, i) == Drawn(lines, next)
        invariant |canvasLines| == i
        invariant forall j :: 0 <= j < i ==> canvasLines[j] == Stored(lines[j])
      {
        var line := GenerateLine(params, manager.width, manager.height, rand, next);
        BatchSnoc(gen, k, i, lines, next);
        lines := lines + [line.value];
        canvasLines := canvasLines + [Stored(line.value)];
        next := line.next;
        i := i + 1;
      }
    }
  }
}
