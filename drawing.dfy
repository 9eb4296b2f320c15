/**
 * What the engine hands to a 2D drawing context, recorded as values:
 * points, axis-aligned grid segments and the drawing commands the
 * renderers emit. The grid loops of every renderer share one shape,
 * `for (x = 0; x <= limit; x += step)`, modelled once by `Steps`.
 */
module Drawing {

  datatype Point = Point(x: real, y: real)

  /** From the left edge to the right edge, or from the top edge to the bottom edge, of a width × height canvas. */
  predicate EdgeToEdge(start: Point, end: Point, width: int, height: int)
  {
    (start.x == 0.0 && end.x == width as real) || (start.y == 0.0 && end.y == height as real)
  }

  /** A point with both coordinates multiplied by k (export at a resolution multiplier). */
  function ScalePoint(p: Point, k: real): (q: Point)
    ensures q.x == p.x * k && q.y == p.y * k
  {
    Point(p.x * k, p.y * k)
  }

  /** Scaling by 1 leaves a point where it is. */
  lemma ScalePointIdentity(p: Point)
    ensures ScalePoint(p, 1.0) == p
  {
  }

  /** Scaling by a and then by b is scaling by a · b. */
  lemma ScalePointCompose(p: Point, a: real, b: real)
    ensures ScalePoint(ScalePoint(p, a), b) == ScalePoint(p, a * b)
  {
    assert p.x * a * b == p.x * (a * b) && p.y * a * b == p.y * (a * b);
  }

  datatype Segment = Segment(from: Point, to: Point)

  /** A segment with both ends scaled by k. */
  function ScaleSegment(s: Segment, k: real): (t: Segment)
    ensures t.from == ScalePoint(s.from, k) && t.to == ScalePoint(s.to, k)
  {
    Segment(ScalePoint(s.from, k), ScalePoint(s.to, k))
  }

  /** Scaling by 1 leaves a segment where it is. */
  lemma ScaleSegmentIdentity(s: Segment)
    ensures ScaleSegment(s, 1.0) == s
  {
    ScalePointIdentity(s.from);
    ScalePointIdentity(s.to);
  }

  /** Scaling a segment by a and then by b is scaling it by a · b. */
  lemma ScaleSegmentCompose(s: Segment, a: real, b: real)
    ensures ScaleSegment(ScaleSegment(s, a), b) == ScaleSegment(s, a * b)
  {
    ScalePointCompose(s.from, a, b);
    ScalePointCompose(s.to, a, b);
  }

  /** One command sent to a canvas 2D context, with the state it is drawn under. */
  datatype DrawOp =
    | ClearRect(clearWidth: real, clearHeight: real)
    | FillRect(fillStyle: string, fillAlpha: real, fillWidth: real, fillHeight: real)
    | StrokeSegment(segment: Segment, segmentStyle: string, segmentWidth: real, segmentAlpha: real)
    | StrokeBezier(start: Point, control1: Point, control2: Point, end: Point,
                   bezierStyle: string, bezierWidth: real, bezierCap: string)

  /** How many of 0, step, 2·step, … do not exceed limit. */
  function TickCount(limit: real, step: real): nat
    requires step > 0.0
  {
    if limit < 0.0 then 0 else (limit / step).Floor + 1
  }

  /** The positions visited by `for (x = 0; x <= limit; x += step)`, in order. */
  function Ticks(limit: real, step: real): (xs: seq<real>)
    requires step > 0.0
    ensures |xs| == TickCount(limit, step)
  {
    seq(TickCount(limit, step), i => i as real * step)
  }

  /** Multiplying by a positive step keeps the order both ways. */
  lemma ScaleOrder(a: real, b: real, step: real)
    requires step > 0.0
    ensures a <= b <==> a * step <= b * step
  {
    assert b * step - a * step == (b - a) * step;
  }

  /** The i-th multiple of step is visited exactly when it does not exceed limit. */
  lemma TickWithin(limit: real, step: real, i: nat)
    requires step > 0.0
    ensures i as real * step <= limit <==> i < TickCount(limit, step)
  {
    if limit >= 0.0 {
      var q := limit / step;
      assert q * step == limit;
      ScaleOrder(i as real, q, step);
    } else {
      ScaleOrder(0.0, i as real, step);
    }
  }

  /** The grid spans [0, limit]: the first tick is 0 and the last one is within one step of limit. */
  lemma TicksSpan(limit: real, step: real)
    requires step > 0.0 && limit >= 0.0
    ensures Ticks(limit, step)[0] == 0.0
    ensures var xs := Ticks(limit, step);
            xs[|xs| - 1] <= limit < xs[|xs| - 1] + step
  {
    var n := TickCount(limit, step);
    assert limit / step >= 0.0;
    TickWithin(limit, step, n - 1);
    TickWithin(limit, step, n);
    assert n as real * step == (n - 1) as real * step + step;
  }

  /**
   * Scaling the limit and the step by the same k > 0 visits the same
   * number of positions, each scaled by k: the export grid at a
   * resolution multiplier is the preview grid scaled.
   */
  lemma TicksScale(limit: real, step: real, k: real)
    requires step > 0.0 && k > 0.0
    ensures step * k > 0.0
    ensures |Ticks(limit * k, step * k)| == |Ticks(limit, step)|
    ensures forall i :: 0 <= i < |Ticks(limit, step)| ==>
              Ticks(limit * k, step * k)[i] == Ticks(limit, step)[i] * k
  {
    assert (limit * k) / (step * k) == limit / step;
    assert limit * k < 0.0 <==> limit < 0.0;
  }

  /**
   * The loop `for (x = 0; x <= limit; x += step)`, recording each x it
   * visits.
   */
  method Steps(limit: real, step: real) returns (xs: seq<real>)
    requires step > 0.0
    ensures xs == Ticks(limit, step)
  {
    xs := [];
    var x := 0.0;
    while x <= limit
      invariant x == |xs| as real * step
      invariant |xs| <= TickCount(limit, step)
      invariant forall i :: 0 <= i < |xs| ==> xs[i] == i as real * step
      decreases TickCount(limit, step) - |xs|
    {
      TickWithin(limit, step, |xs|);
      xs := xs + [x];
      x := x + step;
    }
    TickWithin(limit, step, |xs|);
    assert |xs| == TickCount(limit, step);
    assert forall i :: 0 <= i < |xs| ==> xs[i] == Ticks(limit, step)[i];
  }

  /** Vertical grid lines at each tick of [0, width], each spanning the full height. */
  function VerticalLines(width: real, height: real, step: real): (ls: seq<Segment>)
    requires step > 0.0
    ensures |ls| == TickCount(width, step)
    ensures forall i :: 0 <= i < |ls| ==>
              ls[i].from == Point(i as real * step, 0.0) && ls[i].to == Point(i as real * step, height)
  {
    var xs := Ticks(width, step);
    seq(|xs|, i requires 0 <= i < |xs| => Segment(Point(xs[i], 0.0), Point(xs[i], height)))
  }

  /** Horizontal grid lines at each tick of [0, height], each spanning the full width. */
  function HorizontalLines(width: real, height: real, step: real): (ls: seq<Segment>)
    requires step > 0.0
    ensures |ls| == TickCount(height, step)
    ensures forall i :: 0 <= i < |ls| ==>
              ls[i].from == Point(0.0, i as real * step) && ls[i].to == Point(width, i as real * step)
  {
    var ys := Ticks(height, step);
    seq(|ys|, i requires 0 <= i < |ys| => Segment(Point(0.0, ys[i]), Point(width, ys[i])))
  }
}
