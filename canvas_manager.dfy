/**
 * The surface sizer of js/canvas-manager.js: how the logical (design)
 * size of the artwork is fitted into the page's canvas container, what
 * backing-store resolution the canvas element gets, and the background
 * and grid the manager paints.
 *
 * The size decision is a pure function (`Decide`, then `Backing`); the
 * `CanvasManager` class holds the state the source updates in place:
 * the logical size, the current scale factor and the canvas element's
 * backing size, CSS size and context transform.
 */
module Canvas {
  import opened Utils
  import opened Drawing

  /** The arguments setCanvasSize is called with: the displayed (CSS) box and the scale factor. */
  datatype Fit = Fit(displayWidth: real, displayHeight: real, scale: real)

  /** The modes that shrink or grow the canvas even when it already fits. */
  predicate Forced(mode: string)
  {
    mode == "fit-width" || mode == "fit-height"
  }

  /**
   * Scale to the container's width; the height follows the aspect ratio.
   * The source divides by the width; a zero height makes the ratio
   * width / 0 an infinity in JavaScript, and the container width divided
   * by it is 0.
   */
  function FitWidth(width: int, height: int, containerWidth: real): Fit
    requires width != 0
  {
    var displayHeight := if height == 0 then 0.0 else containerWidth / (width as real / height as real);
    Fit(containerWidth, displayHeight, containerWidth / width as real)
  }

  /** Scale to the container's height; the width follows the aspect ratio. The source divides by the height. */
  function FitHeight(width: int, height: int, containerHeight: real): Fit
    requires height != 0
  {
    var canvasRatio := width as real / height as real;
    Fit(containerHeight * canvasRatio, containerHeight, containerHeight / height as real)
  }

  /**
   * The artwork is relatively wider than the container (canvasRatio >
   * containerRatio). For a zero height JavaScript's width / 0 is +∞ for
   * a positive width, −∞ for a negative one and NaN for 0, and only +∞
   * compares greater.
   */
  predicate WiderThan(width: int, height: int, containerWidth: real, containerHeight: real)
    requires containerHeight > 0.0
  {
    if height == 0 then width > 0
    else width as real / height as real > containerWidth / containerHeight
  }

  /** The display box is the logical size times the scale factor. */
  predicate Proportional(f: Fit, width: int, height: int)
  {
    f.displayWidth == f.scale * width as real && f.displayHeight == f.scale * height as real
  }

  /** The display box is the logical size times a positive scale factor, so the aspect ratio is kept. */
  predicate KeepsAspect(f: Fit, width: int, height: int)
  {
    f.scale > 0.0 && Proportional(f, width, height)
  }

  lemma FitWidthScales(width: int, height: int, containerWidth: real)
    requires width != 0
    ensures var f := FitWidth(width, height, containerWidth);
            Proportional(f, width, height)
            && (containerWidth > 0.0 && width > 0 ==> KeepsAspect(f, width, height))
  {
    var w, h := width as real, height as real;
    if height != 0 {
      assert containerWidth / (w / h) == (containerWidth / w) * h;
    }
  }

  lemma FitHeightScales(width: int, height: int, containerHeight: real)
    requires height != 0
    ensures var f := FitHeight(width, height, containerHeight);
            Proportional(f, width, height)
            && (containerHeight > 0.0 && height > 0 ==> KeepsAspect(f, width, height))
  {
    var w, h := width as real, height as real;
    assert containerHeight * (w / h) == (containerHeight / h) * w;
  }

  /** fit-width's sizing, or None when the width it divides by is 0 (the source's numbers are then not finite). */
  function ByWidth(width: int, height: int, containerWidth: real): (r: Option<Fit>)
    ensures r.None? <==> width == 0
    ensures r.Some? ==> Proportional(r.value, width, height)
    ensures r.Some? && containerWidth > 0.0 && width > 0 ==> KeepsAspect(r.value, width, height)
  {
    if width == 0 then None
    else
      FitWidthScales(width, height, containerWidth);
      Some(FitWidth(width, height, containerWidth))
  }

  /** fit-height's sizing, or None when the height it divides by is 0. */
  function ByHeight(width: int, height: int, containerHeight: real): (r: Option<Fit>)
    ensures r.None? <==> height == 0
    ensures r.Some? ==> Proportional(r.value, width, height)
    ensures r.Some? && containerHeight > 0.0 && height > 0 ==> KeepsAspect(r.value, width, height)
  {
    if height == 0 then None
    else
      FitHeightScales(width, height, containerHeight);
      Some(FitHeight(width, height, containerHeight))
  }

  /** Only a nonzero width can be relatively wider, and a zero height is never relatively taller unless the width is not positive. */
  lemma WiderThanSides(width: int, height: int, containerWidth: real, containerHeight: real)
    requires containerWidth > 0.0 && containerHeight > 0.0
    ensures WiderThan(width, height, containerWidth, containerHeight) ==> width != 0
    ensures height == 0 && !WiderThan(width, height, containerWidth, containerHeight) ==> width <= 0
  {
    if height != 0 && width == 0 {
      assert width as real / height as real == 0.0;
      assert containerWidth / containerHeight > 0.0;
    }
  }

  /**
   * The display decision of initializeCanvas for a logical size (any
   * integer the form's fields parse to) and the container's usable size
   * (its client size less the 40-pixel margin). Whenever the source's
   * numbers are finite the display box is the logical size times the
   * scale factor; for a positive size that factor is positive, so the
   * aspect ratio is kept. They are not finite (None) exactly when
   * fit-width meets a zero width or fit-height a zero height: every other
   * mode either shows a fitting canvas 1:1 or divides by a nonzero side.
   */
  function Decide(width: int, height: int, containerWidth: real, containerHeight: real, mode: string): (r: Option<Fit>)
    requires containerWidth > 0.0 && containerHeight > 0.0
    ensures r.None? <==> (mode == "fit-width" && width == 0) || (mode == "fit-height" && height == 0)
    ensures r.Some? ==> Proportional(r.value, width, height)
    ensures width > 0 && height > 0 ==> r.Some? && KeepsAspect(r.value, width, height)
  {
    var fits := width as real <= containerWidth && height as real <= containerHeight;
    WiderThanSides(width, height, containerWidth, containerHeight);
    if fits && !Forced(mode) then Some(Fit(width as real, height as real, 1.0))
    else if mode == "original" then Some(Fit(width as real, height as real, 1.0))
    else if mode == "fit-width" then ByWidth(width, height, containerWidth)
    else if mode == "fit-height" then ByHeight(width, height, containerHeight)
    else if WiderThan(width, height, containerWidth, containerHeight) then ByWidth(width, height, containerWidth)
    else ByHeight(width, height, containerHeight)
  }

  /** A canvas that fits, in any mode but the two fit modes, is shown at its own size, unscaled. */
  lemma DecideFitsUnscaled(width: int, height: int, containerWidth: real, containerHeight: real, mode: string)
    requires containerWidth > 0.0 && containerHeight > 0.0
    requires width as real <= containerWidth && height as real <= containerHeight
    requires !Forced(mode)
    ensures Decide(width, height, containerWidth, containerHeight, mode) == Some(Fit(width as real, height as real, 1.0))
  {
  }

  /** `original` always shows the logical size at scale 1, even when it overflows the container. */
  lemma DecideOriginal(width: int, height: int, containerWidth: real, containerHeight: real)
    requires containerWidth > 0.0 && containerHeight > 0.0
    ensures Decide(width, height, containerWidth, containerHeight, "original") == Some(Fit(width as real, height as real, 1.0))
  {
  }

  /** `fit-width` on a nonzero width fills the container's width exactly and keeps the ratio of the sides. */
  lemma DecideFitWidth(width: int, height: int, containerWidth: real, containerHeight: real)
    requires width != 0 && containerWidth > 0.0 && containerHeight > 0.0
    ensures var f := Decide(width, height, containerWidth, containerHeight, "fit-width").value;
            f.displayWidth == containerWidth && f.scale == containerWidth / width as real
            && f.displayHeight / f.displayWidth == height as real / width as real
  {
    var f := Decide(width, height, containerWidth, containerHeight, "fit-width").value;
    var w, h := width as real, height as real;
    assert f.displayHeight / f.displayWidth == (f.scale * h) / (f.scale * w);
  }

  /** `fit-height` on a nonzero height fills the container's height exactly and keeps the ratio of the sides. */
  lemma DecideFitHeight(width: int, height: int, containerWidth: real, containerHeight: real)
    requires height != 0 && containerWidth > 0.0 && containerHeight > 0.0
    ensures var f := Decide(width, height, containerWidth, containerHeight, "fit-height").value;
            f.displayHeight == containerHeight && f.scale == containerHeight / height as real
            && f.displayWidth / f.displayHeight == width as real / height as real
  {
    var f := Decide(width, height, containerWidth, containerHeight, "fit-height").value;
    var w, h := width as real, height as real;
    assert f.displayWidth / f.displayHeight == (f.scale * w) / (f.scale * h);
  }

  /** Comparing aspect ratios is comparing the two cross products. */
  lemma WiderThanCross(width: int, height: int, containerWidth: real, containerHeight: real)
    requires width > 0 && height > 0 && containerWidth > 0.0 && containerHeight > 0.0
    ensures WiderThan(width, height, containerWidth, containerHeight)
            <==> containerWidth * height as real < width as real * containerHeight
  {
    var w, h := width as real, height as real;
    var a, b := w / h, containerWidth / containerHeight;
    assert a * (h * containerHeight) == w * containerHeight;
    assert b * (h * containerHeight) == containerWidth * h;
    ScaleOrder(a, b, h * containerHeight);
  }

  /**
   * `auto` (and any unknown mode) on a canvas that does not fit binds to
   * the width exactly when the artwork is relatively wider than the
   * container, otherwise to the height; either way the display box fits
   * inside the container, touches it on the bound axis, and the canvas
   * is shrunk (scale < 1).
   */
  lemma DecideAutoOverflow(width: int, height: int, containerWidth: real, containerHeight: real, mode: string)
    requires width > 0 && height > 0 && containerWidth > 0.0 && containerHeight > 0.0
    requires !Forced(mode) && mode != "original"
    requires width as real > containerWidth || height as real > containerHeight
    ensures var f := Decide(width, height, containerWidth, containerHeight, mode).value;
            (f.displayWidth == containerWidth && f.scale == containerWidth / width as real
              <== WiderThan(width, height, containerWidth, containerHeight))
            && (f.displayHeight == containerHeight && f.scale == containerHeight / height as real
              <== !WiderThan(width, height, containerWidth, containerHeight))
            && f.displayWidth <= containerWidth && f.displayHeight <= containerHeight
            && f.scale < 1.0
  {
    var f := Decide(width, height, containerWidth, containerHeight, mode).value;
    WiderThanCross(width, height, containerWidth, containerHeight);
    if WiderThan(width, height, containerWidth, containerHeight) {
      assert f == FitWidth(width, height, containerWidth);
      WideOverflowFits(width, height, containerWidth, containerHeight);
    } else {
      assert f == FitHeight(width, height, containerHeight);
      TallOverflowFits(width, height, containerWidth, containerHeight);
    }
  }

  /** A scale that maps a side into a bound shorter than that side is below 1. */
  lemma ShrinkFactor(scale: real, side: real, bound: real)
    requires side > 0.0 && scale * side <= bound < side
    ensures scale < 1.0
  {
    ScaleOrder(1.0, scale, side);
  }

  /** Binding to the width of a relatively narrower container keeps the height inside and shrinks the canvas. */
  lemma WideOverflowFits(width: int, height: int, containerWidth: real, containerHeight: real)
    requires width > 0 && height > 0 && containerWidth > 0.0 && containerHeight > 0.0
    requires containerWidth * height as real < width as real * containerHeight
    requires width as real > containerWidth || height as real > containerHeight
    ensures var f := FitWidth(width, height, containerWidth);
            f.displayHeight <= containerHeight && f.scale < 1.0
  {
    var f := FitWidth(width, height, containerWidth);
    var w, h := width as real, height as real;
    FitWidthScales(width, height, containerWidth);
    assert f.scale * w == containerWidth;
    assert f.displayHeight <= containerHeight by {
      assert (f.scale * h) * w == containerWidth * h;
      assert containerWidth * h < containerHeight * w;
      ScaleOrder(f.scale * h, containerHeight, w);
    }
    if h > containerHeight {
      ShrinkFactor(f.scale, h, containerHeight);
    } else {
      ShrinkFactor(f.scale, w, containerWidth);
    }
  }

  /** Binding to the height of a relatively wider container keeps the width inside and shrinks the canvas. */
  lemma TallOverflowFits(width: int, height: int, containerWidth: real, containerHeight: real)
    requires width > 0 && height > 0 && containerWidth > 0.0 && containerHeight > 0.0
    requires containerWidth * height as real >= width as real * containerHeight
    requires width as real > containerWidth || height as real > containerHeight
    ensures var f := FitHeight(width, height, containerHeight);
            f.displayWidth <= containerWidth && f.scale < 1.0
  {
    var f := FitHeight(width, height, containerHeight);
    var w, h := width as real, height as real;
    FitHeightScales(width, height, containerHeight);
    assert f.scale * h == containerHeight;
    assert f.displayWidth <= containerWidth by {
      assert (f.scale * w) * h == containerHeight * w;
      assert containerHeight * w <= containerWidth * h;
      ScaleOrder(f.scale * w, containerWidth, h);
    }
    if w > containerWidth {
      ShrinkFactor(f.scale, w, containerWidth);
    } else {
      ShrinkFactor(f.scale, h, containerHeight);
    }
  }

  /** In `auto` (or an unknown mode) the display box always fits inside the container. */
  lemma DecideAutoFits(width: int, height: int, containerWidth: real, containerHeight: real, mode: string)
    requires width > 0 && height > 0 && containerWidth > 0.0 && containerHeight > 0.0
    requires !Forced(mode) && mode != "original"
    ensures var f := Decide(width, height, containerWidth, containerHeight, mode).value;
            f.displayWidth <= containerWidth && f.displayHeight <= containerHeight && f.scale <= 1.0
  {
    if width as real > containerWidth || height as real > containerHeight {
      DecideAutoOverflow(width, height, containerWidth, containerHeight, mode);
    }
  }

  /** The drawing transform of a 2D context: a point p is drawn at scale · (p + offset). */
  datatype Transform = Transform(scale: real, offsetX: real, offsetY: real)

  const Identity := Transform(1.0, 0.0, 0.0)

  /** The backing store setCanvasSize gives the canvas element, and the transform drawing then uses. */
  datatype Surface = Surface(backingWidth: int, backingHeight: int, transform: Transform)

  /**
   * The resolution policy of setCanvasSize. With high quality on and a
   * shrunk display (scale < 1) the backing store keeps the logical size
   * and the display box shrinks it; otherwise it is the display box in
   * device pixels, rounded, with drawing scaled by the device pixel
   * ratio. Assigning a canvas element's width resets its context, so the
   * transform is exactly the one set here, with the half-pixel shift
   * applied once.
   */
  function Backing(f: Fit, width: int, height: int, highQuality: bool, dpr: real): (s: Surface)
    ensures s.transform.offsetX == 0.5 && s.transform.offsetY == 0.5
    ensures highQuality && f.scale < 1.0 ==> s.backingWidth == width && s.backingHeight == height
    ensures !(highQuality && f.scale < 1.0) ==>
              s.backingWidth as real - 0.5 <= f.displayWidth * dpr < s.backingWidth as real + 0.5
              && s.backingHeight as real - 0.5 <= f.displayHeight * dpr < s.backingHeight as real + 0.5
  {
    if highQuality && f.scale < 1.0 then
      Surface(width, height, Transform(1.0, 0.5, 0.5))
    else
      Surface(Round(f.displayWidth * dpr), Round(f.displayHeight * dpr), Transform(dpr, 0.5, 0.5))
  }

  /**
   * Under the high-quality policy a shrunk display never has a backing
   * store smaller than the box it is shown in: the bitmap is only ever
   * scaled down by the browser, never up.
   */
  lemma HighQualityNeverUpsamples(width: int, height: int, containerWidth: real, containerHeight: real, mode: string, dpr: real)
    requires width > 0 && height > 0 && containerWidth > 0.0 && containerHeight > 0.0
    ensures var f := Decide(width, height, containerWidth, containerHeight, mode).value;
            var s := Backing(f, width, height, true, dpr);
            f.scale < 1.0 ==> f.displayWidth < s.backingWidth as real && f.displayHeight < s.backingHeight as real
  {
    var f := Decide(width, height, containerWidth, containerHeight, mode).value;
    if f.scale < 1.0 {
      ScaleOrder(f.scale, 1.0, width as real);
      ScaleOrder(f.scale, 1.0, height as real);
    }
  }

  /** What the element's client box measures, before the 40-pixel margin is taken off. */
  datatype ClientBox = ClientBox(clientWidth: real, clientHeight: real)

  /** The margin initializeCanvas keeps free around the canvas on each axis. */
  const Margin: real := 40.0

  /** The display mode select's value, `auto` when the select is missing or empty. */
  function ModeOf(field: Option<string>): (mode: string)
    ensures field == None || field == Some("") ==> mode == "auto"
    ensures field.Some? && field.value != "" ==> mode == field.value
  {
    if field.Some? && field.value != "" then field.value else "auto"
  }

  /** `arg || field`: an argument of 0 (or NaN, not modelled) falls back to the parsed form field. */
  function SizeOf(arg: int, field: int): (n: int)
    ensures arg != 0 ==> n == arg
    ensures arg == 0 ==> n == field
  {
    if arg != 0 then arg else field
  }

  class CanvasManager {
    /** Logical size of the artwork. */
    var width: int
    var height: int
    /** The scale factor last passed to setCanvasSize, read by touch interaction. */
    var currentScaleFactor: real
    /** The canvas element: backing-store size, CSS size and its context's transform. */
    var canvasWidth: int
    var canvasHeight: int
    var styleWidth: real
    var styleHeight: real
    var transform: Transform

    /** A manager over a canvas element whose backing store is canvasWidth × canvasHeight. */
    constructor (canvasWidth: int, canvasHeight: int)
      ensures width == 500 && height == 500 && currentScaleFactor == 1.0
      ensures this.canvasWidth == canvasWidth && this.canvasHeight == canvasHeight
      ensures styleWidth == canvasWidth as real && styleHeight == canvasHeight as real
      ensures transform == Identity
    {
      width, height := 500, 500;
      currentScaleFactor := 1.0;
      this.canvasWidth, this.canvasHeight := canvasWidth, canvasHeight;
      styleWidth, styleHeight := canvasWidth as real, canvasHeight as real;
      transform := Identity;
    }

    /** getSize: the logical size. */
    function GetSize(): (size: (int, int))
      reads this
      ensures size.0 == width && size.1 == height
    {
      (width, height)
    }

    /**
     * setCanvasSize: sizes the backing store by the resolution policy,
     * sets the CSS box to the display size and records the scale factor.
     * The logical size is untouched.
     */
    method SetCanvasSize(displayWidth: real, displayHeight: real, scaleFactor: real,
                         highQuality: bool, platformRatio: Option<real>)
      modifies this
      ensures width == old(width) && height == old(height)
      ensures Surface(canvasWidth, canvasHeight, transform)
              == Backing(Fit(displayWidth, displayHeight, scaleFactor), width, height,
                         highQuality, DevicePixelRatio(platformRatio))
      ensures styleWidth == displayWidth && styleHeight == displayHeight
      ensures currentScaleFactor == scaleFactor
    {
      var dpr := DevicePixelRatio(platformRatio);
      if highQuality && scaleFactor < 1.0 {
        canvasWidth, canvasHeight := width, height;
        transform := Identity;
        transform := Transform(transform.scale, transform.offsetX + 0.5, transform.offsetY + 0.5);
        assert transform == Transform(1.0, 0.5, 0.5);
      } else {
        canvasWidth := Round(displayWidth * dpr);
        canvasHeight := Round(displayHeight * dpr);
        transform := Identity;
        transform := Transform(transform.scale * dpr, transform.offsetX, transform.offsetY);
        transform := Transform(transform.scale, transform.offsetX + 0.5, transform.offsetY + 0.5);
        assert transform == Transform(dpr, 0.5, 0.5);
      }
      assert Surface(canvasWidth, canvasHeight, transform)
             == Backing(Fit(displayWidth, displayHeight, scaleFactor), width, height, highQuality, dpr);
      styleWidth, styleHeight := displayWidth, displayHeight;
      currentScaleFactor := scaleFactor;
    }

    /**
     * initializeCanvas: takes the logical size (an argument of 0 falls
     * back to the form field; neither is checked for sign), and, when the
     * container exists, decides the display box and sizes the canvas.
     * Without a container only the logical size changes. When the chosen
     * fit divides by a zero side the source hands setCanvasSize
     * JavaScript's Infinity; the model has no such number and leaves the
     * canvas element and the scale factor as they were.
     */
    method InitializeCanvas(widthArg: int, heightArg: int, widthField: int, heightField: int,
                            modeField: Option<string>, container: Option<ClientBox>,
                            highQuality: bool, platformRatio: Option<real>)
      requires container.Some? ==> container.value.clientWidth > Margin && container.value.clientHeight > Margin
      modifies this
      ensures width == SizeOf(widthArg, widthField) && height == SizeOf(heightArg, heightField)
      ensures (container == None
               || Decide(width, height, container.value.clientWidth - Margin,
                         container.value.clientHeight - Margin, ModeOf(modeField)).None?) ==>
                currentScaleFactor == old(currentScaleFactor)
                && canvasWidth == old(canvasWidth) && canvasHeight == old(canvasHeight)
                && styleWidth == old(styleWidth) && styleHeight == old(styleHeight)
                && transform == old(transform)
      ensures container.Some? ==>
                var r := Decide(width, height, container.value.clientWidth - Margin,
                                container.value.clientHeight - Margin, ModeOf(modeField));
                r.Some? ==>
                  Surface(canvasWidth, canvasHeight, transform)
                    == Backing(r.value, width, height, highQuality, DevicePixelRatio(platformRatio))
                  && styleWidth == r.value.displayWidth && styleHeight == r.value.displayHeight
                  && currentScaleFactor == r.value.scale
    {
      width := SizeOf(widthArg, widthField);
      height := SizeOf(heightArg, heightField);
      var displayMode := ModeOf(modeField);
      if container == None {
        return;
      }
      var containerWidth := container.value.clientWidth - Margin;
      var containerHeight := container.value.clientHeight - Margin;
      var r := Decide(width, height, containerWidth, containerHeight, displayMode);
      if r.Some? {
        SetCanvasSize(r.value.displayWidth, r.value.displayHeight, r.value.scale, highQuality, platformRatio);
      }
    }

    /**
     * setBackground: clears the whole backing store, then, only for a
     * positive opacity (in percent), fills it with the colour at that
     * opacity.
     */
    method SetBackground(color: string, opacity: real) returns (ops: seq<DrawOp>)
      ensures |ops| == if opacity <= 0.0 then 1 else 2
      ensures ops[0] == ClearRect(canvasWidth as real, canvasHeight as real)
      ensures opacity > 0.0 ==>
                ops[1] == FillRect(color, opacity / 100.0, canvasWidth as real, canvasHeight as real)
    {
      ops := [ClearRect(canvasWidth as real, canvasHeight as real)];
      if opacity <= 0.0 {
        return;
      }
      ops := ops + [FillRect(color, opacity / 100.0, canvasWidth as real, canvasHeight as real)];
    }

    /**
     * drawGrid: light-grey half-pixel lines every 20 units over the
     * logical size, both far edges included: the vertical lines first,
     * then the horizontal ones.
     */
    method DrawGrid() returns (ops: seq<DrawOp>)
      requires width >= 0 && height >= 0
      ensures |ops| == (width / GridSize + 1) + (height / GridSize + 1)
      ensures forall i :: 0 <= i < |ops| ==> ops[i].StrokeSegment?
      ensures forall i :: 0 <= i < |ops| ==>
                ops[i].segmentStyle == "#cccccc" && ops[i].segmentWidth == 0.5 && ops[i].segmentAlpha == 0.5
      ensures forall i :: 0 <= i <= width / GridSize ==>
                ops[i].segment == Segment(Point((i * GridSize) as real, 0.0), Point((i * GridSize) as real, height as real))
      ensures forall j :: 0 <= j <= height / GridSize ==>
                ops[width / GridSize + 1 + j].segment
                  == Segment(Point(0.0, (j * GridSize) as real), Point(width as real, (j * GridSize) as real))
    {
      var w, h := width as real, height as real;
      var xs := Steps(w, GridSize as real);
      var ys := Steps(h, GridSize as real);
      GridTickCount(width, GridSize);
      GridTickCount(height, GridSize);
      var vertical := seq(|xs|, i requires 0 <= i < |xs| =>
                            StrokeSegment(Segment(Point(xs[i], 0.0), Point(xs[i], h)), "#cccccc", 0.5, 0.5));
      var horizontal := seq(|ys|, j requires 0 <= j < |ys| =>
                              StrokeSegment(Segment(Point(0.0, ys[j]), Point(w, ys[j])), "#cccccc", 0.5, 0.5));
      ops := vertical + horizontal;
    }
  }

  /** Grid spacing of the preview, in logical units. */
  const GridSize: int := 20

  /** For whole sizes the grid has ⌊size / step⌋ + 1 lines per axis. */
  lemma GridTickCount(size: int, step: int)
    requires size >= 0 && step > 0
    ensures TickCount(size as real, step as real) == size / step + 1
    ensures forall i :: 0 <= i <= size / step ==> Ticks(size as real, step as real)[i] == (i * step) as real
  {
    var q, r := size / step, size % step;
    assert size == q * step + r;
    var x := size as real / step as real;
    assert x == q as real + r as real / step as real;
    assert 0.0 <= r as real / step as real < 1.0;
    assert x.Floor == q;
  }
}
