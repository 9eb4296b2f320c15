# 线迹幻境 (Tracesia) — a Dafny model of its drawing core

线迹幻境 draws random cubic Bézier "traces" on an HTML canvas, previews
them scaled to fit the page, and exports the picture as PNG, JPEG or SVG.
The repository has two implementations of this core: the single-file app
`script.js` (class `LineGenerator`), and the modular one under `js/`.
The modular one has a canvas manager, a line generator, an exporter and
small utilities.

This project models both implementations, one Dafny module per source file:

- `Utils` (`utils.dfy`, from `js/utils.js`). It covers the random helpers, clamping and the device pixel ratio. It also holds the number formatting the other files use: `Math.round`, `toString(16)`, `padStart` and integer-to-text conversion.
- `Drawing` (`drawing.dfy`). This is the shared vocabulary: points, the drawing calls a 2D context receives (`DrawOp`) and the `for (x = 0; x <= limit; x += step)` grid loops.
- `Canvas` (`canvas_manager.dfy`, from `js/canvas-manager.js`). It covers the display-size decision (original / fit-width / fit-height / auto), the backing-store and transform policy of `setCanvasSize`, and the background and grid.
- `Lines` (`line_generator.dfy`, from `js/line-generator.js`). It covers one random stroke, the stored batch and its copy on the canvas element, `setParams`, the edge-point helper and drawing at a resolution multiplier.
- `Export` (`export_manager.dfy`, from `js/export-manager.js`). It covers the format dispatch, the off-screen raster export, the SVG document as a sequence of elements and as text, and the file name.
- `Script` (`script.dfy`, from `script.js`). It covers the stroke generator of the single-file app, the pixel-snapped preview, its 50-pixel grid and `#rrggbbaa` background, the raster and SVG exports, and the app's file names and MIME types.

`Math.random` is an injected stream `rand: nat -> real`, with every value in
[0, 1). Each generator takes the index `k` of its first unread draw. It
returns its value together with the index of the next unread draw, so the
order and number of draws are part of each contract. The clock is the ISO-8601
text `isoNow`. JavaScript's conversion of a non-integer number to text is
the parameter `fmt`. Form controls arrive as datatypes (`Lines.Params`,
`Export.ExportForm`, `Script.Controls`). The drawing calls a context receives
are returned as a sequence of `Drawing.DrawOp`.

## Model

| member | source | states |
|---|---|---|
| Utils.Round | js/canvas-manager.js:146-147 | `Math.round`: the result is the integer in (x − ½, x + ½], halves rounding up |
| Utils.RoundOfInteger | script.js:111-112 | rounding a whole number gives it back |
| Utils.RoundMonotonic | script.js:111-112 | rounding preserves order |
| Utils.RandomInt | js/utils.js:29-31 | `randomInt(min, max)` lies in [min, max], both ends included |
| Utils.RandomIntReaches | js/utils.js:29-31 | every integer of [min, max] is produced by some draw in [0, 1), so both ends really are reachable |
| Utils.RandomFloat | js/utils.js:39-41 | `randomFloat(min, max)` as r·(max − min) + min for the draw r; its range is stated by RandomFloatRange and RandomFloatSymmetric, its inverse by RandomFloatInverse |
| Utils.RandomFloatRange | js/utils.js:39-41 | `randomFloat(min, max)` lies in [min, max), and equals min when min == max |
| Utils.RandomFloatInverse | js/utils.js:39-41 | the draw can be recovered from the result, so the map from draw to value is one-to-one |
| Utils.RandomFloatSymmetric | js/utils.js:39-41 | `randomFloat(-m, m)` lies in [−m, m) and is 0 for the middle draw ½ |
| Utils.DrawScales | script.js:305 | `Math.random() * size` lies in [0, size), or is 0 for size 0 |
| Utils.Clamp | js/utils.js:50-52 | `clamp` lies in [min, max], keeps a value already inside, and gives the nearer bound otherwise |
| Utils.ClampIdempotent | js/utils.js:50-52 | clamping twice is clamping once |
| Utils.DevicePixelRatio | js/utils.js:91-93 | `devicePixelRatio \|\| 1`: a missing or zero ratio gives 1, any other is kept, and the result is positive when the platform's is not negative |
| Utils.Digits | script.js:389 | `n.toString(radix)` has at least one digit |
| Utils.DigitValue | script.js:389 | a digit character's value, inverse to the digit table |
| Utils.ParseDigitsOfDigits | script.js:389 | reading `toString(radix)` back in the same radix gives the number |
| Utils.ParseLastDigit | script.js:389 | the inductive step of that round trip: the last digit is n mod radix |
| Utils.ParseDigitsLeadingZero | script.js:389 | a leading `'0'` from `padStart` does not change the value read back |
| Utils.DigitsLength | script.js:389 | a number below radix^k has at most k digits, so 0–255 in hexadecimal has at most two |
| Utils.NatToString | js/export-manager.js:92 | the decimal text of a whole number reads back as that number |
| Utils.IntToString | js/export-manager.js:92 | `String(n)`: the text starts with `-` exactly when n is negative, and ParseSigned reads it back as n |
| Utils.DigitsUnsigned | js/export-manager.js:92 | the digits of a whole number never start with a minus sign |
| Utils.PadStart | script.js:389 | `padStart(len, c)`: the length is the larger of len and the length of s, s is a suffix, and the prefix is all c |
| Drawing.ScalePointIdentity | js/export-manager.js:127-139 | scaling a point by resolution 1 leaves it where it is |
| Drawing.ScalePointCompose | js/export-manager.js:127-139 | scaling by a and then by b is scaling by a · b |
| Drawing.ScaleSegmentIdentity | js/export-manager.js:127-139 | scaling a grid segment by 1 leaves it unchanged |
| Drawing.ScaleSegmentCompose | js/export-manager.js:127-139 | scaling a segment by a and then by b is scaling it by a · b |
| Drawing.Ticks | js/canvas-manager.js:247 | the loop `for (x = 0; x <= limit; x += step)` visits TickCount values |
| Drawing.ScaleOrder | js/canvas-manager.js:247 | multiplying by a positive step preserves order in both directions |
| Drawing.TickWithin | js/canvas-manager.js:247 | i·step is visited exactly when i·step ≤ limit, in both directions |
| Drawing.TicksSpan | js/canvas-manager.js:247-260 | the loop starts at 0, and its last value is within one step below the limit |
| Drawing.TicksScale | js/export-manager.js:127-139 | scaling limit and step by k visits the same number of values, each scaled by k |
| Drawing.Steps | js/canvas-manager.js:247-260 | the accumulating loop produces exactly the tick sequence |
| Drawing.VerticalLines | js/canvas-manager.js:247-252 | one full-height line at each i·step |
| Drawing.HorizontalLines | js/canvas-manager.js:255-260 | one full-width line at each i·step |
| Canvas.FitWidth | js/canvas-manager.js:76-80 | the fit-width display box for a nonzero width: the container width, the height divided by the canvas ratio (0 when a zero height makes that ratio infinite), scale containerWidth/width; its aspect is stated by FitWidthScales |
| Canvas.FitHeight | js/canvas-manager.js:82-86 | the fit-height display box for a nonzero height: the width times the canvas ratio, the container height, scale containerHeight/height; its aspect is stated by FitHeightScales |
| Canvas.FitWidthScales | js/canvas-manager.js:76-80 | fit-width is proportional for every nonzero width, zero and negative heights included: both display sides are scale times the logical sides; a positive width in a positive container gives a positive scale |
| Canvas.FitHeightScales | js/canvas-manager.js:82-86 | fit-height is proportional in the same way for every nonzero height, with a positive scale for a positive height in a positive container |
| Canvas.ByWidth | js/canvas-manager.js:76-80 | the fit-width numbers are finite exactly when the width divided by is nonzero, and are then proportional |
| Canvas.ByHeight | js/canvas-manager.js:82-86 | the fit-height numbers are finite exactly when the height divided by is nonzero, and are then proportional |
| Canvas.WiderThan | js/canvas-manager.js:66-91 | `canvasRatio > containerRatio`, with JavaScript's ±∞/NaN ratio for a zero height |
| Canvas.WiderThanSides | js/canvas-manager.js:66-99 | only a nonzero width is relatively wider, and a zero height binds to the height only for a width that is not positive, which fits the container |
| Canvas.Decide | js/canvas-manager.js:57-100 | defined for every integer logical size: the numbers are not finite (None) exactly when fit-width meets a zero width or fit-height a zero height; otherwise the display box is the logical size times the scale, and for a positive size the scale is positive (KeepsAspect) |
| Canvas.DecideFitsUnscaled | js/canvas-manager.js:57-63 | a canvas that fits the container, in any mode except fit-width and fit-height, is shown 1:1 |
| Canvas.DecideOriginal | js/canvas-manager.js:71-74 | `original` is always 1:1, even when it overflows |
| Canvas.DecideFitWidth | js/canvas-manager.js:76-80 | fit-width on any nonzero width fills the container's width at scale containerWidth/width, with the ratio of the sides kept |
| Canvas.DecideFitHeight | js/canvas-manager.js:82-86 | fit-height on any nonzero height fills the container's height at scale containerHeight/height, with the ratio of the sides kept |
| Canvas.WiderThanCross | js/canvas-manager.js:66-67 | `canvasRatio > containerRatio` holds exactly when the cross-multiplied comparison does |
| Canvas.DecideAutoOverflow | js/canvas-manager.js:88-100 | an overflowing auto canvas is fitted by width when wider than the container, otherwise by height |
| Canvas.WideOverflowFits | js/canvas-manager.js:91-94 | fitting a wider overflowing canvas by width also fits its height, and shrinks it |
| Canvas.TallOverflowFits | js/canvas-manager.js:95-99 | fitting a taller overflowing canvas by height also fits its width, and shrinks it |
| Canvas.DecideAutoFits | js/canvas-manager.js:88-100 | auto (and any unknown mode) never overflows the container and never enlarges |
| Canvas.Backing | js/canvas-manager.js:130-159 | high quality with a shrunk display keeps the logical backing size; otherwise the backing is the display size times the device pixel ratio, rounded; the half-pixel shift is applied once |
| Canvas.HighQualityNeverUpsamples | js/canvas-manager.js:130-143 | under high quality a shrunk display is always smaller than its backing store |
| Canvas.ModeOf | js/canvas-manager.js:36-41 | a missing or empty display-mode select means `auto` |
| Canvas.SizeOf | js/canvas-manager.js:32-33 | `width \|\| field`: a zero argument falls back to the form field |
| Canvas.GridTickCount | js/canvas-manager.js:247-260 | with whole sizes the grid has size/step + 1 lines, at i·step |
| Canvas.CanvasManager.constructor | js/canvas-manager.js:12-23 | logical size 500×500, scale 1, untouched context |
| Canvas.CanvasManager.GetSize | js/canvas-manager.js:270-275 | returns the logical size |
| Canvas.CanvasManager.SetCanvasSize | js/canvas-manager.js:121-182 | the backing store and transform follow `Backing`, the CSS box is the display size, the scale factor is recorded, and the logical size is unchanged |
| Canvas.CanvasManager.InitializeCanvas | js/canvas-manager.js:30-100 | the logical size is taken, unchecked, from the argument or the field; without a container nothing else changes; with one, the canvas is sized by `Decide` on the container less the 40-pixel margin, and left as it was when that decision is not finite |
| Canvas.CanvasManager.SetBackground | js/canvas-manager.js:214-229 | always clears, and fills with the colour at opacity/100 only when the opacity is positive |
| Canvas.CanvasManager.DrawGrid | js/canvas-manager.js:234-264 | width/20 + 1 vertical then height/20 + 1 horizontal `#cccccc` lines at every multiple of 20, both far edges included |
| Lines.CssText | js/line-generator.js:127-150 | the colour as CSS text: `#000000` for black, `hsl(h, s%, l%)` for an HSL colour |
| Lines.Endpoints | js/line-generator.js:65-94 | the endpoint branch of generateLine, with the draws it consumes; placement by EndpointsInCanvas and ThroughTouchesEdges |
| Lines.ControlPoints | js/line-generator.js:97-121 | the two control points, each the midpoint shifted by two offsets in [−maxOffset, maxOffset); bounded by ControlPointsBound |
| Lines.PickColor | js/line-generator.js:124-151 | the colour switch of generateLine with its draws; ranges by ColorInRange |
| Lines.PickCap | js/line-generator.js:153-168 | the line-cap switch of generateLine with its coin for `mixed`; stated by CapChoice |
| Lines.GenerateLine | js/line-generator.js:45-179 | generateLine reading the stream from index k: width, endpoints, control points, colour, cap, in source order; its properties are GenerateLinePlaced, ControlPointsNearCenter, WidthInRange, ColorInRange, CapChoice, GenerateLineDraws and GenerateLineReplay |
| Lines.ThroughTouchesEdges | js/line-generator.js:70-84 | a through stroke runs from the left edge to the right edge, or from the top to the bottom, as its orientation coin says |
| Lines.EndpointsInCanvas | js/line-generator.js:65-94 | both endpoints are whole-pixel points inside the canvas, for every mode |
| Lines.ControlPointsBound | js/line-generator.js:97-121 | each control point is within the maximum offset of the chord's midpoint, and is the midpoint when the curve strength is 0 |
| Lines.ControlPointsNearCenter | js/line-generator.js:97-121 | the same bound for the generated stroke |
| Lines.WidthInRange | js/line-generator.js:63 | the width lies in [minWidth, maxWidth), and is minWidth when the two are equal |
| Lines.ColorInRange | js/line-generator.js:124-151 | black for unknown modes, a theme colour for `theme`, and an HSL colour in the documented ranges for `random` |
| Lines.CapChoice | js/line-generator.js:153-168 | `round` stays round, anything else but `mixed` is butt, and the cap is always butt or round |
| Lines.GenerateLineDraws | js/line-generator.js:45-179 | one stroke consumes exactly DrawCount draws, between 8 and 21 |
| Lines.EndpointsReplay | js/line-generator.js:65-94 | the endpoints depend only on the draws they consume |
| Lines.PickColorReplay | js/line-generator.js:124-151 | the colour depends only on the draws it consumes |
| Lines.DrawsInOrder | js/line-generator.js:45-179 | draws are consumed in source order: width and mode, endpoints, four control offsets, colour, cap |
| Lines.ControlPointsReplay | js/line-generator.js:97-121 | the control points depend only on the four draws they consume |
| Lines.PickCapReplay | js/line-generator.js:153-168 | the line cap depends only on the draw it consumes, if any |
| Lines.PartsReplay | js/line-generator.js:65-168 | endpoints, control points, colour and cap read from two streams that agree on the draws they consume are the same |
| Lines.GenerateLineReplay | js/line-generator.js:45-179 | two random streams that agree on the draws a stroke consumes give the same stroke |
| Lines.ExampleThroughStroke | js/line-generator.js:45-179 | with every draw ½ on a 500×500 canvas, a through stroke is the vertical line x = 250 with both controls at the centre |
| Lines.Batch | js/line-generator.js:268-281 | a batch of `count` strokes has `count` elements |
| Lines.BatchDraws | js/line-generator.js:260-284 | a batch of n strokes consumes between 8n and 21n draws |
| Lines.GenerateLinePlaced | js/line-generator.js:45-179 | every stroke is placed inside the canvas as its mode requires |
| Lines.AllPlacedSnoc | js/line-generator.js:268-270 | appending a placed stroke keeps the whole batch placed |
| Lines.BatchPlaced | js/line-generator.js:268-281 | a batch of placed strokes is all placed |
| Lines.BatchInCanvas | js/line-generator.js:260-284 | every stroke of a generated batch is placed inside the canvas |
| Lines.BatchSnoc | js/line-generator.js:268-270 | one more loop turn appends the next stroke and advances the draw index |
| Lines.BatchPrefix | js/line-generator.js:268-281 | the first m strokes of a longer batch are the batch of m: later strokes never change earlier ones |
| Lines.StoredInjective | js/line-generator.js:273-280 | the copy kept on the canvas element loses nothing: two strokes with the same copy are the same stroke |
| Lines.Merge | js/line-generator.js:33-39 | every supplied key overwrites, and every other key keeps its value |
| Lines.MergeIdempotent | js/line-generator.js:33-39 | the same update applied twice equals one application, and an empty update changes nothing |
| Lines.DrawLine | js/line-generator.js:203-224 | drawLine is drawLineOnCanvas at resolution 1, with the stroke's own points, width, colour and cap |
| Lines.DrawLineOnCanvas | js/line-generator.js:232-253 | drawLineOnCanvas: the stroke's Bézier with every coordinate and the width multiplied by the resolution; related to drawLine by DrawLine and to resolution 1 by DrawAtResolution |
| Lines.DrawAtResolution | js/line-generator.js:232-253 | drawing at resolution k is drawing at 1 and scaling every coordinate and the width by k |
| Lines.RandomPointOnEdge | js/line-generator.js:293-318 | a point on the edge given by number or name, a draw of the way along it, and the origin for an unknown edge; stated by PointOnEdge |
| Lines.PointOnEdge | js/line-generator.js:293-318 | the numeric and the named edge give the same point, and it lies on that side of the canvas |
| Lines.LineGenerator.constructor | js/line-generator.js:12-27 | default parameters, empty batch |
| Lines.LineGenerator.SetParams | js/line-generator.js:33-39 | the parameters become the merge of the old ones and the update |
| Lines.LineGenerator.GetLines | js/line-generator.js:324-326 | returns the stored batch |
| Lines.LineGenerator.ClearLines | js/line-generator.js:331-338 | both stores become empty |
| Lines.LineGenerator.DrawAllLines | js/line-generator.js:343-347 | one drawLine per stored stroke, in batch order |
| Lines.LineGenerator.GenerateLines | js/line-generator.js:260-284 | the batch is replaced by exactly the `count` strokes the stream yields, and the canvas copy matches it element by element |
| Export.ReplaceColons | js/export-manager.js:91 | every `:` becomes `-`, and every other character and the length are kept |
| Export.Timestamp | js/export-manager.js:91 | the clock text with `:` replaced and cut to 19 characters; stated by TimestampShape |
| Export.TimestampShape | js/export-manager.js:91 | the timestamp is at most 19 characters, has no colon, and keeps every other character in place |
| Export.FileName | js/export-manager.js:92 | `线迹幻境-{width}x{height}-{timestamp}.{extension}`; stated by FileNameShape |
| Export.FileNameShape | js/export-manager.js:92 | the file name starts with the application name and `-`, and ends with `.` and the extension |
| Export.ScaledSize | js/export-manager.js:51-52 | the export canvas side is size × resolution truncated, which is exact for whole resolutions |
| Export.ExportGridOps | js/export-manager.js:114-140 | the export grid has one line per tick of each scaled loop |
| Export.RasterBackground | js/export-manager.js:63-69 | the background is painted exactly when the format is not png or the opacity is positive |
| Export.LineOps | js/export-manager.js:77-80 | one scaled curve per stored stroke, in order |
| Export.RenderAllSnoc | js/export-manager.js:203-206 | serialising one more element appends its text |
| Export.VerticalGridLines | js/export-manager.js:184-186 | n vertical grid lines |
| Export.VerticalGridLinesSnoc | js/export-manager.js:184-186 | the next vertical line is at x = 20n |
| Export.HorizontalGridLines | js/export-manager.js:189-191 | n horizontal grid lines |
| Export.HorizontalGridLinesSnoc | js/export-manager.js:189-191 | the next horizontal line is at y = 20n |
| Export.GridLines | js/export-manager.js:183-191 | (width/20 + 1) + (height/20 + 1) grid lines |
| Export.PathsOf | js/export-manager.js:203-206 | one path per stroke, in order |
| Export.Header | js/export-manager.js:164-169 | the XML prologue, the doctype, the `svg` opening tag with width, height and viewBox, the title and the description |
| Export.PathData | js/export-manager.js:204 | the path data `M sx sy C c1x c1y, c2x c2y, ex ey` |
| Export.Render | js/export-manager.js:171-209 | the text each SVG part appends: the rect, the grid group tags and lines, the lines group tags and each path |
| Export.Document | js/export-manager.js:163-209 | the header followed by the text of each part in order |
| Export.SvgElements | js/export-manager.js:171-209 | the parts after the header: the rect when the opacity is positive, the grid group when shown, the lines group; stated by SvgBackgroundIff, SvgGridIff and SvgPathPerLine |
| Export.SvgBackgroundIff | js/export-manager.js:171-174 | the document has a background rectangle exactly when the opacity is positive, and then it comes first |
| Export.GridGroupShape | js/export-manager.js:177-194 | the grid group is its opening tag, the vertical lines at 20i, the horizontal lines at 20j, and its closing tag |
| Export.GridGroupEnds | js/export-manager.js:177-194 | the grid group opens and closes, with only grid lines between |
| Export.GridGroupVertical | js/export-manager.js:184-186 | the i-th vertical line of the group is at x = 20i |
| Export.GridGroupHorizontal | js/export-manager.js:189-191 | the j-th horizontal line of the group is at y = 20j |
| Export.SvgGridIff | js/export-manager.js:176-194 | the grid group appears exactly when the grid is shown, and every grid line lies inside it |
| Export.LinesGroupHasNoGrid | js/export-manager.js:199-209 | the lines group holds no grid element |
| Export.FrontHasNoPath | js/export-manager.js:171-193 | the optional rectangle and optional grid group end exactly at the lines group index and contain no path |
| Export.LinesGroupShape | js/export-manager.js:198-209 | the lines group opens, holds the i-th stroke's path at position i + 1, closes, and only its interior holds paths |
| Export.SvgPathPerLine | js/export-manager.js:196-209 | the lines group holds exactly one path per stroke, in order, and no path lies outside it |
| Export.SvgMatchesRaster | js/export-manager.js:203-206 | the i-th SVG path, scaled by the resolution, is the i-th curve of the raster export |
| Export.ExportGridIsScaledSvgGrid | js/export-manager.js:114-140 | the raster grid is the SVG grid line for line, scaled by the resolution |
| Export.ExportGridVertical | js/export-manager.js:127-132 | the i-th raster vertical line is the SVG one scaled |
| Export.ExportGridHorizontal | js/export-manager.js:135-140 | the j-th raster horizontal line is the SVG one scaled |
| Export.ScaledTicks | js/export-manager.js:127-140 | the scaled loop visits size/20 + 1 values, the i-th at 20i·resolution |
| Export.ExportManager.constructor | js/export-manager.js:13-17 | keeps the canvas manager and the line generator |
| Export.ExportManager.DrawGridOnCanvas | js/export-manager.js:114-144 | draws exactly the scaled export grid |
| Export.ExportManager.DrawLines | js/export-manager.js:77-80 | draws exactly one scaled curve per stroke |
| Export.ExportManager.ExportRasterImage | js/export-manager.js:43-105 | the canvas is the scaled size; the background when required, then the grid when shown, then every stored stroke; PNG for png and JPEG at quality 0.9 for jpg; the file name |
| Export.ExportManager.GridGroup | js/export-manager.js:177-194 | the two loops build exactly the grid group |
| Export.ExportManager.LinesGroup | js/export-manager.js:196-209 | the loop builds exactly the lines group |
| Export.ExportManager.ExportSvg | js/export-manager.js:149-230 | the elements, the document text rendered from them, and the `.svg` file name |
| Export.ExportManager.ExportImage | js/export-manager.js:22-36 | png and jpg give a raster artifact, svg an SVG one, and any other format nothing; the raster artifact is exactly ExportRasterImage's (size, operations, MIME type, quality, file name) and the SVG one is the document text over SvgElements with its file name; only the raster formats need a positive resolution |
| Script.Choice | script.js:285-286 | `options[floor(r·n)]` is one of the options |
| Script.ChoiceOfTwo | script.js:296-297 | of two options, the first below ½ and the second from ½ on |
| Script.Along | script.js:316-319 | `Math.random() * size` lies in [0, size], strictly below a positive size |
| Script.GenerateLine | script.js:271-363 | generateLine of the single-file app: width, cap, endpoints and two control points, in source order; its properties are GenerateLineParts, WidthInRange, CapChoice, EndpointsPlaced, Control1NearQuarter, Control2NearThreeQuarters and GenerateLineDraws |
| Script.PickCap | script.js:279-289 | the cap: drawn from the two options in mixed mode, otherwise the selected value; stated by CapChoice |
| Script.Endpoints | script.js:291-342 | the endpoint branch, with mixed mode first picking through or random; stated by EndpointsPlaced and MixedModePick |
| Script.ThroughEnds | script.js:323-335 | a through stroke consumes three draws |
| Script.RandomEnds | script.js:338-341 | a random stroke consumes four draws |
| Script.ThroughEndsPlaced | script.js:321-335 | through endpoints lie on opposite edges, left to right when the coin is above ½ and top to bottom otherwise |
| Script.RandomEndsInside | script.js:336-342 | random endpoints lie in the half-open canvas box |
| Script.RandomEndsInBox | script.js:336-342 | random endpoints lie in the closed box, zero sizes included |
| Script.MixedModePick | script.js:294-320 | mixed mode takes the through branch below ½ and the random branch otherwise |
| Script.EndpointsPlaced | script.js:291-342 | the endpoints lie in the canvas in every mode, on opposite edges for `through`, and strictly inside for `random` |
| Script.WobbleBound | script.js:346-347 | `(Math.random() − 0.5)·size·strength` lies in [−m, m), and is 0 at strength 0 |
| Script.WobbleLower | script.js:346-347 | the lower half of that bound |
| Script.WobbleUpper | script.js:346-347 | the upper half of that bound |
| Script.AxisBound | script.js:346-347 | a control coordinate is within m of the interpolated point |
| Script.ControlPointBound | script.js:345-348 | a control point is near its interpolated point on each axis, and equal to it at strength 0 |
| Script.NearQuarterPoint | script.js:345-348 | a control point built at t = 0.25 lies near the quarter point of the chord, and on it at strength 0 |
| Script.NearThreeQuarterPoint | script.js:350-353 | a control point built at t = 0.75 lies near the three-quarter point, and on it at strength 0 |
| Script.GenerateLineParts | script.js:271-363 | a stroke's endpoints and its two control points come from the draws in source order |
| Script.Control1NearQuarter | script.js:345-348 | the first control point is within width·s/2 and height·s/2 of the quarter point of the chord |
| Script.Control2NearThreeQuarters | script.js:350-353 | the second control point is within the same bound of the three-quarter point |
| Script.WidthInRange | script.js:274-276 | the width lies in [minWidth, maxWidth), and is minWidth when the two are equal |
| Script.CapChoice | script.js:279-289 | mixed picks butt below ½ and round otherwise; any other mode is kept as given |
| Script.GenerateLineDraws | script.js:271-363 | one stroke consumes between 8 and 11 draws |
| Script.StrokeCount | script.js:398-399 | `for (i = 0; i < lineCount; i++)` runs lineCount times, or never for a negative count |
| Script.Snap | script.js:440-450 | `floor(v) + 0.5` is a pixel centre in (v − ½, v + ½] |
| Script.SnapIdempotent | script.js:443-450 | snapping a snapped coordinate changes nothing |
| Script.CapOrRound | script.js:430 | `cap \|\| 'round'` is never empty, and keeps a non-empty cap |
| Script.DrawLine | script.js:421-466 | a black Bézier at the stroke's width, with its cap or round, through the four snapped points |
| Script.GridOps | script.js:468-507 | the commands of drawGrid: the 50-pixel vertical then horizontal `#e0e0e0` lines, half-pixel aligned; stated by GridOpsShape |
| Script.GridOpsShape | script.js:468-507 | width/50 + 1 vertical then height/50 + 1 horizontal `#e0e0e0` half-pixel-aligned lines, at 50i + 0.5 |
| Script.BackgroundFill | script.js:386-389 | the colour text followed by the opacity percentage as two hex alpha digits; stated by BackgroundFillAlpha and BackgroundFillEnds |
| Script.BackgroundFillAlpha | script.js:386-389 | the fill is the colour followed by exactly two hex digits, and they read back as round(opacity/100·255) in [0, 255] |
| Script.BackgroundFillEnds | script.js:389 | opacity 100 appends `ff` and opacity 0 appends `00` |
| Script.PreviewOps | script.js:399-402 | one preview curve per stroke |
| Script.PreviewOpsSnoc | script.js:399-402 | one more stroke appends its drawLine |
| Script.CountCurvesAppend | script.js:365-402 | counting curves distributes over concatenation |
| Script.CountCurvesUniform | script.js:365-402 | a list of curves has as many curves as elements, and a list of non-curves has none |
| Script.GridHasNoCurves | script.js:468-507 | the grid draws no curve |
| Script.DrawOps | script.js:365-402 | the commands of draw: the clear at the old size, the background, the grid when shown, one curve per stroke; counted by DrawCurveCount |
| Script.DrawCurveCount | script.js:365-402 | a draw issues exactly one curve per stroke |
| Script.ReplaceSeparators | script.js:542 | every `:` and `.` becomes `-`, and everything else is kept |
| Script.ExportFileName | script.js:542-543 | `线迹幻境_{timestamp}.{format}` with `:` and `.` in the timestamp replaced; stated by ExportFileNameShape |
| Script.ExportFileNameShape | script.js:542-543 | the name is the application name, `_`, the timestamp without `:` or `.`, `.` and the format |
| Script.MimeAsWritten | script.js:555 | the type as written, `image/${format}`; its consequence for jpg is JpgAsWrittenEncodesPng |
| Script.MimeType | script.js:555 | every format other than jpg is named as written; jpg is named `image/jpeg` (see Findings) |
| Script.EncodedType | script.js:555 | `toDataURL` encodes png and jpeg as asked, and falls back to PNG for a type the user agent does not support, such as `image/jpg` |
| Script.JpgAsWrittenEncodesPng | script.js:555 | as written, a jpg export asks for `image/jpg` and so is encoded as PNG |
| Script.MimeTypeEncodesFormat | script.js:555 | with the corrected MIME type, png encodes as PNG and jpg as JPEG |
| Script.DrawLineOnCanvas | script.js:608-623 | drawLineOnCanvas: the stroke in black with every coordinate and the width multiplied by the resolution; stated by ExportCurveScales |
| Script.ExportCurveScales | script.js:608-623 | the export curve at resolution r is the resolution-1 curve scaled by r |
| Script.PreviewIsSnappedExport | script.js:421-466 | for a stroke with a cap, the preview curve is the export curve with its four points snapped |
| Script.ExportCurves | script.js:536-539 | one export curve per stroke |
| Script.ExportCurvesSnoc | script.js:536-539 | one more stroke appends its export curve |
| Script.SvgPaths | script.js:762-774 | one path per stroke |
| Script.SvgPathsSnoc | script.js:762-774 | one more stroke appends its path |
| Script.CurveText | script.js:767 | the `d` attribute `M{x},{y} C{x},{y} {x},{y} {x},{y}` |
| Script.PathOf | script.js:766-771 | the SVG path of a stroke: its curve text, `#000000`, its width, no fill and its cap; related to the export curve by SvgPathIsExportCurve |
| Script.SvgPathIsExportCurve | script.js:766-771 | the SVG path has the same points, colour, width and cap as the resolution-1 export curve |
| Script.DrawStrokes | script.js:397-402 | the preview loop appends one snapped curve per generated stroke, and reports the next unread draw |
| Script.DrawStrokesAt | script.js:536-539 | the export loop appends one scaled curve per generated stroke |
| Script.Paint | script.js:386-402 | after the backing store is settled, draw issues exactly DrawOps: the clear, the background, the grid when shown and one curve per stroke, so exactly lineCount curves |
| Script.PathStrokes | script.js:762-774 | the SVG loop appends one path per generated stroke |
| Script.LineGenerator.constructor | script.js:2-23 | logical size 500×500, scale 1 |
| Script.LineGenerator.SetCanvasSize | script.js:87-147 | the backing store and transform follow the same policy as the modular canvas manager, the CSS box is the display size, and the scale factor is recorded |
| Script.LineGenerator.InitializeCanvas | script.js:24-84 | the size comes from the form, unchecked; the display is decided as in the modular canvas manager on the container less 40, and the canvas is left as it was when that decision is not finite |
| Script.LineGenerator.DrawGrid | script.js:468-507 | draws exactly the 50-pixel grid |
| Script.LineGenerator.SettleBacking | script.js:374-384 | under high quality with a shrunk display, a backing store that is not the logical size is reset to it and its transform to the identity; otherwise nothing changes |
| Script.LineGenerator.Draw | script.js:365-419 | first clears at the old backing size; then resets the backing store to the logical size only under high quality with a shrunk display and a differing size; then fills the background at the new size, draws the optional grid and one fresh curve per stroke; exactly lineCount curves |
| Script.LineGenerator.ExportRaster | script.js:509-606 | the canvas is width·res × height·res; the background, then one scaled curve per freshly generated stroke; the corrected MIME type; quality 0.9 only for jpg; the app's file name |
| Script.LineGenerator.ExportSvg | script.js:728-838 | the svg attributes, a full-size background rectangle at opacity/100, one path per freshly generated stroke, and the `.svg` file name |
| Script.LineGenerator.ExportImage | script.js:509-517 | svg goes to the SVG export and every other format to the raster export; the SVG artifact is the whole SvgImage (size, namespace, viewBox, background rect, paths) and the raster one has the scaled size, the operations, the corrected MIME type, the jpg-only quality and the file name |

## Left out

- The page around the core is not modelled: DOM wiring, event listeners, touch and zoom handling, modals, the download, share and device-detection branches, `XMLSerializer`/`Blob`/object URLs, status-bar and zoom text, and console output. Only their visible effect on the canvas or the exported artifact is modelled.
- `debounce` and `throttle` (`js/utils.js:60-85`) depend on timers and are left out.
- `js/ui-controller.js` and the other files of the repository are not part of this model.
- Arithmetic is exact (`real`), not IEEE doubles. The grid loops' `x += step` therefore accumulate no rounding error, and NaN (for example from an empty number field) does not arise. The one place where the source's sizing reaches Infinity, a division by a zero side in `initializeCanvas`, is modelled as the absent result of Canvas.Decide.
- Math.random is an injected stream of values in [0, 1). `Math.seedrandom` reseeding with `Date.now()` before an export is not modelled: an export simply reads fresh draws from the stream, as unseeded code does.
- The clock is a parameter (`isoNow`). How non-integer numbers print in SVG attributes is the parameter `fmt`.
- The `catch` fallbacks of `initializeCanvas`, `generateLine` and the exports are left out: no modelled step throws.
- Canvas.CanvasManager.InitializeCanvas and Script.LineGenerator.InitializeCanvas require a container larger than the 40-pixel margin. Below it the source divides by a non-positive container size, and the resulting layout is left out.
- Canvas.CanvasManager.InitializeCanvas: when fit-width meets a zero width or fit-height a zero height, the source passes Infinity to setCanvasSize. The model has no infinite numbers, so it leaves the canvas element and the scale factor unchanged.
- Script.LineGenerator.InitializeCanvas: the same Infinity case is modelled the same way, leaving the canvas element and the scale factor unchanged.
- Canvas.Backing: a negative logical size gives negative display and backing sizes, which the model passes through as they are. How the browser clamps a canvas element's negative `width` and `height` is not modelled.
- Canvas.CanvasManager.DrawGrid and the Export.ExportManager exports require a non-negative logical size. For a negative size the source's `x <= width` grid loops draw nothing, and that case is left out.
- Script.LineGenerator.constructor does not chain into `initializeCanvas`, and SetCanvasSize does not chain into `draw()`. Callers invoke those steps separately.
- Script.GenerateLine requires the line mode to be `through`, `random` or `mixed` (the radio buttons' values). Any other value leaves the endpoints undefined in the source, so its coordinates would be NaN.
- Export.ExportManager.ExportRasterImage requires a positive resolution (the select's values), and so does Export.ExportManager.ExportImage for png and jpg. The exporter does not check it.
- The 2D context's state stack (`save`/`restore`), `lineJoin` and image smoothing are not modelled. Each drawing call carries its own style, and only the transform that survives a resize is tracked.
- Script.LineGenerator.ExportRaster: asks for the corrected `image/jpeg` for jpg, where script.js:555 asks for `image/jpg`. The as-written request is kept as Script.MimeAsWritten, and the difference is recorded under Findings.
- Script.MimeType: its contract states the jpg case through Script.MimeTypeEncodesFormat rather than directly. The model uses the corrected MIME type; the as-written one is kept as Script.MimeAsWritten.
- Script.EncodedType: takes PNG and JPEG as the only types the user agent encodes, so every other type falls back to PNG. Browsers may also support types such as `image/webp`, but this program only ever asks for `image/png`, `image/jpg` and, once corrected, `image/jpeg`.

## Findings

| source | as written | input that shows it | evidently intended | confidence | as-written member | corrected member |
|---|---|---|---|---|---|---|
| script.js:555 | the raster export asks `toDataURL` for `image/${format}`, which is `image/jpg` for the jpg format. That is not a type browsers encode, so they fall back to PNG | export format `jpg` | a JPEG at quality 0.9, requested as `image/jpeg` (as `js/export-manager.js:84` does) | high, not executed | Script.JpgAsWrittenEncodesPng | Script.MimeTypeEncodesFormat |
