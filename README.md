# stuy-graphics in Dafny

A model of the core of `stuy-graphics`, a software 3D rasterizer written in
Rust. Its pipeline builds point-list matrices of edges and triangles and
transforms them through a stack of 4x4 matrices. It then shades each
triangle with ambient and point lights, rasterizes the result into a pixel
buffer with a depth buffer, and writes that buffer as a Netpbm PPM image
(section "THE FORMAT" of the Netpbm ppm(5) specification). Two script
front ends drive the pipeline:

- the MDL language: a line grammar, symbol tables, per-frame knob
  interpolation and a command interpreter;
- an older line-oriented script format.

The repository is in the middle of a refactor and holds two module trees:
the library tree (`src/`) and the older `src/graphics/` tree. Where both
trees have a component, both are modelled, each from its own body, with one
exception: the graphics tree's shape generators
(`src/graphics/matrix/dim3.rs` and `src/graphics/matrix/parametrics.rs`)
are not part of this model, so its drawer builds shapes with the library
tree's generators. Where a source bug is listed under "## Findings", the
as-written behaviour is modelled and exhibited beside the corrected
definition, and the callers use the corrected one; "## Left out" names each
such caller.

Layout, one Dafny module per source component:

- `img.dfy` (`Img`): the raster buffer `PPMImg`, a class over two arrays. It covers
  addressing with wrap-around and the y flip, `plot` with its depth test,
  `clear`, the bounded flood fill and the P6/P3 writers.
- `raster_line.dfy`, `raster_fill.dfy` (`RasterLine`, `RasterFill`): the
  rasterizer of `src/graphics/canvas/mod.rs`. Plotting appends
  `(x, y, z, colour)` to a log. Bresenham lines, the edge-matrix and
  polygon-matrix walkers with back-face culling, and scanline fill are
  stated against specification functions over that log.
- `matrix.dfy`, `edge_matrix.dfy`, `tessellation.dfy`, `parametrics.dfy`,
  `shape_curves.dfy`, `transform.dfy`, `curves.dfy`: the row-major `Matrix`
  class and the `Mat` value it is specified by. They also hold edge and
  polygon appenders, box/sphere/torus tessellation, the parametric
  iterator and edge chaining, transform builders, the perspective divide
  and the cubic coefficients.
- `stack.dfy`, `drawer.dfy`, `gfx_drawer.dfy` (`MatrixStacks`, `Drawers`,
  `GfxDrawers`): the transform stack and both drawers. The library
  canvas is represented by the log of calls the drawer makes on it.
- `light.dfy` (`Lighting`): the lighting accumulation, light transforms,
  material constants and falloff functions.
- `vector.dfy`, `gfx_vector.dfy`, `colors.dfy`, `gfx_colors.dfy`: the
  value types of both trees.
- `turtle.dfy` (`Turtles`): both turtles.
- `mdl_types.dfy`, `mdl_ast.dfy`, `mdl_parser.dfy`, `mdl_exec.dfy`,
  `mdl_engine.dfy`: the MDL front end.
  - `mdl_ast.dfy` models the nom combinators directly over strings; the
    number token `double` is a parameter.
  - `mdl_parser.dfy` holds the symbol tables and `parse_file`'s line loop.
  - `mdl_exec.dfy` is the command interpreter, proved against a
    command-list semantics `Run`.
  - `mdl_engine.dfy` holds the knob tables and the frame loop.
- `old_parser.dfy` (`OldParser`): the older script interpreter, proved
  against a line-by-line semantics `ScriptFrom`.
- `float_model.dfy`, `wrappers.dfy`, `seq_facts.dfy`: shared helpers.
  - `float_model.dfy` models f64 as `real` and gives Rust's `floor`,
    `ceil`, `round`, `trunc`, casts and truncating integer division.
  - `sqrt`, sines and cosines in degrees, and `powf` are the fields of a
    `Libm` record passed as a parameter, so nothing depends on their values.

Failures that the source signals by panicking on a script's input are modelled as
outcomes: `Panicked` in the interpreters, `None`/`Err` elsewhere. Failures
that are programming-error assertions inside the rendering core are
modelled as preconditions. Examples are `append_edge` with other than six
values, a matrix product of mismatched shapes, and an odd row count in the
edge walker. Integer overflow is not one of these: the model's integers
are unbounded, and "## Left out" names the members whose 32-bit
arithmetic in the source is not modelled.

## Model

| member | source | states |
|---|---|---|
| Colors.Gray | src/colors.rs:27-33 | `gray(d)` is a grey whose channels all equal d |
| Colors.SectorWeight | src/colors.rs:57-60 | the pull factor max(-1, min(k-3, 9-k, 1)) lies in [-1, 1] for every sector k |
| Colors.Chroma | src/colors.rs:54 | for s and l in [0, 1] the chroma a lies in [0, min(l, 1-l)]; no saturation gives a = 0 |
| Colors.SectorInRange | src/colors.rs:53-58 | for h in [0, 1] and n in {0, 4, 8}, the sector `(n + hue/30) % 12` lies in [0, 11] |
| Colors.HslChannelInUnit | src/colors.rs:55-62 | for s and l in [0, 1], every closure value f(n) lies in [0, 1] |
| Colors.HslToRgbTotalOnUnitCube | src/colors.rs:63-76 | for s and l in [0, 1] none of the three asserts fires, and each channel is at most 255 |
| Colors.UnitToByte | src/colors.rs:63-75 | a channel value in [0, 1] rounds to 0 or 1, and `(v * 255) as u16` is at most 255 |
| Colors.HslUnsaturatedIsGray | src/colors.rs:52-76 | with saturation 0 the conversion gives the grey of `(l * 255) as u16` |
| Colors.UnpulledChannel | src/colors.rs:54-62 | with saturation 0 every channel equals the lightness |
| Colors.HslRedExample | src/colors.rs:52-76 | HSL(1, 1, 0.5) converts to (255, 0, 0) |
| Colors.HslGreenExample | src/colors.rs:52-76 | HSL(1/3, 1, 0.5) converts to (0, 255, 0) |
| Colors.HalfLightChannel | src/colors.rs:53-62 | at full saturation and half lightness, channel n is 0.5 - 0.5 w for its sector weight w |
| Colors.ConversionOfChannels | src/colors.rs:63-76 | red, green and blue come from f(0), f(8) and f(4) |
| Colors.BitsToRgb | src/colors.rs:68-75 | channels exactly 0 or 1 pass the asserts and scale to 0 or 255 |
| Colors.FMin2AtMostFMax2 | src/colors.rs:79-87 | for a positive precision fmin2(a, b) <= fmax2(a, b) |
| Colors.FMin2OfGridValues | src/colors.rs:84-87 | on values already on the 1/prec grid, fmin2 is the plain minimum |
| Curves.Bezier3Coef | src/graphics/utils.rs:24-33 | the cubic starts at p0, ends at p3, leaves with slope 3(p1 - p0) and arrives with slope 3(p3 - p2) |
| Curves.Bezier3IsBernstein | src/graphics/utils.rs:24-33 | at every t the coefficients evaluate to the Bernstein form of the Bezier curve |
| Curves.Hermite3Coef | src/graphics/utils.rs:40-47 | the cubic runs from p0 to p1 with slope r0 at the start and r1 at the end |
| Curves.HermiteUnique | src/graphics/utils.rs:40-47 | any cubic meeting those four end conditions has exactly these coefficients |
| Curves.MapperEnds | src/graphics/utils.rs:97-101 | when the input range is not empty, mapper sends instart to outstart and inend to outend |
| Curves.MapperAffine | src/graphics/utils.rs:97-101 | mapper keeps weighted averages: it is affine |
| FloatModel.CastU16 | src/colors.rs:72-74 | `x as u16` saturates into [0, 65535] and truncates inside that range |
| FloatModel.SaturateI32 | src/colors.rs:53 | `x as i32` saturates into the i32 range and keeps values already in it |
| FloatModel.DivT | src/colors.rs:58 | Rust's integer division truncates towards zero |
| FloatModel.RemT | src/colors.rs:58 | Rust's remainder takes the dividend's sign and completes the truncating division |
| GfxColors.GfxSectorWeightIsSectorWeight | src/graphics/colors.rs:45-52 | rounding the pull factor to thousandths with fmax2 gives the library factor exactly, so it is never below -1 |
| GfxColors.GfxHslToRgbAgreesWithSameChroma | src/graphics/colors.rs:40-67 | whenever both trees compute the same chroma, the graphics conversion gives the library result, including its panics |
| GfxColors.GfxChannelAgrees | src/graphics/colors.rs:43-53 | with the same chroma, every closure value f(n) agrees with the library one |
| GfxColors.FMin2EqualsFMax2OnEqualArguments | src/graphics/colors.rs:70-78 | fmin2 and fmax2 agree on equal arguments |
| GfxVector.DotAsWrittenSymmetric | src/graphics/vector.rs:31-33 | the dot product as written is symmetric |
| GfxVector.DotAsWrittenDefect | src/graphics/vector.rs:7-9 | the dot as written differs from the true dot by a2 + b2 - a2 b2 |
| GfxVector.DotAsWrittenCounterexample | src/graphics/vector.rs:31-33 | on the unit z vector with itself the true dot is 1 and the dot as written is 2 |
| GfxVector.DotAsWrittenSelfNegative | src/graphics/vector.rs:31-33 | the dot as written of the negative unit z vector with itself is -2, a negative square length |
| Vector.FromPt | src/vector.rs:53-55 | `from_pt` copies the three coordinates |
| Vector.Limit | src/vector.rs:65-71 | when min <= max, every component of `limit(min, max)` lies in [min, max] |
| Vector.LimitMax | src/vector.rs:73-75 | every component of `limit_max(m)` is at most m, and is either the old component or m |
| Vector.Norm | src/vector.rs:57-59 | the zero-magnitude case gives the zero vector, standing in for the NaN division |
| Vector.FromRgb | src/vector.rs:134-144 | converting a colour to a vector copies the channels exactly |
| Vector.ToChannel | src/vector.rs:149-151 | one channel is clamped to [0, 255] and truncated |
| Vector.ToRgb | src/vector.rs:146-154 | every channel of the converted colour is at most 255 |
| Vector.RgbRoundTrip | src/vector.rs:134-154 | a colour with channels up to 255 survives the round trip through Vec3 |
| Vector.RgbRoundTripSaturates | src/vector.rs:146-154 | a channel above 255 comes back as 255 |
| Vector.DotSymmetric | src/vector.rs:36-38 | the dot product is symmetric |
| Vector.DotSelfNonNegative | src/vector.rs:36-38 | a vector dotted with itself is the sum of its squared components and is never negative |
| Vector.CrossOrthogonal | src/vector.rs:45-51 | the cross product is orthogonal to both factors |
| Vector.CrossAntisymmetric | src/vector.rs:45-51 | cross(a, b) = -cross(b, a) |
| Vector.ScaleI32IsScale | src/vector.rs:85-103 | `v * k` for an i32 k equals `v * (k as f64)`, and `k * v` equals `v * k` |
| Vector.LimitKeepsInRange | src/vector.rs:65-71 | limit leaves a vector already in range unchanged |
| Vector.LimitIdempotent | src/vector.rs:65-71 | limiting twice gives the same as limiting once |
| Vector.AddSubInverse | src/vector.rs:113-125 | subtracting what was added gives back the vector |
| Vector.DivUndoesScale | src/vector.rs:105-132 | dividing by a non-zero factor undoes scaling by it |
| Drawers.EnvLights | src/drawer.rs:79-83 | a built drawer uses exactly the supplied lights, or the default lights when none were supplied |
| Drawers.EnvLightsNeverEmpty | src/drawer.rs:79-83 | a built drawer always has at least one light |
| Drawers.PropsOrDefault | src/drawer.rs:96-97 | a shape's own material is used when given, DEFAULT_PROPS otherwise |
| Drawers.LineMatrix | src/drawer.rs:153-156 | the edge matrix of `draw_line` has two rows holding both ends with w = 1 |
| Drawers.CurveMatrix | src/drawer.rs:158-173 | a curve's edge matrix has four columns and two rows per edge |
| Drawers.CircleChain | src/drawer.rs:158-162 | every edge of `draw_circle` has six values |
| Drawers.HermiteChain | src/drawer.rs:164-168 | every edge of `draw_hermite` has six values |
| Drawers.BezierChain | src/drawer.rs:169-173 | every edge of `draw_bezier` has six values |
| Drawers.DrawerBuilder.constructor | src/drawer.rs:37-45 | a new builder has fg WHITE, bg BLACK and no lights |
| Drawers.DrawerBuilder.WithFgColor | src/drawer.rs:47-50 | sets the foreground colour and nothing else |
| Drawers.DrawerBuilder.WithBgColor | src/drawer.rs:52-55 | sets the background colour and nothing else |
| Drawers.DrawerBuilder.WithLights | src/drawer.rs:57-60 | replaces the light list and nothing else |
| Drawers.DrawerBuilder.AddLight | src/drawer.rs:62-65 | appends one light and nothing else |
| Drawers.DrawerBuilder.Build | src/drawer.rs:72-86 | the drawer starts with the identity-only stack and the builder's colours; its lights are the supplied ones or the defaults |
| Drawers.NewDrawer | src/drawer.rs:111-113 | `Drawer::new` gives white on black, the identity stack and the default lights |
| Drawers.Drawer.constructor | src/drawer.rs:72-86 | the drawer holds the given settings and the identity-only stack |
| Drawers.Drawer.RenderEdgesWithStack | src/drawer.rs:91-94 | the canvas receives the edges times the top, in the foreground colour |
| Drawers.Drawer.RenderPolygonsWithStack | src/drawer.rs:96-100 | the canvas receives the polygons times the top, with the material or DEFAULT_PROPS and the drawer's lights |
| Drawers.Drawer.Clear | src/drawer.rs:115-120 | the canvas is cleared to the background colour and the stack is untouched |
| Drawers.Drawer.ResetStack | src/drawer.rs:122-124 | the stack is the identity alone again; the settings are unchanged |
| Drawers.Drawer.PushMatrix | src/drawer.rs:220-222 | the stack grows by a copy of its top; the entries below are unchanged |
| Drawers.Drawer.PopMatrix | src/drawer.rs:224-226 | the top is removed without a guard, and popping an empty stack leaves it empty |
| Drawers.Drawer.TransformBy | src/drawer.rs:178-183 | only the top changes, and it becomes T times the old top |
| Drawers.Drawer.DrawLine | src/drawer.rs:153-157 | one edge from p0 to p1 is rendered through the top |
| Drawers.Drawer.DrawCircle | src/drawer.rs:158-162 | the circle's edges are rendered through the top |
| Drawers.Drawer.DrawHermite | src/drawer.rs:164-168 | the Hermite curve's edges are rendered through the top |
| Drawers.Drawer.DrawBezier | src/drawer.rs:169-173 | the Bezier curve's edges are rendered through the top |
| Drawers.Drawer.AddBox | src/drawer.rs:188-199 | the box's triangles are rendered through the top with the material or DEFAULT_PROPS |
| Drawers.Drawer.AddSphere | src/drawer.rs:200-204 | the sphere's triangles are rendered through the top with the material or DEFAULT_PROPS |
| Drawers.Drawer.AddTorus | src/drawer.rs:205-215 | the torus's triangles are rendered through the top with the material or DEFAULT_PROPS |
| Drawers.FreshLineUntransformed | src/drawer.rs:153-157 | on a fresh stack a line is rendered exactly as given |
| EdgeMatrices.EdgeRows | src/graphics/matrix/dim2.rs:14-20 | an edge contributes eight values, both ends closed by w = 1 |
| EdgeMatrices.NewEdgeMatrix | src/graphics/matrix/dim2.rs:5-11 | a new edge matrix has no rows, four columns and no data |
| EdgeMatrices.AppendEdge | src/graphics/matrix/dim2.rs:14-21 | the matrix gains `[x0, y0, z0, 1, x1, y1, z1, 1]` after its old data and two more rows, and stays well-shaped |
| EdgeMatrices.EdgesAppendedShape | src/graphics/matrix/dim2.rs:16-20 | appending edges adds two rows per edge, keeps four columns and keeps the old data as a prefix |
| EdgeMatrices.EdgeMatrixRowsEven | src/graphics/matrix/dim2.rs:5-20 | a matrix built from a new edge matrix by `append_edge` alone has an even row count |
| EdgeMatrices.EdgeRowsAt | src/graphics/matrix/dim2.rs:16-20 | edge k lands in rows 2k and 2k + 1 after the old rows |
| EdgeMatrices.AppendEdgeExample | src/graphics/matrix/dim2.rs:14-21 | appending [1, 2, 4, 5, 6, 7] to a new edge matrix gives the 2x4 matrix [1, 2, 4, 1, 5, 6, 7, 1] |
| GfxDrawers.GfxCanvas.constructor | src/graphics/drawer.rs:32-45 | a canvas holds its own foreground and background colours and has drawn nothing |
| GfxDrawers.Drawer.constructor | src/graphics/drawer.rs:49-54 | a new drawer has the identity-only stack over the given canvas |
| GfxDrawers.Drawer.RenderEdgesWithStack | src/graphics/drawer.rs:12-14 | the canvas receives the edges times the top |
| GfxDrawers.Drawer.RenderPolygonsWithStack | src/graphics/drawer.rs:16-19 | the canvas receives the polygons times the top |
| GfxDrawers.Drawer.SetFgColor | src/graphics/drawer.rs:34-36 | the canvas's foreground colour is set and nothing else changes |
| GfxDrawers.Drawer.SetBgColor | src/graphics/drawer.rs:37-39 | the canvas's background colour is set and nothing else changes |
| GfxDrawers.Drawer.ClearCanvas | src/graphics/drawer.rs:56-61 | the canvas is cleared and the stack is untouched |
| GfxDrawers.Drawer.ResetStack | src/graphics/drawer.rs:63-65 | the stack is the identity alone again |
| GfxDrawers.Drawer.PushMatrix | src/graphics/drawer.rs:136-138 | the stack grows by a copy of its top |
| GfxDrawers.Drawer.PopMatrix | src/graphics/drawer.rs:140-142 | the top is removed without a guard |
| GfxDrawers.Drawer.TransformBy | src/graphics/drawer.rs:107-112 | only the top changes, and it becomes T times the old top |
| GfxDrawers.Drawer.DrawLine | src/graphics/drawer.rs:82-86 | one edge from p0 to p1 is rendered through the top |
| GfxDrawers.Drawer.DrawCircle | src/graphics/drawer.rs:87-91 | the circle's edges are rendered through the top |
| GfxDrawers.Drawer.DrawHermite | src/graphics/drawer.rs:93-97 | the Hermite curve's edges are rendered through the top |
| GfxDrawers.Drawer.DrawBezier | src/graphics/drawer.rs:98-102 | the Bezier curve's edges are rendered through the top |
| GfxDrawers.Drawer.AddBox | src/graphics/drawer.rs:117-121 | the box's triangles are rendered through the top |
| GfxDrawers.Drawer.AddSphere | src/graphics/drawer.rs:122-126 | the sphere's triangles are rendered through the top |
| GfxDrawers.Drawer.AddTorus | src/graphics/drawer.rs:127-131 | the torus's triangles are rendered through the top |
| Img.WrapAxis | src/img.rs:114-137 | a wrapped coordinate lands in [0, n), and a coordinate already there is kept |
| Img.WrapAxisIsMod | src/img.rs:114-137 | the source's remainder-then-add-n wrapping equals the Euclidean remainder, for negative coordinates too |
| Img.IndexAsWritten | src/img.rs:105-148 | `index` as written answers Some exactly for the coordinates its range check lets through |
| Img.Row | src/img.rs:126-144 | the corrected row lies in [0, height), flipped with the height when `invert_y` is set |
| Img.Index | src/img.rs:105-148 | the corrected `index` answers Some exactly when x is in range or x-wrap is on, and y likewise |
| Img.CellInRange | src/img.rs:147 | `y * width + x` lies in [0, width * height) for x and y in range |
| Img.IndexInBuffer | src/img.rs:105-148 | every index the corrected `index` returns lies in the buffer |
| Img.IndexRowMajor | src/img.rs:147 | without the flip, an in-range pair maps to `y * width + x` |
| Img.IndexPeriodic | src/img.rs:114-137 | with both wraps on, shifting x by whole widths and y by whole heights gives the same index |
| Img.WrapAxisPeriodic | src/img.rs:114-125 | wrapping ignores whole multiples of n |
| Img.CellInjective | src/img.rs:147 | distinct in-range pairs have distinct cells |
| Img.IndexInjective | src/img.rs:105-148 | without wrapping, distinct pairs never share an index |
| Img.InvertYAsWrittenLeavesBuffer | src/img.rs:140-147 | flipping with the width gives index 2 on a 2x1 image and -1 on a 1x2 image, both outside the buffer, where the corrected flip gives 0 |
| Img.IndexAsWrittenSquare | src/img.rs:140-147 | on square images the flip as written agrees with the corrected one |
| Img.PlotOnto | src/img.rs:155-164 | plotting keeps both buffer lengths |
| Img.PlotKeepsNearest | src/img.rs:158-163 | no depth ever decreases, other cells are untouched, and the cell takes colour and depth exactly when the stored depth is below z |
| Img.PlotEqualDepthKeeps | src/img.rs:159 | a point at exactly the stored depth changes nothing |
| Img.PlotOnCleared | src/img.rs:159-161 | on a cell at minus infinity any point is drawn |
| Img.DigitChar | src/img.rs:70 | a decimal digit is the character of that value |
| Img.Decimal | src/img.rs:70 | the decimal form of a number is a non-empty string of digits |
| Img.DecimalRoundTrip | src/img.rs:70 | reading back the decimal form gives the number |
| Img.DecimalNoLeadingZero | src/img.rs:70 | the decimal form starts with '0' only for zero |
| Img.Ascii | src/img.rs:69-70 | the header text becomes one byte per character |
| Img.Channel | src/img.rs:71-82 | a channel takes one byte when depth < 256 and two otherwise |
| Img.PixelBytes | src/img.rs:71-82 | a pixel takes three or six bytes |
| Img.RasterLength | src/img.rs:71-83 | the raster has one pixel's bytes for every pixel |
| Img.RasterLayout | src/img.rs:71-83 | pixel k's bytes sit at offset k times the stride, in buffer order, red, green, blue |
| Img.PixelRoundTrip | src/img.rs:72-82 | reading the bytes back gives each channel: one `as u8` byte or two big-endian bytes |
| Img.CountNewlinesAppend | src/img.rs:93-97 | newline counts add up over concatenation |
| Img.DigitsHaveNoNewline | src/img.rs:96 | a decimal number contains no newline |
| Img.AsciiLineCount | src/img.rs:95-97 | the plain raster has exactly one line per pixel |
| Img.Pos | src/img.rs:223 | an in-range pixel's position lies in the buffer |
| Img.PendingAfterRepaint | src/img.rs:228-232 | painting a pixel with its own fill colour settles it and leaves every other pixel's state alone, so the fill terminates |
| Img.RepaintKeeps | src/img.rs:225-232 | painting a pixel not in the bound colour keeps every pixel at its original colour or its own fill colour, keeps every bound-coloured cell, and keeps a settled seed settled |
| Img.PPMImg.WithBg | src/img.rs:52-65 | width * height pixels of the background colour, depths at minus infinity, all three flags off |
| Img.PPMImg.New | src/img.rs:48-50 | the same with black |
| Img.PPMImg.Plot | src/img.rs:155-164 | y is flipped to height - 1 - y, then the pixel is written exactly as PlotOnto says, and out-of-range points change nothing |
| Img.PPMImg.Clear | src/img.rs:177-184 | every pixel takes the colour and every depth goes to minus infinity; the geometry is unchanged |
| Img.PPMImg.Bound4Fill | src/img.rs:214-240 | the colours and `ok` are `FillFrom` from the seed alone, so `ok` is false exactly when a checked turn leaves more than width * height points; pixels of the bound colour stay, every pixel ends as it was or in its own fill colour, the seed ends settled, no pixel outside the seed's open region changes, and with `ok` every pixel of that region ends in its fill colour; depths never change |
| Img.PPMImg.FillTurn | src/img.rs:222-237 | one turn on the image's colours is exactly `FillStep`: pop, drop or paint, push the four neighbours, and report whether the turn reaches the length assertion |
| Img.FillStep | src/img.rs:222-237 | each turn paints one more unsettled pixel or leaves the image alone and shortens the worklist, so the loop ends |
| Img.ChangedAfterPaint | src/img.rs:228-232 | the painted pixel was open and unchanged, and after the paint it is the only newly changed pixel |
| Img.ClosedAfterPaint | src/img.rs:232-236 | after the four pushes every open neighbour of a changed pixel is changed or on the worklist |
| Img.FrontierAfterPaint | src/img.rs:232-236 | every worklist point stays the seed or a neighbour of a changed pixel |
| Img.RegionGrows | src/img.rs:233-236 | an open neighbour of a pixel 4-connected to the seed through open pixels is connected too |
| Img.RegionAfterPaint | src/img.rs:228-236 | the newly painted pixel is joined to the seed through open pixels, so every changed pixel is |
| Img.PaintKeeps | src/img.rs:228-236 | painting the popped pixel and pushing its neighbours keeps the fill invariant and settles the seed |
| Img.DropKeeps | src/img.rs:222-231 | dropping an outside point, a bound-coloured pixel or one already in its fill colour keeps the fill invariant and settles the seed |
| Img.FillStepKeeps | src/img.rs:222-238 | every turn of the loop keeps the fill invariant |
| Img.FillFromSound | src/img.rs:221-239 | a fill run from a state keeping the invariant ends with the bound kept, only fill colours written, the seed settled and every change inside the seed's region; when no assertion fails, every open neighbour of a changed pixel is changed |
| Img.PathChanged | src/img.rs:233-236 | when every open neighbour of a changed pixel is changed, a changed pixel changes every open path that starts at it |
| Img.FillPaintsRegion | src/img.rs:210-211 | the fill from a seed leaves every pixel outside the seed's open 4-connected region as it was and, unless the length assertion fails, paints every pixel of the region with its own fill colour |
| Img.SmallFillOverflows | src/img.rs:238 | the length assertion fails on a 2 x 2 image of one colour seeded at (0, 0): the fourth turn leaves five points |
| Img.PPMImg.WriteBinary | src/img.rs:67-87 | the bytes written are `P6`, the size line, then every pixel's channel bytes in buffer order |
| Img.PPMImg.WriteAscii | src/img.rs:91-100 | the text written is `P3`, the size line, then one line per pixel |
| Lighting.FromObjConst | src/light.rs:52-66 | ka, kd and ks are the constants' red, green and blue triples, missing intensities become 0, and ns is 10 |
| Lighting.NoEffect | src/light.rs:165-167 | `no_effect` is 1 at every distance |
| Lighting.InvLinear | src/light.rs:170-172 | `invlinear(d)` times d is 10 |
| Lighting.InvSq | src/light.rs:175-177 | `invsq(d)` times d squared is 10000 |
| Lighting.FalloffAtDoubleDistance | src/light.rs:170-177 | doubling the distance halves `invlinear` and quarters `invsq` |
| Lighting.DefaultLights | src/light.rs:117-143 | the default lights are one ambient light followed by two point lights |
| Lighting.DefaultLightsHaveNoFalloff | src/light.rs:124-141 | both default point lights use `no_effect` |
| Lighting.NDotDir | src/light.rs:97 | n.dir is clamped at 0 and kept when already non-negative |
| Lighting.StepInRange | src/light.rs:83-110 | one step (clamp the contribution to [0, 255], add, clamp above at 255) keeps the running colour in [0, 255] |
| Lighting.AccumulatedInRange | src/light.rs:76-111 | after any list of lights the running colour lies in [0, 255] on every channel |
| Lighting.ShadeChannels | src/light.rs:114 | each output channel is the truncation of the accumulated channel |
| Lighting.AmbientIgnoresGeometry | src/light.rs:85 | an ambient light's contribution does not depend on the normal, the view or the location |
| Lighting.BlackAmbientIsNeutral | src/light.rs:83-110 | appending a black ambient light changes nothing |
| Lighting.DiffuseVanishesWhenFacingAway | src/light.rs:97-99 | a surface facing away from the light gets no diffuse part |
| Lighting.PointContributionBounded | src/light.rs:94-106 | a point light with falloff f >= 0 contributes at most 510 f per channel |
| Lighting.ClampedSumBounded | src/light.rs:106 | the clamped diffuse plus the clamped specular, scaled by f, is at most 510 f |
| Lighting.DefaultAmbientShade | src/light.rs:85 | the default ambient light on DEFAULT_PROPS gives (30, 30, 15) (also lines 119-123, 181-187) |
| Lighting.ComputeColor | src/light.rs:69-115 | the loop returns the colour of the accumulated sum, and black for no lights |
| Lighting.TransformLight | src/light.rs:146-158 | an ambient light is unchanged; a point light keeps colour and falloff and only its location moves |
| Lighting.TransformKeepsAmbientContribution | src/light.rs:146-149 | transforming an ambient light leaves its contribution unchanged |
| Matrices.IndexInRange | src/graphics/matrix/mod.rs:31-34 | the row-major index `row * ncols + col` of an in-range cell lies in the data |
| Matrices.IndexToRc | src/graphics/matrix/mod.rs:121-123 | `index_to_rc` inverts the row-major index: its column is below ncols and it indexes back to i |
| Matrices.RcOfIndex | src/graphics/matrix/mod.rs:121-123 | dividing and taking the remainder of a row-major index gives back its row and column |
| Matrices.NewMat | src/graphics/matrix/mod.rs:36-57 | `new` and `new_clone_vec` demand `nrows * ncols == data.len()` and keep the three fields |
| Matrices.Get | src/graphics/matrix/mod.rs:59-65 | the corrected `get` answers Some exactly for in-range cells, with that cell's value |
| Matrices.GetAsWrittenInside | src/graphics/matrix/mod.rs:59-65 | `get` as written returns the right value for every in-range cell |
| Matrices.GetAsWrittenOffByOne | src/graphics/matrix/mod.rs:60 | on a 2x2 matrix `get(0, 2)` as written returns a cell of the next row and `get(2, 0)` indexes past the data, where the corrected `get` answers None |
| Matrices.SetAt | src/graphics/matrix/mod.rs:67-71 | setting a cell keeps the shape |
| Matrices.SetAtChangesOneCell | src/graphics/matrix/mod.rs:67-71 | `set` changes exactly the addressed cell |
| Matrices.RowIter | src/graphics/matrix/mod.rs:95-98 | a row has ncols values |
| Matrices.RowIterAt | src/graphics/matrix/mod.rs:95-98 | the k-th value of row r is cell (r, k) |
| Matrices.ColIterIsColumn | src/graphics/matrix/mod.rs:101-103 | skip(c).step_by(ncols) yields column c, one value per row |
| Matrices.SkipStepFromRow | src/graphics/matrix/mod.rs:101-103 | from row j on, the stepped iterator yields the cells (j + k, c) |
| Matrices.Rows | src/graphics/matrix/mod.rs:108-110 | `iter_by_row` yields nrows chunks, chunk r being row r |
| Matrices.ZipSumSymmetric | src/graphics/matrix/mod.rs:133-136 | the zip-and-fold sum of products is symmetric |
| Matrices.ZipSumUnit | src/graphics/matrix/mod.rs:133-136 | folding against a unit vector picks out one entry |
| Matrices.ZipSumZero | src/graphics/matrix/mod.rs:133-136 | folding against zeros gives 0 |
| Matrices.MatMul | src/graphics/matrix/mod.rs:126-139 | `_mul` asserts ncols(A) == nrows(B) and gives an nrows(A) x ncols(B) matrix |
| Matrices.MatMulAt | src/graphics/matrix/mod.rs:131-137 | each product entry is the fold of row r of A against column c of B |
| Matrices.MatEqual | src/graphics/matrix/mod.rs:19-26 | two matrices of one shape are equal when they agree on every cell |
| Matrices.IdentMat | src/graphics/matrix/mod.rs:204-210 | `ident(n)` is n x n |
| Matrices.IdentAt | src/graphics/matrix/mod.rs:204-210 | `ident(n)` has 1 on the diagonal and 0 elsewhere |
| Matrices.IdentMulLeft | src/graphics/matrix/mod.rs:126-139 | the identity times any matrix is that matrix (also lines 204-210) |
| Matrices.IdentMulRight | src/graphics/matrix/mod.rs:126-139 | any matrix times the identity is that matrix (also lines 204-210) |
| Matrices.TransposedMul | src/graphics/matrix/mod.rs:141-153 | `transposed_mul` asserts self.nrows == other.ncols and gives an other.nrows x self.nrows matrix |
| Matrices.TransposedMulIsSwappedMul | src/graphics/matrix/mod.rs:141-153 | for a square self, `self.transposed_mul(other)` equals other times self |
| Matrices.ProductCell | src/graphics/matrix/mod.rs:131-137 | with three inner columns each entry is a three-term sum of products |
| Matrices.MulExample | src/graphics/matrix/mod.rs:293-302 | the 2x3 by 3x2 test product is [58, 64, 139, 154] |
| Matrices.MulRowExample | src/graphics/matrix/mod.rs:304-321 | the [3, 4, 2] by 3x4 test product is [83, 63, 37, 75] |
| Matrices.IdentThreeExample | src/graphics/matrix/mod.rs:323-332 | `ident(3)` is the 3x3 test identity |
| Matrices.IdentOneExample | src/graphics/matrix/mod.rs:334-337 | `ident(1)` is [1] |
| Matrices.ToIdentOfSquare | src/graphics/matrix/mod.rs:213-225 | on a square matrix `to_ident` gives `ident(n)` (also lines 340-354) |
| Matrices.Matrix.constructor | src/graphics/matrix/mod.rs:50-57 | a matrix holds the given rows, columns and data |
| Matrices.Matrix.Set | src/graphics/matrix/mod.rs:67-71 | `set` asserts the cell is in range and changes only that cell |
| Matrices.Matrix.Clear | src/graphics/matrix/mod.rs:73-76 | `clear` leaves no rows and no data but keeps ncols |
| Matrices.Matrix.AppendRow | src/graphics/matrix/mod.rs:81-89 | `append_row` asserts the row has ncols values, appends it and adds one row |
| Matrices.Matrix.ToIdent | src/graphics/matrix/mod.rs:213-225 | `to_ident` sets each cell to 1 when its row equals its column and 0 otherwise, for any shape |
| Matrices.Matrix.Mul | src/graphics/matrix/mod.rs:126-139 | the loop fills every entry and returns the product |
| Matrices.Matrix.TransposedMulBy | src/graphics/matrix/mod.rs:141-153 | the loop fills every entry and returns the transposed product |
| Matrices.MulMutB | src/graphics/matrix/mod.rs:155-158 | b is replaced by a times b |
| Matrices.ZeroAt | src/graphics/matrix/mod.rs:205 | every cell of the zero-filled matrix is 0 |
| Matrices.Ident | src/graphics/matrix/mod.rs:204-210 | the loop that sets the diagonal of a zero matrix yields `ident(n)` |
| MatrixStacks.NewStack | src/drawer.rs:229-232 | a new stack holds one matrix, the 4x4 identity |
| MatrixStacks.Top | src/drawer.rs:102-106 | the top is an element of the stack (the last one) |
| MatrixStacks.Pushed | src/drawer.rs:220-222 | push keeps every matrix and adds a copy of the top, so the top is unchanged |
| MatrixStacks.Popped | src/drawer.rs:224-226 | pop drops the last matrix and does nothing on an empty stack |
| MatrixStacks.TransformKeepsBelow | src/drawer.rs:178-183 | `transform_by` replaces only the top, by trans times the old top |
| MatrixStacks.StackOperationsKeepShape | src/drawer.rs:178-183 | new, push, pop and transform keep every matrix well shaped (also lines 220-232) |
| MatrixStacks.PushTransformPop | src/drawer.rs:178-183 | push, transform, pop leaves the stack as it was (also lines 220-226) |
| MatrixStacks.PopUndoesPush | src/drawer.rs:220-226 | pop undoes push |
| MatrixStacks.PopLastEmpties | src/drawer.rs:224-226 | popping the last matrix empties the stack and popping again is harmless |
| MatrixStacks.FreshStackIsIdentity | src/drawer.rs:91-94 | rendering with a fresh stack leaves the matrix unchanged (also lines 229-232) |
| MatrixStacks.FirstTransformIsTransform | src/drawer.rs:178-183 | the first transform on a fresh stack makes the top equal to that transform (also lines 229-232) |
| Transforms.MoveMat | src/graphics/matrix/transform.rs:7-14 | `mv` is a 4x4 matrix |
| Transforms.ScaleMat | src/graphics/matrix/transform.rs:17-23 | `scale` is a 4x4 matrix |
| Transforms.RotXMat | src/graphics/matrix/transform.rs:26-44 | `rotatex` is a 4x4 matrix |
| Transforms.RotYMat | src/graphics/matrix/transform.rs:47-65 | `rotatey` is a 4x4 matrix |
| Transforms.RotZMat | src/graphics/matrix/transform.rs:68-80 | `rotatez` is a 4x4 matrix |
| Transforms.PointTimes | src/graphics/matrix/transform.rs:1-3 | a row point times a 4x4 matrix has the four column combinations as its entries |
| Transforms.PointRow | src/graphics/matrix/transform.rs:1-3 | a point is the row [x, y, z, 1] |
| Transforms.MoveTranslates | src/graphics/matrix/transform.rs:7-14 | a point times `mv(dx, dy, dz)` is the point moved by (dx, dy, dz) |
| Transforms.MoveUndone | src/graphics/matrix/transform.rs:7-14 | moving by d and then by -d gives the point back |
| Transforms.ScaleScales | src/graphics/matrix/transform.rs:17-23 | a point times `scale(sx, sy, sz)` has its coordinates scaled |
| Transforms.RotXTurns | src/graphics/matrix/transform.rs:26-44 | `rotatex` keeps x and turns (y, z) by the angle |
| Transforms.RotYTurns | src/graphics/matrix/transform.rs:47-65 | `rotatey` keeps y and turns (z, x) by the angle |
| Transforms.RotZTurns | src/graphics/matrix/transform.rs:68-80 | `rotatez` keeps z and turns (x, y) by the angle |
| Transforms.RotZOfUnitX | src/graphics/matrix/transform.rs:68-80 | `rotatez` takes the unit x point to (cos, sin, 0) |
| Transforms.RotZKeepsLength | src/graphics/matrix/transform.rs:68-80 | when cos² + sin² = 1, `rotatez` keeps the length of a point's (x, y, z) |
| Transforms.IdentFourData | src/graphics/matrix/mod.rs:204-210 | the 4x4 identity has 1 on the diagonal and 0 elsewhere, row by row |
| Transforms.Mv | src/graphics/matrix/transform.rs:7-14 | setting the bottom row of the identity gives the translation matrix |
| Transforms.Scale | src/graphics/matrix/transform.rs:17-23 | setting the diagonal of the identity gives the scale matrix |
| Transforms.PerspectiveDivided | src/graphics/matrix/transform.rs:84-92 | dividing keeps the shape |
| Transforms.PerspectiveDividedAt | src/graphics/matrix/transform.rs:84-92 | each of x, y, z is divided by w, w becomes 1 and later columns are kept |
| Transforms.PerspectiveDivideNormalises | src/graphics/matrix/transform.rs:84-92 | after the divide every point has w = 1 and x, y, z are the old values over the old w |
| Transforms.PerspectiveDivideIdempotent | src/graphics/matrix/transform.rs:84-92 | dividing twice is dividing once |
| Transforms.PerspectiveDivide | src/graphics/matrix/transform.rs:84-92 | the in-place loop over the rows yields the divided matrix |
| Parametrics.SampleCount | src/graphics/parametrics.rs:53-61 | the iterator yields at least one point for any positive step |
| Parametrics.SamplesUpTo | src/graphics/parametrics.rs:53-61 | n samples are n points |
| Parametrics.SamplesUpToAt | src/graphics/parametrics.rs:53-61 | sample k is `point_at(k * step)` |
| Parametrics.SampledExactly | src/graphics/parametrics.rs:54 | time k * step is sampled exactly when it has not passed 1 |
| Parametrics.FirstSampleIsStart | src/graphics/parametrics.rs:69-76 | the first point yielded is `point_at(0)` |
| Parametrics.ParametricIter.constructor | src/graphics/parametrics.rs:69-76 | `new` asserts a positive step and starts at t = 0 |
| Parametrics.ParametricIter.Next | src/graphics/parametrics.rs:53-61 | past t = 1 `next` gives None and stays put; otherwise it yields the point at t and adds step to t |
| Parametrics.Collect | src/graphics/parametrics.rs:31-33 | draining a fresh iterator yields exactly the sample points and leaves t past 1 |
| ParametricShapes.EdgeBetween | src/matrix/parametrics.rs:20-22 | an edge is six values |
| ParametricShapes.Chain | src/matrix/parametrics.rs:19-23 | `windows(2)` over n points gives max(n - 1, 0) edges of six values |
| ParametricShapes.Visited | src/matrix/parametrics.rs:19-23 | the points an edge chain runs through are one more than its edges |
| ParametricShapes.ChainVisitsSamples | src/matrix/parametrics.rs:19-23 | the chain runs through exactly the sampled points, in order |
| ParametricShapes.ChainLinks | src/matrix/parametrics.rs:19-23 | each edge ends where the next one starts |
| ParametricShapes.ChainOnPlane | src/matrix/parametrics.rs:11 | every edge lies on the plane z (also line 22) |
| ParametricShapes.AddParametric | src/matrix/parametrics.rs:13-24 | `add_parametric` appends the chain of the sampled points and keeps the edge matrix valid |
| ParametricShapes.AddParametricRows | src/matrix/parametrics.rs:13-24 | it adds two rows per edge, 2 (samples - 1) rows |
| ParametricShapes.AddCircle | src/matrix/parametrics.rs:27-35 | `add_circle` appends the chain of the circle sampled with step 0.001 on the centre's plane |
| ParametricShapes.AddBezier3 | src/matrix/parametrics.rs:40-49 | `add_bezier3` appends the chain of the Bezier polynomial sampled with step 0.001 on z = 0 |
| ParametricShapes.AddHermite3 | src/matrix/parametrics.rs:51-60 | `add_hermite3` appends the chain of the Hermite polynomial sampled with step 0.0001 on z = 0 |
| ParametricShapes.SamplesSpanCurve | src/graphics/parametrics.rs:53-61 | a step of 1/n samples n + 1 points, from `point_at(0)` to `point_at(1)` |
| ParametricShapes.BezierDrawnEndToEnd | src/matrix/parametrics.rs:40-49 | the Bezier curve is drawn as 1000 edges from p0 to p3 |
| ParametricShapes.HermiteDrawnEndToEnd | src/matrix/parametrics.rs:51-60 | the Hermite curve is drawn as 10000 edges from p0 to p1 |
| ParametricShapes.CircleEdges | src/matrix/parametrics.rs:27-35 | the circle is drawn as 1000 edges, all at the centre's depth |
| Tessellation.PolygonRows | src/matrix/dim3.rs:25-26 | a triangle is three rows of four values |
| Tessellation.TrianglesRows | src/matrix/dim3.rs:19-28 | n triangles are 12 n values |
| Tessellation.PolygonAppendedIsRun | src/matrix/dim3.rs:19-28 | appending one polygon is appending a run of one triangle |
| Tessellation.NewPolygonMatrix | src/matrix/dim3.rs:8-14 | a new polygon matrix has no rows and four columns |
| Tessellation.AppendPolygon | src/matrix/dim3.rs:19-28 | `append_polygon` adds the three points, each with w = 1, as three rows |
| Tessellation.TrianglesRowsConcat | src/matrix/dim3.rs:19-28 | the rows of two runs of triangles are the rows of each, in order |
| Tessellation.AppendedConcat | src/matrix/dim3.rs:19-28 | appending two runs one after the other is appending their concatenation |
| Tessellation.AppendNext | src/matrix/dim3.rs:19-28 | appending the k-th triangle after the first k extends the run by one |
| Tessellation.TrianglesAppendedShape | src/matrix/dim3.rs:19-28 | appending n triangles keeps the matrix valid, adds 3 n rows and keeps the earlier data |
| Tessellation.TriangleRowsAt | src/matrix/dim3.rs:19-28 | triangle k's values sit at offset 12 k after the earlier data |
| Tessellation.BoxTriangles | src/matrix/dim3.rs:34-89 | the box is 12 triangles |
| Tessellation.AddBox | src/matrix/dim3.rs:34-89 | `add_box` appends the front, right, back, left, top and bottom triangle pairs in that order |
| Tessellation.BoxVerticesAreCorners | src/matrix/dim3.rs:37-46 | every vertex of every box triangle is one of the eight corners |
| Tessellation.BoxFacesOutward | src/matrix/dim3.rs:16-18 | for positive dx, dy, dz every box triangle is counter-clockwise seen from outside: its normal points away from the centre (also lines 48-70) |
| Tessellation.Resolve | src/matrix/dim3.rs:136-154 | resolving n index faces gives n triangles |
| Tessellation.ResolveConcat | src/matrix/dim3.rs:136-154 | resolving two runs of faces is resolving each |
| Tessellation.TwoAppends | src/matrix/dim3.rs:149-150 | two polygons appended one after the other are a run of two |
| Tessellation.SpherePoints | src/matrix/dim3.rs:105-115 | the sphere has 24 semicircles of 25 points, 600 in all |
| Tessellation.SpherePointsLayout | src/matrix/dim3.rs:105-115 | point cir of semicircle rot is at index 25 rot + cir |
| Tessellation.SphereFacesAtWellFormed | src/matrix/dim3.rs:136-154 | each point's faces index inside the 600 points with three distinct corners, and i + 1 stays inside where it is used |
| Tessellation.SphereFacesWellFormed | src/matrix/dim3.rs:136-154 | every sphere face indexes inside the points and has three distinct corners |
| Tessellation.SphereFaceCount | src/matrix/dim3.rs:139-153 | each semicircle gives one face at its first point, two at each middle point and none at its last |
| Tessellation.SphereTriangleCount | src/matrix/dim3.rs:136-154 | the sphere is 1128 triangles |
| Tessellation.SphereSeam | src/matrix/dim3.rs:143 | the last semicircle's faces wrap around to the first one (also line 147) |
| Tessellation.SampleSphere | src/matrix/dim3.rs:105-115 | the two loops produce exactly the sphere points |
| Tessellation.SphereFacesAtResolved | src/matrix/dim3.rs:139-153 | the faces at point i resolve to the triangles the three branches append |
| Tessellation.AddSphere | src/matrix/dim3.rs:91-155 | `add_sphere` appends the sphere mesh |
| Tessellation.TorusPoints | src/matrix/dim3.rs:160-176 | the torus has 30 circles of 31 points, 930 in all |
| Tessellation.TorusPointsLayout | src/matrix/dim3.rs:160-176 | point c of circle t is at index 31 t + c |
| Tessellation.TorusFaceCount | src/matrix/dim3.rs:178-183 | every point gives two faces |
| Tessellation.TorusFacesWellFormed | src/matrix/dim3.rs:178-183 | every torus face indexes inside the 930 points with three distinct corners |
| Tessellation.TorusTriangleCount | src/matrix/dim3.rs:178-183 | the torus is 1860 triangles |
| Tessellation.TorusSeam | src/matrix/dim3.rs:179 | the last circle's faces wrap around to the first one |
| Tessellation.SampleTorus | src/matrix/dim3.rs:160-176 | the two loops produce exactly the torus points |
| Tessellation.TorusFacesAtResolved | src/matrix/dim3.rs:178-183 | the faces at point i resolve to the two triangles the loop appends |
| Tessellation.AddTorus | src/matrix/dim3.rs:159-195 | `add_torus` appends the torus mesh |
| RasterLine.SnapMonotone | src/graphics/canvas/mod.rs:38-47 | rounding keeps the order of the x coordinates, so after the swap x0 <= x1 |
| RasterLine.LineEnds | src/graphics/canvas/mod.rs:38-47 | the ends are swapped when p0.x > p1.x and then rounded, so x0 <= x1 |
| RasterLine.AlongNext | src/graphics/canvas/mod.rs:101-104 | moving the minor coordinate one more step adds inc |
| RasterLine.Row | src/graphics/canvas/mod.rs:54-64 | a horizontal run of n pixels |
| RasterLine.Column | src/graphics/canvas/mod.rs:67-78 | a vertical run of n pixels |
| RasterLine.Shallow | src/graphics/canvas/mod.rs:85-107 | the shallow walk plots dx + 1 pixels |
| RasterLine.Steep | src/graphics/canvas/mod.rs:108-136 | the steep walk plots |dy| + 1 pixels |
| RasterLine.OffsetStep | src/graphics/canvas/mod.rs:101-105 | the minor offset moves on exactly when the decision value is positive |
| RasterLine.WalkStep | src/graphics/canvas/mod.rs:101-105 | one loop step updates the offset and the decision value as the loop does (also lines 129-133) |
| RasterLine.DecisionStep | src/graphics/canvas/mod.rs:101-105 | d grows by 2 minor per step, less 2 major when the offset moves |
| RasterLine.NextZ | src/graphics/canvas/mod.rs:106 | z grows by z_inc per pixel (also line 134) |
| RasterLine.OffsetEnds | src/graphics/canvas/mod.rs:85-136 | the walk starts at offset 0 and ends at the full minor distance |
| RasterLine.OffsetNearest | src/graphics/canvas/mod.rs:85-136 | each offset is the nearest integer to the exact one: |2 minor k - 2 major offset| stays within major |
| RasterLine.OffsetMovesByAtMostOne | src/graphics/canvas/mod.rs:101-104 | the offset never decreases and moves by at most one per step |
| RasterLine.Walk | src/graphics/canvas/mod.rs:99-107 | the decision loop from (d, m) yields n offsets |
| RasterLine.WalkIsOffset | src/graphics/canvas/mod.rs:99-107 | the decision loop started from the right value yields the nearest offsets |
| RasterLine.ShallowFallingAsWrittenMissesEnd | src/graphics/canvas/mod.rs:87 | from (0, 0) to (2, -1) the loop as written stays on row 0 and never reaches row -1; the corrected start ends on it |
| RasterLine.SteepFallingAsWrittenOvershoots | src/graphics/canvas/mod.rs:112 | from (0, 0) to (1, -2) the loop as written moves the column at every row and leaves the line's columns; the corrected start ends on (0, 0) |
| RasterLine.LinePixelCount | src/graphics/canvas/mod.rs:36-137 | one pixel per step along the longer axis, both ends included |
| RasterLine.LineEndpoints | src/graphics/canvas/mod.rs:36-137 | the first and the last pixel are the two rounded endpoints, the first carries z0, and a vertical line starts at its lower row |
| RasterLine.LineConnected | src/graphics/canvas/mod.rs:36-137 | consecutive pixels are neighbours, each step one column right or one row up |
| RasterLine.LineNearSegment | src/graphics/canvas/mod.rs:85-136 | every pixel lies within half a pixel of the segment, measured along the shorter axis |
| RasterLine.Canvas.constructor | src/graphics/canvas/mod.rs:15-17 | a new canvas has plotted nothing |
| RasterLine.Canvas.Plot | src/graphics/canvas/mod.rs:17 | `plot` records one call |
| RasterLine.Canvas.HorizontalRun | src/graphics/canvas/mod.rs:54-64 | the loop plots the horizontal run |
| RasterLine.Canvas.VerticalRun | src/graphics/canvas/mod.rs:67-78 | the loop plots the vertical run from the lower row up |
| RasterLine.Canvas.ShallowRun | src/graphics/canvas/mod.rs:85-107 | the loop plots the shallow walk; d starts from the corrected 2 abs(dy) - dx, where the source writes 2 dy - dx with the signed dy (see Findings) |
| RasterLine.Canvas.SteepRun | src/graphics/canvas/mod.rs:108-136 | the loop plots the steep walk; d starts from the corrected 2 dx - abs(dy), where the source writes 2 dx - dy with the signed dy (see Findings) |
| RasterLine.Canvas.DrawLine | src/graphics/canvas/mod.rs:36-47 | `draw_line` plots exactly the line's pixels |
| RasterLine.Canvas.DrawRounded | src/graphics/canvas/mod.rs:49-137 | after rounding, the four cases plot exactly the line's pixels |
| RasterFill.Points | src/graphics/canvas/mod.rs:164-168 | the points of a matrix are its rows' first three values, one per row |
| RasterFill.RenderEdgeMatrix | src/graphics/canvas/mod.rs:163-174 | `render_edge_matrix` draws one line per pair of rows, in order |
| RasterFill.DrawEdges | src/graphics/canvas/mod.rs:163-174 | the row-pair loop plots the lines of all the edges |
| RasterFill.EdgePixelsAppend | src/graphics/canvas/mod.rs:163-174 | one more edge adds exactly its line's pixels after the others |
| RasterFill.ScanRun | src/graphics/canvas/mod.rs:336-339 | a run of n columns is n plot calls |
| RasterFill.ScanlineColumns | src/graphics/canvas/mod.rs:319-340 | away from the integer limits, a scanline plots the columns from ceil(xl) up to but not including ceil(xr), left to right, on row ceil(y) |
| RasterFill.ScanlineDepth | src/graphics/canvas/mod.rs:328-338 | each scanline pixel carries the segment's depth at its own column |
| RasterFill.DrawScanline | src/graphics/canvas/mod.rs:319-340 | `draw_scanline` asserts a horizontal line, orders its ends and plots its columns |
| RasterFill.CullAsWrittenDrawsBackFace | src/graphics/canvas/mod.rs:220-226 | with the graphics tree's dot product a triangle facing away (normal (0, 0, -0.5), view (0, 0, 1)) passes the cull; with the dot product it is culled |
| RasterFill.Sort3 | src/graphics/canvas/mod.rs:248-250 | the sorted vertices are a permutation of the three, by increasing y |
| RasterFill.Spans | src/graphics/canvas/mod.rs:266-274 | n scanlines between two walkers, row j at height y0 + j, both ends on that row |
| RasterFill.TriangleSpans | src/graphics/canvas/mod.rs:252-314 | every scanline of the fill is horizontal |
| RasterFill.TriangleRows | src/graphics/canvas/mod.rs:266 | a sorted triangle fills exactly the rows ceil(vb.y) up to but not including ceil(vt.y), one scanline per row (also lines 297, 306) |
| RasterFill.ScanPixelsAppend | src/graphics/canvas/mod.rs:266-313 | the pixels of two runs of scanlines are those of each, in order |
| RasterFill.ScanPixelsColour | src/graphics/canvas/mod.rs:241 | every scanline pixel has the fill colour (also lines 267, 298, 307) |
| RasterFill.TriangleOneColour | src/graphics/canvas/mod.rs:215-245 | a culled triangle draws nothing; a drawn one is all in the colour of its normal |
| RasterFill.PolygonPixelsAppend | src/graphics/canvas/mod.rs:203-214 | appending a triangle adds exactly its pixels after the others |
| RasterFill.FillTriangle | src/graphics/canvas/mod.rs:252-314 | the two fill loops plot the triangle's scanlines |
| RasterFill.SpanLoop | src/graphics/canvas/mod.rs:266-274 | one fill loop plots its scanlines, the walkers moving by their slopes each row |
| RasterFill.WalkerNext | src/graphics/canvas/mod.rs:269-273 | the next row's walker point is one slope further on |
| RasterFill.RenderPolygonMatrix | src/graphics/canvas/mod.rs:200-317 | `render_polygon_matrix` plots the triangles of every three rows, in order |
| RasterFill.DrawPolygons | src/graphics/canvas/mod.rs:203-316 | the row-triple loop plots every triangle's pixels |
| RasterFill.RenderTriangle | src/graphics/canvas/mod.rs:215-315 | culls the triangle or fills it in its normal's colour |
| Turtles.ZeroStepsStayPut | src/graphics/utils.rs:16-19 | zero steps move nowhere, whatever the heading |
| Turtles.SmallTurnAdds | src/drawer/turtle.rs:38-40 | a turn that keeps the heading inside [0, 360) is plain addition |
| Turtles.FullTurnReturns | src/drawer/turtle.rs:38-40 | a full turn from heading 0 comes back to heading 0 |
| Turtles.Turtle.constructor | src/drawer/turtle.rs:15-24 | a new turtle stands at (x, y), heading 0, pen up, with the given colour and canvas |
| Turtles.Turtle.Forward | src/drawer/turtle.rs:26-36 | `forward` moves by the polar offset of the heading and draws the segment on z = 0 exactly when the pen is down |
| Turtles.Turtle.TurnRt | src/drawer/turtle.rs:38-40 | `turn_rt` adds the angle modulo 360 and changes nothing else |
| Turtles.Turtle.MoveTo | src/drawer/turtle.rs:42-49 | `move_to` jumps to (x, y) and draws the segment exactly when the pen is down |
| Turtles.Turtle.GetCanvas | src/drawer/turtle.rs:54-56 | `get_canvas` hands back the canvas the turtle drew on |
| Turtles.GfxTurtle.constructor | src/canvas/turtle.rs:18-26 | a new turtle stands at (x, y), heading 0, pen up, on the given canvas |
| Turtles.GfxTurtle.Forward | src/canvas/turtle.rs:28-37 | `forward` moves by the polar offset and draws the segment exactly when the pen is down |
| Turtles.GfxTurtle.TurnRt | src/canvas/turtle.rs:39-41 | `turn_rt` adds the angle modulo 360 and changes nothing else |
| Turtles.GfxTurtle.SetColor | src/canvas/turtle.rs:43-45 | `set_color` sets the canvas colour and draws nothing |
| Turtles.GfxTurtle.MoveTo | src/canvas/turtle.rs:51-57 | `move_to` jumps to (x, y) and draws the segment exactly when the pen is down |
| Turtles.GfxTurtle.GetPpmImg | src/canvas/turtle.rs:62-64 | `get_ppm_img` hands back the canvas |
| MdlAst.RunEnd | src/mdl/ast.rs:183-189 | a run of one character class ends at the first character outside it |
| MdlAst.SkipSpace | src/mdl/ast.rs:183-189 | `multispace0` skips exactly the leading blanks |
| MdlAst.Tag | src/mdl/ast.rs:38 | `tag(t)` succeeds exactly when the input starts with t, and consumes t (also line 213) |
| MdlAst.Double | src/mdl/ast.rs:192-194 | `double` consumes what the number lexer reads, at least one character |
| MdlAst.Axis | src/mdl/ast.rs:250 | `one_of("xyz")` reads one of x, y, z and fails on anything else |
| MdlAst.SymbolTail | src/mdl/ast.rs:199-201 | the tail of a symbol is the longest run of letters, digits and underscores |
| MdlAst.SymbolToken | src/mdl/ast.rs:199-201 | `symbol` succeeds exactly on a letter, reads the longest name from it, and stops before any further name character |
| MdlAst.OptSymbol | src/mdl/ast.rs:203-206 | `opt_symbol` always succeeds, and gives None, consuming nothing, exactly when no name starts after the blanks |
| MdlAst.DigitValue | src/mdl/ast.rs:208-210 | a digit's value is below 10 |
| MdlAst.DigitsValue | src/mdl/ast.rs:208-210 | no digits have value 0 |
| MdlAst.Uint | src/mdl/ast.rs:208-210 | `uint` reads a nonempty run of digits whose value fits in u32, and fails otherwise |
| MdlAst.TripleFloat | src/mdl/ast.rs:191-196 | `triple_float` reads three blank-separated numbers or fails |
| MdlAst.Keyword | src/mdl/ast.rs:183-189 | `lws(tag(t))` succeeds only where t starts after the blanks |
| MdlAst.ParsePush | src/mdl/ast.rs:212-215 | `push` reads as Push |
| MdlAst.ParsePop | src/mdl/ast.rs:217-220 | `pop` reads as Pop |
| MdlAst.ParseMove | src/mdl/ast.rs:222-233 | `move` reads as a Move |
| MdlAst.ParseScale | src/mdl/ast.rs:235-246 | `scale` reads as a Scale |
| MdlAst.ParseRotate | src/mdl/ast.rs:248-261 | `rotate` reads as a Rotate about x, y or z |
| MdlAst.ParseTrCmd | src/mdl/ast.rs:263-266 | move, rotate, scale, tried in that order, give a transform command |
| MdlAst.ParseSphere | src/mdl/ast.rs:268-283 | `sphere` reads as a Sphere |
| MdlAst.ParseTorus | src/mdl/ast.rs:285-302 | `torus` reads as a Torus |
| MdlAst.ParseBox | src/mdl/ast.rs:304-321 | `box` reads as a Box |
| MdlAst.ParseLineShape | src/mdl/ast.rs:323-340 | `line` reads as a Line |
| MdlAst.ParseMesh | src/mdl/ast.rs:342-355 | `mesh` reads as a Mesh |
| MdlAst.ParseShapeCmd | src/mdl/ast.rs:357-366 | the five shapes, tried in order, give a shape command |
| MdlAst.ParseBasename | src/mdl/ast.rs:368-372 | `basename` reads as a Basename |
| MdlAst.ParseSetKnob | src/mdl/ast.rs:374-385 | `set` reads as a SetKnob |
| MdlAst.ParseSaveKnobs | src/mdl/ast.rs:387-391 | `save_knobs` reads as a SaveKnobList |
| MdlAst.ParseTween | src/mdl/ast.rs:393-408 | `tween` reads as a Tween |
| MdlAst.ParseNumFrames | src/mdl/ast.rs:410-413 | `frames` reads as Frames with a u32 count |
| MdlAst.ParseVary | src/mdl/ast.rs:415-428 | a vary has no keyword: it starts with the knob's name, which it keeps |
| MdlAst.ParseSetAllKnobs | src/mdl/ast.rs:430-433 | `setknobs` reads as SetAllKnobs |
| MdlAst.ParseAnimateCmd | src/mdl/ast.rs:435-446 | the seven animation commands, tried in order, give an animation command |
| MdlAst.ParseLight | src/mdl/ast.rs:448-458 | `light` reads as a Light |
| MdlAst.ParseAmbient | src/mdl/ast.rs:460-463 | `ambient` reads as an Ambient |
| MdlAst.OptDouble | src/mdl/ast.rs:465-508 | an optional number always succeeds and consumes nothing when absent |
| MdlAst.ObjConstOf | src/mdl/ast.rs:465-508 | the nine coefficients are the red, green and blue triples in ambient, diffuse, specular order |
| MdlAst.ParseConstants | src/mdl/ast.rs:465-508 | `constants` reads as Constants |
| MdlAst.ShadingKeyword | src/mdl/ast.rs:511-517 | each shading keyword starts with a letter |
| MdlAst.ModeTag | src/mdl/ast.rs:511-517 | a shading keyword gives its mode |
| MdlAst.ParseShading | src/mdl/ast.rs:510-519 | `shading` modes read as Shading |
| MdlAst.ParseLightingCmd | src/mdl/ast.rs:521-524 | the four lighting commands, tried in order, give a lighting command |
| MdlAst.ParseSaveCoord | src/mdl/ast.rs:526-529 | `save_coord_system` reads as SaveCoord |
| MdlAst.ParseCamera | src/mdl/ast.rs:531-534 | `camera`, with no leading blanks, reads as a Camera |
| MdlAst.ParseSaveFile | src/mdl/ast.rs:536-539 | `save` reads as Save with a file name that is a symbol, so it holds no dot |
| MdlAst.ParseGenRayfiles | src/mdl/ast.rs:541-544 | `generate_rayfiles` reads as GenerateRayfiles |
| MdlAst.ParseFocal | src/mdl/ast.rs:546-549 | `focal` reads as Focal |
| MdlAst.ParseDisplay | src/mdl/ast.rs:551-554 | `display` reads as Display |
| MdlAst.ParseMiscCmd | src/mdl/ast.rs:556-566 | the six other commands, tried in order, give a misc command |
| MdlAst.ParseCmd | src/mdl/ast.rs:19-30 | any command starts with a word after the blanks |
| MdlAst.ParseComment | src/mdl/ast.rs:37-39 | a comment is `//` and one or more characters up to the end of the line |
| MdlAst.CommandEnd | src/mdl/ast.rs:33-35 | where the optional command stops; where none parses, nothing is consumed |
| MdlAst.ParseLine | src/mdl/ast.rs:33-35 | a line is an optional command followed by a comment; None exactly when no command parses |
| MdlAst.TailTo | src/mdl/ast.rs:199-201 | the symbol tail reaches exactly the end of the name run |
| MdlAst.SymbolReadsName | src/mdl/ast.rs:199-201 | a name followed by a non-name character reads as exactly that name |
| MdlAst.CommandNeedsWord | src/mdl/ast.rs:19-30 | where no word starts, no command parses |
| MdlAst.CommentOnlyLine | src/mdl/ast.rs:33-39 | a line that is only a comment reads as None |
| MdlAst.NoSlashesNoComment | src/mdl/ast.rs:37-39 | without `//` there is no comment |
| MdlAst.LineNeedsComment | src/mdl/ast.rs:33-35 | a line with no `//` anywhere fails to parse |
| MdlAst.ShadingRoundTrip | src/mdl/ast.rs:510-519 | each mode's keyword reads back as that mode |
| MdlAst.RunTo | src/mdl/ast.rs:183-189 | a run stops exactly at the first character outside the class |
| MdlAst.SkipOne | src/mdl/ast.rs:188 | one blank before a non-blank is skipped alone |
| MdlAst.UintAt | src/mdl/ast.rs:208-210 | a digit run that fits in u32 reads as its value |
| MdlAst.KeywordAt | src/mdl/ast.rs:183-189 | a keyword present after the blanks is read |
| MdlAst.KeywordDiffers | src/mdl/ast.rs:183-189 | a keyword that differs in one character fails |
| MdlAst.DoubleAt | src/mdl/ast.rs:192-194 | a number the lexer reads is read |
| MdlAst.NumberAfterBlank | src/mdl/ast.rs:192-194 | a number after one blank is read |
| MdlAst.TripleAfterBlanks | src/mdl/ast.rs:191-196 | three numbers, each after a blank, read as the triple |
| MdlAst.ScaleExampleValues | src/mdl/ast.rs:573-581 | the test's three numbers read as (0.2, 3.2, 4.2) |
| MdlAst.ScaleExampleKnob | src/mdl/ast.rs:573-581 | the test's knob reads as kooo |
| MdlAst.ScaleExample | src/mdl/ast.rs:572-582 | "scale .2 3.2 4.2 kooo" reads as Scale((0.2, 3.2, 4.2), kooo) |
| MdlAst.SetKnobsName | src/mdl/ast.rs:374-385 | after `set`, "setknobs 2" has the name knobs |
| MdlAst.SetKnobsParts | src/mdl/ast.rs:374-385 | "setknobs 2" reads as set knobs 2 |
| MdlAst.SetKnobsReadsAsSet | src/mdl/ast.rs:435-446 | since `set` is tried before `setknobs`, "setknobs 2" is the animation command SetKnob(knobs, 2) |
| MdlAst.VaryExampleFrames | src/mdl/ast.rs:415-428 | the frames of "spin 0 10 0 1" read as 0 and 10 |
| MdlAst.VaryExampleName | src/mdl/ast.rs:415-428 | its knob reads as spin |
| MdlAst.VaryExampleValues | src/mdl/ast.rs:415-428 | its values read as 0 and 1 |
| MdlAst.VaryExampleParts | src/mdl/ast.rs:415-428 | "spin 0 10 0 1" reads as Vary(spin, 0, 10, 0, 1) |
| MdlAst.VaryExample | src/mdl/ast.rs:435-446 | "spin 0 10 0 1", with no keyword, is an animation command |
| MdlAst.BoxExampleCorner | src/mdl/ast.rs:304-321 | the corner of "box 1 2 3 4 5 6" reads as (1, 2, 3) |
| MdlAst.BoxExampleDims | src/mdl/ast.rs:304-321 | its sizes read as (4, 5, 6) |
| MdlAst.BoxExample | src/mdl/ast.rs:304-321 | "box 1 2 3 4 5 6" reads as a box with no constants or coordinate system (also lines 357-366) |
| MdlParser.KindOf | src/mdl/parser.rs:73 | each stored value has exactly one kind, the one its variant names |
| MdlParser.KindsOf | src/mdl/parser.rs:28-30 | the kind table has the same symbols, each with its value's kind |
| MdlParser.Check | src/mdl/parser.rs:30-50 | `check` passes exactly for no symbol or a declared one of the requested kind; otherwise UndefinedSymbol, or a mismatch naming the declared kind as expected |
| MdlParser.FindAsWritten | src/mdl/parser.rs:69-89 | `find` as written succeeds in the same cases, but its mismatch names the requested kind as expected |
| MdlParser.Find | src/mdl/parser.rs:69-89 | `find` gives Ok(None) for no symbol, the stored value when the kinds agree, UndefinedSymbol for an undeclared symbol, and the mismatch the way the error message reads it |
| MdlParser.FindAgreesWithCheck | src/mdl/parser.rs:30-50 | the corrected `find` fails exactly when `check` fails on the table's kinds, with the same error (also lines 69-89) |
| MdlParser.FindAsWrittenSwapsKinds | src/mdl/parser.rs:76-80 | on every kind mismatch `find` as written reports expected and found the other way round from `check` |
| MdlParser.FindProps | src/mdl/parser.rs:91-99 | `find_props` fails exactly when `find` with kind Const fails, with its error, and otherwise gives the stored constants as material properties |
| MdlParser.Lookup | src/mdl/exec.rs:130 | a lookup in a one-kind table gives Ok(None), the value, or UndefinedSymbol |
| MdlParser.LookupIsFindOfOneKind | src/mdl/parser.rs:69-89 | on a table holding one kind, `find` with that kind is the plain lookup |
| MdlParser.LineParserOf | src/mdl/ast.rs:33-35 | the line parser is `parse_line` from the line's first character |
| MdlParser.ParseFile | src/mdl/parser.rs:117-137 | the loop over the lines yields the numbered commands or the first syntax error |
| MdlParser.ParsedPrefixFails | src/mdl/parser.rs:124-131 | once a line fails, the later lines do not matter |
| MdlParser.ParseLinesOk | src/mdl/parser.rs:117-137 | parsing succeeds exactly when every line parses |
| MdlParser.ParseLinesFirstError | src/mdl/parser.rs:122-131 | a failure names the first failing line, counted from 1, with the input left where its parse stopped |
| MdlParser.ParseLinesKeepsLineCommands | src/mdl/parser.rs:122-133 | each kept command is its line's command, numbered from 1 |
| MdlParser.ParseLinesInLineOrder | src/mdl/parser.rs:122-133 | the commands come in the order of their lines |
| MdlParser.ParseLinesMissesNothing | src/mdl/parser.rs:122-133 | every line that holds a command contributes it |
| MdlExec.AxisRotation | src/mdl/exec.rs:32-42 | a rotation matrix exists exactly for the axes x, y and z, and it is the rotation about that axis; any other axis is the unreachable branch (also lines 182-195) |
| MdlExec.StaticMatrix | src/mdl/exec.rs:27-43 | the knob-free transform is a 4x4 matrix whenever the rotation axis is valid, and exists exactly then (also lines 167, 173, 189-195) |
| MdlExec.KnobMatrix | src/mdl/exec.rs:166 | the knob-scaled transform is a 4x4 matrix whenever the rotation axis is valid, and exists exactly then (also lines 172, 182-188) |
| MdlExec.TransformWithKnob | src/mdl/exec.rs:124-149 | a knob found in the table scales the transform; no knob, or a knob missing from the table, gives the static transform; any other lookup error is returned unchanged |
| MdlExec.AnimatedMatrixNeverFails | src/mdl/exec.rs:124-149 | in the animation pass the knob lookup never fails: a knob in the frame's table scales the transform, otherwise it is the static one (also lines 162-197) |
| MdlExec.KnobOneIsStatic | src/mdl/exec.rs:163-196 | a knob whose value is 1 gives exactly the knob-free transform |
| MdlExec.CommandMatrix | src/mdl/exec.rs:27-43 | the transform of a command is 4x4, exists exactly for a valid axis, and in the still pass ignores the knob (also lines 162-197) |
| MdlExec.CommandEffect | src/mdl/exec.rs:22-118 | one command keeps every stack entry 4x4 and draws at most one call; a command that stops or panics changes nothing; a panic names the command's line (also lines 158-262) |
| MdlExec.TransformEffect | src/mdl/exec.rs:27-43 | a transform draws nothing and keeps every stack entry 4x4; when a knob error stops it or a missing top panics, the stack is unchanged and a panic names the command's line (also lines 162-196) |
| MdlExec.Run | src/mdl/exec.rs:22-121 | running the command list keeps every stack entry 4x4 (also lines 158-265) |
| MdlExec.ExecCommand | src/mdl/exec.rs:25-117 | the drawer's outcome, new stack and new canvas calls are those of the command's effect, and its settings do not change (also lines 160-261) |
| MdlExec.ExecShape | src/mdl/exec.rs:44-84 | a shape command appends exactly the shape's effect to the canvas (also lines 198-238) |
| MdlExec.ExecSolid | src/mdl/exec.rs:44-71 | a solid is drawn as its triangles through the top of the stack with its looked-up material or the default one (also lines 198-225) |
| MdlExec.ExecCommands | src/mdl/exec.rs:22-119 | the loop over the commands leaves the drawer in the state the command-list semantics computes, stopping at the first error or panic |
| MdlExec.ExecNoAnimation | src/mdl/exec.rs:12-122 | the still pass is the command-list semantics in still mode |
| MdlExec.ExecOnceWithAnimation | src/mdl/exec.rs:151-266 | one animation frame is the command-list semantics under that frame's knob table |
| MdlExec.RunConcat | src/mdl/exec.rs:22-121 | running two lists one after the other equals running their concatenation, the second only when the first finishes |
| MdlExec.RunIgnoresEarlierCalls | src/mdl/exec.rs:158-265 | what a run draws and where it stops does not depend on what the canvas already holds |
| MdlExec.NeutralCommandAgrees | src/mdl/exec.rs:22-118 | a command without a knob, other than save and display, has the same effect in the still pass and in the animation pass (also lines 158-262) |
| MdlExec.PassesAgreeWithoutKnobs | src/mdl/exec.rs:12-122 | a script without knobs, saves or displays renders the same in both passes (also lines 151-266) |
| MdlExec.OutputDisabledInAnimation | src/mdl/exec.rs:254-261 | in the animation pass every miscellaneous command, save and display included, draws nothing and leaves the stack alone |
| MdlExec.ShapeMatrixShaped | src/drawer.rs:188-215 | a solid's edge matrix has four columns per point |
| MdlExec.BoxOnFreshStack | src/mdl/exec.rs:58-71 | a box drawn on the fresh stack is the box mesh with the parser's second size as the width, drawn with the default material |
| MdlExec.BoxLineRendersBox | src/mdl/exec.rs:58-71 | the line "box 1 2 3 4 5 6" parses and renders the box at (1,2,3) with width 5, height 4 and depth 6 |
| MdlEngine.VaryEndpoints | src/mdl.rs:79-83 | a vary's value is its start value in its start frame and its end value in its end frame |
| MdlEngine.KnobTables | src/mdl.rs:74-96 | there is one knob table per frame, and the table of frame f is the one the varies active in f build |
| MdlEngine.FrameTableKeys | src/mdl.rs:76-94 | a knob is in a frame's table exactly when some vary on that knob is active in the frame |
| MdlEngine.LastVaryWins | src/mdl.rs:85-92 | when varies on one knob overlap, the last active one sets the knob's value |
| MdlEngine.ComputeKnobTables | src/mdl.rs:74-96 | the nested frame and vary loops build exactly the per-frame knob tables |
| MdlEngine.FramesAreIndependent | src/mdl.rs:114-126 | when every frame finishes, the canvas receives each frame's own drawing as if run alone from the identity, each followed by a clear, and the stack ends at the identity |
| MdlEngine.RenderFrames | src/mdl.rs:114-126 | the frame loop on the drawer is the frame semantics: run the frame, stop on an error, else reset the stack and clear |
| MdlEngine.RunAnimation | src/mdl.rs:63-126 | the animation branch renders the frames under the knob tables of the vary list |
| OldParser.LeadingBlanks | src/parser/old_parser.rs:47 | the count of whitespace characters at the front of a line, ending at the line's end or a non-blank (also line 76) |
| OldParser.BlankEnd | src/parser/old_parser.rs:47 | the end of a line without its trailing whitespace: everything after it is blank and the character before it is not (also line 76) |
| OldParser.Trim | src/parser/old_parser.rs:47 | the trimmed line is the middle of the line with blanks removed at both ends, and it neither starts nor ends with a blank (also line 76) |
| OldParser.TrimmedIsFixed | src/parser/old_parser.rs:47 | a line without blanks at its ends is its own trim (also line 76) |
| OldParser.TrimIdempotent | src/parser/old_parser.rs:47 | trimming twice is trimming once (also line 76) |
| OldParser.Split | src/parser/old_parser.rs:56 | splitting on single spaces gives at least one piece and no piece holds a space (also line 126) |
| OldParser.JoinSplit | src/parser/old_parser.rs:56 | joining the pieces with single spaces gives back the line (also line 126) |
| OldParser.SplitAtSpace | src/parser/old_parser.rs:56 | splitting two texts joined by one space gives the pieces of each, one after the other (also line 126) |
| OldParser.DoubleSpaceGivesEmptyPiece | src/parser/old_parser.rs:56 | two adjacent spaces put an empty piece among the pieces |
| OldParser.ParseAll | src/parser/old_parser.rs:57-58 | the numbers are parsed exactly when every piece parses, one number per piece in order |
| OldParser.DoubleSpaceFails | src/parser/old_parser.rs:55-59 | a number line with two adjacent spaces fails to parse, since the empty piece is not a number |
| OldParser.NumericEffect | src/parser/old_parser.rs:78-123 | a numeric command with the right count of numbers never panics, keeps every stack entry 4x4 and draws at most one call (also lines 145-162) |
| OldParser.CurveEffect | src/parser/old_parser.rs:78-110 | a curve or line command never panics, keeps the stack and draws exactly one call |
| OldParser.ShapeEffect | src/parser/old_parser.rs:145-162 | a solid command never panics, keeps the stack and draws exactly one call |
| OldParser.RotateEffect | src/parser/old_parser.rs:124-135 | a rotation draws nothing, keeps the stack 4x4, and when it panics leaves the stack as it was |
| OldParser.ArgumentEffect | src/parser/old_parser.rs:78-162 | a command with an argument line keeps the stack 4x4, draws at most one call, and a panic changes nothing |
| OldParser.BareEffect | src/parser/old_parser.rs:136-138 | display, clear, push and pop keep the stack 4x4, draw at most one call, and a panic changes nothing (also lines 163-172) |
| OldParser.LineStep | src/parser/old_parser.rs:74-174 | one command advances past its own line and its argument line, keeps the stack 4x4, draws at most one call, and a panic changes nothing |
| OldParser.DWScript.constructor | src/parser/old_parser.rs:62-68 | a new script holds its file name and a fresh drawer with the identity on its stack, white on black |
| OldParser.DWScript.Exec | src/parser/old_parser.rs:70-177 | running the script's lines leaves the drawer in the state the line-by-line semantics computes |
| OldParser.DWScript.ExecLine | src/parser/old_parser.rs:74-174 | one pass of the loop does what one line step says and moves to the next unread line |
| OldParser.DWScript.ExecBare | src/parser/old_parser.rs:136-138 | the argument-free commands change the drawer as their effect says (also lines 163-172) |
| OldParser.DWScript.ExecWithArguments | src/parser/old_parser.rs:78-162 | a command with an argument line changes the drawer as its effect says |
| OldParser.DWScript.ExecNumeric | src/parser/old_parser.rs:78-123 | a numeric command draws or transforms as its effect says (also lines 145-162) |
| OldParser.DWScript.ExecCurve | src/parser/old_parser.rs:78-110 | line, circle, hermite and bezier add their render call to the canvas and keep the stack |
| OldParser.DWScript.ExecShape | src/parser/old_parser.rs:145-162 | box, sphere and torus add their polygon render call to the canvas and keep the stack |
| OldParser.SkippedLinesPassOver | src/parser/old_parser.rs:77 | blank lines and lines starting with a backslash or a hash are passed over |
| OldParser.WrongCountPanics | src/parser/old_parser.rs:81 | a command given the wrong count of numbers panics with both counts and changes nothing (also lines 88, 95, 106, 114, 121, 148, 154, 160) |
| OldParser.LastLineCommandPanics | src/parser/old_parser.rs:43-52 | a command on the last line panics for want of its argument line |
| OldParser.UnknownWordPanics | src/parser/old_parser.rs:173 | any other word panics with the line's index and text |
| OldParser.ClearKeepsStack | src/parser/old_parser.rs:163-165 | clear clears the canvas to the background and keeps the stack |
| OldParser.PushThenPopRestores | src/parser/old_parser.rs:166-172 | a push followed by a pop leaves the stack and the canvas as they were |

## Left out

- Files and processes are not modelled. This covers `PPMImg::save`, `display` and `write_binary`, and `Drawer::save`, `display`, `write_to_buf`, `flush` and `finish` with the `writer` field. It also covers the ImageMagick pipes of `src/processes.rs`, opening the script file in both parsers (the script's lines are a parameter), progress bars and every `eprintln!` warning, including the overlapping-vary warning. A save in the MDL still pass is a parameter `saves` that says whether writing that file succeeds.
- Floating point is modelled as `real`. `sqrt`, `norm`, `mag`, `sin`, `cos` and `powf` are uninterpreted fields of `FloatModel.Libm`, so no claim depends on their values. Rounding of f64 arithmetic is not modelled: parametric time steps are exact, which is why the 1000 and 10000 edge counts of circles and curves are exact-arithmetic counts. NaN and infinities are not modelled.
- The library canvas that `src/drawer.rs` draws on is not part of this model. `Drawers.CanvasLog` records the calls made on it: render edges, render polygons and clear.
- The projections of `src/graphics/matrix/projections.rs`, `render_ndc_edges_n1to1` and `draw_line_degrees` are not modelled; they are float formulas or `todo!()`. The old shading routine of `src/graphics/lights.rs` is an uninterpreted colour source (`LightConfig`) in the rasterizer.
- The unfinished `src/parser/mod.rs`, the demos under `src/bin/` and `src/main.rs` are not part of this model.
- The sphere test's coordinate-level non-degeneracy is not modelled. It depends on f64 `sin(pi)` being nonzero; only the index-level distinctness is proved.
- MdlEngine.VaryValue: requires the start and end frames of a vary to differ. With equal frames the source divides by zero in f64 and inserts NaN or an infinity. `KnobTables`, `ComputeKnobTables` and `RunAnimation` carry the same requirement (`Timed`).
- Transforms.PerspectiveDivide: requires every row's w to be nonzero, since the source's division by zero gives f64 infinities.
- Curves.MapperEnds: requires a non-empty input range, since the source divides by its length.
- Lighting.InvLinear and Lighting.InvSq: require a nonzero distance, for the same reason.
- Img.PPMImg.Bound4Fill: requires both wrap flags off. With wrapping, the fill colour is computed from unwrapped coordinates, so one pixel can be repainted under several colours, and this model's termination measure does not cover that case. It addresses pixels through the corrected `index` (see Findings).
- Img.PPMImg.Plot: requires the flipped row `height - 1 - y` to fit in an i32, where the source's i32 arithmetic would overflow. It addresses pixels through the corrected `index`, which flips by the height; the source flips by the width when `invert_y` is set (see Findings).
- Img.Index, Img.PPMImg.Plot, Img.PPMImg.Bound4Fill, Img.PPMImg.WithBg, Img.PPMImg.New: 32-bit overflow is not modelled. `Index` computes `y * width + x` as an unbounded integer, where the source computes it in i32 (`src/img.rs:147`) and would overflow on images of 2^31 cells or more. The constructors require `width * height` to fit in a u32 rather than modelling the source's u32 product (`src/img.rs:62-63`), and `Valid` keeps that bound. `Plot` and `Bound4Fill` address pixels through `Index`, so they too say nothing about images that large.
- RasterLine.Canvas.ShallowRun: starts the decision variable from the corrected 2 abs(dy) - dx. The source starts from 2 dy - dx with the signed dy, so for a falling shallow line its walk differs from this one (see Findings, `RasterLine.ShallowFallingAsWrittenMissesEnd`).
- RasterLine.Canvas.SteepRun: starts the decision variable from the corrected 2 dx - abs(dy). The source starts from 2 dx - dy with the signed dy, so for a falling steep line its walk differs from this one (see Findings, `RasterLine.SteepFallingAsWrittenOvershoots`).
- RasterLine.Canvas.DrawRounded: inherits the corrected starts of `ShallowRun` and `SteepRun`, so it plots the source's pixels only for lines that do not fall or that are horizontal or vertical.
- RasterLine.Canvas.DrawLine: plots `LinePixels`, the corrected walk, for the same reason as `DrawRounded`.
- RasterFill.DrawEdges: draws every edge with the corrected walk of `DrawLine`.
- RasterFill.RenderEdgeMatrix: draws every edge with the corrected walk of `DrawLine`.
- RasterLine.Canvas.DrawRounded, RasterLine.Canvas.DrawLine, RasterLine.Canvas.ShallowRun, RasterLine.Canvas.SteepRun, RasterFill.DrawEdges, RasterFill.RenderEdgeMatrix: i32 overflow is not modelled. The differences `dy`, `dx` and `dz`, the decision variable and its increments `2 dy` and `2 dx` are unbounded integers here, where the source computes them in i32 (`src/graphics/canvas/mod.rs:50-133`). For line ends whose differences or decision values leave the i32 range the source would overflow, and this model's walk says nothing about it.
- RasterFill.RenderTriangle: culls with the true dot product of the normal and the view vector. The source multiplies the graphics tree's vectors, whose dot adds the third components, so it draws some back faces this model culls (see Findings, `RasterFill.CullAsWrittenDrawsBackFace`).
- RasterFill.TrianglePixels: specifies the cull with the true dot product, as `RenderTriangle` does.
- RasterFill.DrawPolygons: culls each triangle with the true dot product, as `RenderTriangle` does.
- RasterFill.RenderPolygonMatrix: culls each triangle with the true dot product, as `RenderTriangle` does.
- MdlParser.FindProps: looks the name up with the corrected `find`. On a kind mismatch the source's error has `expected` and `found` swapped (see Findings, `MdlParser.FindAsWrittenSwapsKinds`).
- GfxDrawers.Drawer.DrawCircle, GfxDrawers.Drawer.DrawHermite and GfxDrawers.Drawer.DrawBezier: the graphics tree's `add_circle`, `add_hermite3` and `add_bezier3`, from the modules declared in `src/graphics/matrix/mod.rs`, are not part of this model. These members use the library tree's generators in `ParametricShapes`, so they do not capture any difference between the two trees' versions.
- GfxDrawers.Drawer.AddBox, GfxDrawers.Drawer.AddSphere and GfxDrawers.Drawer.AddTorus: the graphics tree's `add_box`, `add_sphere` and `add_torus` are not part of this model. These members use the library tree's `Tessellation`, for the same reason.
- RasterFill.ScanlineColumns: requires the `ceil`ed ends and row to fit in an i32, the range of the source's casts. `RasterFill.ScanlinePixels` itself models the saturating `as i64` and wrapping `as i32` casts for every input.
- RasterFill.ScanlineDepth: carries the same i32 range requirement.
- Turtles.Turtle.Forward and Turtles.GfxTurtle.Forward: the step count is an i32 in the source and is required to be in that range.
- Lighting.TransformLight: modelled on light values with the point transform as a function parameter. It does not capture that the source updates the light's `location` in place.
- MdlAst: nom's `ErrorKind` is dropped from syntax errors; only the failing line is kept. The number token `double` is a `Lexer` parameter.
- MdlTypes: symbol tables are homogeneous maps, one per kind of value. The missing-symbol error is one constructor, `UndefinedSymbol`. The tables raise it, and `src/mdl/result.rs` declares it as `SymbolNotFound`; `transform_with_knob`'s fallback arm catches it.
- MdlAst.SetKnobsReadsAsSet: the alternative order of `parse_animate_cmd` is modelled as written, so "setknobs v" parses as `set`; no reordered parser is modelled.
- OldParser: the number parser `str::parse::<f64>` is a parameter. Line numbers are 0-based indices, as the source's `enumerate` gives them.
- Mid-refactor signature mismatches are modelled from each function's own body. This covers `render_polygon_matrix` called with three arguments, `add_box` called without a material by the old parser, `Animate::Vary(_)` matched as a tuple variant, and `parse_file` returning an `ExecContext`. The `add_edge` test at `src/graphics/matrix/mod.rs:276-289` passes three values per call, which `append_edge`'s assertion of six values would reject.
- `PPMImg`'s `PartialEq` is modelled as the predicate `Img.PPMImg.Same` without a contract of its own.

## Findings

| source | as written | input that shows it | evidently intended | confidence | as-written member | corrected member |
|---|---|---|---|---|---|---|
| src/img.rs:140-147 | `invert_y` flips the row with `width - y - 1` | a 2x1 image (y = 0 gives index 2) or a 1x2 image (index -1): both outside the buffer, so the `try_into().unwrap()` or the buffer access panics | flip with `height - y - 1`, so every index lies in the buffer | not executed | Img.InvertYAsWrittenLeavesBuffer | Img.IndexInBuffer |
| src/graphics/matrix/mod.rs:60 | `get` rejects only `row > nrows` and `col > ncols` | `get(0, 2)` on a 2x2 matrix reads a cell of the next row; `get(2, 0)` reads past the data | reject `row >= nrows` and `col >= ncols` | not executed | Matrices.GetAsWrittenOffByOne | Matrices.Get |
| src/graphics/vector.rs:7-9, 31-33 | `dot` adds the third components: `a0 b0 + a1 b1 + a2 + b2` | the unit z vector with itself gives 2 instead of 1 | multiply them: `a0 b0 + a1 b1 + a2 b2` | not executed | GfxVector.DotAsWrittenCounterexample | Vector.DotSelfNonNegative |
| src/graphics/canvas/mod.rs:220-226 | the back-face cull uses that `dot` | a triangle with normal (0, 0, -0.5) under view (0, 0, 1) is drawn | such a triangle, facing away, is culled | not executed | RasterFill.CullAsWrittenDrawsBackFace | RasterFill.TriangleOneColour |
| src/graphics/canvas/mod.rs:87 | the shallow case starts `d` from the signed `dy` before flipping its sign | the line (0, 0)-(2, -1) never reaches row -1 | start from `|dy|`, so the last pixel is the end point | not executed | RasterLine.ShallowFallingAsWrittenMissesEnd | RasterLine.LineEndpoints |
| src/graphics/canvas/mod.rs:112 | the steep case starts `d` from the signed `dy` | the line (0, 0)-(1, -2) moves a column at every row and leaves the segment | start from `|dy|`, so every pixel stays within half a pixel of the segment | not executed | RasterLine.SteepFallingAsWrittenOvershoots | RasterLine.LineNearSegment |
| src/mdl/parser.rs:76-80 | on a kind mismatch `find` reports `expected` as the requested kind and `found` as the stored one | a table where s is a knob and `find(s, Const)` is called | the same order as `check` (src/mdl/parser.rs:30-50) and as the message "defined as {expected} but here used as {found}" (src/mdl/result.rs:22) | not executed | MdlParser.FindAsWrittenSwapsKinds | MdlParser.FindAgreesWithCheck |
