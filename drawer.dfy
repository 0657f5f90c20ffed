// The procedural drawer of the library tree (src/drawer.rs): a coordinate
// stack, colours and lights in front of a canvas. The canvas type is a
// parameter of the source's Drawer; here it is the log of the calls the
// drawer makes on it, in order.
module Drawers {
  import opened Wrappers
  import opened FloatModel
  import opened Colors
  import opened Vector
  import opened Matrices
  import opened MatrixStacks
  import opened EdgeMatrices
  import opened Parametrics
  import opened ParametricShapes
  import Tessellation
  import opened Lighting

  /** What the drawer asks of its canvas. */
  datatype CanvasCall =
    | RenderEdges(edges: Mat, color: RGB)
    | RenderPolygons(polygons: Mat, props: LightProps, lights: seq<Light>)
    | ClearCanvas(color: RGB)

  /** A canvas, seen as the calls made on it. */
  class CanvasLog {
    var calls: seq<CanvasCall>

    constructor ()
      ensures calls == []
    {
      calls := [];
    }

    method RenderEdgeMatrix(m: Mat, color: RGB)
      modifies this
      ensures calls == old(calls) + [RenderEdges(m, color)]
    {
      calls := calls + [RenderEdges(m, color)];
    }

    method RenderPolygonMatrix(m: Mat, props: LightProps, lights: seq<Light>)
      modifies this
      ensures calls == old(calls) + [RenderPolygons(m, props, lights)]
    {
      calls := calls + [RenderPolygons(m, props, lights)];
    }

    method Clear(color: RGB)
      modifies this
      ensures calls == old(calls) + [ClearCanvas(color)]
    {
      calls := calls + [ClearCanvas(color)];
    }
  }

  /** The lights a built drawer uses: the supplied ones, or the defaults when none were supplied. */
  function EnvLights(supplied: seq<Light>): (ls: seq<Light>)
    ensures |supplied| > 0 ==> ls == supplied
    ensures |supplied| == 0 ==> ls == DefaultLights()
  {
    if |supplied| == 0 then DefaultLights() else supplied
  }

  /** A built drawer always has at least one light. */
  lemma EnvLightsNeverEmpty(supplied: seq<Light>)
    ensures |EnvLights(supplied)| >= 1
  {
  }

  /** The material a shape is rendered with: its own, or DEFAULT_PROPS. */
  function PropsOrDefault(props: Option<LightProps>): (p: LightProps)
    ensures props.Some? ==> p == props.value
    ensures props.None? ==> p == DEFAULT_PROPS
  {
    if props.Some? then props.value else DEFAULT_PROPS
  }

  /** The polygon matrix a shape method builds before rendering it. */
  function ShapeMatrix(ts: seq<Tessellation.Triangle>): Mat {
    Tessellation.TrianglesAppended(Mat(0, 4, []), ts)
  }

  /** The edge matrix draw_line builds: one edge, two rows. */
  function LineMatrix(p0: (real, real, real), p1: (real, real, real)): (m: Mat)
    ensures Shaped(m) && m.nrows == 2 && m.ncols == 4
    ensures m.data == [p0.0, p0.1, p0.2, 1.0, p1.0, p1.1, p1.2, 1.0]
  {
    EdgeAppended(Mat(0, 4, []), [p0.0, p0.1, p0.2, p1.0, p1.1, p1.2])
  }

  /** The edge matrix a curve method builds from its edges. */
  function CurveMatrix(edges: seq<seq<real>>): (m: Mat)
    requires forall k :: 0 <= k < |edges| ==> |edges[k]| == 6
    ensures Shaped(m) && m.ncols == 4 && m.nrows == 2 * |edges|
  {
    EdgesAppendedShape(Mat(0, 4, []), edges);
    EdgesAppended(Mat(0, 4, []), edges)
  }

  /** The edges of draw_circle: the circle at the centre's depth, step 0.001. */
  function CircleChain(lib: Libm, c: (real, real, real), r: real): (edges: seq<seq<real>>)
    ensures forall k :: 0 <= k < |edges| ==> |edges[k]| == 6
  {
    Chain(SamplePoints(Circle(lib, c, r), 0.001), c.2)
  }

  /** The edges of draw_hermite: z = 0, step 0.0001. */
  function HermiteChain(p0: (real, real), p1: (real, real), r0: (real, real), r1: (real, real)): (edges: seq<seq<real>>)
    ensures forall k :: 0 <= k < |edges| ==> |edges[k]| == 6
  {
    Chain(SamplePoints(Hermite(p0, p1, r0, r1), 0.0001), 0.0)
  }

  /** The edges of draw_bezier: z = 0, step 0.001. */
  function BezierChain(p0: (real, real), p1: (real, real), p2: (real, real), p3: (real, real)): (edges: seq<seq<real>>)
    ensures forall k :: 0 <= k < |edges| ==> |edges[k]| == 6
  {
    Chain(SamplePoints(Bezier(p0, p1, p2, p3), 0.001), 0.0)
  }

  /** DrawerBuilder: white on black, no lights, until told otherwise. */
  class DrawerBuilder {
    var canvas: CanvasLog
    var fgColor: RGB
    var bgColor: RGB
    var lights: seq<Light>

    /** DrawerBuilder::new */
    constructor (canvas: CanvasLog)
      ensures this.canvas == canvas && fgColor == WHITE && bgColor == BLACK && lights == []
    {
      this.canvas := canvas;
      fgColor := WHITE;
      bgColor := BLACK;
      lights := [];
    }

    method WithFgColor(color: RGB)
      modifies this
      ensures fgColor == color && bgColor == old(bgColor) && lights == old(lights) && canvas == old(canvas)
    {
      fgColor := color;
    }

    method WithBgColor(color: RGB)
      modifies this
      ensures bgColor == color && fgColor == old(fgColor) && lights == old(lights) && canvas == old(canvas)
    {
      bgColor := color;
    }

    method WithLights(ls: seq<Light>)
      modifies this
      ensures lights == ls && fgColor == old(fgColor) && bgColor == old(bgColor) && canvas == old(canvas)
    {
      lights := ls;
    }

    method AddLight(light: Light)
      modifies this
      ensures lights == old(lights) + [light] && fgColor == old(fgColor) && bgColor == old(bgColor) && canvas == old(canvas)
    {
      lights := lights + [light];
    }

    /** build: a fresh identity stack, and the default lights when none were supplied. */
    method Build() returns (d: Drawer)
      ensures fresh(d) && d.Valid()
      ensures d.stack == NewStack() && d.canvas == canvas
      ensures d.fgColor == fgColor && d.bgColor == bgColor && d.envLights == EnvLights(lights)
    {
      d := new Drawer(canvas, fgColor, bgColor, EnvLights(lights));
    }
  }

  /** Drawer::new: the builder's defaults, so white on black under the default lights. */
  method NewDrawer(canvas: CanvasLog) returns (d: Drawer)
    ensures fresh(d) && d.Valid() && d.stack == NewStack() && d.canvas == canvas
    ensures d.fgColor == WHITE && d.bgColor == BLACK && d.envLights == DefaultLights()
  {
    var b := new DrawerBuilder(canvas);
    d := b.Build();
  }

  class Drawer {
    var stack: seq<Mat>
    var canvas: CanvasLog
    var fgColor: RGB
    var bgColor: RGB
    var envLights: seq<Light>

    ghost predicate Valid()
      reads this
    {
      StackShaped(stack)
    }

    /** Everything but the stack. */
    function Settings(): (CanvasLog, RGB, RGB, seq<Light>)
      reads this
    {
      (canvas, fgColor, bgColor, envLights)
    }

    constructor (canvas: CanvasLog, fgColor: RGB, bgColor: RGB, envLights: seq<Light>)
      ensures Valid() && stack == NewStack()
      ensures Settings() == (canvas, fgColor, bgColor, envLights)
    {
      stack := NewStack();
      this.canvas := canvas;
      this.fgColor := fgColor;
      this.bgColor := bgColor;
      this.envLights := envLights;
    }

    /** Whether a 4-column point matrix can be multiplied by the current top. */
    predicate CanRender()
      reads this
    {
      |stack| > 0 && Top(stack).nrows == 4
    }

    /** render_edges_with_stack: the edges times the top, in the foreground colour. */
    method RenderEdgesWithStack(m: Mat)
      requires Valid() && |stack| > 0 && Shaped(m) && m.ncols == Top(stack).nrows
      modifies canvas
      ensures canvas.calls == old(canvas.calls) + [RenderEdges(MatMul(m, Top(stack)), fgColor)]
    {
      canvas.RenderEdgeMatrix(MatMul(m, Top(stack)), fgColor);
    }

    /** render_polygons_with_stack: the polygons times the top, with the material or DEFAULT_PROPS, under the drawer's lights. */
    method RenderPolygonsWithStack(m: Mat, props: Option<LightProps>)
      requires Valid() && |stack| > 0 && Shaped(m) && m.ncols == Top(stack).nrows
      modifies canvas
      ensures canvas.calls == old(canvas.calls) + [RenderPolygons(MatMul(m, Top(stack)), PropsOrDefault(props), envLights)]
    {
      canvas.RenderPolygonMatrix(MatMul(m, Top(stack)), PropsOrDefault(props), envLights);
    }

    /** clear: the canvas is cleared to the background colour; the stack stays. */
    method Clear()
      modifies canvas
      ensures canvas.calls == old(canvas.calls) + [ClearCanvas(bgColor)]
    {
      canvas.Clear(bgColor);
    }

    /** reset_stack: back to the identity alone. */
    method ResetStack()
      modifies this
      ensures Valid() && stack == NewStack() && Settings() == old(Settings())
    {
      stack := NewStack();
      StackOperationsKeepShape(stack, IdentMat(4));
    }

    /** push_matrix: duplicates the top; an empty stack panics. */
    method PushMatrix()
      requires Valid() && |stack| > 0
      modifies this
      ensures Valid() && stack == Pushed(old(stack)) && Settings() == old(Settings())
    {
      StackOperationsKeepShape(stack, IdentMat(4));
      stack := stack + [Top(stack)];
    }

    /** pop_matrix: removes the top without a guard. */
    method PopMatrix()
      requires Valid()
      modifies this
      ensures Valid() && stack == Popped(old(stack)) && Settings() == old(Settings())
    {
      StackOperationsKeepShape(stack, IdentMat(4));
      if |stack| > 0 {
        stack := stack[..|stack| - 1];
      }
    }

    /** transform_by(t): the top becomes t * top. */
    method TransformBy(t: Mat)
      requires Valid() && CanTransform(stack, t)
      modifies this
      ensures Valid() && stack == TransformedTop(old(stack), t) && Settings() == old(Settings())
    {
      StackOperationsKeepShape(stack, t);
      stack := stack[..|stack| - 1] + [MatMul(t, Top(stack))];
    }

    /** draw_line: one edge through the stack. */
    method DrawLine(p0: (real, real, real), p1: (real, real, real))
      requires Valid() && CanRender()
      modifies canvas
      ensures canvas.calls == old(canvas.calls) + [RenderEdges(MatMul(LineMatrix(p0, p1), Top(stack)), fgColor)]
    {
      var edges := NewEdgeMatrix();
      AppendEdge(edges, [p0.0, p0.1, p0.2, p1.0, p1.1, p1.2]);
      RenderEdgesWithStack(edges.Value());
    }

    /** draw_circle */
    method DrawCircle(lib: Libm, c: (real, real, real), r: real)
      requires Valid() && CanRender()
      modifies canvas
      ensures canvas.calls == old(canvas.calls)
        + [RenderEdges(MatMul(CurveMatrix(CircleChain(lib, c, r)), Top(stack)), fgColor)]
    {
      var edges := NewEdgeMatrix();
      AddCircle(edges, lib, c, r);
      assert edges.Value() == CurveMatrix(CircleChain(lib, c, r));
      RenderEdgesWithStack(edges.Value());
    }

    /** draw_hermite */
    method DrawHermite(p0: (real, real), p1: (real, real), r0: (real, real), r1: (real, real))
      requires Valid() && CanRender()
      modifies canvas
      ensures canvas.calls == old(canvas.calls)
        + [RenderEdges(MatMul(CurveMatrix(HermiteChain(p0, p1, r0, r1)), Top(stack)), fgColor)]
    {
      var edges := NewEdgeMatrix();
      AddHermite3(edges, p0, p1, r0, r1);
      assert edges.Value() == CurveMatrix(HermiteChain(p0, p1, r0, r1));
      RenderEdgesWithStack(edges.Value());
    }

    /** draw_bezier */
    method DrawBezier(p0: (real, real), p1: (real, real), p2: (real, real), p3: (real, real))
      requires Valid() && CanRender()
      modifies canvas
      ensures canvas.calls == old(canvas.calls)
        + [RenderEdges(MatMul(CurveMatrix(BezierChain(p0, p1, p2, p3)), Top(stack)), fgColor)]
    {
      var edges := NewEdgeMatrix();
      AddBezier3(edges, p0, p1, p2, p3);
      assert edges.Value() == CurveMatrix(BezierChain(p0, p1, p2, p3));
      RenderEdgesWithStack(edges.Value());
    }

    /** add_box: the twelve box triangles through the stack. */
    method AddBox(corner: (real, real, real), dx: real, dy: real, dz: real, props: Option<LightProps>)
      requires Valid() && CanRender()
      modifies canvas
      ensures canvas.calls == old(canvas.calls)
        + [RenderPolygons(MatMul(ShapeMatrix(Tessellation.BoxTriangles(Vec3(corner.0, corner.1, corner.2), dx, dy, dz)), Top(stack)),
                          PropsOrDefault(props), envLights)]
    {
      var m := Tessellation.NewPolygonMatrix();
      Tessellation.AddBox(m, Vec3(corner.0, corner.1, corner.2), dx, dy, dz);
      RenderPolygonsWithStack(m.Value(), props);
    }

    /** add_sphere */
    method AddSphere(lib: Libm, centre: (real, real, real), radius: real, props: Option<LightProps>)
      requires Valid() && CanRender()
      modifies canvas
      ensures canvas.calls == old(canvas.calls)
        + [RenderPolygons(MatMul(ShapeMatrix(Tessellation.SphereMesh(lib, Vec3(centre.0, centre.1, centre.2), radius)), Top(stack)),
                          PropsOrDefault(props), envLights)]
    {
      var m := Tessellation.NewPolygonMatrix();
      Tessellation.AddSphere(m, lib, Vec3(centre.0, centre.1, centre.2), radius);
      RenderPolygonsWithStack(m.Value(), props);
    }

    /** add_torus */
    method AddTorus(lib: Libm, centre: (real, real, real), r0: real, r1: real, props: Option<LightProps>)
      requires Valid() && CanRender()
      modifies canvas
      ensures canvas.calls == old(canvas.calls)
        + [RenderPolygons(MatMul(ShapeMatrix(Tessellation.TorusMesh(lib, Vec3(centre.0, centre.1, centre.2), r0, r1)), Top(stack)),
                          PropsOrDefault(props), envLights)]
    {
      var m := Tessellation.NewPolygonMatrix();
      Tessellation.AddTorus(m, lib, Vec3(centre.0, centre.1, centre.2), r0, r1);
      RenderPolygonsWithStack(m.Value(), props);
    }
  }

  /** On a fresh stack a line is rendered exactly as given. */
  lemma FreshLineUntransformed(p0: (real, real, real), p1: (real, real, real))
    ensures MatMul(LineMatrix(p0, p1), Top(NewStack())) == LineMatrix(p0, p1)
  {
    FreshStackIsIdentity(LineMatrix(p0, p1));
  }
}
