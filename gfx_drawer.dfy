// The older drawer of the graphics tree (src/graphics/drawer.rs): the same
// coordinate stack in front of a boxed canvas that keeps its own
// foreground and background colours. The canvas is modelled by those two
// colours and the log of the render and clear calls made on it.
module GfxDrawers {
  import opened FloatModel
  import opened Colors
  import opened Vector
  import opened Matrices
  import opened MatrixStacks
  import opened EdgeMatrices
  import opened ParametricShapes
  import Tessellation
  import Drawers

  datatype GfxCall = RenderEdges(edges: Mat) | RenderPolygons(polygons: Mat) | Clear

  /** The boxed canvas: its colours and the calls made on it. */
  class GfxCanvas {
    var fgColor: RGB
    var bgColor: RGB
    var calls: seq<GfxCall>

    constructor (fgColor: RGB, bgColor: RGB)
      ensures this.fgColor == fgColor && this.bgColor == bgColor && calls == []
    {
      this.fgColor := fgColor;
      this.bgColor := bgColor;
      calls := [];
    }
  }

  class Drawer {
    var stack: seq<Mat>
    var canvas: GfxCanvas

    ghost predicate Valid()
      reads this
    {
      StackShaped(stack)
    }

    /** Drawer::new: the identity stack over the given canvas. */
    constructor (canvas: GfxCanvas)
      ensures Valid() && stack == NewStack() && this.canvas == canvas
    {
      stack := NewStack();
      this.canvas := canvas;
    }

    predicate CanRender()
      reads this
    {
      |stack| > 0 && Top(stack).nrows == 4
    }

    /** render_edges_with_stack: the edges times the top. */
    method RenderEdgesWithStack(m: Mat)
      requires Valid() && |stack| > 0 && Shaped(m) && m.ncols == Top(stack).nrows
      modifies canvas
      ensures canvas.calls == old(canvas.calls) + [RenderEdges(MatMul(m, Top(stack)))]
      ensures canvas.fgColor == old(canvas.fgColor) && canvas.bgColor == old(canvas.bgColor)
    {
      canvas.calls := canvas.calls + [RenderEdges(MatMul(m, Top(stack)))];
    }

    /** render_polygons_with_stack: the polygons times the top. */
    method RenderPolygonsWithStack(m: Mat)
      requires Valid() && |stack| > 0 && Shaped(m) && m.ncols == Top(stack).nrows
      modifies canvas
      ensures canvas.calls == old(canvas.calls) + [RenderPolygons(MatMul(m, Top(stack)))]
      ensures canvas.fgColor == old(canvas.fgColor) && canvas.bgColor == old(canvas.bgColor)
    {
      canvas.calls := canvas.calls + [RenderPolygons(MatMul(m, Top(stack)))];
    }

    /** set_fg_color and get_fg_color go to the canvas. */
    method SetFgColor(color: RGB)
      modifies canvas
      ensures canvas.fgColor == color && canvas.bgColor == old(canvas.bgColor) && canvas.calls == old(canvas.calls)
    {
      canvas.fgColor := color;
    }

    function GetFgColor(): RGB
      reads this, canvas
    {
      canvas.fgColor
    }

    method SetBgColor(color: RGB)
      modifies canvas
      ensures canvas.bgColor == color && canvas.fgColor == old(canvas.fgColor) && canvas.calls == old(canvas.calls)
    {
      canvas.bgColor := color;
    }

    function GetBgColor(): RGB
      reads this, canvas
    {
      canvas.bgColor
    }

    /** clear: the canvas is cleared; the stack stays. */
    method ClearCanvas()
      modifies canvas
      ensures canvas.calls == old(canvas.calls) + [Clear]
      ensures canvas.fgColor == old(canvas.fgColor) && canvas.bgColor == old(canvas.bgColor)
    {
      canvas.calls := canvas.calls + [Clear];
    }

    /** reset_stack */
    method ResetStack()
      modifies this
      ensures Valid() && stack == NewStack() && canvas == old(canvas)
    {
      stack := NewStack();
      StackOperationsKeepShape(stack, IdentMat(4));
    }

    /** push_matrix: duplicates the top; an empty stack panics. */
    method PushMatrix()
      requires Valid() && |stack| > 0
      modifies this
      ensures Valid() && stack == Pushed(old(stack)) && canvas == old(canvas)
    {
      StackOperationsKeepShape(stack, IdentMat(4));
      stack := stack + [Top(stack)];
    }

    /** pop_matrix: removes the top without a guard. */
    method PopMatrix()
      requires Valid()
      modifies this
      ensures Valid() && stack == Popped(old(stack)) && canvas == old(canvas)
    {
      StackOperationsKeepShape(stack, IdentMat(4));
      if |stack| > 0 {
        stack := stack[..|stack| - 1];
      }
    }

    /** transform_by(t): the top becomes t * top. */
    method TransformBy(t: Mat)
      requires Valid() && CanTransform(stack, t)
      modifies this
      ensures Valid() && stack == TransformedTop(old(stack), t) && canvas == old(canvas)
    {
      StackOperationsKeepShape(stack, t);
      stack := stack[..|stack| - 1] + [MatMul(t, Top(stack))];
    }

    /** draw_line */
    method DrawLine(p0: (real, real, real), p1: (real, real, real))
      requires Valid() && CanRender()
      modifies canvas
      ensures canvas.calls == old(canvas.calls) + [RenderEdges(MatMul(Drawers.LineMatrix(p0, p1), Top(stack)))]
    {
      var edges := NewEdgeMatrix();
      AppendEdge(edges, [p0.0, p0.1, p0.2, p1.0, p1.1, p1.2]);
      RenderEdgesWithStack(edges.Value());
    }

    /** draw_circle */
    method DrawCircle(lib: Libm, c: (real, real, real), r: real)
      requires Valid() && CanRender()
      modifies canvas
      ensures canvas.calls == old(canvas.calls) + [RenderEdges(MatMul(Drawers.CurveMatrix(Drawers.CircleChain(lib, c, r)), Top(stack)))]
    {
      var edges := NewEdgeMatrix();
      AddCircle(edges, lib, c, r);
      assert edges.Value() == Drawers.CurveMatrix(Drawers.CircleChain(lib, c, r));
      RenderEdgesWithStack(edges.Value());
    }

    /** draw_hermite */
    method DrawHermite(p0: (real, real), p1: (real, real), r0: (real, real), r1: (real, real))
      requires Valid() && CanRender()
      modifies canvas
      ensures canvas.calls == old(canvas.calls) + [RenderEdges(MatMul(Drawers.CurveMatrix(Drawers.HermiteChain(p0, p1, r0, r1)), Top(stack)))]
    {
      var edges := NewEdgeMatrix();
      AddHermite3(edges, p0, p1, r0, r1);
      assert edges.Value() == Drawers.CurveMatrix(Drawers.HermiteChain(p0, p1, r0, r1));
      RenderEdgesWithStack(edges.Value());
    }

    /** draw_bezier */
    method DrawBezier(p0: (real, real), p1: (real, real), p2: (real, real), p3: (real, real))
      requires Valid() && CanRender()
      modifies canvas
      ensures canvas.calls == old(canvas.calls) + [RenderEdges(MatMul(Drawers.CurveMatrix(Drawers.BezierChain(p0, p1, p2, p3)), Top(stack)))]
    {
      var edges := NewEdgeMatrix();
      AddBezier3(edges, p0, p1, p2, p3);
      assert edges.Value() == Drawers.CurveMatrix(Drawers.BezierChain(p0, p1, p2, p3));
      RenderEdgesWithStack(edges.Value());
    }

    /** add_box */
    method AddBox(corner: (real, real, real), dx: real, dy: real, dz: real)
      requires Valid() && CanRender()
      modifies canvas
      ensures canvas.calls == old(canvas.calls)
        + [RenderPolygons(MatMul(Drawers.ShapeMatrix(Tessellation.BoxTriangles(Vec3(corner.0, corner.1, corner.2), dx, dy, dz)), Top(stack)))]
    {
      var m := Tessellation.NewPolygonMatrix();
      Tessellation.AddBox(m, Vec3(corner.0, corner.1, corner.2), dx, dy, dz);
      RenderPolygonsWithStack(m.Value());
    }

    /** add_sphere */
    method AddSphere(lib: Libm, centre: (real, real, real), radius: real)
      requires Valid() && CanRender()
      modifies canvas
      ensures canvas.calls == old(canvas.calls)
        + [RenderPolygons(MatMul(Drawers.ShapeMatrix(Tessellation.SphereMesh(lib, Vec3(centre.0, centre.1, centre.2), radius)), Top(stack)))]
    {
      var m := Tessellation.NewPolygonMatrix();
      Tessellation.AddSphere(m, lib, Vec3(centre.0, centre.1, centre.2), radius);
      RenderPolygonsWithStack(m.Value());
    }

    /** add_torus */
    method AddTorus(lib: Libm, centre: (real, real, real), r0: real, r1: real)
      requires Valid() && CanRender()
      modifies canvas
      ensures canvas.calls == old(canvas.calls)
        + [RenderPolygons(MatMul(Drawers.ShapeMatrix(Tessellation.TorusMesh(lib, Vec3(centre.0, centre.1, centre.2), r0, r1)), Top(stack)))]
    {
      var m := Tessellation.NewPolygonMatrix();
      Tessellation.AddTorus(m, lib, Vec3(centre.0, centre.1, centre.2), r0, r1);
      RenderPolygonsWithStack(m.Value());
    }
  }
}
