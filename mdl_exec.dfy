// Running a parsed MDL script against a drawer (src/mdl/exec.rs): the
// still pass that renders and saves one image, and the animation pass that
// scales each transform by its knob's value for the frame. The spec
// functions say what one command and a whole command list do to the
// drawer's stack and to the canvas; the methods drive a Drawers.Drawer and
// are proved against them.
module MdlExec {
  import opened Wrappers
  import opened FloatModel
  import opened Colors
  import opened Vector
  import opened Matrices
  import opened MatrixStacks
  import opened Transforms
  import opened MdlTypes
  import opened MdlAst
  import opened MdlParser
  import Tessellation
  import Lighting
  import Drawers

  /** How a run ends: every command done, an error returned with `?`, or a panic on the given line. */
  datatype Outcome = Done | Stopped(err: EngineError) | Panicked(line: nat)

  /**
   * The pass: the still pass, where `saves` says which file names the image
   * can be written to, or one frame of the animation with its knob values.
   */
  datatype Mode = Still(saves: string -> bool) | Animated(knobs: map<Symbol, real>)

  /** What a run reads but never changes: the math library, the pass, the material table and the drawer's settings. */
  datatype Env = Env(lib: Libm, mode: Mode, props: map<Symbol, Lighting.LightProps>, fg: RGB, lights: seq<Lighting.Light>)

  /** What a run changes: the coordinate stack and what was sent to the canvas. */
  datatype State = State(stack: seq<Mat>, calls: seq<Drawers.CanvasCall>)

  /** The rotation about a named axis; any other axis is unreachable!() in the source, so None. */
  function AxisRotation(lib: Libm, axis: char, degrees: real): (m: Option<Mat>)
    ensures m.Some? <==> axis in "xyz"
    ensures m.Some? ==> Is4x4(m.value)
    ensures axis == 'x' ==> m == Some(RotXMat(lib, degrees))
    ensures axis == 'y' ==> m == Some(RotYMat(lib, degrees))
    ensures axis == 'z' ==> m == Some(RotZMat(lib, degrees))
  {
    if axis == 'x' then Some(RotXMat(lib, degrees))
    else if axis == 'y' then Some(RotYMat(lib, degrees))
    else if axis == 'z' then Some(RotZMat(lib, degrees))
    else None
  }

  /** The transform of the still pass, and of a frame whose knob is unset: the knob is ignored. */
  function StaticMatrix(lib: Libm, t: Transform): (m: Option<Mat>)
    ensures m.Some? <==> !t.Rotate? || t.axis in "xyz"
    ensures m.Some? ==> Is4x4(m.value)
  {
    match t
    case Move(v, _) => Some(MoveMat(v.0, v.1, v.2))
    case Scale(v, _) => Some(ScaleMat(v.0, v.1, v.2))
    case Rotate(axis, degrees, _) => AxisRotation(lib, axis, degrees)
  }

  /** The transform with a knob value k: each offset and scale factor times k, or the angle times k. */
  function KnobMatrix(lib: Libm, t: Transform, k: real): (m: Option<Mat>)
    ensures m.Some? <==> !t.Rotate? || t.axis in "xyz"
    ensures m.Some? ==> Is4x4(m.value)
  {
    match t
    case Move(v, _) => Some(MoveMat(v.0 * k, v.1 * k, v.2 * k))
    case Scale(v, _) => Some(ScaleMat(v.0 * k, v.1 * k, v.2 * k))
    case Rotate(axis, degrees, _) => AxisRotation(lib, axis, k * degrees)
  }

  /**
   * transform_with_knob, given what the knob lookup returned: the knob's
   * value scales the transform when one was found; no knob, or a knob name
   * the table does not hold, leaves the static transform (with a warning);
   * any other lookup error is returned.
   */
  function TransformWithKnob(lib: Libm, found: Result<Option<real>, EngineError>, t: Transform): (m: Result<Option<Mat>, EngineError>)
    ensures found.Ok? && found.value.Some? ==> m == Ok(KnobMatrix(lib, t, found.value.value))
    ensures found == Ok(None) || (found.Err? && found.error.UndefinedSymbol?) ==> m == Ok(StaticMatrix(lib, t))
    ensures found.Err? && !found.error.UndefinedSymbol? ==> m == Err(found.error)
  {
    match found
    case Ok(Some(k)) => Ok(KnobMatrix(lib, t, k))
    case Ok(None) => Ok(StaticMatrix(lib, t))
    case Err(e) => if e.UndefinedSymbol? then Ok(StaticMatrix(lib, t)) else Err(e)
  }

  /** The transform of a frame: transform_with_knob over the frame's knob table. */
  function AnimatedMatrix(lib: Libm, knobs: map<Symbol, real>, t: Transform): Result<Option<Mat>, EngineError> {
    TransformWithKnob(lib, MdlParser.Lookup(knobs, t.knob), t)
  }

  /**
   * Over a knob table the lookup can only miss, so a frame's transform
   * never fails: a knob the frame sets scales it, and any other knob
   * reference leaves it static.
   */
  lemma AnimatedMatrixNeverFails(lib: Libm, knobs: map<Symbol, real>, t: Transform)
    ensures AnimatedMatrix(lib, knobs, t).Ok?
    ensures t.knob.Some? && t.knob.value in knobs ==> AnimatedMatrix(lib, knobs, t).value == KnobMatrix(lib, t, knobs[t.knob.value])
    ensures t.knob.None? || t.knob.value !in knobs ==> AnimatedMatrix(lib, knobs, t).value == StaticMatrix(lib, t)
  {
  }

  /** A knob at 1 is the static transform, for every kind of transform. */
  lemma KnobOneIsStatic(lib: Libm, t: Transform)
    ensures KnobMatrix(lib, t, 1.0) == StaticMatrix(lib, t)
  {
    match t
    case Move(v, _) =>
      assert v.0 * 1.0 == v.0 && v.1 * 1.0 == v.1 && v.2 * 1.0 == v.2;
    case Scale(v, _) =>
      assert v.0 * 1.0 == v.0 && v.1 * 1.0 == v.1 && v.2 * 1.0 == v.2;
    case Rotate(axis, degrees, _) =>
      assert 1.0 * degrees == degrees;
  }

  /** The transform a command applies in the given pass; the still pass ignores knobs. */
  function CommandMatrix(env: Env, t: Transform): (m: Result<Option<Mat>, EngineError>)
    ensures m.Ok? && m.value.Some? ==> Is4x4(m.value.value)
    ensures m.Ok? ==> (m.value.Some? <==> !t.Rotate? || t.axis in "xyz")
    ensures env.mode.Still? ==> m == Ok(StaticMatrix(env.lib, t))
  {
    if env.mode.Still? then Ok(StaticMatrix(env.lib, t)) else AnimatedMatrix(env.lib, env.mode.knobs, t)
  }

  /** What one command does, given the stack: how it ends, the new stack, and what it sends to the canvas. */
  datatype Effect = Effect(outcome: Outcome, stack: seq<Mat>, drawn: seq<Drawers.CanvasCall>)

  /** A solid's triangles, as add_sphere, add_torus and add_box build them; a box takes its width first. */
  function Solid(lib: Libm, sh: Shape): seq<Tessellation.Triangle>
    requires sh.Sphere? || sh.Torus? || sh.Box?
  {
    match sh
    case Sphere(_, center, radius, _) => Tessellation.SphereMesh(lib, Vec3(center.0, center.1, center.2), radius)
    case Torus(_, center, r0, r1, _) => Tessellation.TorusMesh(lib, Vec3(center.0, center.1, center.2), r0, r1)
    case Box(_, corner, height, width, depth, _) =>
      Tessellation.BoxTriangles(Vec3(corner.0, corner.1, corner.2), width, height, depth)
  }

  /**
   * The shape commands. A solid's material is looked up first, since the
   * source evaluates the lookup as an argument of the drawing call; then
   * the shape goes through the top of the stack, which must exist. A line
   * is one edge in the foreground colour; meshes are not implemented.
   */
  function ShapeEffect(env: Env, line: nat, sh: Shape, stack: seq<Mat>): (e: Effect)
    requires Stack4(stack)
  {
    if sh.Mesh? then Effect(Done, stack, [])
    else if sh.Line? then
      if |stack| == 0 then Effect(Panicked(line), stack, [])
      else Effect(Done, stack, [Drawers.RenderEdges(MatMul(Drawers.LineMatrix(sh.point0, sh.point1), Top(stack)), env.fg)])
    else
      var props := MdlParser.Lookup(env.props, sh.constants);
      if props.Err? then Effect(Stopped(props.error), stack, [])
      else if |stack| == 0 then Effect(Panicked(line), stack, [])
      else
        var m := Drawers.ShapeMatrix(Solid(env.lib, sh));
        Effect(Done, stack, [Drawers.RenderPolygons(MatMul(m, Top(stack)), Drawers.PropsOrDefault(props.value), env.lights)])
  }

  /**
   * One command of the script. Commands the earlier pass consumes
   * (basename, frames, vary, the lighting commands) are unreachable!() here,
   * and so is a rotation about an axis other than x, y and z; the
   * unimplemented commands only warn; save writes the image in the still
   * pass and is disabled, like display, in the animation pass. A command
   * that does not finish changes nothing.
   */
  function CommandEffect(env: Env, line: nat, cmd: Command, stack: seq<Mat>): (e: Effect)
    requires Stack4(stack)
    ensures Stack4(e.stack) && |e.drawn| <= 1
    ensures !e.outcome.Done? ==> e.stack == stack && e.drawn == []
    ensures e.outcome.Panicked? ==> e.outcome.line == line
  {
    match cmd
    case Push =>
      if |stack| == 0 then Effect(Panicked(line), stack, [])
      else Effect(Done, Pushed(stack), [])
    case Pop => Effect(Done, Popped(stack), [])
    case TransformCmd(t) => TransformEffect(env, line, t, stack)
    case ShapeCmd(sh) => ShapeEffect(env, line, sh, stack)
    case AnimateCmd(a) =>
      if a.Basename? || a.Frames? || a.Vary? then Effect(Panicked(line), stack, []) else Effect(Done, stack, [])
    case LightingCmd(_) => Effect(Panicked(line), stack, [])
    case MiscCmd(m) =>
      if m.Save? && env.mode.Still? && !env.mode.saves(m.filename) then Effect(Stopped(Runtime(line, Io)), stack, [])
      else Effect(Done, stack, [])
  }

  /**
   * move, scale and rotate: a knob error stops the run, a missing top
   * panics, and otherwise the top is multiplied by the matrix.
   */
  function TransformEffect(env: Env, line: nat, t: Transform, stack: seq<Mat>): (e: Effect)
    requires Stack4(stack)
    ensures Stack4(e.stack) && e.drawn == []
    ensures !e.outcome.Done? ==> e.stack == stack
    ensures e.outcome.Panicked? ==> e.outcome.line == line
  {
    var m := CommandMatrix(env, t);
    if m.Err? then Effect(Stopped(m.error), stack, [])
    else if m.value.None? || |stack| == 0 then Effect(Panicked(line), stack, [])
    else
      TransformKeepsBelow(stack, m.value.value);
      Effect(Done, TransformedTop(stack, m.value.value), [])
  }

  /** A command list run in order from a state, stopping at the first error or panic. */
  function Run(env: Env, cmds: seq<(nat, Command)>, st: State): (r: (Outcome, State))
    requires Stack4(st.stack)
    ensures Stack4(r.1.stack)
    decreases |cmds|
  {
    if |cmds| == 0 then (Done, st)
    else
      var e := CommandEffect(env, cmds[0].0, cmds[0].1, st.stack);
      var next := State(e.stack, st.calls + e.drawn);
      if e.outcome.Done? then Run(env, cmds[1..], next) else (e.outcome, next)
  }

  /**
   * The loop body both passes share: one command against the drawer.
   */
  method ExecCommand(env: Env, d: Drawers.Drawer, line: nat, cmd: Command) returns (o: Outcome)
    requires d.Valid() && Stack4(d.stack) && env.fg == d.fgColor && env.lights == d.envLights
    modifies d, d.canvas
    ensures d.Valid() && d.Settings() == old(d.Settings())
    ensures var e := CommandEffect(env, line, cmd, old(d.stack));
            o == e.outcome && d.stack == e.stack && d.canvas.calls == old(d.canvas.calls) + e.drawn
  {
    StackOperationsKeepShape(d.stack, IdentMat(4));
    match cmd
    case Push =>
      if |d.stack| == 0 {
        return Panicked(line);
      }
      d.PushMatrix();
      return Done;
    case Pop =>
      d.PopMatrix();
      return Done;
    case TransformCmd(t) =>
      var m := CommandMatrix(env, t);
      if m.Err? {
        return Stopped(m.error);
      }
      if m.value.None? || |d.stack| == 0 {
        return Panicked(line);
      }
      d.TransformBy(m.value.value);
      return Done;
    case ShapeCmd(sh) =>
      o := ExecShape(env, d, line, sh);
    case AnimateCmd(a) =>
      if a.Basename? || a.Frames? || a.Vary? {
        return Panicked(line);
      }
      return Done;
    case LightingCmd(_) =>
      return Panicked(line);
    case MiscCmd(m) =>
      if m.Save? && env.mode.Still? && !env.mode.saves(m.filename) {
        return Stopped(Runtime(line, Io));
      }
      return Done;
  }

  /** The shape commands against the drawer. */
  method ExecShape(env: Env, d: Drawers.Drawer, line: nat, sh: Shape) returns (o: Outcome)
    requires d.Valid() && Stack4(d.stack) && env.fg == d.fgColor && env.lights == d.envLights
    modifies d.canvas
    ensures var e := ShapeEffect(env, line, sh, d.stack);
            o == e.outcome && d.canvas.calls == old(d.canvas.calls) + e.drawn
  {
    if sh.Mesh? {
      return Done;
    }
    if sh.Line? {
      if |d.stack| == 0 {
        return Panicked(line);
      }
      d.DrawLine(sh.point0, sh.point1);
      return Done;
    }
    var props := MdlParser.Lookup(env.props, sh.constants);
    if props.Err? {
      return Stopped(props.error);
    }
    if |d.stack| == 0 {
      return Panicked(line);
    }
    ExecSolid(env, d, sh, props.value);
    return Done;
  }

  /** add_sphere, add_torus or add_box, with the material found. */
  method ExecSolid(env: Env, d: Drawers.Drawer, sh: Shape, props: Option<Lighting.LightProps>)
    requires sh.Sphere? || sh.Torus? || sh.Box?
    requires d.Valid() && d.CanRender() && env.lights == d.envLights
    modifies d.canvas
    ensures d.canvas.calls == old(d.canvas.calls)
      + [Drawers.RenderPolygons(MatMul(Drawers.ShapeMatrix(Solid(env.lib, sh)), Top(d.stack)), Drawers.PropsOrDefault(props), env.lights)]
  {
    match sh
    case Sphere(_, center, radius, _) =>
      d.AddSphere(env.lib, center, radius, props);
    case Torus(_, center, r0, r1, _) =>
      d.AddTorus(env.lib, center, r0, r1, props);
    case Box(_, corner, height, width, depth, _) =>
      d.AddBox(corner, width, height, depth, props);
  }

  /** The loop over the commands both passes run. */
  method ExecCommands(env: Env, cmds: seq<(nat, Command)>, d: Drawers.Drawer) returns (o: Outcome)
    requires d.Valid() && Stack4(d.stack) && env.fg == d.fgColor && env.lights == d.envLights
    modifies d, d.canvas
    ensures d.Valid() && Stack4(d.stack) && d.Settings() == old(d.Settings())
    ensures (o, State(d.stack, d.canvas.calls)) == Run(env, cmds, State(old(d.stack), old(d.canvas.calls)))
  {
    var i := 0;
    while i < |cmds|
      invariant 0 <= i <= |cmds|
      invariant d.Valid() && Stack4(d.stack) && d.Settings() == old(d.Settings())
      invariant Run(env, cmds, State(old(d.stack), old(d.canvas.calls))) == Run(env, cmds[i..], State(d.stack, d.canvas.calls))
    {
      o := ExecCommand(env, d, cmds[i].0, cmds[i].1);
      if !o.Done? {
        return;
      }
      i := i + 1;
    }
    return Done;
  }

  /** exec_no_animation: the still pass. */
  method ExecNoAnimation(lib: Libm, cmds: seq<(nat, Command)>, saves: string -> bool,
                         props: map<Symbol, Lighting.LightProps>, d: Drawers.Drawer) returns (o: Outcome)
    requires d.Valid() && Stack4(d.stack)
    modifies d, d.canvas
    ensures d.Valid() && Stack4(d.stack) && d.Settings() == old(d.Settings())
    ensures (o, State(d.stack, d.canvas.calls))
            == Run(Env(lib, Still(saves), props, d.fgColor, d.envLights), cmds, State(old(d.stack), old(d.canvas.calls)))
  {
    o := ExecCommands(Env(lib, Still(saves), props, d.fgColor, d.envLights), cmds, d);
  }

  /** exec_once_with_animation: one frame, under that frame's knob values. */
  method ExecOnceWithAnimation(lib: Libm, cmds: seq<(nat, Command)>, knobs: map<Symbol, real>,
                               d: Drawers.Drawer, props: map<Symbol, Lighting.LightProps>) returns (o: Outcome)
    requires d.Valid() && Stack4(d.stack)
    modifies d, d.canvas
    ensures d.Valid() && Stack4(d.stack) && d.Settings() == old(d.Settings())
    ensures (o, State(d.stack, d.canvas.calls))
            == Run(Env(lib, Animated(knobs), props, d.fgColor, d.envLights), cmds, State(old(d.stack), old(d.canvas.calls)))
  {
    o := ExecCommands(Env(lib, Animated(knobs), props, d.fgColor, d.envLights), cmds, d);
  }

  /** Running a + b is running a, then b from where a left off unless a stopped. */
  lemma {:induction false} RunConcat(env: Env, a: seq<(nat, Command)>, b: seq<(nat, Command)>, st: State)
    requires Stack4(st.stack)
    ensures Run(env, a + b, st)
            == (var ra := Run(env, a, st); if ra.0.Done? then Run(env, b, ra.1) else ra)
    decreases |a|
  {
    if |a| > 0 {
      assert (a + b)[1..] == a[1..] + b;
      assert (a + b)[0] == a[0];
      var e := CommandEffect(env, a[0].0, a[0].1, st.stack);
      if e.outcome.Done? {
        RunConcat(env, a[1..], b, State(e.stack, st.calls + e.drawn));
      }
    } else {
      assert a + b == b;
    }
  }

  /**
   * A run does not depend on what was drawn before it: from the same stack
   * it ends the same way, leaves the same stack, and appends the same calls.
   */
  lemma {:induction false} RunIgnoresEarlierCalls(env: Env, cmds: seq<(nat, Command)>, stack: seq<Mat>, calls: seq<Drawers.CanvasCall>)
    requires Stack4(stack)
    ensures var r := Run(env, cmds, State(stack, calls));
            var r0 := Run(env, cmds, State(stack, []));
            r.0 == r0.0 && r.1.stack == r0.1.stack && r.1.calls == calls + r0.1.calls
    decreases |cmds|
  {
    if |cmds| > 0 {
      var e := CommandEffect(env, cmds[0].0, cmds[0].1, stack);
      assert [] + e.drawn == e.drawn;
      if e.outcome.Done? {
        var tail := cmds[1..];
        RunIgnoresEarlierCalls(env, tail, e.stack, calls + e.drawn);
        RunIgnoresEarlierCalls(env, tail, e.stack, e.drawn);
        ShiftCalls(calls, e.drawn, Run(env, tail, State(e.stack, calls + e.drawn)), Run(env, tail, State(e.stack, e.drawn)),
                   Run(env, tail, State(e.stack, [])));
      }
    }
  }

  /** Two runs that differ only in the calls before them, compared through a third. */
  lemma ShiftCalls(calls: seq<Drawers.CanvasCall>, d: seq<Drawers.CanvasCall>, a: (Outcome, State), b: (Outcome, State), c: (Outcome, State))
    requires a.0 == c.0 && a.1.stack == c.1.stack && a.1.calls == (calls + d) + c.1.calls
    requires b.0 == c.0 && b.1.stack == c.1.stack && b.1.calls == d + c.1.calls
    ensures a.0 == b.0 && a.1.stack == b.1.stack && a.1.calls == calls + b.1.calls
  {
    assert (calls + d) + c.1.calls == calls + (d + c.1.calls);
  }

  /** A command that refers to no knob and saves nothing. */
  predicate PassNeutral(cmd: Command) {
    (cmd.TransformCmd? ==> cmd.transform.knob.None?) && !(cmd.MiscCmd? && cmd.misc.Save?)
  }

  /** Such a command does the same in the still pass and in any frame. */
  lemma NeutralCommandAgrees(lib: Libm, saves: string -> bool, knobs: map<Symbol, real>,
                             props: map<Symbol, Lighting.LightProps>, fg: RGB, lights: seq<Lighting.Light>,
                             line: nat, cmd: Command, stack: seq<Mat>)
    requires Stack4(stack) && PassNeutral(cmd)
    ensures CommandEffect(Env(lib, Still(saves), props, fg, lights), line, cmd, stack)
            == CommandEffect(Env(lib, Animated(knobs), props, fg, lights), line, cmd, stack)
  {
    if cmd.ShapeCmd? {
      assert ShapeEffect(Env(lib, Still(saves), props, fg, lights), line, cmd.shape, stack)
             == ShapeEffect(Env(lib, Animated(knobs), props, fg, lights), line, cmd.shape, stack);
    }
  }

  /**
   * Without knob references and saves, a frame of the animation pass does
   * exactly what the still pass does, whatever the knob values.
   */
  lemma {:induction false} PassesAgreeWithoutKnobs(lib: Libm, saves: string -> bool, knobs: map<Symbol, real>,
                                                   props: map<Symbol, Lighting.LightProps>, fg: RGB, lights: seq<Lighting.Light>,
                                                   cmds: seq<(nat, Command)>, st: State)
    requires Stack4(st.stack)
    requires forall k :: 0 <= k < |cmds| ==> PassNeutral(cmds[k].1)
    ensures Run(Env(lib, Still(saves), props, fg, lights), cmds, st) == Run(Env(lib, Animated(knobs), props, fg, lights), cmds, st)
    decreases |cmds|
  {
    if |cmds| > 0 {
      NeutralCommandAgrees(lib, saves, knobs, props, fg, lights, cmds[0].0, cmds[0].1, st.stack);
      var e := CommandEffect(Env(lib, Still(saves), props, fg, lights), cmds[0].0, cmds[0].1, st.stack);
      if e.outcome.Done? {
        PassesAgreeWithoutKnobs(lib, saves, knobs, props, fg, lights, cmds[1..], State(e.stack, st.calls + e.drawn));
      }
    }
  }

  /** save and display do nothing in a frame of the animation. */
  lemma OutputDisabledInAnimation(env: Env, line: nat, m: Misc, stack: seq<Mat>)
    requires env.mode.Animated? && Stack4(stack)
    ensures CommandEffect(env, line, MiscCmd(m), stack) == Effect(Done, stack, [])
  {
  }

  /** A shape's polygon matrix has four columns. */
  lemma ShapeMatrixShaped(ts: seq<Tessellation.Triangle>)
    ensures Shaped(Drawers.ShapeMatrix(ts)) && Drawers.ShapeMatrix(ts).ncols == 4
  {
  }

  /**
   * A box without a material, on a fresh stack, renders its triangles
   * untransformed in the default material, with the parsed width as the
   * extent along x and the parsed height as the extent down y.
   */
  lemma BoxOnFreshStack(env: Env, line: nat, corner: Point, height: real, width: real, depth: real, coord: Option<Symbol>)
    ensures CommandEffect(env, line, ShapeCmd(Box(None, corner, height, width, depth, coord)), NewStack())
            == Effect(Done, NewStack(), [Drawers.RenderPolygons(
                 Drawers.ShapeMatrix(Tessellation.BoxTriangles(Vec3(corner.0, corner.1, corner.2), width, height, depth)),
                 Lighting.DEFAULT_PROPS, env.lights)])
  {
    var m := Drawers.ShapeMatrix(Tessellation.BoxTriangles(Vec3(corner.0, corner.1, corner.2), width, height, depth));
    ShapeMatrixShaped(Tessellation.BoxTriangles(Vec3(corner.0, corner.1, corner.2), width, height, depth));
    IdentMulRight(m);
    StackOperationsKeepShape([], IdentMat(4));
  }

  /**
   * The line "box 1 2 3 4 5 6" run on a fresh stack renders the box at
   * (1, 2, 3) with width 5 along x, height 4 down y and depth 6: the
   * parser's second size is the width the drawer takes first.
   */
  lemma BoxLineRendersBox(lex: Lexer, s: string, env: Env)
    requires s == "box 1 2 3 4 5 6"
    requires lex(s[4..]) == Some((1.0, 1)) && lex(s[6..]) == Some((2.0, 1)) && lex(s[8..]) == Some((3.0, 1))
    requires lex(s[10..]) == Some((4.0, 1)) && lex(s[12..]) == Some((5.0, 1)) && lex(s[14..]) == Some((6.0, 1))
    ensures ParseBox(lex, s, 0).Parsed?
    ensures CommandEffect(env, 1, ShapeCmd(ParseBox(lex, s, 0).value), NewStack())
            == Effect(Done, NewStack(), [Drawers.RenderPolygons(
                 Drawers.ShapeMatrix(Tessellation.BoxTriangles(Vec3(1.0, 2.0, 3.0), 5.0, 4.0, 6.0)),
                 Lighting.DEFAULT_PROPS, env.lights)])
  {
    BoxExample(lex, s);
    BoxOnFreshStack(env, 1, (1.0, 2.0, 3.0), 4.0, 5.0, 6.0, None);
  }
}
