// The animation driver of the MDL interpreter (src/mdl.rs, Interpreter::run):
// one knob table per frame computed from the script's vary commands, then
// each frame run on the drawer, after which the stack is reset and the
// canvas cleared.
module MdlEngine {
  import opened Wrappers
  import opened FloatModel
  import opened Colors
  import opened Matrices
  import opened MatrixStacks
  import opened MdlTypes
  import opened MdlAst
  import opened MdlExec
  import Lighting
  import Drawers

  /** A vary command: the knob goes from startVal at startFrame to endVal at endFrame. */
  datatype VaryInfo = VaryInfo(knob: Symbol, startFrame: nat, endFrame: nat, startVal: real, endVal: real)

  /** A vary sets its knob in frame f when f lies in its closed frame range. */
  predicate Active(v: VaryInfo, f: nat) {
    v.startFrame <= f <= v.endFrame
  }

  /** Varies whose two frames differ; with equal frames the source's value is a division by zero. */
  predicate Timed(varies: seq<(nat, VaryInfo)>) {
    forall j :: 0 <= j < |varies| ==> varies[j].1.startFrame != varies[j].1.endFrame
  }

  /** The knob's value in frame f: linear in the frame, through (startFrame, startVal) and (endFrame, endVal). */
  function VaryValue(v: VaryInfo, f: nat): real
    requires v.startFrame != v.endFrame
  {
    (v.endVal - v.startVal) / (v.endFrame as real - v.startFrame as real) * (f as real - v.startFrame as real) + v.startVal
  }

  /** A vary starts at its start value and ends at its end value. */
  lemma VaryEndpoints(v: VaryInfo)
    requires v.startFrame < v.endFrame
    ensures VaryValue(v, v.startFrame) == v.startVal
    ensures VaryValue(v, v.endFrame) == v.endVal
  {
    var span := v.endFrame as real - v.startFrame as real;
    var slope := (v.endVal - v.startVal) / span;
    DivTimes(v.endVal - v.startVal, span);
    assert VaryValue(v, v.startFrame) == slope * 0.0 + v.startVal;
    assert VaryValue(v, v.endFrame) == slope * span + v.startVal;
  }

  /**
   * The knob table of frame f after the first |varies| vary commands: each
   * active vary inserts its value, so a later one on the same knob
   * overrides an earlier one.
   */
  function FrameTable(varies: seq<(nat, VaryInfo)>, f: nat): map<Symbol, real>
    requires Timed(varies)
    decreases |varies|
  {
    if |varies| == 0 then map[]
    else
      var v := varies[|varies| - 1].1;
      var t := FrameTable(varies[..|varies| - 1], f);
      if Active(v, f) then t[v.knob := VaryValue(v, f)] else t
  }

  /** The tables of frames 0 to frames - 1. */
  function KnobTables(varies: seq<(nat, VaryInfo)>, frames: nat): (tables: seq<map<Symbol, real>>)
    requires Timed(varies)
    ensures |tables| == frames
    ensures forall f :: 0 <= f < frames ==> tables[f] == FrameTable(varies, f)
  {
    seq(frames, f requires 0 <= f < frames => FrameTable(varies, f))
  }

  /** A knob is set in frame f exactly when some vary on it is active in that frame. */
  lemma {:induction false} FrameTableKeys(varies: seq<(nat, VaryInfo)>, f: nat, k: Symbol)
    requires Timed(varies)
    ensures k in FrameTable(varies, f) <==> exists j :: 0 <= j < |varies| && varies[j].1.knob == k && Active(varies[j].1, f)
    decreases |varies|
  {
    if |varies| > 0 {
      var init := varies[..|varies| - 1];
      FrameTableKeys(init, f, k);
      assert forall j :: 0 <= j < |init| ==> init[j] == varies[j];
      if k in FrameTable(varies, f) && k !in FrameTable(init, f) {
        assert varies[|varies| - 1].1.knob == k && Active(varies[|varies| - 1].1, f);
      }
    }
  }

  /** When several varies on a knob are active in a frame, the last of them gives its value. */
  lemma {:induction false} LastVaryWins(varies: seq<(nat, VaryInfo)>, f: nat, j: nat)
    requires Timed(varies) && j < |varies| && Active(varies[j].1, f)
    requires forall i :: j < i < |varies| ==> !(varies[i].1.knob == varies[j].1.knob && Active(varies[i].1, f))
    ensures varies[j].1.knob in FrameTable(varies, f)
    ensures FrameTable(varies, f)[varies[j].1.knob] == VaryValue(varies[j].1, f)
    decreases |varies|
  {
    var init := varies[..|varies| - 1];
    if j < |varies| - 1 {
      assert forall i :: 0 <= i < |init| ==> init[i] == varies[i];
      LastVaryWins(init, f, j);
    }
  }

  /** The knob-table pass: for each frame, each vary in order inserts its value when active. */
  method ComputeKnobTables(varies: seq<(nat, VaryInfo)>, frames: nat) returns (tables: seq<map<Symbol, real>>)
    requires Timed(varies)
    ensures tables == KnobTables(varies, frames)
  {
    tables := [];
    var f := 0;
    while f < frames
      invariant 0 <= f <= frames && |tables| == f
      invariant forall g :: 0 <= g < f ==> tables[g] == FrameTable(varies, g)
    {
      var table: map<Symbol, real> := map[];
      var j := 0;
      while j < |varies|
        invariant 0 <= j <= |varies|
        invariant table == FrameTable(varies[..j], f)
      {
        var v := varies[j].1;
        assert varies[..j + 1][..j] == varies[..j];
        if v.startFrame <= f && f <= v.endFrame {
          table := table[v.knob := VaryValue(v, f)];
        }
        j := j + 1;
      }
      assert varies[..|varies|] == varies;
      tables := tables + [table];
      f := f + 1;
    }
  }

  /**
   * The frame loop from a state: each frame runs the commands under its
   * table; a frame that does not finish ends the loop; otherwise the stack
   * is reset to the identity and the canvas cleared before the next one.
   */
  function Frames(lib: Libm, props: map<Symbol, Lighting.LightProps>, fg: RGB, bg: RGB, lights: seq<Lighting.Light>,
                  cmds: seq<(nat, Command)>, tables: seq<map<Symbol, real>>, st: State): (r: (Outcome, State))
    requires Stack4(st.stack)
    decreases |tables|
  {
    if |tables| == 0 then (Done, st)
    else
      var r := Run(Env(lib, Animated(tables[0]), props, fg, lights), cmds, st);
      if !r.0.Done? then r
      else Frames(lib, props, fg, bg, lights, cmds, tables[1..], State(NewStack(), r.1.calls + [Drawers.ClearCanvas(bg)]))
  }

  /** What one frame draws when it starts from the identity on an empty canvas. */
  function FrameCalls(lib: Libm, props: map<Symbol, Lighting.LightProps>, fg: RGB, lights: seq<Lighting.Light>,
                      cmds: seq<(nat, Command)>, knobs: map<Symbol, real>): seq<Drawers.CanvasCall>
  {
    Run(Env(lib, Animated(knobs), props, fg, lights), cmds, State(NewStack(), [])).1.calls
  }

  /** Every frame's calls, each followed by the clear. */
  function AllFrameCalls(lib: Libm, props: map<Symbol, Lighting.LightProps>, fg: RGB, bg: RGB, lights: seq<Lighting.Light>,
                         cmds: seq<(nat, Command)>, tables: seq<map<Symbol, real>>): seq<Drawers.CanvasCall>
    decreases |tables|
  {
    if |tables| == 0 then []
    else FrameCalls(lib, props, fg, lights, cmds, tables[0]) + [Drawers.ClearCanvas(bg)]
         + AllFrameCalls(lib, props, fg, bg, lights, cmds, tables[1..])
  }

  /**
   * No transform leaks between frames: when the animation starts from the
   * identity and every frame finishes, the canvas receives each frame's
   * calls as that frame draws them alone, one after the other, each
   * followed by a clear, and the stack is the identity again.
   */
  lemma {:induction false} FramesAreIndependent(lib: Libm, props: map<Symbol, Lighting.LightProps>, fg: RGB, bg: RGB,
                                                lights: seq<Lighting.Light>, cmds: seq<(nat, Command)>,
                                                tables: seq<map<Symbol, real>>, calls: seq<Drawers.CanvasCall>)
    requires Frames(lib, props, fg, bg, lights, cmds, tables, State(NewStack(), calls)).0.Done?
    ensures Frames(lib, props, fg, bg, lights, cmds, tables, State(NewStack(), calls))
            == (Done, State(NewStack(), calls + AllFrameCalls(lib, props, fg, bg, lights, cmds, tables)))
    decreases |tables|
  {
    if |tables| > 0 {
      var env := Env(lib, Animated(tables[0]), props, fg, lights);
      RunIgnoresEarlierCalls(env, cmds, NewStack(), calls);
      var r := Run(env, cmds, State(NewStack(), calls));
      var next := r.1.calls + [Drawers.ClearCanvas(bg)];
      FramesAreIndependent(lib, props, fg, bg, lights, cmds, tables[1..], next);
      var own := FrameCalls(lib, props, fg, lights, cmds, tables[0]);
      var rest := AllFrameCalls(lib, props, fg, bg, lights, cmds, tables[1..]);
      assert (calls + own + [Drawers.ClearCanvas(bg)]) + rest == calls + (own + [Drawers.ClearCanvas(bg)] + rest);
    } else {
      assert calls + [] == calls;
    }
  }

  /** The per-frame loop on the drawer: run the frame, then reset the stack and clear the canvas. */
  method RenderFrames(lib: Libm, cmds: seq<(nat, Command)>, tables: seq<map<Symbol, real>>,
                      props: map<Symbol, Lighting.LightProps>, d: Drawers.Drawer) returns (o: Outcome)
    requires d.Valid() && Stack4(d.stack)
    modifies d, d.canvas
    ensures d.Valid() && Stack4(d.stack) && d.Settings() == old(d.Settings())
    ensures (o, State(d.stack, d.canvas.calls))
            == Frames(lib, props, d.fgColor, d.bgColor, d.envLights, cmds, tables, State(old(d.stack), old(d.canvas.calls)))
  {
    var i := 0;
    while i < |tables|
      invariant 0 <= i <= |tables|
      invariant d.Valid() && Stack4(d.stack) && d.Settings() == old(d.Settings())
      invariant Frames(lib, props, d.fgColor, d.bgColor, d.envLights, cmds, tables, State(old(d.stack), old(d.canvas.calls)))
                == Frames(lib, props, d.fgColor, d.bgColor, d.envLights, cmds, tables[i..], State(d.stack, d.canvas.calls))
    {
      o := ExecOnceWithAnimation(lib, cmds, tables[i], d, props);
      if !o.Done? {
        return;
      }
      d.ResetStack();
      d.Clear();
      i := i + 1;
    }
    return Done;
  }

  /** The animation branch of Interpreter::run: the knob tables, then the frames. */
  method RunAnimation(lib: Libm, cmds: seq<(nat, Command)>, frames: nat, varies: seq<(nat, VaryInfo)>,
                      props: map<Symbol, Lighting.LightProps>, d: Drawers.Drawer) returns (o: Outcome)
    requires Timed(varies) && d.Valid() && Stack4(d.stack)
    modifies d, d.canvas
    ensures d.Valid() && d.Settings() == old(d.Settings())
    ensures (o, State(d.stack, d.canvas.calls))
            == Frames(lib, props, d.fgColor, d.bgColor, d.envLights, cmds, KnobTables(varies, frames),
                      State(old(d.stack), old(d.canvas.calls)))
  {
    var tables := ComputeKnobTables(varies, frames);
    o := RenderFrames(lib, cmds, tables, props, d);
  }
}
