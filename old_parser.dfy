// The line-oriented drawing script of src/parser/old_parser.rs: each line
// holds one command word; the commands that take arguments read them from
// the following line, as numbers separated by single spaces. Any problem
// panics. The script runs against a Drawers.Drawer.
module OldParser {
  import opened Wrappers
  import opened FloatModel
  import opened Colors
  import opened Vector
  import opened Matrices
  import opened MatrixStacks
  import opened Transforms
  import Tessellation
  import Lighting
  import Drawers

  /** char::is_whitespace: the Unicode White_Space characters. */
  predicate IsWhitespace(c: char) {
    c == ' ' || ('\t' <= c <= '\r') || c == '\U{85}' || c == '\U{A0}' || c == '\U{1680}'
    || ('\U{2000}' <= c <= '\U{200A}') || c == '\U{2028}' || c == '\U{2029}' || c == '\U{202F}'
    || c == '\U{205F}' || c == '\U{3000}'
  }

  /** The number of whitespace characters that start s. */
  function LeadingBlanks(s: string): (n: nat)
    ensures n <= |s|
    ensures forall k :: 0 <= k < n ==> IsWhitespace(s[k])
    ensures n == |s| || !IsWhitespace(s[n])
    decreases |s|
  {
    if |s| > 0 && IsWhitespace(s[0]) then 1 + LeadingBlanks(s[1..]) else 0
  }

  /** Where s ends once the whitespace that ends it is dropped, not going below lo. */
  function BlankEnd(s: string, lo: nat): (m: nat)
    requires lo <= |s|
    ensures lo <= m <= |s|
    ensures forall k :: m <= k < |s| ==> IsWhitespace(s[k])
    ensures m == lo || !IsWhitespace(s[m - 1])
    decreases |s|
  {
    if |s| > lo && IsWhitespace(s[|s| - 1]) then BlankEnd(s[..|s| - 1], lo) else |s|
  }

  /** str::trim: s without the whitespace at either end. */
  function Trim(s: string): (t: string)
    ensures |t| == 0 || (!IsWhitespace(t[0]) && !IsWhitespace(t[|t| - 1]))
    ensures t == s[LeadingBlanks(s)..BlankEnd(s, LeadingBlanks(s))]
    ensures forall k :: 0 <= k < LeadingBlanks(s) ==> IsWhitespace(s[k])
    ensures forall k :: BlankEnd(s, LeadingBlanks(s)) <= k < |s| ==> IsWhitespace(s[k])
  {
    var a := LeadingBlanks(s);
    s[a..BlankEnd(s, a)]
  }

  /** A string without whitespace at its ends is its own trim. */
  lemma TrimmedIsFixed(s: string)
    requires |s| == 0 || (!IsWhitespace(s[0]) && !IsWhitespace(s[|s| - 1]))
    ensures Trim(s) == s
  {
    assert LeadingBlanks(s) == 0;
    assert s[0..|s|] == s;
  }

  /** Trimming twice trims no more than trimming once. */
  lemma TrimIdempotent(s: string)
    ensures Trim(Trim(s)) == Trim(s)
  {
    TrimmedIsFixed(Trim(s));
  }

  /** str::split(' '): the pieces between single spaces; consecutive spaces give empty pieces. */
  function Split(s: string): (parts: seq<string>)
    ensures |parts| >= 1
    ensures forall k :: 0 <= k < |parts| ==> ' ' !in parts[k]
    decreases |s|
  {
    if |s| == 0 then [""]
    else
      var rest := Split(s[1..]);
      if s[0] == ' ' then [""] + rest else [[s[0]] + rest[0]] + rest[1..]
  }

  /** The pieces put back together with single spaces. */
  function Join(parts: seq<string>): string
    requires |parts| >= 1
    decreases |parts|
  {
    if |parts| == 1 then parts[0] else parts[0] + " " + Join(parts[1..])
  }

  /** Splitting loses nothing: the pieces rejoin to the line. */
  lemma {:induction false} JoinSplit(s: string)
    ensures Join(Split(s)) == s
    decreases |s|
  {
    if |s| > 0 {
      var rest := Split(s[1..]);
      JoinSplit(s[1..]);
      if s[0] == ' ' {
        assert ([""] + rest)[1..] == rest;
      } else if |rest| > 1 {
        var parts := [[s[0]] + rest[0]] + rest[1..];
        assert parts[1..] == rest[1..];
      }
      assert [s[0]] + s[1..] == s;
    }
  }

  /** A space splits the line into the pieces of the two sides. */
  lemma {:induction false} SplitAtSpace(p: string, q: string)
    ensures Split(p + " " + q) == Split(p) + Split(q)
    decreases |p|
  {
    var s := p + " " + q;
    if |p| == 0 {
      assert s == " " + q;
      assert s[1..] == q;
    } else {
      assert s[0] == p[0] && s[1..] == p[1..] + " " + q;
      SplitAtSpace(p[1..], q);
      var a := Split(p[1..]);
      var b := Split(q);
      assert Split(s[1..]) == a + b;
      if p[0] == ' ' {
        assert Split(s) == [""] + (a + b);
        assert Split(p) == [""] + a;
        PiecesAssoc([""], a, b);
      } else {
        assert Split(s) == [[p[0]] + (a + b)[0]] + (a + b)[1..];
        assert Split(p) == [[p[0]] + a[0]] + a[1..];
        ExtendFirstPiece(p[0], a, b);
      }
    }
  }

  /** Concatenation of piece lists regroups freely. */
  lemma PiecesAssoc(x: seq<string>, a: seq<string>, b: seq<string>)
    ensures x + (a + b) == (x + a) + b
  {
  }

  /** Prefixing a character to the first piece commutes with appending more pieces. */
  lemma ExtendFirstPiece(c: char, a: seq<string>, b: seq<string>)
    requires |a| >= 1
    ensures [[c] + (a + b)[0]] + (a + b)[1..] == ([[c] + a[0]] + a[1..]) + b
  {
    assert (a + b)[0] == a[0];
    assert (a + b)[1..] == a[1..] + b;
  }

  /** Two spaces in a row give an empty piece between them. */
  lemma DoubleSpaceGivesEmptyPiece(s: string, i: nat)
    requires i + 1 < |s| && s[i] == ' ' && s[i + 1] == ' '
    ensures "" in Split(s)
  {
    var rest := s[i + 2..];
    SplitAtSpace(s[..i], s[i + 1..]);
    assert s == s[..i] + " " + s[i + 1..];
    SplitAtSpace("", rest);
    assert s[i + 1..] == "" + " " + rest;
    assert Split(s[i + 1..])[0] == "";
  }

  /** Every piece parsed; None when one does not parse (the expect panics). */
  function ParseAll(parse: string -> Option<real>, pieces: seq<string>): (r: Option<seq<real>>)
    ensures r.Some? <==> forall k :: 0 <= k < |pieces| ==> parse(pieces[k]).Some?
    ensures r.Some? ==> |r.value| == |pieces| && forall k :: 0 <= k < |pieces| ==> parse(pieces[k]) == Some(r.value[k])
    decreases |pieces|
  {
    if |pieces| == 0 then Some([])
    else
      var init := ParseAll(parse, pieces[..|pieces| - 1]);
      var last := parse(pieces[|pieces| - 1]);
      if init.None? || last.None? then None else Some(init.value + [last.value])
  }

  /** parse_floats: the line split on single spaces, every piece a number. */
  function ParseFloats(parse: string -> Option<real>, line: string): Option<seq<real>> {
    ParseAll(parse, Split(line))
  }

  /** With a number parser that refuses the empty string, a double space makes parse_floats fail. */
  lemma DoubleSpaceFails(parse: string -> Option<real>, line: string, i: nat)
    requires parse("") == None
    requires i + 1 < |line| && line[i] == ' ' && line[i + 1] == ' '
    ensures ParseFloats(parse, line) == None
  {
    DoubleSpaceGivesEmptyPiece(line, i);
  }

  /** Why a script panics. Line numbers count from 0, as the source's enumerate does. */
  datatype Panic =
    | MissingArguments                 // getline_or_error at the end of the file
    | BadNumber                        // a piece that is not a number
    | WrongCount(expected: nat, got: nat)
    | MissingAngle                     // rotate's argument line has no second piece
    | UnknownAxis(line: nat)
    | SaveFailed
    | EmptyStack                       // the drawer reads the top of an empty stack
    | UnknownCommand(line: nat, text: string)

  /** The end of a script run. */
  datatype Halt = Finished | Panicked(why: Panic)

  /** What a run reads: the math library, the number parser, which file names can be saved, and the drawer's settings. */
  datatype Env = Env(lib: Libm, parse: string -> Option<real>, saves: string -> bool,
                     fg: RGB, bg: RGB, lights: seq<Lighting.Light>)

  /** What a run changes: the drawer's stack and the canvas calls. */
  datatype State = State(stack: seq<Mat>, calls: seq<Drawers.CanvasCall>)

  /** What one command does: a panic, or the new stack and what it draws. */
  datatype Effect = Effect(halt: Option<Panic>, stack: seq<Mat>, drawn: seq<Drawers.CanvasCall>)

  /** The commands that read an argument line. */
  predicate TakesArguments(w: string) {
    w in {"line", "circle", "hermite", "bezier", "scale", "move", "rotate", "save", "box", "sphere", "torus"}
  }

  /** How many numbers each numeric command asserts it was given; 0 for the others. */
  function ArgCount(w: string): nat {
    if w == "line" then 6
    else if w == "circle" then 4
    else if w == "hermite" then 8
    else if w == "bezier" then 8
    else if w == "scale" then 3
    else if w == "move" then 3
    else if w == "box" then 6
    else if w == "sphere" then 4
    else if w == "torus" then 5
    else 0
  }

  /** The words that draw a curve or a line through the top. */
  predicate CurveWord(w: string) {
    w == "line" || w == "circle" || w == "hermite" || w == "bezier"
  }

  /** The words that add a solid through the top. */
  predicate ShapeWord(w: string) {
    w == "box" || w == "sphere" || w == "torus"
  }

  /** The numeric commands, once their numbers are counted and a top exists. */
  function NumericEffect(env: Env, w: string, v: seq<real>, stack: seq<Mat>): (e: Effect)
    requires ArgCount(w) > 0 && |v| == ArgCount(w) && |stack| > 0 && Stack4(stack)
    ensures e.halt.None? && Stack4(e.stack) && |e.drawn| <= 1
  {
    if CurveWord(w) then CurveEffect(env, w, v, stack)
    else if w == "scale" then
      TransformKeepsBelow(stack, ScaleMat(v[0], v[1], v[2]));
      Effect(None, TransformedTop(stack, ScaleMat(v[0], v[1], v[2])), [])
    else if w == "move" then
      TransformKeepsBelow(stack, MoveMat(v[0], v[1], v[2]));
      Effect(None, TransformedTop(stack, MoveMat(v[0], v[1], v[2])), [])
    else ShapeEffect(env, w, v, stack)
  }

  /** line, circle, hermite and bezier: one edge render through the top, in the foreground colour. */
  function CurveEffect(env: Env, w: string, v: seq<real>, stack: seq<Mat>): (e: Effect)
    requires CurveWord(w) && |v| == ArgCount(w) && |stack| > 0 && Stack4(stack)
    ensures e.halt.None? && e.stack == stack && |e.drawn| == 1
  {
    var top := Top(stack);
    if w == "line" then
      Effect(None, stack, [Drawers.RenderEdges(MatMul(Drawers.LineMatrix((v[0], v[1], v[2]), (v[3], v[4], v[5])), top), env.fg)])
    else if w == "circle" then
      Effect(None, stack, [Drawers.RenderEdges(MatMul(Drawers.CurveMatrix(Drawers.CircleChain(env.lib, (v[0], v[1], v[2]), v[3])), top), env.fg)])
    else if w == "hermite" then
      Effect(None, stack, [Drawers.RenderEdges(MatMul(Drawers.CurveMatrix(
        Drawers.HermiteChain((v[0], v[1]), (v[2], v[3]), (v[4], v[5]), (v[6], v[7]))), top), env.fg)])
    else
      Effect(None, stack, [Drawers.RenderEdges(MatMul(Drawers.CurveMatrix(
        Drawers.BezierChain((v[0], v[1]), (v[2], v[3]), (v[4], v[5]), (v[6], v[7]))), top), env.fg)])
  }

  /** box, sphere and torus: one polygon render of the solid through the top, under the default lighting. */
  function ShapeEffect(env: Env, w: string, v: seq<real>, stack: seq<Mat>): (e: Effect)
    requires ArgCount(w) > 0 && !CurveWord(w) && w != "scale" && w != "move"
    requires |v| == ArgCount(w) && |stack| > 0 && Stack4(stack)
    ensures e.halt.None? && e.stack == stack && |e.drawn| == 1
  {
    var ts := if w == "box" then Tessellation.BoxTriangles(Vec3(v[0], v[1], v[2]), v[3], v[4], v[5])
              else if w == "sphere" then Tessellation.SphereMesh(env.lib, Vec3(v[0], v[1], v[2]), v[3])
              else Tessellation.TorusMesh(env.lib, Vec3(v[0], v[1], v[2]), v[3], v[4]);
    Effect(None, stack, [Drawers.RenderPolygons(MatMul(Drawers.ShapeMatrix(ts), Top(stack)), Lighting.DEFAULT_PROPS, env.lights)])
  }

  /** rotate: "axis degrees"; the angle must parse and the axis be x, y or z, before the top is read. */
  function RotateEffect(env: Env, arg: string, dnum: nat, stack: seq<Mat>): (e: Effect)
    requires Stack4(stack)
    ensures Stack4(e.stack) && e.drawn == []
    ensures e.halt.Some? ==> e.stack == stack
  {
    var v := Split(arg);
    if |v| < 2 then Effect(Some(MissingAngle), stack, [])
    else
      var deg := env.parse(v[1]);
      if deg.None? then Effect(Some(BadNumber), stack, [])
      else if v[0] != "x" && v[0] != "y" && v[0] != "z" then Effect(Some(UnknownAxis(dnum)), stack, [])
      else if |stack| == 0 then Effect(Some(EmptyStack), stack, [])
      else
        var m := if v[0] == "x" then RotXMat(env.lib, deg.value)
                 else if v[0] == "y" then RotYMat(env.lib, deg.value)
                 else RotZMat(env.lib, deg.value);
        TransformKeepsBelow(stack, m);
        Effect(None, TransformedTop(stack, m), [])
  }

  /**
   * A command with its (trimmed) argument line, numbered dnum: rotate and
   * save read the line themselves; the others parse it as numbers, assert
   * how many there are, then draw or transform through the top.
   */
  function ArgumentEffect(env: Env, w: string, arg: string, dnum: nat, stack: seq<Mat>): (e: Effect)
    requires TakesArguments(w) && Stack4(stack)
    ensures Stack4(e.stack) && |e.drawn| <= 1
    ensures e.halt.Some? ==> e.stack == stack && e.drawn == []
  {
    if w == "rotate" then RotateEffect(env, arg, dnum, stack)
    else if w == "save" then
      if env.saves(arg) then Effect(None, stack, []) else Effect(Some(SaveFailed), stack, [])
    else
      var v := ParseFloats(env.parse, arg);
      if v.None? then Effect(Some(BadNumber), stack, [])
      else if |v.value| != ArgCount(w) then Effect(Some(WrongCount(ArgCount(w), |v.value|)), stack, [])
      else if |stack| == 0 then Effect(Some(EmptyStack), stack, [])
      else NumericEffect(env, w, v.value, stack)
  }

  /** A line to skip: blank after trimming, or starting with a backslash or '#'. */
  predicate Skipped(w: string) {
    |w| == 0 || w[0] == '\\' || w[0] == '#'
  }

  /** The commands without an argument line. */
  function BareEffect(env: Env, w: string, stack: seq<Mat>): (e: Effect)
    requires w in {"display", "clear", "push", "pop"} && Stack4(stack)
    ensures Stack4(e.stack) && |e.drawn| <= 1
    ensures e.halt.Some? ==> e.stack == stack && e.drawn == []
  {
    if w == "display" then Effect(None, stack, [])
    else if w == "clear" then Effect(None, stack, [Drawers.ClearCanvas(env.bg)])
    else if w == "push" then
      if |stack| == 0 then Effect(Some(EmptyStack), stack, [])
      else
        StackOperationsKeepShape(stack, IdentMat(4));
        Effect(None, Pushed(stack), [])
    else
      StackOperationsKeepShape(stack, IdentMat(4));
      Effect(None, Popped(stack), [])
  }

  /** One command of the script read at line i: a panic, or the next line to read, the new stack and what was drawn. */
  datatype Step = Step(halt: Option<Panic>, next: nat, stack: seq<Mat>, drawn: seq<Drawers.CanvasCall>)

  /**
   * The command at line i: skipped lines pass; the bare commands act alone;
   * the others read the next line, trimmed, as their argument; any other
   * word panics with the line's index and text.
   */
  function LineStep(env: Env, lines: seq<string>, i: nat, stack: seq<Mat>): (s: Step)
    requires i < |lines| && Stack4(stack)
    ensures i < s.next <= |lines| && Stack4(s.stack) && |s.drawn| <= 1
    ensures s.halt.Some? ==> s.stack == stack && s.drawn == []
  {
    var w := Trim(lines[i]);
    if Skipped(w) then Step(None, i + 1, stack, [])
    else if w in {"display", "clear", "push", "pop"} then
      var e := BareEffect(env, w, stack);
      Step(e.halt, i + 1, e.stack, e.drawn)
    else if TakesArguments(w) then
      if i + 1 >= |lines| then Step(Some(MissingArguments), i + 1, stack, [])
      else
        var e := ArgumentEffect(env, w, Trim(lines[i + 1]), i + 1, stack);
        Step(e.halt, i + 2, e.stack, e.drawn)
    else Step(Some(UnknownCommand(i, lines[i])), i + 1, stack, [])
  }

  /** DWScript::exec from line i on: what the rest of the script does. */
  function ScriptFrom(env: Env, lines: seq<string>, i: nat, st: State): (r: (Halt, State))
    requires Stack4(st.stack)
    decreases |lines| - i
  {
    if i >= |lines| then (Finished, st)
    else
      var s := LineStep(env, lines, i, st.stack);
      if s.halt.Some? then (Panicked(s.halt.value), st)
      else ScriptFrom(env, lines, s.next, State(s.stack, st.calls + s.drawn))
  }

  /** The script interpreter: a file name and the drawer it draws on. */
  class DWScript {
    const filename: string
    const drawer: Drawers.Drawer

    /** DWScript::new: a fresh drawer on the given canvas. */
    constructor (filename: string, canvas: Drawers.CanvasLog)
      ensures this.filename == filename && drawer.canvas == canvas
      ensures drawer.Valid() && drawer.stack == NewStack() && drawer.fgColor == WHITE && drawer.bgColor == BLACK
    {
      this.filename := filename;
      var d := Drawers.NewDrawer(canvas);
      drawer := d;
    }

    /** The settings a run reads from the drawer. */
    function EnvOf(lib: Libm, parse: string -> Option<real>, saves: string -> bool): Env
      reads drawer
    {
      Env(lib, parse, saves, drawer.fgColor, drawer.bgColor, drawer.envLights)
    }

    /** exec over the lines of the file: the drawer ends as ScriptFrom says. */
    method Exec(lib: Libm, parse: string -> Option<real>, saves: string -> bool, lines: seq<string>) returns (h: Halt)
      requires drawer.Valid() && Stack4(drawer.stack)
      modifies drawer, drawer.canvas
      ensures drawer.Valid() && drawer.Settings() == old(drawer.Settings())
      ensures (h, State(drawer.stack, drawer.canvas.calls))
              == ScriptFrom(old(EnvOf(lib, parse, saves)), lines, 0, State(old(drawer.stack), old(drawer.canvas.calls)))
    {
      var env := EnvOf(lib, parse, saves);
      var i := 0;
      while i < |lines|
        invariant i <= |lines|
        invariant drawer.Valid() && Stack4(drawer.stack) && drawer.Settings() == old(drawer.Settings())
        invariant ScriptFrom(env, lines, 0, State(old(drawer.stack), old(drawer.canvas.calls)))
                  == ScriptFrom(env, lines, i, State(drawer.stack, drawer.canvas.calls))
        decreases |lines| - i
      {
        ghost var st := State(drawer.stack, drawer.canvas.calls);
        ghost var at := i;
        var p;
        p, i := ExecLine(env, lines, i);
        if p.Some? {
          assert ScriptFrom(env, lines, at, st) == (Panicked(p.value), st);
          assert drawer.canvas.calls + [] == drawer.canvas.calls;
          assert State(drawer.stack, drawer.canvas.calls) == st;
          assert env == old(EnvOf(lib, parse, saves));
          return Panicked(p.value);
        }
      }
      return Finished;
    }

    /** One command of the script against the drawer, as LineStep says. */
    method ExecLine(env: Env, lines: seq<string>, num: nat) returns (p: Option<Panic>, next: nat)
      requires num < |lines| && drawer.Valid() && Stack4(drawer.stack)
      requires env.fg == drawer.fgColor && env.bg == drawer.bgColor && env.lights == drawer.envLights
      modifies drawer, drawer.canvas
      ensures drawer.Valid() && drawer.Settings() == old(drawer.Settings())
      ensures var s := LineStep(env, lines, num, old(drawer.stack));
              p == s.halt && next == s.next && drawer.stack == s.stack
              && drawer.canvas.calls == old(drawer.canvas.calls) + s.drawn
    {
      var w := Trim(lines[num]);
      if Skipped(w) {
        assert drawer.canvas.calls + [] == drawer.canvas.calls;
        return None, num + 1;
      }
      if w in {"display", "clear", "push", "pop"} {
        p := ExecBare(env, w);
        next := num + 1;
      } else if TakesArguments(w) {
        if num + 1 >= |lines| {
          assert drawer.canvas.calls + [] == drawer.canvas.calls;
          return Some(MissingArguments), num + 1;
        }
        p := ExecWithArguments(env, w, Trim(lines[num + 1]), num + 1);
        next := num + 2;
      } else {
        assert drawer.canvas.calls + [] == drawer.canvas.calls;
        return Some(UnknownCommand(num, lines[num])), num + 1;
      }
    }

    /** display, clear, push and pop against the drawer. */
    method ExecBare(env: Env, w: string) returns (p: Option<Panic>)
      requires w in {"display", "clear", "push", "pop"}
      requires drawer.Valid() && Stack4(drawer.stack) && env.bg == drawer.bgColor
      modifies drawer, drawer.canvas
      ensures drawer.Valid() && drawer.Settings() == old(drawer.Settings())
      ensures var e := BareEffect(env, w, old(drawer.stack));
              p == e.halt && drawer.stack == e.stack && drawer.canvas.calls == old(drawer.canvas.calls) + e.drawn
    {
      if w == "display" {
        return None;
      } else if w == "clear" {
        drawer.Clear();
        return None;
      } else if w == "push" {
        if |drawer.stack| == 0 {
          return Some(EmptyStack);
        }
        drawer.PushMatrix();
        return None;
      } else {
        drawer.PopMatrix();
        return None;
      }
    }

    /** A command that reads an argument line, against the drawer. */
    method ExecWithArguments(env: Env, w: string, arg: string, dnum: nat) returns (p: Option<Panic>)
      requires TakesArguments(w)
      requires drawer.Valid() && Stack4(drawer.stack) && env.fg == drawer.fgColor && env.lights == drawer.envLights
      modifies drawer, drawer.canvas
      ensures drawer.Valid() && drawer.Settings() == old(drawer.Settings())
      ensures var e := ArgumentEffect(env, w, arg, dnum, old(drawer.stack));
              p == e.halt && drawer.stack == e.stack && drawer.canvas.calls == old(drawer.canvas.calls) + e.drawn
    {
      StackOperationsKeepShape(drawer.stack, IdentMat(4));
      if w == "rotate" {
        var v := Split(arg);
        if |v| < 2 {
          return Some(MissingAngle);
        }
        var deg := env.parse(v[1]);
        if deg.None? {
          return Some(BadNumber);
        }
        var m: Mat;
        if v[0] == "x" {
          m := RotXMat(env.lib, deg.value);
        } else if v[0] == "y" {
          m := RotYMat(env.lib, deg.value);
        } else if v[0] == "z" {
          m := RotZMat(env.lib, deg.value);
        } else {
          return Some(UnknownAxis(dnum));
        }
        if |drawer.stack| == 0 {
          return Some(EmptyStack);
        }
        drawer.TransformBy(m);
        return None;
      }
      if w == "save" {
        if !env.saves(arg) {
          return Some(SaveFailed);
        }
        return None;
      }
      var v := ParseFloats(env.parse, arg);
      if v.None? {
        return Some(BadNumber);
      }
      if |v.value| != ArgCount(w) {
        return Some(WrongCount(ArgCount(w), |v.value|));
      }
      if |drawer.stack| == 0 {
        return Some(EmptyStack);
      }
      ExecNumeric(env, w, v.value);
      return None;
    }

    /** The numeric commands against the drawer, once counted. */
    method ExecNumeric(env: Env, w: string, v: seq<real>)
      requires ArgCount(w) > 0 && |v| == ArgCount(w)
      requires drawer.Valid() && Stack4(drawer.stack) && |drawer.stack| > 0
      requires env.fg == drawer.fgColor && env.lights == drawer.envLights
      modifies drawer, drawer.canvas
      ensures drawer.Valid() && drawer.Settings() == old(drawer.Settings())
      ensures var e := NumericEffect(env, w, v, old(drawer.stack));
              drawer.stack == e.stack && drawer.canvas.calls == old(drawer.canvas.calls) + e.drawn
    {
      if CurveWord(w) {
        ExecCurve(env, w, v);
      } else if w == "scale" {
        StackOperationsKeepShape(drawer.stack, IdentMat(4));
        drawer.TransformBy(ScaleMat(v[0], v[1], v[2]));
      } else if w == "move" {
        StackOperationsKeepShape(drawer.stack, IdentMat(4));
        drawer.TransformBy(MoveMat(v[0], v[1], v[2]));
      } else {
        ExecShape(env, w, v);
      }
    }

    /** line, circle, hermite and bezier against the drawer. */
    method ExecCurve(env: Env, w: string, v: seq<real>)
      requires CurveWord(w) && |v| == ArgCount(w)
      requires drawer.Valid() && Stack4(drawer.stack) && |drawer.stack| > 0 && env.fg == drawer.fgColor
      modifies drawer, drawer.canvas
      ensures drawer.Valid() && drawer.Settings() == old(drawer.Settings())
      ensures var e := CurveEffect(env, w, v, old(drawer.stack));
              drawer.stack == e.stack && drawer.canvas.calls == old(drawer.canvas.calls) + e.drawn
    {
      if w == "line" {
        drawer.DrawLine((v[0], v[1], v[2]), (v[3], v[4], v[5]));
      } else if w == "circle" {
        drawer.DrawCircle(env.lib, (v[0], v[1], v[2]), v[3]);
      } else if w == "hermite" {
        drawer.DrawHermite((v[0], v[1]), (v[2], v[3]), (v[4], v[5]), (v[6], v[7]));
      } else {
        drawer.DrawBezier((v[0], v[1]), (v[2], v[3]), (v[4], v[5]), (v[6], v[7]));
      }
    }

    /** box, sphere and torus against the drawer. */
    method ExecShape(env: Env, w: string, v: seq<real>)
      requires ArgCount(w) > 0 && !CurveWord(w) && w != "scale" && w != "move" && |v| == ArgCount(w)
      requires drawer.Valid() && Stack4(drawer.stack) && |drawer.stack| > 0 && env.lights == drawer.envLights
      modifies drawer, drawer.canvas
      ensures drawer.Valid() && drawer.Settings() == old(drawer.Settings())
      ensures var e := ShapeEffect(env, w, v, old(drawer.stack));
              drawer.stack == e.stack && drawer.canvas.calls == old(drawer.canvas.calls) + e.drawn
    {
      if w == "box" {
        drawer.AddBox((v[0], v[1], v[2]), v[3], v[4], v[5], None);
      } else if w == "sphere" {
        drawer.AddSphere(env.lib, (v[0], v[1], v[2]), v[3], None);
      } else {
        drawer.AddTorus(env.lib, (v[0], v[1], v[2]), v[3], v[4], None);
      }
    }
  }

  /** Blank lines and lines starting with a backslash or '#' are passed over. */
  lemma SkippedLinesPassOver(env: Env, lines: seq<string>, i: nat, st: State)
    requires i < |lines| && Skipped(Trim(lines[i])) && Stack4(st.stack)
    ensures ScriptFrom(env, lines, i, st) == ScriptFrom(env, lines, i + 1, st)
  {
    assert LineStep(env, lines, i, st.stack) == Step(None, i + 1, st.stack, []);
    assert st.calls + [] == st.calls;
  }

  /** A word with a number count is a command with an argument line, and neither rotate nor save. */
  lemma NumericWord(w: string)
    requires ArgCount(w) > 0
    ensures !Skipped(w) && w !in {"display", "clear", "push", "pop"}
    ensures TakesArguments(w) && w != "rotate" && w != "save"
  {
  }

  /** A numeric command given the wrong number of numbers panics, whatever the stack. */
  lemma WrongCountPanics(env: Env, lines: seq<string>, i: nat, st: State, v: seq<real>)
    requires i + 1 < |lines| && Stack4(st.stack)
    requires ArgCount(Trim(lines[i])) > 0 && ParseFloats(env.parse, Trim(lines[i + 1])) == Some(v)
    requires |v| != ArgCount(Trim(lines[i]))
    ensures ScriptFrom(env, lines, i, st) == (Panicked(WrongCount(ArgCount(Trim(lines[i])), |v|)), st)
  {
    var w := Trim(lines[i]);
    NumericWord(w);
    var halt := Some(WrongCount(ArgCount(w), |v|));
    assert ArgumentEffect(env, w, Trim(lines[i + 1]), i + 1, st.stack) == Effect(halt, st.stack, []);
    assert LineStep(env, lines, i, st.stack) == Step(halt, i + 2, st.stack, []);
  }

  /** A numeric command whose last line is the command itself panics for want of an argument line. */
  lemma LastLineCommandPanics(env: Env, lines: seq<string>, st: State)
    requires |lines| > 0 && TakesArguments(Trim(lines[|lines| - 1])) && Stack4(st.stack)
    ensures ScriptFrom(env, lines, |lines| - 1, st) == (Panicked(MissingArguments), st)
  {
    var w := Trim(lines[|lines| - 1]);
    assert !Skipped(w);
    assert w !in {"display", "clear", "push", "pop"};
  }

  /** Any other word panics, naming the line's index and its text. */
  lemma UnknownWordPanics(env: Env, lines: seq<string>, i: nat, st: State)
    requires i < |lines| && Stack4(st.stack)
    requires var w := Trim(lines[i]); !Skipped(w) && w !in {"display", "clear", "push", "pop"} && !TakesArguments(w)
    ensures ScriptFrom(env, lines, i, st) == (Panicked(UnknownCommand(i, lines[i])), st)
  {
  }

  /** clear clears the canvas to the background and leaves the stack as it is. */
  lemma ClearKeepsStack(env: Env, lines: seq<string>, i: nat, st: State)
    requires i < |lines| && Trim(lines[i]) == "clear" && Stack4(st.stack)
    ensures ScriptFrom(env, lines, i, st) == ScriptFrom(env, lines, i + 1, State(st.stack, st.calls + [Drawers.ClearCanvas(env.bg)]))
  {
    assert !Skipped("clear");
  }

  /** A push line directly followed by a pop line leaves the stack and the canvas as they were. */
  lemma PushThenPopRestores(env: Env, lines: seq<string>, i: nat, st: State)
    requires i + 1 < |lines| && Trim(lines[i]) == "push" && Trim(lines[i + 1]) == "pop"
    requires Stack4(st.stack) && |st.stack| > 0
    ensures ScriptFrom(env, lines, i, st) == ScriptFrom(env, lines, i + 2, st)
  {
    assert !Skipped("push") && !Skipped("pop");
    StackOperationsKeepShape(st.stack, IdentMat(4));
    PopUndoesPush(st.stack);
    assert LineStep(env, lines, i, st.stack) == Step(None, i + 1, Pushed(st.stack), []);
    assert LineStep(env, lines, i + 1, Pushed(st.stack)) == Step(None, i + 2, st.stack, []);
    assert st.calls + [] == st.calls;
  }
}
