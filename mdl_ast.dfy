// The MDL line grammar (src/mdl/ast.rs). The nom combinators become
// functions over a line and a position: a parser returns where it stopped
// and the value it built, or the position where it failed. `alt` keeps the
// first success and otherwise reports the last alternative's failure, `opt`
// never fails, and `preceded(multispace0, p)` (the source's `lws`) is
// `p` started after the run of blanks. The floating-point token `double` is
// an abstract lexer given as a parameter.
module MdlAst {
  import opened Wrappers
  import opened MdlTypes

  type Point = (real, real, real)

  datatype Rgb = Rgb(r: real, g: real, b: real)

  datatype ShadingMode = Wireframe | Flat | Gouraud | Phong | Raytrace

  datatype Transform =
    | Move(values: Point, knob: Option<Symbol>)
    | Scale(values: Point, knob: Option<Symbol>)
    | Rotate(axis: char, degrees: real, knob: Option<Symbol>)

  datatype Shape =
    | Sphere(constants: Option<Symbol>, center: Point, r: real, coord: Option<Symbol>)
    | Torus(constants: Option<Symbol>, center: Point, r0: real, r1: real, coord: Option<Symbol>)
    | Box(constants: Option<Symbol>, corner: Point, height: real, width: real, depth: real, coord: Option<Symbol>)
    | Line(constants: Option<Symbol>, point0: Point, coord0: Option<Symbol>, point1: Point, coord1: Option<Symbol>)
    | Mesh(constants: Option<Symbol>, filename: string, coord: Option<Symbol>)

  datatype Animate =
    | Basename(name: string)
    | SetKnob(knobName: Symbol, value: real)
    | SetAllKnobs(allValue: real)
    | Tween(tweenStart: nat, tweenEnd: nat, knoblist0: Symbol, knoblist1: Symbol)
    | Frames(count: nat)
    | Vary(knob: Symbol, startFrame: nat, endFrame: nat, startVal: real, endVal: real)
    | SaveKnobList(list: Symbol)

  datatype Lighting =
    | Light(color: Rgb, location: Point)
    | Ambient(ambient: Rgb)
    | Constants(constName: Symbol, constValue: ObjConst)
    | Shading(mode: ShadingMode)

  datatype Misc =
    | SaveCoord(coordName: Symbol)
    | Camera(eye: Point, aim: Point)
    | Save(filename: string)
    | GenerateRayfiles
    | Focal(focal: real)
    | Display

  datatype Command =
    | Push
    | Pop
    | TransformCmd(transform: Transform)
    | ShapeCmd(shape: Shape)
    | AnimateCmd(animate: Animate)
    | LightingCmd(lighting: Lighting)
    | MiscCmd(misc: Misc)

  /** A parser's outcome on a line: the position after what it consumed and its value, or where it failed. */
  datatype PResult<T> = Parsed(pos: nat, value: T) | Failed(at: nat)

  /**
   * The number token: given the rest of the line, the value read and how
   * many characters it took, or None.
   */
  type Lexer = string -> Option<(real, nat)>

  /** A parser started at i neither goes back nor past the end of the line. */
  predicate Within<T>(r: PResult<T>, s: string, i: nat) {
    match r
    case Parsed(p, _) => i <= p <= |s|
    case Failed(a) => i <= a <= |s|
  }

  /** The first non-blank character from i on is a letter: every command starts with a keyword or a name. */
  predicate StartsWord(s: string, i: nat)
    requires i <= |s|
  {
    var j := SkipSpace(s, i);
    j < |s| && IsAlpha(s[j])
  }

  // ---------------------------------------------------------------------
  // Character classes and runs

  /** The blanks `multispace0` skips. */
  predicate IsSpace(c: char) { c == ' ' || c == '\t' || c == '\n' || c == '\r' }

  /** An ASCII letter, as `alpha1` accepts. */
  predicate IsAlpha(c: char) { 'a' <= c <= 'z' || 'A' <= c <= 'Z' }

  /** A decimal digit. */
  predicate IsDigit(c: char) { '0' <= c <= '9' }

  predicate IsAlnum(c: char) { IsAlpha(c) || IsDigit(c) }

  /** A line break, which a comment does not contain. */
  predicate IsEol(c: char) { c == '\n' || c == '\r' }

  datatype CharClass = Blank | Letter | LetterOrDigit | Digit | NotEol

  predicate InClass(c: char, k: CharClass) {
    match k
    case Blank => IsSpace(c)
    case Letter => IsAlpha(c)
    case LetterOrDigit => IsAlnum(c)
    case Digit => IsDigit(c)
    case NotEol => !IsEol(c)
  }

  /** The end of the longest run of characters of class k starting at i. */
  function RunEnd(s: string, i: nat, k: CharClass): (j: nat)
    requires i <= |s|
    ensures i <= j <= |s|
    ensures forall n :: i <= n < j ==> InClass(s[n], k)
    ensures j == |s| || !InClass(s[j], k)
    decreases |s| - i
  {
    if i < |s| && InClass(s[i], k) then RunEnd(s, i + 1, k) else i
  }

  /** `multispace0`: the position after the blanks at i. */
  function SkipSpace(s: string, i: nat): (j: nat)
    requires i <= |s|
    ensures i <= j <= |s|
    ensures forall n :: i <= n < j ==> IsSpace(s[n])
    ensures j == |s| || !IsSpace(s[j])
  {
    RunEnd(s, i, Blank)
  }

  // ---------------------------------------------------------------------
  // Primitive parsers

  /** `tag(t)`: the exact text t at i. */
  function Tag(t: string, s: string, i: nat): (r: PResult<()>)
    requires i <= |s|
    ensures Within(r, s, i)
    ensures r.Parsed? ==> r.pos == i + |t| && s[i..r.pos] == t
    ensures r.Failed? ==> r.at == i && !(i + |t| <= |s| && s[i..i + |t|] == t)
  {
    if i + |t| <= |s| && s[i..i + |t|] == t then Parsed(i + |t|, ()) else Failed(i)
  }

  /** `double`: a number token of at least one character, read by the lexer. */
  function Double(lex: Lexer, s: string, i: nat): (r: PResult<real>)
    requires i <= |s|
    ensures Within(r, s, i)
    ensures r.Parsed? ==> i < r.pos && lex(s[i..]) == Some((r.value, r.pos - i))
  {
    match lex(s[i..])
    case Some((v, n)) => if 0 < n <= |s| - i then Parsed(i + n, v) else Failed(i)
    case None => Failed(i)
  }

  /** `one_of("xyz")`: a rotation axis. */
  function Axis(s: string, i: nat): (r: PResult<char>)
    requires i <= |s|
    ensures Within(r, s, i)
    ensures r.Parsed? ==> r.pos == i + 1 && r.value == s[i] && r.value in "xyz"
    ensures r.Failed? ==> i == |s| || s[i] !in "xyz"
  {
    if i < |s| && s[i] in "xyz" then Parsed(i + 1, s[i]) else Failed(i)
  }

  /** `many0(alt((alphanumeric1, tag("_"))))`: where the tail of a symbol ends. */
  function SymbolTail(s: string, i: nat): (j: nat)
    requires i <= |s|
    ensures i <= j <= |s|
    ensures forall n :: i <= n < j ==> IsAlnum(s[n]) || s[n] == '_'
    ensures j == |s| || !(IsAlnum(s[j]) || s[j] == '_')
    decreases |s| - i
  {
    var a := RunEnd(s, i, LetterOrDigit);
    if a > i then SymbolTail(s, a)
    else if i < |s| && s[i] == '_' then SymbolTail(s, i + 1)
    else i
  }

  /**
   * `symbol`: a letter followed by letters, digits and underscores, taken
   * as long as possible. It fails exactly when no letter is at i.
   */
  function SymbolToken(s: string, i: nat): (r: PResult<string>)
    requires i <= |s|
    ensures Within(r, s, i)
    ensures r.Parsed? <==> i < |s| && IsAlpha(s[i])
    ensures r.Parsed? ==> r.value == s[i..r.pos] && IsName(r.value)
    ensures r.Parsed? ==> r.pos == |s| || !(IsAlnum(s[r.pos]) || s[r.pos] == '_')
    ensures r.Failed? ==> r.at == i
  {
    var a := RunEnd(s, i, Letter);
    if a == i then Failed(i)
    else
      var j := SymbolTail(s, a);
      Parsed(j, s[i..j])
  }

  /** What `symbol` accepts: a letter, then letters, digits and underscores. */
  predicate IsName(w: string) {
    |w| >= 1 && IsAlpha(w[0]) && forall n :: 0 < n < |w| ==> IsAlnum(w[n]) || w[n] == '_'
  }

  /** `opt_symbol`: an optional name after blanks; it never fails, and stays put when no name follows. */
  function OptSymbol(s: string, i: nat): (r: PResult<Option<Symbol>>)
    requires i <= |s|
    ensures Within(r, s, i) && r.Parsed?
    ensures r.value.None? <==> !StartsWord(s, i)
    ensures r.value.None? ==> r.pos == i
  {
    var t := SymbolToken(s, SkipSpace(s, i));
    if t.Parsed? then Parsed(t.pos, Some(Symbol(t.value))) else Parsed(i, None)
  }

  /** The value of one character read as a decimal digit. */
  function DigitValue(c: char): (d: nat)
    ensures IsDigit(c) ==> d < 10
  {
    if IsDigit(c) then c as int - '0' as int else 0
  }

  /** The value of a string of decimal digits, most significant first. */
  function DigitsValue(d: string): (v: nat)
    ensures |d| == 0 ==> v == 0
  {
    if |d| == 0 then 0 else DigitsValue(d[..|d| - 1]) * 10 + DigitValue(d[|d| - 1])
  }

  const U32_MAX: nat := 0xFFFF_FFFF

  /**
   * `uint`: one or more digits read as a u32; a value past u32's range is
   * rejected at the start of the digits, as `map_res` does.
   */
  function Uint(s: string, i: nat): (r: PResult<nat>)
    requires i <= |s|
    ensures Within(r, s, i)
    ensures r.Parsed? ==> i < r.pos && (forall n :: i <= n < r.pos ==> IsDigit(s[n]))
    ensures r.Parsed? ==> r.value == DigitsValue(s[i..r.pos]) && r.value <= U32_MAX
    ensures r.Parsed? ==> r.pos == |s| || !IsDigit(s[r.pos])
    ensures (i == |s| || !IsDigit(s[i])) ==> r.Failed?
  {
    var j := RunEnd(s, i, Digit);
    if j == i then Failed(i)
    else
      var v := DigitsValue(s[i..j]);
      if v > U32_MAX then Failed(i) else Parsed(j, v)
  }

  /** `triple_float`: three numbers, each after blanks. */
  function TripleFloat(lex: Lexer, s: string, i: nat): (r: PResult<Point>)
    requires i <= |s|
    ensures Within(r, s, i)
  {
    var x := Double(lex, s, SkipSpace(s, i));
    if x.Failed? then Failed(x.at)
    else
      var y := Double(lex, s, SkipSpace(s, x.pos));
      if y.Failed? then Failed(y.at)
      else
        var z := Double(lex, s, SkipSpace(s, y.pos));
        if z.Failed? then Failed(z.at)
        else Parsed(z.pos, (x.value, y.value, z.value))
  }

  /** `preceded(multispace0, tag(t))`: a keyword after blanks. */
  function Keyword(t: string, s: string, i: nat): (r: PResult<()>)
    requires i <= |s|
    ensures Within(r, s, i)
    ensures r.Parsed? && |t| > 0 ==> SkipSpace(s, i) < |s| && s[SkipSpace(s, i)] == t[0]
  {
    var j := SkipSpace(s, i);
    var r := Tag(t, s, j);
    assert r.Parsed? && |t| > 0 ==> s[j..r.pos][0] == t[0];
    r
  }

  // ---------------------------------------------------------------------
  // Commands

  function ParsePush(s: string, i: nat): (r: PResult<Command>)
    requires i <= |s|
    ensures Within(r, s, i)
    ensures r.Parsed? ==> StartsWord(s, i) && r.value == Push
  {
    var k := Keyword("push", s, i);
    if k.Failed? then Failed(k.at) else Parsed(k.pos, Push)
  }

  function ParsePop(s: string, i: nat): (r: PResult<Command>)
    requires i <= |s|
    ensures Within(r, s, i)
    ensures r.Parsed? ==> StartsWord(s, i) && r.value == Pop
  {
    var k := Keyword("pop", s, i);
    if k.Failed? then Failed(k.at) else Parsed(k.pos, Pop)
  }

  function ParseMove(lex: Lexer, s: string, i: nat): (r: PResult<Transform>)
    requires i <= |s|
    ensures Within(r, s, i)
    ensures r.Parsed? ==> StartsWord(s, i) && r.value.Move?
  {
    var k := Keyword("move", s, i);
    if k.Failed? then Failed(k.at)
    else
      var p := TripleFloat(lex, s, k.pos);
      if p.Failed? then Failed(p.at)
      else
        var n := OptSymbol(s, SkipSpace(s, p.pos));
        Parsed(n.pos, Move(p.value, n.value))
  }

  function ParseScale(lex: Lexer, s: string, i: nat): (r: PResult<Transform>)
    requires i <= |s|
    ensures Within(r, s, i)
    ensures r.Parsed? ==> StartsWord(s, i) && r.value.Scale?
  {
    var k := Keyword("scale", s, i);
    if k.Failed? then Failed(k.at)
    else
      var p := TripleFloat(lex, s, k.pos);
      if p.Failed? then Failed(p.at)
      else
        var n := OptSymbol(s, SkipSpace(s, p.pos));
        Parsed(n.pos, Scale(p.value, n.value))
  }

  /** `rotate`: the axis is one of x, y and z, anything else fails. */
  function ParseRotate(lex: Lexer, s: string, i: nat): (r: PResult<Transform>)
    requires i <= |s|
    ensures Within(r, s, i)
    ensures r.Parsed? ==> StartsWord(s, i) && r.value.Rotate? && r.value.axis in "xyz"
  {
    var k := Keyword("rotate", s, i);
    if k.Failed? then Failed(k.at)
    else
      var a := Axis(s, SkipSpace(s, k.pos));
      if a.Failed? then Failed(a.at)
      else
        var d := Double(lex, s, SkipSpace(s, a.pos));
        if d.Failed? then Failed(d.at)
        else
          var n := OptSymbol(s, SkipSpace(s, d.pos));
          Parsed(n.pos, Rotate(a.value, d.value, n.value))
  }

  function ParseTrCmd(lex: Lexer, s: string, i: nat): (r: PResult<Command>)
    requires i <= |s|
    ensures Within(r, s, i)
    ensures r.Parsed? ==> StartsWord(s, i) && r.value.TransformCmd?
  {
    var m := ParseMove(lex, s, i);
    var t := if m.Parsed? then m else
      var o := ParseRotate(lex, s, i);
      if o.Parsed? then o else ParseScale(lex, s, i);
    if t.Failed? then Failed(t.at) else Parsed(t.pos, TransformCmd(t.value))
  }

  function ParseSphere(lex: Lexer, s: string, i: nat): (r: PResult<Shape>)
    requires i <= |s|
    ensures Within(r, s, i)
    ensures r.Parsed? ==> StartsWord(s, i) && r.value.Sphere?
  {
    var k := Keyword("sphere", s, i);
    if k.Failed? then Failed(k.at)
    else
      var c := OptSymbol(s, k.pos);
      var p := TripleFloat(lex, s, SkipSpace(s, c.pos));
      if p.Failed? then Failed(p.at)
      else
        var d := Double(lex, s, SkipSpace(s, p.pos));
        if d.Failed? then Failed(d.at)
        else
          var n := OptSymbol(s, d.pos);
          Parsed(n.pos, Sphere(c.value, p.value, d.value, n.value))
  }

  function ParseTorus(lex: Lexer, s: string, i: nat): (r: PResult<Shape>)
    requires i <= |s|
    ensures Within(r, s, i)
    ensures r.Parsed? ==> StartsWord(s, i) && r.value.Torus?
  {
    var k := Keyword("torus", s, i);
    if k.Failed? then Failed(k.at)
    else
      var c := OptSymbol(s, k.pos);
      var p := TripleFloat(lex, s, c.pos);
      if p.Failed? then Failed(p.at)
      else
        var d0 := Double(lex, s, SkipSpace(s, p.pos));
        if d0.Failed? then Failed(d0.at)
        else
          var d1 := Double(lex, s, SkipSpace(s, d0.pos));
          if d1.Failed? then Failed(d1.at)
          else
            var n := OptSymbol(s, d1.pos);
            Parsed(n.pos, Torus(c.value, p.value, d0.value, d1.value, n.value))
  }

  /** `box`: the second triple is read as (height, width, depth). */
  function ParseBox(lex: Lexer, s: string, i: nat): (r: PResult<Shape>)
    requires i <= |s|
    ensures Within(r, s, i)
    ensures r.Parsed? ==> StartsWord(s, i) && r.value.Box?
  {
    var k := Keyword("box", s, i);
    if k.Failed? then Failed(k.at)
    else
      var c := OptSymbol(s, k.pos);
      var p := TripleFloat(lex, s, c.pos);
      if p.Failed? then Failed(p.at)
      else
        var dims := TripleFloat(lex, s, p.pos);
        if dims.Failed? then Failed(dims.at)
        else
          var n := OptSymbol(s, dims.pos);
          Parsed(n.pos, Box(c.value, p.value, dims.value.0, dims.value.1, dims.value.2, n.value))
  }

  function ParseLineShape(lex: Lexer, s: string, i: nat): (r: PResult<Shape>)
    requires i <= |s|
    ensures Within(r, s, i)
    ensures r.Parsed? ==> StartsWord(s, i) && r.value.Line?
  {
    var k := Keyword("line", s, i);
    if k.Failed? then Failed(k.at)
    else
      var c := OptSymbol(s, k.pos);
      var p0 := TripleFloat(lex, s, c.pos);
      if p0.Failed? then Failed(p0.at)
      else
        var n0 := OptSymbol(s, p0.pos);
        var p1 := TripleFloat(lex, s, n0.pos);
        if p1.Failed? then Failed(p1.at)
        else
          var n1 := OptSymbol(s, p1.pos);
          Parsed(n1.pos, Line(c.value, p0.value, n0.value, p1.value, n1.value))
  }

  function ParseMesh(s: string, i: nat): (r: PResult<Shape>)
    requires i <= |s|
    ensures Within(r, s, i)
    ensures r.Parsed? ==> StartsWord(s, i) && r.value.Mesh?
  {
    var k := Keyword("mesh", s, i);
    if k.Failed? then Failed(k.at)
    else
      var c := OptSymbol(s, k.pos);
      var f := SymbolToken(s, SkipSpace(s, c.pos));
      if f.Failed? then Failed(f.at)
      else
        var n := OptSymbol(s, f.pos);
        Parsed(n.pos, Mesh(c.value, f.value, n.value))
  }

  function ParseShapeCmd(lex: Lexer, s: string, i: nat): (r: PResult<Command>)
    requires i <= |s|
    ensures Within(r, s, i)
    ensures r.Parsed? ==> StartsWord(s, i) && r.value.ShapeCmd?
  {
    var sp := ParseSphere(lex, s, i);
    var t := if sp.Parsed? then sp else
      var to := ParseTorus(lex, s, i);
      if to.Parsed? then to else
      var bx := ParseBox(lex, s, i);
      if bx.Parsed? then bx else
      var ln := ParseLineShape(lex, s, i);
      if ln.Parsed? then ln else ParseMesh(s, i);
    if t.Failed? then Failed(t.at) else Parsed(t.pos, ShapeCmd(t.value))
  }

  function ParseBasename(s: string, i: nat): (r: PResult<Animate>)
    requires i <= |s|
    ensures Within(r, s, i)
    ensures r.Parsed? ==> StartsWord(s, i) && r.value.Basename?
  {
    var k := Keyword("basename", s, i);
    if k.Failed? then Failed(k.at)
    else
      var n := SymbolToken(s, SkipSpace(s, k.pos));
      if n.Failed? then Failed(n.at) else Parsed(n.pos, Basename(n.value))
  }

  function ParseSetKnob(lex: Lexer, s: string, i: nat): (r: PResult<Animate>)
    requires i <= |s|
    ensures Within(r, s, i)
    ensures r.Parsed? ==> StartsWord(s, i) && r.value.SetKnob?
  {
    var k := Keyword("set", s, i);
    if k.Failed? then Failed(k.at)
    else
      var n := SymbolToken(s, SkipSpace(s, k.pos));
      if n.Failed? then Failed(n.at)
      else
        var v := Double(lex, s, SkipSpace(s, n.pos));
        if v.Failed? then Failed(v.at) else Parsed(v.pos, SetKnob(Symbol(n.value), v.value))
  }

  function ParseSaveKnobs(s: string, i: nat): (r: PResult<Animate>)
    requires i <= |s|
    ensures Within(r, s, i)
    ensures r.Parsed? ==> StartsWord(s, i) && r.value.SaveKnobList?
  {
    var k := Keyword("save_knobs", s, i);
    if k.Failed? then Failed(k.at)
    else
      var n := SymbolToken(s, SkipSpace(s, k.pos));
      if n.Failed? then Failed(n.at) else Parsed(n.pos, SaveKnobList(Symbol(n.value)))
  }

  function ParseTween(s: string, i: nat): (r: PResult<Animate>)
    requires i <= |s|
    ensures Within(r, s, i)
    ensures r.Parsed? ==> StartsWord(s, i) && r.value.Tween?
  {
    var k := Keyword("tween", s, i);
    if k.Failed? then Failed(k.at)
    else
      var f0 := Uint(s, SkipSpace(s, k.pos));
      if f0.Failed? then Failed(f0.at)
      else
        var f1 := Uint(s, SkipSpace(s, f0.pos));
        if f1.Failed? then Failed(f1.at)
        else
          var l0 := SymbolToken(s, SkipSpace(s, f1.pos));
          if l0.Failed? then Failed(l0.at)
          else
            var l1 := SymbolToken(s, SkipSpace(s, l0.pos));
            if l1.Failed? then Failed(l1.at)
            else Parsed(l1.pos, Tween(f0.value, f1.value, Symbol(l0.value), Symbol(l1.value)))
  }

  function ParseNumFrames(s: string, i: nat): (r: PResult<Animate>)
    requires i <= |s|
    ensures Within(r, s, i)
    ensures r.Parsed? ==> StartsWord(s, i) && r.value.Frames? && r.value.count <= U32_MAX
  {
    var k := Keyword("frames", s, i);
    if k.Failed? then Failed(k.at)
    else
      var n := Uint(s, SkipSpace(s, k.pos));
      if n.Failed? then Failed(n.at) else Parsed(n.pos, Frames(n.value))
  }

  /** `vary` has no keyword: a knob name, two frame numbers and two values. */
  function ParseVary(lex: Lexer, s: string, i: nat): (r: PResult<Animate>)
    requires i <= |s|
    ensures Within(r, s, i)
    ensures r.Parsed? ==> StartsWord(s, i) && r.value.Vary?
    ensures r.Parsed? ==> var n := SymbolToken(s, SkipSpace(s, i)); n.Parsed? && r.value.knob.name == n.value
  {
    var n := SymbolToken(s, SkipSpace(s, i));
    if n.Failed? then Failed(n.at)
    else
      var f0 := Uint(s, SkipSpace(s, n.pos));
      if f0.Failed? then Failed(f0.at)
      else
        var f1 := Uint(s, SkipSpace(s, f0.pos));
        if f1.Failed? then Failed(f1.at)
        else
          var v0 := Double(lex, s, SkipSpace(s, f1.pos));
          if v0.Failed? then Failed(v0.at)
          else
            var v1 := Double(lex, s, SkipSpace(s, v0.pos));
            if v1.Failed? then Failed(v1.at)
            else Parsed(v1.pos, Vary(Symbol(n.value), f0.value, f1.value, v0.value, v1.value))
  }

  function ParseSetAllKnobs(lex: Lexer, s: string, i: nat): (r: PResult<Animate>)
    requires i <= |s|
    ensures Within(r, s, i)
    ensures r.Parsed? ==> StartsWord(s, i) && r.value.SetAllKnobs?
  {
    var k := Keyword("setknobs", s, i);
    if k.Failed? then Failed(k.at)
    else
      var v := Double(lex, s, SkipSpace(s, k.pos));
      if v.Failed? then Failed(v.at) else Parsed(v.pos, SetAllKnobs(v.value))
  }

  function ParseAnimateCmd(lex: Lexer, s: string, i: nat): (r: PResult<Command>)
    requires i <= |s|
    ensures Within(r, s, i)
    ensures r.Parsed? ==> StartsWord(s, i) && r.value.AnimateCmd?
  {
    var b := ParseBasename(s, i);
    var t := if b.Parsed? then b else
      var sk := ParseSetKnob(lex, s, i);
      if sk.Parsed? then sk else
      var sv := ParseSaveKnobs(s, i);
      if sv.Parsed? then sv else
      var tw := ParseTween(s, i);
      if tw.Parsed? then tw else
      var fr := ParseNumFrames(s, i);
      if fr.Parsed? then fr else
      var va := ParseVary(lex, s, i);
      if va.Parsed? then va else ParseSetAllKnobs(lex, s, i);
    if t.Failed? then Failed(t.at) else Parsed(t.pos, AnimateCmd(t.value))
  }

  function ParseLight(lex: Lexer, s: string, i: nat): (r: PResult<Lighting>)
    requires i <= |s|
    ensures Within(r, s, i)
    ensures r.Parsed? ==> StartsWord(s, i) && r.value.Light?
  {
    var k := Keyword("light", s, i);
    if k.Failed? then Failed(k.at)
    else
      var c := TripleFloat(lex, s, k.pos);
      if c.Failed? then Failed(c.at)
      else
        var l := TripleFloat(lex, s, c.pos);
        if l.Failed? then Failed(l.at)
        else Parsed(l.pos, Light(Rgb(c.value.0, c.value.1, c.value.2), l.value))
  }

  function ParseAmbient(lex: Lexer, s: string, i: nat): (r: PResult<Lighting>)
    requires i <= |s|
    ensures Within(r, s, i)
    ensures r.Parsed? ==> StartsWord(s, i) && r.value.Ambient?
  {
    var k := Keyword("ambient", s, i);
    if k.Failed? then Failed(k.at)
    else
      var c := TripleFloat(lex, s, SkipSpace(s, k.pos));
      if c.Failed? then Failed(c.at)
      else Parsed(c.pos, Ambient(Rgb(c.value.0, c.value.1, c.value.2)))
  }

  /** `opt(lws(double))`: an optional number; it never fails. */
  function OptDouble(lex: Lexer, s: string, i: nat): (r: PResult<Option<real>>)
    requires i <= |s|
    ensures Within(r, s, i) && r.Parsed?
    ensures r.value.None? ==> r.pos == i
  {
    var d := Double(lex, s, SkipSpace(s, i));
    if d.Parsed? then Parsed(d.pos, Some(d.value)) else Parsed(i, None)
  }

  /** The constants of one declaration: triple r, g and b give (ambient, diffuse, specular) of that channel. */
  function ObjConstOf(kr: Point, kg: Point, kb: Point, ir: Option<real>, ig: Option<real>, ib: Option<real>): (c: ObjConst)
    ensures c.kar == kr.0 && c.kdr == kr.1 && c.ksr == kr.2
    ensures c.kag == kg.0 && c.kdg == kg.1 && c.ksg == kg.2
    ensures c.kab == kb.0 && c.kdb == kb.1 && c.ksb == kb.2
    ensures c.ir == ir && c.ig == ig && c.ib == ib
  {
    ObjConst(kr.0, kr.1, kr.2, kg.0, kg.1, kg.2, kb.0, kb.1, kb.2, ir, ig, ib)
  }

  function ParseConstants(lex: Lexer, s: string, i: nat): (r: PResult<Lighting>)
    requires i <= |s|
    ensures Within(r, s, i)
    ensures r.Parsed? ==> StartsWord(s, i) && r.value.Constants?
  {
    var k := Keyword("constants", s, i);
    if k.Failed? then Failed(k.at)
    else
      var n := SymbolToken(s, SkipSpace(s, k.pos));
      if n.Failed? then Failed(n.at)
      else
        var kr := TripleFloat(lex, s, n.pos);
        if kr.Failed? then Failed(kr.at)
        else
          var kg := TripleFloat(lex, s, kr.pos);
          if kg.Failed? then Failed(kg.at)
          else
            var kb := TripleFloat(lex, s, kg.pos);
            if kb.Failed? then Failed(kb.at)
            else
              var ir := OptDouble(lex, s, kb.pos);
              var ig := OptDouble(lex, s, ir.pos);
              var ib := OptDouble(lex, s, ig.pos);
              Parsed(ib.pos, Constants(Symbol(n.value),
                ObjConstOf(kr.value, kg.value, kb.value, ir.value, ig.value, ib.value)))
  }

  /** The keyword of each shading mode. */
  function ShadingKeyword(m: ShadingMode): (w: string)
    ensures |w| > 0 && IsAlpha(w[0])
  {
    match m
    case Wireframe => "wireframe"
    case Flat => "flat"
    case Gouraud => "gouraud"
    case Phong => "phong"
    case Raytrace => "raytrace"
  }

  /** `value(m, tag(keyword))`: the keyword of mode m at j. */
  function ModeTag(m: ShadingMode, s: string, j: nat): (r: PResult<ShadingMode>)
    requires j <= |s|
    ensures Within(r, s, j)
    ensures r.Parsed? ==> j < |s| && IsAlpha(s[j]) && r.value == m
    ensures r.Failed? ==> r.at == j
  {
    var t := Tag(ShadingKeyword(m), s, j);
    if t.Failed? then Failed(j)
    else
      assert s[j..t.pos][0] == s[j];
      Parsed(t.pos, m)
  }

  /** A bare shading keyword, with no `shading` before it. */
  function ParseShading(s: string, i: nat): (r: PResult<Lighting>)
    requires i <= |s|
    ensures Within(r, s, i)
    ensures r.Parsed? ==> StartsWord(s, i) && r.value.Shading?
  {
    var j := SkipSpace(s, i);
    var w := ModeTag(Wireframe, s, j);
    var t := if w.Parsed? then w else
      var f := ModeTag(Flat, s, j);
      if f.Parsed? then f else
      var g := ModeTag(Gouraud, s, j);
      if g.Parsed? then g else
      var p := ModeTag(Phong, s, j);
      if p.Parsed? then p else ModeTag(Raytrace, s, j);
    if t.Failed? then Failed(t.at) else Parsed(t.pos, Shading(t.value))
  }

  function ParseLightingCmd(lex: Lexer, s: string, i: nat): (r: PResult<Command>)
    requires i <= |s|
    ensures Within(r, s, i)
    ensures r.Parsed? ==> StartsWord(s, i) && r.value.LightingCmd?
  {
    var l := ParseLight(lex, s, i);
    var t := if l.Parsed? then l else
      var a := ParseAmbient(lex, s, i);
      if a.Parsed? then a else
      var c := ParseConstants(lex, s, i);
      if c.Parsed? then c else ParseShading(s, i);
    if t.Failed? then Failed(t.at) else Parsed(t.pos, LightingCmd(t.value))
  }

  function ParseSaveCoord(s: string, i: nat): (r: PResult<Misc>)
    requires i <= |s|
    ensures Within(r, s, i)
    ensures r.Parsed? ==> StartsWord(s, i) && r.value.SaveCoord?
  {
    var k := Keyword("save_coord_system", s, i);
    if k.Failed? then Failed(k.at)
    else
      var n := SymbolToken(s, SkipSpace(s, k.pos));
      if n.Failed? then Failed(n.at) else Parsed(n.pos, SaveCoord(Symbol(n.value)))
  }

  /** A tag that begins with a letter, matched at i, starts a word there. */
  lemma TagStartsWord(t: string, s: string, i: nat)
    requires i <= |s| && 0 < |t| && IsAlpha(t[0]) && Tag(t, s, i).Parsed?
    ensures i < |s| && s[i] == t[0] && StartsWord(s, i)
  {
    assert s[i..i + |t|][0] == s[i];
    assert !IsSpace(s[i]);
  }

  /** `camera` is matched without skipping blanks before it. */
  function ParseCamera(lex: Lexer, s: string, i: nat): (r: PResult<Misc>)
    requires i <= |s|
    ensures Within(r, s, i)
    ensures r.Parsed? ==> i < |s| && s[i] == 'c' && StartsWord(s, i) && r.value.Camera?
  {
    var k := Tag("camera", s, i);
    if k.Failed? then Failed(k.at)
    else
      TagStartsWord("camera", s, i);
      var e := TripleFloat(lex, s, k.pos);
      if e.Failed? then Failed(e.at)
      else
        var a := TripleFloat(lex, s, e.pos);
        if a.Failed? then Failed(a.at) else Parsed(a.pos, Camera(e.value, a.value))
  }

  /** `save`: the file name follows the symbol grammar. */
  function ParseSaveFile(s: string, i: nat): (r: PResult<Misc>)
    requires i <= |s|
    ensures Within(r, s, i)
    ensures r.Parsed? ==> StartsWord(s, i) && r.value.Save?
    ensures r.Parsed? ==> IsName(r.value.filename) && '.' !in r.value.filename
  {
    var k := Keyword("save", s, i);
    if k.Failed? then Failed(k.at)
    else
      var n := SymbolToken(s, SkipSpace(s, k.pos));
      if n.Failed? then Failed(n.at) else Parsed(n.pos, Save(n.value))
  }

  function ParseGenRayfiles(s: string, i: nat): (r: PResult<Misc>)
    requires i <= |s|
    ensures Within(r, s, i)
    ensures r.Parsed? ==> StartsWord(s, i) && r.value == GenerateRayfiles
  {
    var k := Keyword("generate_rayfiles", s, i);
    if k.Failed? then Failed(k.at) else Parsed(k.pos, GenerateRayfiles)
  }

  function ParseFocal(lex: Lexer, s: string, i: nat): (r: PResult<Misc>)
    requires i <= |s|
    ensures Within(r, s, i)
    ensures r.Parsed? ==> StartsWord(s, i) && r.value.Focal?
  {
    var k := Keyword("focal", s, i);
    if k.Failed? then Failed(k.at)
    else
      var v := Double(lex, s, SkipSpace(s, k.pos));
      if v.Failed? then Failed(v.at) else Parsed(v.pos, Focal(v.value))
  }

  function ParseDisplay(s: string, i: nat): (r: PResult<Misc>)
    requires i <= |s|
    ensures Within(r, s, i)
    ensures r.Parsed? ==> StartsWord(s, i) && r.value == Display
  {
    var k := Keyword("display", s, i);
    if k.Failed? then Failed(k.at) else Parsed(k.pos, Display)
  }

  function ParseMiscCmd(lex: Lexer, s: string, i: nat): (r: PResult<Command>)
    requires i <= |s|
    ensures Within(r, s, i)
    ensures r.Parsed? ==> StartsWord(s, i) && r.value.MiscCmd?
  {
    var sc := ParseSaveCoord(s, i);
    var t := if sc.Parsed? then sc else
      var ca := ParseCamera(lex, s, i);
      if ca.Parsed? then ca else
      var sf := ParseSaveFile(s, i);
      if sf.Parsed? then sf else
      var gr := ParseGenRayfiles(s, i);
      if gr.Parsed? then gr else
      var fo := ParseFocal(lex, s, i);
      if fo.Parsed? then fo else ParseDisplay(s, i);
    if t.Failed? then Failed(t.at) else Parsed(t.pos, MiscCmd(t.value))
  }

  /** `parse_cmd`: the command groups, tried in order. */
  function ParseCmd(lex: Lexer, s: string, i: nat): (r: PResult<Command>)
    requires i <= |s|
    ensures Within(r, s, i)
    ensures r.Parsed? ==> StartsWord(s, i)
  {
    var pu := ParsePush(s, i);
    if pu.Parsed? then pu else
    var po := ParsePop(s, i);
    if po.Parsed? then po else
    var tr := ParseTrCmd(lex, s, i);
    if tr.Parsed? then tr else
    var sh := ParseShapeCmd(lex, s, i);
    if sh.Parsed? then sh else
    var an := ParseAnimateCmd(lex, s, i);
    if an.Parsed? then an else
    var li := ParseLightingCmd(lex, s, i);
    if li.Parsed? then li else ParseMiscCmd(lex, s, i)
  }

  /** `parse_comment`: `//` and then at least one character up to the line break. */
  function ParseComment(s: string, i: nat): (r: PResult<string>)
    requires i <= |s|
    ensures Within(r, s, i)
    ensures r.Parsed? <==> i + 2 < |s| && s[i..i + 2] == "//" && !IsEol(s[i + 2])
    ensures r.Parsed? ==> i + 3 <= r.pos && r.value == s[i + 2..r.pos]
    ensures r.Parsed? ==> forall n :: i + 2 <= n < r.pos ==> !IsEol(s[n])
    ensures r.Parsed? ==> r.pos == |s| || IsEol(s[r.pos])
  {
    var t := Tag("//", s, i);
    if t.Failed? then Failed(t.at)
    else
      var j := RunEnd(s, t.pos, NotEol);
      if j == t.pos then Failed(t.pos) else Parsed(j, s[t.pos..j])
  }

  /** Where the optional command of a line stops: after the command, or where it started when there is none. */
  function CommandEnd(lex: Lexer, s: string, i: nat): (j: nat)
    requires i <= |s|
    ensures i <= j <= |s|
    ensures ParseCmd(lex, s, i).Failed? ==> j == i
  {
    var c := ParseCmd(lex, s, i);
    if c.Parsed? then c.pos else i
  }

  /**
   * `parse_line`: an optional command followed by a mandatory comment. It
   * yields None exactly when no command starts the line.
   */
  function ParseLine(lex: Lexer, s: string, i: nat): (r: PResult<Option<Command>>)
    requires i <= |s|
    ensures Within(r, s, i)
    ensures r.Parsed? ==> (r.value.None? <==> ParseCmd(lex, s, i).Failed?)
    ensures r.Parsed? ==> ParseComment(s, SkipSpace(s, CommandEnd(lex, s, i))).Parsed?
  {
    var c := ParseCmd(lex, s, i);
    var k := ParseComment(s, SkipSpace(s, CommandEnd(lex, s, i)));
    if k.Failed? then Failed(k.at)
    else if c.Parsed? then Parsed(k.pos, Some(c.value))
    else Parsed(k.pos, None)
  }

  // ---------------------------------------------------------------------
  // Properties of the grammar

  /** The tail of a symbol that stops at j ends at j. */
  lemma {:induction false} TailTo(s: string, i: nat, j: nat)
    requires i <= j <= |s|
    requires forall n :: i <= n < j ==> IsAlnum(s[n]) || s[n] == '_'
    requires j == |s| || !(IsAlnum(s[j]) || s[j] == '_')
    ensures SymbolTail(s, i) == j
    decreases j - i
  {
    var a := RunEnd(s, i, LetterOrDigit);
    if a > i {
      assert a <= j;
      TailTo(s, a, j);
    } else if i < j {
      TailTo(s, i + 1, j);
    }
  }

  /** `symbol` reads back exactly a name that is not followed by another name character. */
  lemma SymbolReadsName(s: string, i: nat, w: string)
    requires i + |w| <= |s| && s[i..i + |w|] == w && IsName(w)
    requires i + |w| == |s| || !(IsAlnum(s[i + |w|]) || s[i + |w|] == '_')
    ensures SymbolToken(s, i) == Parsed(i + |w|, w)
  {
    var j := i + |w|;
    assert forall n :: i <= n < j ==> s[n] == w[n - i];
    var a := RunEnd(s, i, Letter);
    assert i < a <= j;
    TailTo(s, a, j);
  }

  /** No command begins with something other than a letter after the blanks. */
  lemma CommandNeedsWord(lex: Lexer, s: string, i: nat)
    requires i <= |s| && !StartsWord(s, i)
    ensures ParseCmd(lex, s, i).Failed?
  {
  }

  /** A line holding only a comment parses, to no command. */
  lemma CommentOnlyLine(lex: Lexer, s: string)
    requires |s| >= 3 && s[0] == '/' && s[1] == '/' && !IsEol(s[2])
    ensures ParseLine(lex, s, 0).Parsed? && ParseLine(lex, s, 0).value == None
  {
    assert !IsSpace(s[0]) && !IsAlpha(s[0]);
    assert SkipSpace(s, 0) == 0;
    CommandNeedsWord(lex, s, 0);
    assert CommandEnd(lex, s, 0) == 0;
    assert s[0..2] == "//";
    assert ParseComment(s, 0).Parsed?;
  }

  /** No comment starts where the line has no `//`. */
  lemma NoSlashesNoComment(s: string, c: nat)
    requires c <= |s|
    requires forall n :: 0 <= n < |s| - 1 ==> !(s[n] == '/' && s[n + 1] == '/')
    ensures ParseComment(s, c).Failed?
  {
    if c + 2 < |s| {
      assert s[c..c + 2] == [s[c], s[c + 1]];
    }
  }

  /** The comment is mandatory: a line with no `//` in it does not parse, whatever command it holds. */
  lemma LineNeedsComment(lex: Lexer, s: string)
    requires forall n :: 0 <= n < |s| - 1 ==> !(s[n] == '/' && s[n + 1] == '/')
    ensures ParseLine(lex, s, 0).Failed?
  {
    NoSlashesNoComment(s, SkipSpace(s, CommandEnd(lex, s, 0)));
  }

  /** Each shading keyword reads back as its own mode. */
  lemma ShadingRoundTrip(m: ShadingMode, s: string)
    requires s == ShadingKeyword(m)
    ensures ParseShading(s, 0) == Parsed(|s|, Shading(m))
  {
    assert SkipSpace(s, 0) == 0;
  }

  /** A run of class k that stops at j ends at j. */
  lemma {:induction false} RunTo(s: string, i: nat, j: nat, k: CharClass)
    requires i <= j <= |s|
    requires forall n :: i <= n < j ==> InClass(s[n], k)
    requires j == |s| || !InClass(s[j], k)
    ensures RunEnd(s, i, k) == j
    decreases j - i
  {
    if i < j {
      RunTo(s, i + 1, j, k);
    }
  }

  lemma SkipOne(s: string, i: nat)
    requires i < |s| && IsSpace(s[i]) && (i + 1 == |s| || !IsSpace(s[i + 1]))
    ensures SkipSpace(s, i) == i + 1
  {
  }

  /** `uint` reads the digits from i to j, when they stop there and fit in a u32. */
  lemma UintAt(s: string, i: nat, j: nat)
    requires i < j <= |s|
    requires forall n :: i <= n < j ==> IsDigit(s[n])
    requires j == |s| || !IsDigit(s[j])
    requires DigitsValue(s[i..j]) <= U32_MAX
    ensures Uint(s, i) == Parsed(j, DigitsValue(s[i..j]))
  {
    RunTo(s, i, j, Digit);
  }

  lemma KeywordAt(t: string, s: string, i: nat, j: nat)
    requires i <= |s| && SkipSpace(s, i) == j && j + |t| <= |s| && s[j..j + |t|] == t
    ensures Keyword(t, s, i) == Parsed(j + |t|, ())
  {
  }

  lemma KeywordDiffers(t: string, s: string, i: nat, k: nat)
    requires i <= |s| && SkipSpace(s, i) + k < |s| && k < |t|
    requires s[SkipSpace(s, i) + k] != t[k]
    ensures Keyword(t, s, i).Failed?
  {
    var j := SkipSpace(s, i);
    if j + |t| <= |s| {
      assert s[j..j + |t|][k] == s[j + k];
    }
  }

  lemma DoubleAt(lex: Lexer, s: string, i: nat, v: real, n: nat)
    requires 0 < n && i + n <= |s| && lex(s[i..]) == Some((v, n))
    ensures Double(lex, s, i) == Parsed(i + n, v)
  {
  }

  /** A number after one blank. */
  lemma NumberAfterBlank(lex: Lexer, s: string, i: nat, v: real, n: nat)
    requires i + 1 + n <= |s| && 0 < n && IsSpace(s[i]) && !IsSpace(s[i + 1])
    requires lex(s[i + 1..]) == Some((v, n))
    ensures Double(lex, s, SkipSpace(s, i)) == Parsed(i + 1 + n, v)
  {
    SkipOne(s, i);
  }

  /** Three numbers, each after one blank. */
  lemma TripleAfterBlanks(lex: Lexer, s: string, i: nat, x: real, y: real, z: real, n: nat, m: nat, k: nat)
    requires i + 3 + n + m + k <= |s|
    requires Double(lex, s, SkipSpace(s, i)) == Parsed(i + 1 + n, x)
    requires Double(lex, s, SkipSpace(s, i + 1 + n)) == Parsed(i + 2 + n + m, y)
    requires Double(lex, s, SkipSpace(s, i + 2 + n + m)) == Parsed(i + 3 + n + m + k, z)
    ensures TripleFloat(lex, s, i) == Parsed(i + 3 + n + m + k, (x, y, z))
  {
  }

  /** Three numbers, each after exactly one blank, read by the lexer. */
  lemma TripleAfterSingleBlanks(lex: Lexer, s: string, i: nat, x: real, y: real, z: real, n: nat, m: nat, k: nat)
    requires i + 3 + n + m + k <= |s| && 0 < n && 0 < m && 0 < k
    requires IsSpace(s[i]) && !IsSpace(s[i + 1]) && lex(s[i + 1..]) == Some((x, n))
    requires IsSpace(s[i + 1 + n]) && !IsSpace(s[i + 2 + n]) && lex(s[i + 2 + n..]) == Some((y, m))
    requires IsSpace(s[i + 2 + n + m]) && !IsSpace(s[i + 3 + n + m]) && lex(s[i + 3 + n + m..]) == Some((z, k))
    ensures TripleFloat(lex, s, i) == Parsed(i + 3 + n + m + k, (x, y, z))
  {
    NumberAfterBlank(lex, s, i, x, n);
    NumberAfterBlank(lex, s, i + 1 + n, y, m);
    NumberAfterBlank(lex, s, i + 2 + n + m, z, k);
    TripleAfterBlanks(lex, s, i, x, y, z, n, m, k);
  }

  /** The three numbers of the test line below. */
  lemma ScaleExampleValues(lex: Lexer, s: string)
    requires s == "scale .2 3.2 4.2 kooo"
    requires lex(s[6..]) == Some((0.2, 2))
    requires lex(s[9..]) == Some((3.2, 3))
    requires lex(s[13..]) == Some((4.2, 3))
    ensures TripleFloat(lex, s, 5) == Parsed(16, (0.2, 3.2, 4.2))
  {
    assert s[5] == ' ' && s[6] == '.' && s[8] == ' ' && s[9] == '3' && s[12] == ' ' && s[13] == '4';
    TripleAfterSingleBlanks(lex, s, 5, 0.2, 3.2, 4.2, 2, 3, 3);
  }

  /** The knob name of the test line below. */
  lemma ScaleExampleKnob(s: string)
    requires s == "scale .2 3.2 4.2 kooo"
    ensures OptSymbol(s, SkipSpace(s, 16)) == Parsed(21, Some(Symbol("kooo")))
  {
    SkipOne(s, 16);
    assert IsName("kooo");
    assert s[17..21] == "kooo";
    SymbolReadsName(s, 17, "kooo");
  }

  /** The test of src/mdl/ast.rs: `scale .2 3.2 4.2 kooo`. */
  lemma ScaleExample(lex: Lexer, s: string)
    requires s == "scale .2 3.2 4.2 kooo"
    requires lex(s[6..]) == Some((0.2, 2))
    requires lex(s[9..]) == Some((3.2, 3))
    requires lex(s[13..]) == Some((4.2, 3))
    ensures ParseScale(lex, s, 0) == Parsed(|s|, Scale((0.2, 3.2, 4.2), Some(Symbol("kooo"))))
  {
    KeywordAt("scale", s, 0, 0);
    ScaleExampleValues(lex, s);
    ScaleExampleKnob(s);
  }

  /** The knob name of the line below. */
  lemma SetKnobsName(s: string)
    requires s == "setknobs 2"
    ensures SymbolToken(s, SkipSpace(s, 3)) == Parsed(8, "knobs")
  {
    assert IsName("knobs");
    assert s[3..8] == "knobs";
    SymbolReadsName(s, 3, "knobs");
  }

  /** The `set` reading of the line below. */
  lemma SetKnobsParts(lex: Lexer, s: string)
    requires s == "setknobs 2"
    requires lex(s[9..]) == Some((2.0, 1))
    ensures ParseSetKnob(lex, s, 0) == Parsed(|s|, SetKnob(Symbol("knobs"), 2.0))
  {
    KeywordAt("set", s, 0, 0);
    SetKnobsName(s);
    NumberAfterBlank(lex, s, 8, 2.0, 1);
  }

  /** `set` is tried before `setknobs`, so `setknobs 2` sets the knob named `knobs`. */
  lemma SetKnobsReadsAsSet(lex: Lexer, s: string)
    requires s == "setknobs 2"
    requires lex(s[9..]) == Some((2.0, 1))
    ensures ParseAnimateCmd(lex, s, 0) == Parsed(|s|, AnimateCmd(SetKnob(Symbol("knobs"), 2.0)))
  {
    KeywordDiffers("basename", s, 0, 0);
    SetKnobsParts(lex, s);
  }

  /** The frame numbers of the `vary` line below. */
  lemma VaryExampleFrames(s: string)
    requires s == "spin 0 10 0 1"
    ensures Uint(s, SkipSpace(s, 4)) == Parsed(6, 0)
    ensures Uint(s, SkipSpace(s, 6)) == Parsed(9, 10)
  {
    SkipOne(s, 4);
    SkipOne(s, 6);
    assert s[5..6] == "0";
    UintAt(s, 5, 6);
    assert s[7..9] == "10";
    assert DigitsValue("10") == 10 by {
      assert "10"[..1] == "1";
    }
    UintAt(s, 7, 9);
  }

  /** The knob name of the `vary` line below. */
  lemma VaryExampleName(s: string)
    requires s == "spin 0 10 0 1"
    ensures SymbolToken(s, SkipSpace(s, 0)) == Parsed(4, "spin")
  {
    assert IsName("spin");
    assert s[0..4] == "spin";
    SymbolReadsName(s, 0, "spin");
  }

  /** The values of the `vary` line below. */
  lemma VaryExampleValues(lex: Lexer, s: string)
    requires s == "spin 0 10 0 1"
    requires lex(s[10..]) == Some((0.0, 1))
    requires lex(s[12..]) == Some((1.0, 1))
    ensures Double(lex, s, SkipSpace(s, 9)) == Parsed(11, 0.0)
    ensures Double(lex, s, SkipSpace(s, 11)) == Parsed(13, 1.0)
  {
    NumberAfterBlank(lex, s, 9, 0.0, 1);
    NumberAfterBlank(lex, s, 11, 1.0, 1);
  }

  /** The parts of the `vary` line below. */
  lemma VaryExampleParts(lex: Lexer, s: string)
    requires s == "spin 0 10 0 1"
    requires lex(s[10..]) == Some((0.0, 1))
    requires lex(s[12..]) == Some((1.0, 1))
    ensures ParseVary(lex, s, 0) == Parsed(|s|, Vary(Symbol("spin"), 0, 10, 0.0, 1.0))
  {
    VaryExampleName(s);
    VaryExampleFrames(s);
    VaryExampleValues(lex, s);
  }

  /** A line that starts with any other name and then two whole numbers is a `vary`. */
  lemma VaryExample(lex: Lexer, s: string)
    requires s == "spin 0 10 0 1"
    requires lex(s[10..]) == Some((0.0, 1))
    requires lex(s[12..]) == Some((1.0, 1))
    ensures ParseAnimateCmd(lex, s, 0) == Parsed(|s|, AnimateCmd(Vary(Symbol("spin"), 0, 10, 0.0, 1.0)))
  {
    KeywordDiffers("basename", s, 0, 0);
    KeywordDiffers("set", s, 0, 1);
    KeywordDiffers("save_knobs", s, 0, 1);
    KeywordDiffers("tween", s, 0, 0);
    KeywordDiffers("frames", s, 0, 0);
    VaryExampleParts(lex, s);
  }

  /** The corner of the `box` line below. */
  lemma BoxExampleCorner(lex: Lexer, s: string)
    requires s == "box 1 2 3 4 5 6"
    requires lex(s[4..]) == Some((1.0, 1)) && lex(s[6..]) == Some((2.0, 1)) && lex(s[8..]) == Some((3.0, 1))
    ensures TripleFloat(lex, s, 3) == Parsed(9, (1.0, 2.0, 3.0))
  {
    NumberAfterBlank(lex, s, 3, 1.0, 1);
    NumberAfterBlank(lex, s, 5, 2.0, 1);
    NumberAfterBlank(lex, s, 7, 3.0, 1);
    TripleAfterBlanks(lex, s, 3, 1.0, 2.0, 3.0, 1, 1, 1);
  }

  /** The dimensions of the `box` line below. */
  lemma BoxExampleDims(lex: Lexer, s: string)
    requires s == "box 1 2 3 4 5 6"
    requires lex(s[10..]) == Some((4.0, 1)) && lex(s[12..]) == Some((5.0, 1)) && lex(s[14..]) == Some((6.0, 1))
    ensures TripleFloat(lex, s, 9) == Parsed(15, (4.0, 5.0, 6.0))
  {
    assert s[9] == ' ' && s[10] == '4' && s[11] == ' ' && s[12] == '5' && s[13] == ' ' && s[14] == '6';
    TripleAfterSingleBlanks(lex, s, 9, 4.0, 5.0, 6.0, 1, 1, 1);
  }

  /** `box`: the second triple is (height, width, depth). */
  lemma BoxExample(lex: Lexer, s: string)
    requires s == "box 1 2 3 4 5 6"
    requires lex(s[4..]) == Some((1.0, 1)) && lex(s[6..]) == Some((2.0, 1)) && lex(s[8..]) == Some((3.0, 1))
    requires lex(s[10..]) == Some((4.0, 1)) && lex(s[12..]) == Some((5.0, 1)) && lex(s[14..]) == Some((6.0, 1))
    ensures ParseBox(lex, s, 0) == Parsed(|s|, Box(None, (1.0, 2.0, 3.0), 4.0, 5.0, 6.0, None))
  {
    KeywordAt("box", s, 0, 0);
    SkipOne(s, 3);
    assert !StartsWord(s, 3);
    BoxExampleCorner(lex, s);
    BoxExampleDims(lex, s);
    assert !StartsWord(s, 15);
  }
}
