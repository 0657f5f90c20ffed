// The two turtles (src/drawer/turtle.rs and src/canvas/turtle.rs): a pen
// on the plane z = 0 with a position, a heading in degrees, and a canvas
// it owns. Each canvas is the log of the lines drawn on it.
module Turtles {
  import opened FloatModel
  import opened Colors

  /** polar_to_xy: the offset of `mag` steps along a heading in degrees. */
  function PolarToXy(lib: Libm, mag: real, deg: real): (real, real) {
    (lib.cosDeg(deg) * mag, lib.sinDeg(deg) * mag)
  }

  /** The heading after turn_rt: the sum, reduced by f64 `%` 360, which keeps the sign of the sum. */
  function TurnedHeading(heading: real, turn: real): real {
    FRem(heading + turn, 360.0)
  }

  /** Zero steps move nowhere, whatever the heading. */
  lemma ZeroStepsStayPut(lib: Libm, deg: real)
    ensures PolarToXy(lib, 0.0, deg) == (0.0, 0.0)
  {
  }

  /** A turn that keeps the heading inside [0, 360) is plain addition. */
  lemma SmallTurnAdds(heading: real, turn: real)
    requires 0.0 <= heading + turn < 360.0
    ensures TurnedHeading(heading, turn) == heading + turn
  {
    assert Trunc((heading + turn) / 360.0) == 0;
  }

  /** A whole turn from heading 0 comes back to heading 0. */
  lemma FullTurnReturns()
    ensures TurnedHeading(0.0, 360.0) == 0.0
  {
    assert Trunc(360.0 / 360.0) == 1;
  }

  /** A line on the library canvas: two points and a colour. */
  datatype Line = Line(p0: (real, real, real), p1: (real, real, real), color: RGB)

  /** The library canvas a turtle owns, as the lines drawn on it. */
  class LineCanvas {
    var lines: seq<Line>

    constructor ()
      ensures lines == []
    {
      lines := [];
    }

    method DrawLine(p0: (real, real, real), p1: (real, real, real), color: RGB)
      modifies this
      ensures lines == old(lines) + [Line(p0, p1, color)]
    {
      lines := lines + [Line(p0, p1, color)];
    }
  }

  /** The library turtle. */
  class Turtle {
    var x: real
    var y: real
    var angleDeg: real
    var penDown: bool
    var fgColor: RGB
    var img: LineCanvas

    /** Turtle::new: heading 0, pen up. */
    constructor (screen: LineCanvas, x: real, y: real, fgColor: RGB)
      ensures this.x == x && this.y == y && angleDeg == 0.0 && !penDown
      ensures this.fgColor == fgColor && img == screen
    {
      this.x := x;
      this.y := y;
      angleDeg := 0.0;
      penDown := false;
      img := screen;
      this.fgColor := fgColor;
    }

    /** forward: one line on z = 0 from the old to the new position, only with the pen down. */
    method Forward(lib: Libm, steps: int)
      requires I32Min <= steps <= I32Max
      modifies this, img
      ensures var d := PolarToXy(lib, steps as real, old(angleDeg));
        x == old(x) + d.0 && y == old(y) + d.1
      ensures old(penDown) ==> img.lines == old(img.lines) + [Line((old(x), old(y), 0.0), (x, y, 0.0), fgColor)]
      ensures !old(penDown) ==> img.lines == old(img.lines)
      ensures angleDeg == old(angleDeg) && penDown == old(penDown) && fgColor == old(fgColor) && img == old(img)
    {
      var x0, y0 := x, y;
      var d := PolarToXy(lib, steps as real, angleDeg);
      var x1, y1 := x0 + d.0, y0 + d.1;
      if penDown {
        img.DrawLine((x0, y0, 0.0), (x1, y1, 0.0), fgColor);
      }
      x := x1;
      y := y1;
    }

    /** turn_rt */
    method TurnRt(angle: real)
      modifies this
      ensures angleDeg == TurnedHeading(old(angleDeg), angle)
      ensures x == old(x) && y == old(y) && penDown == old(penDown) && fgColor == old(fgColor) && img == old(img)
    {
      angleDeg := FRem(angleDeg + angle, 360.0);
    }

    /** move_to: the position is set exactly; a line is drawn only with the pen down. */
    method MoveTo(nx: real, ny: real)
      modifies this, img
      ensures x == nx && y == ny
      ensures old(penDown) ==> img.lines == old(img.lines) + [Line((old(x), old(y), 0.0), (nx, ny, 0.0), fgColor)]
      ensures !old(penDown) ==> img.lines == old(img.lines)
      ensures angleDeg == old(angleDeg) && penDown == old(penDown) && fgColor == old(fgColor) && img == old(img)
    {
      if penDown {
        img.DrawLine((x, y, 0.0), (nx, ny, 0.0), fgColor);
      }
      x := nx;
      y := ny;
    }

    /** get_canvas */
    function GetCanvas(): (c: LineCanvas)
      reads this
      ensures c == img
    {
      img
    }
  }

  /** The boxed canvas of the older turtle: a foreground colour and the lines drawn, as x0, y0, x1, y1. */
  class GfxCanvas {
    var fgColor: RGB
    var lines: seq<(real, real, real, real)>

    constructor (fgColor: RGB)
      ensures this.fgColor == fgColor && lines == []
    {
      this.fgColor := fgColor;
      lines := [];
    }
  }

  /** The older turtle of the graphics tree; its colour lives on the canvas. */
  class GfxTurtle {
    var x: real
    var y: real
    var angleDeg: real
    var penDown: bool
    var img: GfxCanvas

    constructor (screen: GfxCanvas, x: real, y: real)
      ensures this.x == x && this.y == y && angleDeg == 0.0 && !penDown && img == screen
    {
      this.x := x;
      this.y := y;
      angleDeg := 0.0;
      penDown := false;
      img := screen;
    }

    method Forward(lib: Libm, steps: int)
      requires I32Min <= steps <= I32Max
      modifies this, img
      ensures var d := PolarToXy(lib, steps as real, old(angleDeg));
        x == old(x) + d.0 && y == old(y) + d.1
      ensures old(penDown) ==> img.lines == old(img.lines) + [(old(x), old(y), x, y)]
      ensures !old(penDown) ==> img.lines == old(img.lines)
      ensures img.fgColor == old(img.fgColor)
      ensures angleDeg == old(angleDeg) && penDown == old(penDown) && img == old(img)
    {
      var x0, y0 := x, y;
      var d := PolarToXy(lib, steps as real, angleDeg);
      var x1, y1 := x0 + d.0, y0 + d.1;
      if penDown {
        img.lines := img.lines + [(x0, y0, x1, y1)];
      }
      x := x1;
      y := y1;
    }

    method TurnRt(angle: real)
      modifies this
      ensures angleDeg == TurnedHeading(old(angleDeg), angle)
      ensures x == old(x) && y == old(y) && penDown == old(penDown) && img == old(img)
    {
      angleDeg := FRem(angleDeg + angle, 360.0);
    }

    /** set_color: the canvas's foreground colour. */
    method SetColor(rgb: RGB)
      modifies img
      ensures img.fgColor == rgb && img.lines == old(img.lines)
    {
      img.fgColor := rgb;
    }

    function GetColor(): RGB
      reads this, img
    {
      img.fgColor
    }

    method MoveTo(nx: real, ny: real)
      modifies this, img
      ensures x == nx && y == ny
      ensures old(penDown) ==> img.lines == old(img.lines) + [(old(x), old(y), nx, ny)]
      ensures !old(penDown) ==> img.lines == old(img.lines)
      ensures img.fgColor == old(img.fgColor)
      ensures angleDeg == old(angleDeg) && penDown == old(penDown) && img == old(img)
    {
      if penDown {
        img.lines := img.lines + [(x, y, nx, ny)];
      }
      x := nx;
      y := ny;
    }

    /** get_ppm_img */
    function GetPpmImg(): (c: GfxCanvas)
      reads this
      ensures c == img
    {
      img
    }
  }
}
