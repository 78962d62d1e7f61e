/** The drawing commands the renderers issue, in the order they issue them.
    Which pixels a command covers is up to the rasteriser and is not part of
    this model. */
module Shapes {
  import opened Colors
  import opened Draws

  datatype Point = Point(x: int, y: int)

  /** `[x0, y0, x1, y1]` bounding box of an ellipse or rectangle. */
  datatype Box = Box(x0: int, y0: int, x1: int, y1: int)

  datatype Shape =
    | Ellipse(box: Box, fill: Rgb)
    | Rectangle(box: Box, fill: Rgb)
    | Polygon(points: seq<Point>, fill: Rgb)
    | Line(points: seq<Point>, fill: Rgb, width: int)

  /** The line width `ImageDraw.line` uses when none is given. */
  const DefaultLineWidth := 0

  /** `draw.ellipse([x, y, x + size, y + size], fill=color)`: the dot idiom of
      the decoration and glow loops. */
  function Dot(x: int, y: int, size: int, fill: Rgb): Shape {
    Ellipse(Box(x, y, x + size, y + size), fill)
  }

  /** A dot with its corner in `[xlo, xhi] x [ylo, yhi]` and a square bounding
      box of side in `[smin, smax]`. */
  predicate DotWithin(s: Shape, xlo: int, xhi: int, ylo: int, yhi: int, smin: int, smax: int) {
    s.Ellipse?
    && xlo <= s.box.x0 <= xhi && ylo <= s.box.y0 <= yhi
    && s.box.x1 - s.box.x0 == s.box.y1 - s.box.y0
    && smin <= s.box.x1 - s.box.x0 <= smax
  }

  /** What a renderer emits for a given start of the draw stream: the shape
      commands and the stream position it leaves behind. */
  datatype Emitted = Emitted(shapes: seq<Shape>, rest: Stream)

  /** Issuing `a` and then `b` after `start` issues `a + b` after `start`. */
  lemma AppendAssoc(start: seq<Shape>, a: seq<Shape>, b: seq<Shape>)
    ensures (start + a) + b == start + (a + b)
  {
  }

  /** The `ImageDraw` object: the commands issued so far. */
  class Sketch {
    var shapes: seq<Shape>

    constructor ()
      ensures shapes == []
    {
      shapes := [];
    }

    method Draw(s: Shape)
      modifies this
      ensures shapes == old(shapes) + [s]
    {
      shapes := shapes + [s];
    }
  }
}
