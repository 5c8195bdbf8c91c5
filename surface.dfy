/**
  The drawing surface the painter works against: integer points and rectangles
  (Go's image package), the four colours the program uses (image/color), and a
  texture that records every Fill call made on it, in order.
  Go's integer arithmetic that the geometry needs (truncating division, and the
  truncating float-to-int conversion) is written out here too.
 */
module Surface {

  datatype Point = Point(x: int, y: int)

  /** image.Rectangle: the half-open box [min.x, max.x) x [min.y, max.y). */
  datatype Rect = Rect(min: Point, max: Point) {
    /** Dx is the width, as image.Rectangle.Dx. */
    function Dx(): int { max.x - min.x }
    function Dy(): int { max.y - min.y }
    /** A well-formed rectangle, as image.Rect always builds. */
    predicate Canonical() { min.x <= max.x && min.y <= max.y }
  }

  /**
    image.Rect(x0, y0, x1, y1): the rectangle with those corners, swapping the
    coordinates of each axis that is given in decreasing order.
   */
  function MakeRect(x0: int, y0: int, x1: int, y1: int): (r: Rect)
    ensures r.Canonical()
    ensures {r.min.x, r.max.x} == {x0, x1} && {r.min.y, r.max.y} == {y0, y1}
    ensures x0 <= x1 && y0 <= y1 ==> r == Rect(Point(x0, y0), Point(x1, y1))
  {
    var (lx, hx) := if x0 > x1 then (x1, x0) else (x0, x1);
    var (ly, hy) := if y0 > y1 then (y1, y0) else (y0, y1);
    Rect(Point(lx, ly), Point(hx, hy))
  }

  /**
    The colours the program paints with. Nil is the zero value of the
    color.Color interface, which a zero-value State carries as its background;
    Black and White are color.Black and color.White, Green and Blue are the
    opaque RGBA values the parser and DrawShape build. Two colours are equal as
    Go interface values exactly when they are the same constructor here.
   */
  datatype Color = Nil | Black | White | Green | Blue

  /** One recorded call Fill(rect, color, draw.Src) on a texture. */
  datatype FillCall = FillCall(rect: Rect, color: Color)

  /** The texture size Loop.Start allocates. */
  const CanvasSize := Point(400, 400)

  /** The rectangle a texture of this size reports as its Bounds(). */
  function BoundsOf(size: Point): Rect
  {
    Rect(Point(0, 0), size)
  }

  /**
    A screen.Texture reduced to what the painter observes: its fixed size and
    the ordered log of the Fill calls made on it.
   */
  class Texture {
    const size: Point
    var fills: seq<FillCall>

    constructor (size: Point)
      ensures this.size == size && fills == []
    {
      this.size := size;
      fills := [];
    }

    function Bounds(): (r: Rect)
      ensures r.min == Point(0, 0) && r.max == size
    {
      BoundsOf(size)
    }

    method Fill(r: Rect, c: Color)
      modifies this
      ensures fills == old(fills) + [FillCall(r, c)]
    {
      fills := fills + [FillCall(r, c)];
    }
  }

  /** Go's integer division, which truncates toward zero (Dafny's / is Euclidean). */
  function GoQuot(a: int, b: int): (q: int)
    requires b > 0
    ensures a >= 0 ==> 0 <= a - q * b < b
    ensures a < 0 ==> -b < a - q * b <= 0
  {
    if a >= 0 then a / b else -((-a) / b)
  }

  /** Go's int(x) for a float x: truncation toward zero. */
  function Trunc(x: real): (n: int)
    ensures x >= 0.0 ==> n as real <= x < n as real + 1.0
    ensures x < 0.0 ==> n as real - 1.0 < x <= n as real
  {
    if x >= 0.0 then x.Floor else -((-x).Floor)
  }

  /** A fraction between 0 and 1 of a non-negative quantity lies between 0 and that quantity. */
  lemma FractionOf(f: real, m: real)
    ensures 0.0 <= f <= 1.0 && 0.0 <= m ==> 0.0 <= f * m <= m
    ensures f == 0.0 ==> f * m == 0.0
    ensures f == 1.0 ==> f * m == m
  {
    if 0.0 <= f <= 1.0 && 0.0 <= m {
      assert (1.0 - f) * m >= 0.0;
    }
  }

  /**
    int(f * float64(n)): a fraction f of the extent n, truncated toward zero.
    A fraction between 0 and 1 of a non-negative extent lands inside [0, n];
    the script's 0 and 1 land on the two edges.
   */
  function Scale(f: real, n: int): (r: int)
    ensures 0.0 <= f <= 1.0 && 0 <= n ==> 0 <= r <= n
    ensures f == 0.0 ==> r == 0
    ensures f == 1.0 ==> r == n
  {
    FractionOf(f, n as real);
    Trunc(f * n as real)
  }
}
