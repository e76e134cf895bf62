/**
 * What one regeneration of a WidgetView draws and where it travels: the
 * random placement (`randomWidth`, `randomHeight`), the shape kind (`shape`),
 * the rectangle and gradient built in `drawShape` and `linearGradient`, and
 * the quadratic path built by `bessel`. Colours are left out; every
 * `Math.random()` is a draw `u` passed in.
 */
module Shapes {
  import opened Wrappers
  import opened Draws

  /** The `size` of a shape: 1500 units square. */
  const SIZE: real := 1500.0

  /** Number of `quadTo` segments in a travel path. */
  const PATH_SEGMENTS: nat := 10
  /** Duration of one path segment, in milliseconds. */
  const SEGMENT_MS: int := 8000
  /** `duration = size * length` of the travel animator set. */
  const TRAVEL_MS: int := PATH_SEGMENTS * SEGMENT_MS
  /** Duration of a fade-in or fade-out, in milliseconds. */
  const FADE_MS: int := 5000

  datatype ShapeKind = Oval | Rectangle

  datatype Point = Point(x: real, y: real)

  /** `RectF(left, top, right, bottom)`. */
  datatype RectF = RectF(left: real, top: real, right: real, bottom: real)

  /** The geometry of a `LinearGradient` from (x0, y0) to (x1, y1); its colours are left out. */
  datatype Gradient = Gradient(x0: real, y0: real, x1: real, y1: real)

  /** One `quadTo(x1, y1, x2, y2)`: a control point and an end point. */
  datatype Quad = Quad(control: Point, end: Point)

  /** The four draws one `quadTo` call consumes, in argument order. */
  datatype QuadDraw = QuadDraw(cx: real, cy: real, ex: real, ey: real)

  /** The draws one regeneration consumes: the anchor, the shape index and the path. */
  datatype ShapeDraws = ShapeDraws(left: real, top: real, shape: real, path: seq<QuadDraw>)

  predicate IsQuadDraw(q: QuadDraw) {
    IsDraw(q.cx) && IsDraw(q.cy) && IsDraw(q.ex) && IsDraw(q.ey)
  }

  /** The draws really come from `Math.random()`, and `bessel` takes exactly one quad's worth per segment. */
  predicate WellFormedDraws(d: ShapeDraws) {
    && IsDraw(d.left) && IsDraw(d.top) && IsDraw(d.shape)
    && |d.path| == PATH_SEGMENTS
    && forall k :: 0 <= k < |d.path| ==> IsQuadDraw(d.path[k])
  }

  /** `randomWidth` / `randomHeight`: `Math.random() * extent - size / 2`. */
  function RandomCoord(extent: int, u: real): (c: real)
    ensures IsDraw(u) && extent > 0 ==> -SIZE / 2.0 <= c < extent as real - SIZE / 2.0
  {
    var c := u * extent as real - SIZE / 2.0;
    if IsDraw(u) && extent > 0 then ScaleBelow(u, 1.0, extent as real); c else c
  }

  /** A random coordinate lies in [-size/2, extent - size/2), so the shape may hang off either edge. */
  lemma RandomCoordBounds(extent: int, u: real)
    requires IsDraw(u) && extent > 0
    ensures -SIZE / 2.0 <= RandomCoord(extent, u) < extent as real - SIZE / 2.0
  {
    ScaleBelow(u, 1.0, extent as real);
  }

  /** `(Math.random() * 3).toInt()`. */
  function ShapeIndex(u: real): (index: int)
    requires IsDraw(u)
    ensures 0 <= index < 3
  {
    TruncateScaledDraw(u, 3);
    Truncate(u * 3.0)
  }

  /** The `when` of `shape`: 0 and 1 draw an oval, 2 a rectangle, anything else nothing. */
  function ShapeFor(index: int): (shape: Option<ShapeKind>)
    ensures shape.Some? <==> 0 <= index < 3
    ensures shape == Some(Rectangle) <==> index == 2
  {
    if index == 0 || index == 1 then Some(Oval)
    else if index == 2 then Some(Rectangle)
    else None
  }

  /**
   * Exactly one shape is drawn per regeneration, and it is an oval exactly
   * when the draw falls in the lower two thirds of [0, 1) (odds 2 : 1).
   */
  lemma ShapeDrawn(u: real)
    requires IsDraw(u)
    ensures ShapeFor(ShapeIndex(u)).Some?
    ensures ShapeFor(ShapeIndex(u)) == Some(Oval) <==> u < 2.0 / 3.0
    ensures ShapeFor(ShapeIndex(u)) == Some(Rectangle) <==> u >= 2.0 / 3.0
  {
    var i := ShapeIndex(u);
    assert i as real <= u * 3.0 < i as real + 1.0;
  }

  /**
   * The rectangle of `drawShape`: its left and top are the random anchor,
   * but its right and bottom are the View's own layout `left` / `top` plus
   * the size. It is therefore `size` wide exactly when the anchor coincides
   * with the View's left edge.
   */
  function DrawnRect(mLeft: real, mTop: real, viewLeft: int, viewTop: int): (r: RectF)
    ensures r.left == mLeft && r.top == mTop
    ensures r.right - r.left == SIZE <==> mLeft == viewLeft as real
    ensures r.bottom - r.top == SIZE <==> mTop == viewTop as real
  {
    RectF(mLeft, mTop, viewLeft as real + SIZE, viewTop as real + SIZE)
  }

  /** For a View laid out at the origin the rectangle is usually not square: an anchor at -750 gives a 2250-wide one. */
  lemma DrawnRectNotFixedSize()
    ensures DrawnRect(-750.0, 0.0, 0, 0).right - DrawnRect(-750.0, 0.0, 0, 0).left == 2250.0
  {
  }

  /** `linearGradient(mLeft, mTop)`: the gradient spans exactly `size` on both axes from the anchor. */
  function GradientFor(mLeft: real, mTop: real): (g: Gradient)
    ensures g.x0 == mLeft && g.y0 == mTop
    ensures g.x1 - g.x0 == SIZE && g.y1 - g.y0 == SIZE
  {
    Gradient(mLeft, mTop, mLeft + SIZE, mTop + SIZE)
  }

  /** One `quadTo(randomWidth(), randomHeight(), randomWidth(), randomHeight())`. */
  function QuadFor(width: int, height: int, q: QuadDraw): Quad {
    Quad(Point(RandomCoord(width, q.cx), RandomCoord(height, q.cy)),
         Point(RandomCoord(width, q.ex), RandomCoord(height, q.ey)))
  }

  /** The path `bessel` builds: one quad per segment draw, in order. */
  function PathOf(width: int, height: int, draws: seq<QuadDraw>): (path: seq<Quad>)
    ensures |path| == |draws|
    ensures forall k :: 0 <= k < |draws| ==> path[k] == QuadFor(width, height, draws[k])
  {
    seq(|draws|, k requires 0 <= k < |draws| => QuadFor(width, height, draws[k]))
  }

  predicate InBounds(width: int, height: int, p: Point) {
    && -SIZE / 2.0 <= p.x < width as real - SIZE / 2.0
    && -SIZE / 2.0 <= p.y < height as real - SIZE / 2.0
  }

  /** Every control and end point of a travel path lies in the same range as a shape's anchor. */
  lemma PathInBounds(width: int, height: int, draws: seq<QuadDraw>)
    requires width > 0 && height > 0
    requires forall k :: 0 <= k < |draws| ==> IsQuadDraw(draws[k])
    ensures |PathOf(width, height, draws)| == |draws|
    ensures forall k :: 0 <= k < |draws| ==>
      InBounds(width, height, PathOf(width, height, draws)[k].control) &&
      InBounds(width, height, PathOf(width, height, draws)[k].end)
  {
    forall k | 0 <= k < |draws|
      ensures InBounds(width, height, PathOf(width, height, draws)[k].control)
      ensures InBounds(width, height, PathOf(width, height, draws)[k].end)
    {
      RandomCoordBounds(width, draws[k].cx);
      RandomCoordBounds(height, draws[k].cy);
      RandomCoordBounds(width, draws[k].ex);
      RandomCoordBounds(height, draws[k].ey);
    }
  }

  /** The `for (i in 0 until size)` loop of `bessel`, appending one `quadTo` per iteration. */
  method BuildPath(width: int, height: int, draws: seq<QuadDraw>) returns (path: seq<Quad>)
    requires |draws| == PATH_SEGMENTS
    ensures |path| == PATH_SEGMENTS
    ensures path == PathOf(width, height, draws)
  {
    path := [];
    for i := 0 to PATH_SEGMENTS
      invariant |path| == i
      invariant forall k :: 0 <= k < i ==> path[k] == QuadFor(width, height, draws[k])
    {
      path := path + [QuadFor(width, height, draws[i])];
    }
  }
}
