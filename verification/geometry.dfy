/** Points and sizes in the editor's two coordinate spaces: the normalized unit
    square in which control points live, and the pixel space of the view that
    hosts the gradient. Swift's Float and CGFloat are modelled as exact reals. */
module Geometry {

  /** A control point (SIMD2<Float>) or a location in the view (CGPoint). */
  datatype Point = Point(x: real, y: real)

  /** The size of the view that hosts the gradient (CGSize). */
  datatype Size = Size(width: real, height: real)

  predicate InUnit(v: real) {
    0.0 <= v <= 1.0
  }

  predicate InUnitSquare(p: Point) {
    InUnit(p.x) && InUnit(p.y)
  }

  /** A view with a positive extent on both axes. */
  predicate Positive(size: Size) {
    size.width > 0.0 && size.height > 0.0
  }

  /** A view location inside the (closed) rectangle of the view. */
  predicate Inside(location: Point, size: Size) {
    0.0 <= location.x <= size.width && 0.0 <= location.y <= size.height
  }

  function Min(a: real, b: real): real {
    if a <= b then a else b
  }

  function Max(a: real, b: real): real {
    if a >= b then a else b
  }

  /** `min(max(0, v), 1)`: the value v forced into [0, 1]. */
  function Clamp01(v: real): (r: real)
    ensures InUnit(r)
    ensures InUnit(v) ==> r == v
    ensures v < 0.0 ==> r == 0.0
    ensures v > 1.0 ==> r == 1.0
  {
    Min(Max(0.0, v), 1.0)
  }

  /** One axis of a drag: the view coordinate `a` as a fraction of the
      view's extent `w` on that axis, clamped into [0, 1]. On an axis of zero
      extent the division yields +infinity, -infinity or NaN, and Swift's
      `max(0, _)` and `min(_, 1)` turn these into 1, 0 and 0: the point snaps
      to 1 when `a` is positive and to 0 otherwise. For every extent that is
      not negative the clauses below fix the result. */
  function Normalize(a: real, w: real): (v: real)
    ensures InUnit(v)
    ensures 0.0 <= a <= w ==> v * w == a
    ensures w >= 0.0 && a <= 0.0 ==> v == 0.0
    ensures w >= 0.0 && a > w ==> v == 1.0
  {
    if w == 0.0 then
      if a > 0.0 then 1.0 else 0.0
    else
      RatioFacts(a, w);
      Clamp01(a / w)
  }

  /** The normalized point a drag at `location` moves a control point to. */
  function UpdatedPosition(location: Point, size: Size): (p: Point)
    ensures InUnitSquare(p)
    ensures 0.0 <= location.x <= size.width ==> p.x * size.width == location.x
    ensures 0.0 <= location.y <= size.height ==> p.y * size.height == location.y
    ensures size.width >= 0.0 && location.x <= 0.0 ==> p.x == 0.0
    ensures size.height >= 0.0 && location.y <= 0.0 ==> p.y == 0.0
    ensures size.width >= 0.0 && location.x > size.width ==> p.x == 1.0
    ensures size.height >= 0.0 && location.y > size.height ==> p.y == 1.0
  {
    Point(Normalize(location.x, size.width), Normalize(location.y, size.height))
  }

  /** In a view of zero width (or height) a drag cannot be proportioned, and
      the coordinate snaps to the far edge when the pointer is to the right of
      (below) the origin and to 0 otherwise. */
  lemma ZeroExtentSnaps(location: Point, size: Size)
    ensures size.width == 0.0 ==>
              UpdatedPosition(location, size).x == (if location.x > 0.0 then 1.0 else 0.0)
    ensures size.height == 0.0 ==>
              UpdatedPosition(location, size).y == (if location.y > 0.0 then 1.0 else 0.0)
  {
  }

  /** One axis of drawing: the fraction `v` of the view's extent `w`. */
  function Scale(v: real, w: real): real {
    w * v
  }

  /** Where the handle of a normalized control point is drawn in the view. */
  function PointPosition(p: Point, size: Size): (location: Point)
    ensures p.x == 0.0 ==> location.x == 0.0
    ensures p.y == 0.0 ==> location.y == 0.0
    ensures p.x == 1.0 ==> location.x == size.width
    ensures p.y == 1.0 ==> location.y == size.height
  {
    Point(Scale(p.x, size.width), Scale(p.y, size.height))
  }

  /** Dragging a handle to exactly where it is drawn leaves its point unchanged:
      the drag mapping undoes the drawing mapping on the unit square. */
  lemma DragToDrawnPosition(p: Point, size: Size)
    requires Positive(size)
    requires InUnitSquare(p)
    ensures Inside(PointPosition(p, size), size)
    ensures UpdatedPosition(PointPosition(p, size), size) == p
  {
    AxisRoundTrip(p.x, size.width);
    AxisRoundTrip(p.y, size.height);
  }

  /** Drawing the point a drag produced puts the handle back under the pointer,
      as long as the pointer is inside the view. */
  lemma DrawnAtDragLocation(location: Point, size: Size)
    requires Positive(size)
    requires Inside(location, size)
    ensures PointPosition(UpdatedPosition(location, size), size) == location
  {
  }

  /** Clamping a drag twice is clamping it once: feeding the drawn position of a
      dragged point back through the drag mapping yields the same point. */
  lemma UpdatedPositionIdempotent(location: Point, size: Size)
    requires Positive(size)
    ensures var p := UpdatedPosition(location, size);
            UpdatedPosition(PointPosition(p, size), size) == p
  {
    DragToDrawnPosition(UpdatedPosition(location, size), size);
  }

  lemma AxisRoundTrip(v: real, w: real)
    requires w > 0.0 && InUnit(v)
    ensures 0.0 <= Scale(v, w) <= w
    ensures Normalize(Scale(v, w), w) == v
  {
    var a := Scale(v, w);
    assert w * (1.0 - v) >= 0.0;
    assert 0.0 <= a <= w;
    DivCancel(v, w);
    assert Normalize(a, w) == Clamp01(a / w) == v;
  }

  lemma DivCancel(v: real, w: real)
    requires w != 0.0
    ensures (w * v) / w == v
  {
  }

  /** The facts about `a / w` that the clamp needs. */
  lemma RatioFacts(a: real, w: real)
    requires w != 0.0
    ensures (a / w) * w == a
    ensures w > 0.0 && a <= 0.0 ==> a / w <= 0.0
    ensures w > 0.0 && a > w ==> a / w > 1.0
  {
  }
}
