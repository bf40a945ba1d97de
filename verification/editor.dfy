/** The editor's state and the events that change it: the four resize buttons
    and the drag of a control-point handle. The view layer, the gesture
    machinery and the renderer are not modelled; what the renderer is handed is
    captured by `Renderable`. */
module Editor {
  import opened Geometry
  import opened FlatIndexing
  import opened GridModel
  import opened ColourAssigner

  /** The view's state: the grid dimensions and the two parallel arrays that
      are handed to the renderer. */
  datatype State<C> = State(rowCount: int, columnCount: int, controlPoints: seq<Point>, colors: seq<C>)

  /** What the renderer is given: `columnCount` as width, `rowCount` as height,
      and one point and one colour per grid vertex. */
  predicate Renderable<C>(s: State<C>) {
    && s.rowCount >= 1 && s.columnCount >= 1
    && |s.controlPoints| == s.rowCount * s.columnCount
    && |s.colors| == s.rowCount * s.columnCount
  }

  /** The invariant the editor keeps: renderable, at least two lines on each
      axis, and every control point inside the unit square. */
  predicate Valid<C>(s: State<C>) {
    && Renderable(s)
    && s.rowCount >= 2 && s.columnCount >= 2
    && forall i | 0 <= i < |s.controlPoints| :: InUnitSquare(s.controlPoints[i])
  }

  function MaxInt(a: int, b: int): int {
    if a >= b then a else b
  }

  /** The state the editor starts in: a 3-by-3 regular grid whose three
      column bands are blue, green and red. */
  function Initial<C>(blue: C, green: C, red: C): State<C> {
    State(3, 3, InitialControlPoints(), InitialColours(blue, green, red))
  }

  /** The initial state is exactly what regeneration produces for a 3-by-3 grid
      with bands blue, green, red, and it satisfies the invariant. */
  lemma {:induction false} InitialState<C>(blue: C, green: C, red: C)
    ensures Initial(blue, green, red).controlPoints == Lattice(3, 3)
    ensures Initial(blue, green, red).colors == ColourTable([blue, green, red], 3)
    ensures Valid(Initial(blue, green, red))
  {
    InitialIsThreeByThreeLattice();
    InitialIsThreeBandTable(blue, green, red);
    LatticeInUnitSquare(3, 3);
  }

  /** Regenerate the lattice for the current dimensions. Everything else is
      kept; every dragged position is lost. */
  function UpdateControlPoints<C>(s: State<C>): (t: State<C>)
    requires s.rowCount >= 1 && s.columnCount >= 1
    ensures t.rowCount == s.rowCount && t.columnCount == s.columnCount
    ensures t.colors == s.colors
    ensures t.controlPoints == Lattice(s.rowCount, s.columnCount)
    ensures |t.controlPoints| == s.rowCount * s.columnCount
    ensures s.rowCount >= 2 && s.columnCount >= 2 ==>
              forall i | 0 <= i < |t.controlPoints| :: InUnitSquare(t.controlPoints[i])
  {
    var t := s.(controlPoints := Lattice(s.rowCount, s.columnCount));
    if s.rowCount >= 2 && s.columnCount >= 2 then
      LatticeInUnitSquare(s.rowCount, s.columnCount);
      t
    else
      t
  }

  /** Replace the colour table by one built from fresh band colours, one per
      column. Dimensions and points are kept. */
  function UpdateColours<C>(s: State<C>, bands: seq<C>): (t: State<C>)
    requires s.rowCount >= 1 && s.columnCount >= 1 && |bands| == s.columnCount
    ensures t.rowCount == s.rowCount && t.columnCount == s.columnCount
    ensures t.controlPoints == s.controlPoints
    ensures |t.colors| == s.rowCount * s.columnCount
    ensures forall i | 0 <= i < |t.colors| :: 0 <= i / s.rowCount < |bands| && t.colors[i] == bands[i / s.rowCount]
  {
    ColourTableByIndex(bands, s.rowCount);
    s.(colors := ColourTable(bands, s.rowCount))
  }

  /** Regenerate both arrays: the lattice, then the colours. */
  function UpdateParameters<C>(s: State<C>, bands: seq<C>): (t: State<C>)
    requires s.rowCount >= 1 && s.columnCount >= 1 && |bands| == s.columnCount
    ensures t.rowCount == s.rowCount && t.columnCount == s.columnCount
    ensures t.controlPoints == Lattice(s.rowCount, s.columnCount)
    ensures t.colors == ColourTable(bands, s.rowCount)
    ensures Renderable(t)
    ensures s.rowCount >= 2 && s.columnCount >= 2 ==> Valid(t)
  {
    UpdateColours(UpdateControlPoints(s), bands)
  }

  /** Rows minus: one row fewer, but never fewer than two; then the lattice is
      regenerated, and regenerated again together with the colours. */
  function DecrementRows<C>(s: State<C>, bands: seq<C>): (t: State<C>)
    requires s.columnCount >= 1 && |bands| == s.columnCount
    ensures t.rowCount >= 2
    ensures s.rowCount > 2 ==> t.rowCount == s.rowCount - 1
    ensures s.rowCount <= 2 ==> t.rowCount == 2
    ensures t.columnCount == s.columnCount
    ensures t.controlPoints == Lattice(t.rowCount, t.columnCount)
    ensures t.colors == ColourTable(bands, t.rowCount)
    ensures s.columnCount >= 2 ==> Valid(t)
  {
    var resized := s.(rowCount := MaxInt(2, s.rowCount - 1));
    UpdateParameters(UpdateControlPoints(resized), bands)
  }

  /** Rows plus: one more row; then the lattice is regenerated, and regenerated
      again together with the colours. */
  function IncrementRows<C>(s: State<C>, bands: seq<C>): (t: State<C>)
    requires s.rowCount >= 0 && s.columnCount >= 1 && |bands| == s.columnCount
    ensures t.rowCount == s.rowCount + 1
    ensures t.columnCount == s.columnCount
    ensures t.controlPoints == Lattice(t.rowCount, t.columnCount)
    ensures t.colors == ColourTable(bands, t.rowCount)
    ensures s.rowCount >= 1 && s.columnCount >= 2 ==> Valid(t)
  {
    var resized := s.(rowCount := s.rowCount + 1);
    UpdateParameters(UpdateControlPoints(resized), bands)
  }

  /** Columns minus: one column fewer, but never fewer than two; then both
      arrays are regenerated. */
  function DecrementColumns<C>(s: State<C>, bands: seq<C>): (t: State<C>)
    requires s.rowCount >= 1 && |bands| == MaxInt(2, s.columnCount - 1)
    ensures t.columnCount >= 2
    ensures s.columnCount > 2 ==> t.columnCount == s.columnCount - 1
    ensures s.columnCount <= 2 ==> t.columnCount == 2
    ensures t.rowCount == s.rowCount
    ensures t.controlPoints == Lattice(t.rowCount, t.columnCount)
    ensures t.colors == ColourTable(bands, t.rowCount)
    ensures s.rowCount >= 2 ==> Valid(t)
  {
    UpdateParameters(s.(columnCount := MaxInt(2, s.columnCount - 1)), bands)
  }

  /** Columns plus: one more column; then both arrays are regenerated. */
  function IncrementColumns<C>(s: State<C>, bands: seq<C>): (t: State<C>)
    requires s.rowCount >= 1 && s.columnCount >= 0 && |bands| == s.columnCount + 1
    ensures t.columnCount == s.columnCount + 1
    ensures t.rowCount == s.rowCount
    ensures t.controlPoints == Lattice(t.rowCount, t.columnCount)
    ensures t.colors == ColourTable(bands, t.rowCount)
    ensures s.rowCount >= 2 && s.columnCount >= 1 ==> Valid(t)
  {
    UpdateParameters(s.(columnCount := s.columnCount + 1), bands)
  }

  /** Regenerating the lattice depends only on the dimensions, so the row
      buttons' second regeneration changes nothing: regenerating twice is
      regenerating once. */
  lemma RegenerationIdempotent<C>(s: State<C>, bands: seq<C>)
    requires s.rowCount >= 1 && s.columnCount >= 1 && |bands| == s.columnCount
    ensures UpdateControlPoints(UpdateControlPoints(s)) == UpdateControlPoints(s)
    ensures UpdateParameters(UpdateControlPoints(s), bands) == UpdateParameters(s, bands)
  {
  }

  /** A drag of handle `index` to `location` in a view of size `size`: that one
      control point moves to the clamped normalized location; nothing else
      changes. */
  function Drag<C>(s: State<C>, index: int, location: Point, size: Size): (t: State<C>)
    requires 0 <= index < |s.controlPoints|
    ensures t.rowCount == s.rowCount && t.columnCount == s.columnCount
    ensures t.colors == s.colors
    ensures |t.controlPoints| == |s.controlPoints|
    ensures forall j | 0 <= j < |s.controlPoints| && j != index ::
              t.controlPoints[j] == s.controlPoints[j]
    ensures t.controlPoints[index] == UpdatedPosition(location, size)
    ensures InUnitSquare(t.controlPoints[index])
    ensures Inside(location, size) ==>
              t.controlPoints[index].x * size.width == location.x &&
              t.controlPoints[index].y * size.height == location.y
    ensures Valid(s) ==> Valid(t)
  {
    s.(controlPoints := s.controlPoints[index := UpdatedPosition(location, size)])
  }

  /** The four resize buttons. */
  datatype Button = RowMinus | RowPlus | ColumnMinus | ColumnPlus

  function RowsAfter(b: Button, rows: int): int {
    match b
    case RowMinus => MaxInt(2, rows - 1)
    case RowPlus => rows + 1
    case _ => rows
  }

  function ColumnsAfter(b: Button, cols: int): int {
    match b
    case ColumnMinus => MaxInt(2, cols - 1)
    case ColumnPlus => cols + 1
    case _ => cols
  }

  /** The input the editor reacts to: a button press, with the colours drawn
      for the new column bands, or one drag update. */
  datatype Event<C> =
    | Pressed(button: Button, bands: seq<C>)
    | Dragged(index: int, location: Point, size: Size)

  /** An event the running editor can receive in state s: one colour drawn per
      column after the resize, and a handle that exists. */
  predicate Enabled<C>(s: State<C>, e: Event<C>) {
    match e
    case Pressed(b, bands) =>
      && RowsAfter(b, s.rowCount) >= 1 && ColumnsAfter(b, s.columnCount) >= 1
      && s.rowCount >= 0 && s.columnCount >= 0
      && |bands| == ColumnsAfter(b, s.columnCount)
    case Dragged(index, _, _) =>
      0 <= index < |s.controlPoints|
  }

  function Step<C>(s: State<C>, e: Event<C>): (t: State<C>)
    requires Enabled(s, e)
    ensures Valid(s) ==> Valid(t)
  {
    match e
    case Pressed(RowMinus, bands) => DecrementRows(s, bands)
    case Pressed(RowPlus, bands) => IncrementRows(s, bands)
    case Pressed(ColumnMinus, bands) => DecrementColumns(s, bands)
    case Pressed(ColumnPlus, bands) => IncrementColumns(s, bands)
    case Dragged(index, location, size) => Drag(s, index, location, size)
  }

  /** Every event of the sequence is enabled in the state it reaches. */
  predicate Feasible<C>(s: State<C>, events: seq<Event<C>>)
    decreases |events|
  {
    |events| == 0 || (Enabled(s, events[0]) && Feasible(Step(s, events[0]), events[1..]))
  }

  function Run<C>(s: State<C>, events: seq<Event<C>>): State<C>
    requires Feasible(s, events)
    decreases |events|
  {
    if |events| == 0 then s else Run(Step(s, events[0]), events[1..])
  }

  /** Whatever the user does, the editor stays valid: in particular the points
      and the colours handed to the renderer always number rowCount * columnCount. */
  lemma {:induction false} RunPreservesValid<C>(s: State<C>, events: seq<Event<C>>)
    requires Valid(s) && Feasible(s, events)
    ensures Valid(Run(s, events))
    decreases |events|
  {
    if |events| > 0 {
      RunPreservesValid(Step(s, events[0]), events[1..]);
    }
  }

  /** Every state reachable from the initial one is valid. */
  lemma {:induction false} ReachableIsValid<C>(blue: C, green: C, red: C, events: seq<Event<C>>)
    requires Feasible(Initial(blue, green, red), events)
    ensures Valid(Run(Initial(blue, green, red), events))
  {
    InitialState(blue, green, red);
    RunPreservesValid(Initial(blue, green, red), events);
  }

  /** A resize discards any drag made before it: the lattice is rebuilt from the
      dimensions alone. */
  lemma ResizeDiscardsDrag<C>(s: State<C>, index: int, location: Point, size: Size, b: Button, bands: seq<C>)
    requires 0 <= index < |s.controlPoints|
    requires Enabled(s, Pressed(b, bands))
    ensures Enabled(Drag(s, index, location, size), Pressed(b, bands))
    ensures Step(Drag(s, index, location, size), Pressed(b, bands)) == Step(s, Pressed(b, bands))
  {
  }

  /** In a square grid the colour bands coincide with the lattice's rows: the
      point in row r, column c gets band r's colour. */
  lemma {:induction false} SquareGridRowsShareBand<C>(bands: seq<C>, n: int, r: int, c: int)
    requires n >= 1 && |bands| == n
    requires 0 <= r < n && 0 <= c < n
    ensures Offset(r, n) + c < |Lattice(n, n)| && Offset(r, n) + c < |ColourTable(bands, n)|
    ensures Lattice(n, n)[Offset(r, n) + c] == GridPoint(n, n, r, c)
    ensures ColourTable(bands, n)[Offset(r, n) + c] == bands[r]
  {
    LatticeRowMajor(n, n, r, c);
    ColourTableAt(bands, n, r, c);
  }

  /** In a grid that is not square a band need not line up with a row: with two
      rows and three columns, row 0's first point gets band 0 but its last
      point gets band 1. */
  lemma BandStraddlesRowWhenNotSquare<C>(a: C, b: C, c: C)
    ensures Lattice(2, 3)[0] == GridPoint(2, 3, 0, 0)
    ensures Lattice(2, 3)[2] == GridPoint(2, 3, 0, 2)
    ensures ColourTable([a, b, c], 2)[0] == a
    ensures ColourTable([a, b, c], 2)[2] == b
  {
    LatticeRowMajor(2, 3, 0, 0);
    LatticeRowMajor(2, 3, 0, 2);
    ColourTableAt([a, b, c], 2, 0, 0);
    ColourTableAt([a, b, c], 2, 1, 0);
  }
}
