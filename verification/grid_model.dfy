/** The control-point lattice of a rows-by-columns mesh: a flat sequence of
    normalized points in row-major order, rebuilt from scratch whenever the
    grid dimensions change. */
module GridModel {
  import opened Geometry
  import opened FlatIndexing

  /** The distance between neighbouring grid lines on an axis with n lines:
      the unit interval split into n - 1 equal steps, or 0 for a single line. */
  function Spacing(n: int): (s: real)
    ensures n > 1 ==> s > 0.0 && s * (n - 1) as real == 1.0
    ensures n <= 1 ==> s == 0.0
  {
    if n > 1 then 1.0 / (n - 1) as real else 0.0
  }

  /** The regular-grid position of the point in row r, column c. */
  function GridPoint(rows: int, cols: int, r: int, c: int): Point {
    Point(c as real * Spacing(cols), r as real * Spacing(rows))
  }

  /** Row r of the lattice: its points from column 0 to column cols - 1. */
  function Row(rows: int, cols: nat, r: int): (pts: seq<Point>)
    ensures |pts| == cols
  {
    seq(cols, c => GridPoint(rows, cols, r, c))
  }

  /** The first k rows of the lattice, one after the other. */
  function Rows(rows: int, cols: nat, k: nat): (pts: seq<Point>)
    ensures |pts| == Offset(k, cols)
  {
    if k == 0 then [] else Rows(rows, cols, k - 1) + Row(rows, cols, k - 1)
  }

  /** The lattice of a grid with `rows` rows and `cols` columns. */
  function Lattice(rows: int, cols: int): (pts: seq<Point>)
    requires rows >= 1 && cols >= 1
    ensures |pts| == rows * cols
  {
    OffsetIsProduct(rows, cols);
    Rows(rows, cols, rows)
  }

  lemma {:induction false} RowsAt(rows: int, cols: nat, k: nat, r: nat, c: nat)
    requires r < k && c < cols
    ensures Offset(r, cols) + c < |Rows(rows, cols, k)| &&
            Rows(rows, cols, k)[Offset(r, cols) + c] == GridPoint(rows, cols, r, c)
  {
    OffsetBound(r, c, k, cols);
    if r < k - 1 {
      RowsAt(rows, cols, k - 1, r, c);
    }
  }

  /** The lattice is row-major: row r, column c is at flat index
      Offset(r, cols) + c, that is r * cols + c. */
  lemma {:induction false} LatticeRowMajor(rows: int, cols: int, r: int, c: int)
    requires rows >= 1 && cols >= 1
    requires 0 <= r < rows && 0 <= c < cols
    ensures Offset(r, cols) + c < |Lattice(rows, cols)| &&
            Lattice(rows, cols)[Offset(r, cols) + c] == GridPoint(rows, cols, r, c)
  {
    RowsAt(rows, cols, rows, r, c);
  }

  /** Equivalently, flat index i holds the point of row i / cols, column i % cols. */
  lemma {:induction false} LatticeAtFlatIndex(rows: int, cols: int, i: int)
    requires rows >= 1 && cols >= 1
    requires 0 <= i < |Lattice(rows, cols)|
    ensures 0 <= i / cols < rows
    ensures Lattice(rows, cols)[i] == GridPoint(rows, cols, i / cols, i % cols)
  {
    OffsetIsProduct(rows, cols);
    FlatIndexInRange(i, rows, cols);
    LatticeRowMajor(rows, cols, i / cols, i % cols);
  }

  /** Row r, column c of the grid is at flat index Offset(r, cols) + c of
      `pts` and holds its regular-grid position. */
  predicate RowMajor(pts: seq<Point>, rows: int, cols: int) {
    forall r, c | 0 <= r < rows && 0 <= c < cols ::
      Offset(r, cols) + c < |pts| && pts[Offset(r, cols) + c] == GridPoint(rows, cols, r, c)
  }

  /** The first `rows` rows, one after the other, are laid out row-major. */
  lemma {:induction false} RowsRowMajor(rows: int, cols: nat)
    requires rows >= 1
    ensures RowMajor(Rows(rows, cols, rows), rows, cols)
  {
    forall r, c | 0 <= r < rows && 0 <= c < cols
      ensures Offset(r, cols) + c < |Rows(rows, cols, rows)|
      ensures Rows(rows, cols, rows)[Offset(r, cols) + c] == GridPoint(rows, cols, r, c)
    {
      RowsAt(rows, cols, rows, r, c);
    }
  }

  /** The nested loops of the source: for each row, for each column, append the
      point. They build exactly the row-major lattice. */
  method BuildLattice(rows: int, cols: int) returns (pts: seq<Point>)
    requires rows >= 1 && cols >= 1
    ensures |pts| == Offset(rows, cols)
    ensures RowMajor(pts, rows, cols)
    ensures pts == Lattice(rows, cols)
  {
    pts := [];
    var rowSpacing := Spacing(rows);
    var columnSpacing := Spacing(cols);
    var row := 0;
    while row < rows
      invariant 0 <= row <= rows
      invariant pts == Rows(rows, cols, row)
    {
      var y := row as real * rowSpacing;
      var column := 0;
      while column < cols
        invariant 0 <= column <= cols
        invariant pts == Rows(rows, cols, row) + Row(rows, cols, row)[..column]
      {
        var x := column as real * columnSpacing;
        assert Row(rows, cols, row)[column] == Point(x, y);
        assert Row(rows, cols, row)[..column + 1] == Row(rows, cols, row)[..column] + [Point(x, y)];
        pts := pts + [Point(x, y)];
        column := column + 1;
      }
      assert Row(rows, cols, row)[..cols] == Row(rows, cols, row);
      row := row + 1;
    }
    RowsRowMajor(rows, cols);
  }

  /** A coordinate on an axis with n >= 2 lines, at line k of 0..n-1, is in [0, 1]. */
  lemma AxisInUnit(k: int, n: int)
    requires n >= 2 && 0 <= k < n
    ensures InUnit(k as real * Spacing(n))
  {
    var s := Spacing(n);
    assert (n - 1 - k) as real * s >= 0.0;
    assert k as real * s + (n - 1 - k) as real * s == (n - 1) as real * s;
  }

  /** With at least two lines on each axis every lattice point is in the unit square. */
  lemma {:induction false} LatticeInUnitSquare(rows: int, cols: int)
    requires rows >= 2 && cols >= 2
    ensures forall i | 0 <= i < |Lattice(rows, cols)| :: InUnitSquare(Lattice(rows, cols)[i])
  {
    forall i | 0 <= i < |Lattice(rows, cols)|
      ensures InUnitSquare(Lattice(rows, cols)[i])
    {
      LatticeAtFlatIndex(rows, cols, i);
      AxisInUnit(i / cols, rows);
      AxisInUnit(i % cols, cols);
    }
  }

  /** The four corners of a lattice with at least two lines on each axis are
      the corners of the unit square: first and last point of the first row,
      first and last point of the last row. */
  lemma {:induction false} LatticeCorners(rows: int, cols: int)
    requires rows >= 2 && cols >= 2
    ensures Offset(rows - 1, cols) + (cols - 1) < |Lattice(rows, cols)|
    ensures Lattice(rows, cols)[0] == Point(0.0, 0.0)
    ensures Lattice(rows, cols)[cols - 1] == Point(1.0, 0.0)
    ensures Lattice(rows, cols)[Offset(rows - 1, cols)] == Point(0.0, 1.0)
    ensures Lattice(rows, cols)[Offset(rows - 1, cols) + (cols - 1)] == Point(1.0, 1.0)
  {
    LatticeRowMajor(rows, cols, 0, 0);
    LatticeRowMajor(rows, cols, 0, cols - 1);
    LatticeRowMajor(rows, cols, rows - 1, 0);
    LatticeRowMajor(rows, cols, rows - 1, cols - 1);
  }

  /** An axis with a single line has spacing 0, so every point of a one-row
      lattice has y = 0 and every point of a one-column lattice has x = 0. */
  lemma {:induction false} SingleLineAxis(rows: int, cols: int)
    requires rows >= 1 && cols >= 1
    ensures rows == 1 ==> forall i | 0 <= i < |Lattice(rows, cols)| :: Lattice(rows, cols)[i].y == 0.0
    ensures cols == 1 ==> forall i | 0 <= i < |Lattice(rows, cols)| :: Lattice(rows, cols)[i].x == 0.0
  {
    forall i | 0 <= i < |Lattice(rows, cols)|
      ensures Lattice(rows, cols)[i] == GridPoint(rows, cols, i / cols, i % cols)
    {
      LatticeAtFlatIndex(rows, cols, i);
    }
  }

  /** The nine points the editor starts with. */
  function InitialControlPoints(): seq<Point> {
    [ Point(0.0, 0.0), Point(0.5, 0.0), Point(1.0, 0.0),
      Point(0.0, 0.5), Point(0.5, 0.5), Point(1.0, 0.5),
      Point(0.0, 1.0), Point(0.5, 1.0), Point(1.0, 1.0) ]
  }

  /** The 3-by-3 lattice is exactly the initial fixture. */
  lemma InitialIsThreeByThreeLattice()
    ensures Lattice(3, 3) == InitialControlPoints()
  {
    var l := Lattice(3, 3);
    assert Spacing(3) == 0.5;
    forall i | 0 <= i < 9
      ensures l[i] == InitialControlPoints()[i]
    {
      LatticeAtFlatIndex(3, 3, i);
    }
  }
}
