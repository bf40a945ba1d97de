# Mesh-gradient editor: state handling

A Dafny model of the non-GUI logic of MeshGradientEditor's `ContentView`. The
editor keeps a grid of `rowCount` by `columnCount` control points and a parallel
array of colours, and hands both to the platform's mesh-gradient renderer. The
model treats the view as an immutable record
`State(rowCount, columnCount, controlPoints, colors)` and models these parts:

- the lattice builder (`updateControlPoints`): `rows * cols` normalized points in
  row-major order, spaced `1 / (n - 1)` apart, or 0 apart on an axis with one line;
- the colour-band filler (`updateColours`): one colour per column band, repeated
  `rowCount` times, filled band by band (column-major);
- the four resize buttons with `updateParameters`. Minus floors a dimension at 2
  and plus adds 1. The row buttons regenerate the lattice twice;
- the drag update (`updatedPosition` and the `onChanged` write): the location is
  divided by the view size, each axis is clamped into [0, 1], and one control point
  is overwritten;
- `pointPosition`, where a handle is drawn. It is the inverse of the drag mapping
  on the unit square;
- the 3-by-3 initial state: the fixture points and the blue/green/red colours.

Flat indices are written `Offset(k, n) + j`. `Offset(k, n)` is a recursive
definition of k * n, and `FlatIndexing.OffsetIsProduct` proves the two equal.
The products in the source's index arithmetic appear in this form.

Modules: `Geometry` holds points, sizes, the clamp, and the drag and drawing
mappings. `FlatIndexing` holds the arithmetic of flattened nested loops.
`GridModel` is the lattice. `ColourAssigner` is the colour table. `Editor` holds
the state, the buttons, the drag, and event sequences.

`Float` and `CGFloat` are modelled as exact `real`s. Colours are an abstract type
parameter `C`. Each random draw of `randomColor` becomes one entry of a
caller-supplied `bands` sequence, which has one colour per column.

The colour table is column-major: entry `c * rowCount + r` belongs to band `c`.
The lattice is row-major: entry `r * columnCount + c` is row `r`, column `c`.
So on a square grid each colour band lines up with a lattice row
(`Editor.SquareGridRowsShareBand`). On a non-square grid a band can straddle two
rows (`Editor.BandStraddlesRowWhenNotSquare`). The model keeps this behaviour as
written.

Behaviours of the code worth noting:

- Plus adds 1 with no floor, and minus computes `max(2, n - 1)`.
- The drag mapping divides by the view extent with no guard for a zero extent.
  Swift's `max(x, y)` is `y >= x ? y : x` and `min(x, y)` is `y < x ? y : x`.
  So the infinity or NaN of the division becomes 1 for a positive location and
  0 otherwise, and the written coordinate always lies in [0, 1]. The model
  states this case (`Geometry.Normalize`, `Geometry.ZeroExtentSnaps`).
- The row buttons call `updateControlPoints` before `updateParameters`, which
  calls it again. The model keeps both calls.

## Model

| member | source | states |
|---|---|---|
| Geometry.Clamp01 | MeshGradientEditor/ContentView.swift:137-138 | `min(max(0, v), 1)` lies in [0, 1]. It is the identity on [0, 1], gives 0 below 0 and 1 above 1. |
| Geometry.Normalize | MeshGradientEditor/ContentView.swift:137 | The clamped fraction always lies in [0, 1]. For an extent that is not negative it is fixed: exactly location / extent inside the extent, 0 at or below 0, and 1 beyond the extent. A zero extent gives 1 for a positive location and 0 otherwise. |
| Geometry.UpdatedPosition | MeshGradientEditor/ContentView.swift:135-140 | The dragged point always lies in the unit square. Inside the view each coordinate times the view extent gives back the location. At or below 0 an axis gives 0, and beyond the view's extent it gives 1. This includes an axis of zero extent. |
| Geometry.ZeroExtentSnaps | MeshGradientEditor/ContentView.swift:137-138 | On an axis of zero extent the division is infinite or NaN. The clamp turns it into 1 for a positive location and into 0 otherwise. |
| Geometry.PointPosition | MeshGradientEditor/ContentView.swift:131-133 | The handle of a corner coordinate (0 or 1) is drawn at the view's edge (0 or the view extent). |
| Geometry.DragToDrawnPosition | MeshGradientEditor/ContentView.swift:131-140 | For any point in the unit square, the drawn handle lies inside the view. Dragging the handle to where it is drawn gives back the same point. |
| Geometry.DrawnAtDragLocation | MeshGradientEditor/ContentView.swift:131-140 | For a location inside the view, the handle of the dragged point is drawn exactly under the pointer. |
| Geometry.UpdatedPositionIdempotent | MeshGradientEditor/ContentView.swift:135-140 | Clamping is idempotent: running a dragged point's drawn position through the drag mapping again changes nothing. |
| GridModel.Spacing | MeshGradientEditor/ContentView.swift:102-103 | For n > 1 lines the spacing is positive and n - 1 steps span exactly 1. For one line or fewer it is 0. |
| GridModel.Lattice | MeshGradientEditor/ContentView.swift:99-115 | The regenerated lattice has rows * cols points. `GridModel.LatticeRowMajor` fixes what they are. |
| GridModel.BuildLattice | MeshGradientEditor/ContentView.swift:99-115 | The source's nested row/column loops append exactly rows * cols points. Row r, column c lands at flat index r * cols + c with position (c * columnSpacing, r * rowSpacing). The result equals the lattice definition. |
| GridModel.LatticeRowMajor | MeshGradientEditor/ContentView.swift:105-111 | Row r, column c sits at flat index r * cols + c, written `Offset(r, cols) + c`, inside the lattice. The point there is (c * columnSpacing, r * rowSpacing). |
| GridModel.LatticeAtFlatIndex | MeshGradientEditor/ContentView.swift:105-111 | Flat index i of the lattice holds the point of row i / cols, column i % cols. |
| GridModel.LatticeInUnitSquare | MeshGradientEditor/ContentView.swift:102-110 | With at least two lines on each axis, every lattice point lies in [0, 1] x [0, 1]. |
| GridModel.LatticeCorners | MeshGradientEditor/ContentView.swift:102-110 | With at least two lines on each axis, the corner points are (0,0) at index 0, (1,0) at cols - 1, (0,1) at (rows - 1) * cols, and (1,1) at the last index. |
| GridModel.SingleLineAxis | MeshGradientEditor/ContentView.swift:102-103 | On an axis with one line the spacing is 0, so every point has coordinate 0 on that axis. |
| GridModel.InitialIsThreeByThreeLattice | MeshGradientEditor/ContentView.swift:150-159 | The 3-by-3 lattice equals the nine-point fixture, from (0,0), (0.5,0), (1,0) through (1,1). |
| ColourAssigner.ColourTable | MeshGradientEditor/ContentView.swift:117-129 | The table has one entry per band per row: |bands| * rows entries. |
| ColourAssigner.ColourTableAt | MeshGradientEditor/ContentView.swift:120-126 | Column-major order: entry r of band c is at flat index c * rows + r, written `Offset(c, rows) + r`, and holds band c's colour. |
| ColourAssigner.ColourTableByIndex | MeshGradientEditor/ContentView.swift:120-126 | Flat index i holds the colour of band i / rows. |
| ColourAssigner.BandUniform | MeshGradientEditor/ContentView.swift:121-125 | All rows entries of one band hold the same colour. |
| ColourAssigner.InitialIsThreeBandTable | MeshGradientEditor/ContentView.swift:17-21 | The initial colours (three blue, three green, three red) are the table for bands blue, green, red with three rows. |
| Editor.InitialState | MeshGradientEditor/ContentView.swift:150-159 | The preview state's points are the 3-by-3 lattice and its colours are the three-band table, so the initial state satisfies the invariant. |
| Editor.UpdateControlPoints | MeshGradientEditor/ContentView.swift:99-115 | Regeneration keeps the dimensions and colours. It replaces the points with the lattice for the current dimensions: rows * cols points, laid out as `GridModel.LatticeRowMajor` states. With at least two lines per axis, all points lie in the unit square. |
| Editor.UpdateColours | MeshGradientEditor/ContentView.swift:117-129 | With at least one row and one column, recolouring keeps the dimensions and points and yields rows * cols colours. Entry i is band i / rows's colour. |
| Editor.UpdateParameters | MeshGradientEditor/ContentView.swift:94-97 | Both arrays are regenerated from the dimensions. The result is renderable, and valid when both dimensions are at least 2. |
| Editor.DecrementRows | MeshGradientEditor/ContentView.swift:56-63 | Rows become one fewer and never drop below 2. Columns are unchanged and both arrays are regenerated for the new dimensions. |
| Editor.IncrementRows | MeshGradientEditor/ContentView.swift:64-70 | Rows become one more. Columns are unchanged and both arrays are regenerated for the new dimensions. |
| Editor.DecrementColumns | MeshGradientEditor/ContentView.swift:75-81 | Columns become one fewer and never drop below 2. Rows are unchanged and both arrays are regenerated for the new dimensions. |
| Editor.IncrementColumns | MeshGradientEditor/ContentView.swift:82-87 | Columns become one more. Rows are unchanged and both arrays are regenerated for the new dimensions. |
| Editor.RegenerationIdempotent | MeshGradientEditor/ContentView.swift:58-59 | Lattice regeneration depends only on the dimensions. Regenerating twice, as the row buttons do, equals regenerating once. |
| Editor.Drag | MeshGradientEditor/ContentView.swift:40-45 | A drag writes only controlPoints[index]. The written point is the drag mapping's point for the location and view size, so it lies in the unit square, is location / size inside the view, and saturates to 0 or 1 outside it. All other points, the colours and the dimensions are unchanged. The invariant is kept. |
| FlatIndexing.OffsetIsProduct | MeshGradientEditor/ContentView.swift:105-111 | The flat offset of outer iteration k, with n inner iterations each, is k * n. |
| FlatIndexing.FlatIndex | MeshGradientEditor/ContentView.swift:105-111 | The flat index r * cols + c of row r, column c decodes back by division to r and by remainder to c. `FlatIndexing.FlatIndexInRange` is the other direction. |
| Editor.Step | MeshGradientEditor/ContentView.swift:40-87 | Every button press and every drag update keeps the editor's invariant. |
| Editor.RunPreservesValid | MeshGradientEditor/ContentView.swift:27-32 | After any sequence of events from a valid state, the renderer still gets rowCount * columnCount points and as many colours, and both dimensions are at least 2. |
| Editor.ReachableIsValid | MeshGradientEditor/ContentView.swift:150-159 | Every state reachable from the initial 3-by-3 state is valid. |
| Editor.ResizeDiscardsDrag | MeshGradientEditor/ContentView.swift:56-87 | A resize after a drag gives the same state as the resize alone, so dragged positions are lost. |
| Editor.SquareGridRowsShareBand | MeshGradientEditor/ContentView.swift:105-126 | On an n-by-n grid, the lattice point in row r, column c gets band r's colour. |
| Editor.BandStraddlesRowWhenNotSquare | MeshGradientEditor/ContentView.swift:105-126 | On a 2-row, 3-column grid, row 0's first point gets band 0 but its last point gets band 1. |

## Left out

- SwiftUI layout, `GeometryReader`, the `Circle` handles, padding and button styling: these are presentation only.
- The `MeshGradient` renderer is a platform primitive. Only the shape of its input is modelled (`Editor.Renderable`).
- `randomColor` draws random colours. The draws are a caller-supplied `bands` sequence, one colour per column.
- `MeshGradientEditorApp.swift` only starts the app. Its initial state is the same as the preview fixture modelled by `Editor.Initial`.
- Geometry.Normalize: for a negative extent, which a view's size never has, the contract states only that the result lies in [0, 1].
- Geometry.DragToDrawnPosition, Geometry.DrawnAtDragLocation, Geometry.UpdatedPositionIdempotent: these need a positive view size. On an axis of zero extent every point is drawn at 0, so drawing has no inverse there.
- Float and CGFloat rounding: the model uses exact reals. For example, `1 / (n - 1)` is exact and `(n - 1) * spacing` is exactly 1.
- Swift `Int` overflow on `rowCount += 1` and `columnCount += 1`: the model uses unbounded integers.
- Swift's `0...n - 1` traps when n < 1. The builders have a precondition of at least one line per axis instead.
- An out-of-range `controlPoints[index]` write traps in Swift. `Editor.Drag` has a precondition that the index is in range instead; the view only creates handles for existing points.
- Continuous drag delivery is left out: each `onChanged` callback is one `Dragged` event.
