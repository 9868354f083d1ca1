/**
 * The reference ground grid of the viewer (buildGridMesh in a9.js).
 *
 * The builder walks x from -GRID_X_RANGE up to (but excluding) GRID_X_RANGE in
 * steps of the row spacing, emitting one line along Z per step, then walks z the
 * same way with the column spacing, emitting one line along X per step. Every
 * line is two vertices of three numbers each, pushed onto one flat sequence that
 * the renderer draws as a line list.
 */
module Grid {

  /** How far the grid extends in X and in Z, on both sides of the origin. */
  const GRID_X_RANGE: int := 100
  const GRID_Z_RANGE: int := 100

  /** A vertex: three consecutive numbers of the flat sequence. */
  datatype Vec3 = Vec3(x: int, y: int, z: int)

  /** The two loops of the builder: rows step in x, columns step in z. */
  datatype Family = Rows | Columns

  /** The (exclusive) end of a family's sweep; the sweep starts at its negation. */
  function Bound(fam: Family): int {
    match fam
    case Rows => GRID_X_RANGE
    case Columns => GRID_Z_RANGE
  }

  /** Endpoint `end` (0 or 1) of the line pushed at sweep coordinate t. */
  function Endpoint(fam: Family, t: int, end: nat): Vec3
    requires end < 2
  {
    match fam
    case Rows => Vec3(t, 0, if end == 0 then -GRID_Z_RANGE else GRID_Z_RANGE)
    case Columns => Vec3(if end == 0 then -GRID_X_RANGE else GRID_X_RANGE, 0, t)
  }

  /** The two vertices pushed for the line at sweep coordinate t. */
  function LineVertices(fam: Family, t: int): seq<Vec3> {
    [Endpoint(fam, t, 0), Endpoint(fam, t, 1)]
  }

  /** The vertices one loop pushes when its variable starts at t. */
  function Lines(fam: Family, t: int, spacing: int): seq<Vec3>
    requires spacing > 0
    decreases Bound(fam) - t
  {
    if t < Bound(fam) then LineVertices(fam, t) + Lines(fam, t + spacing, spacing) else []
  }

  /** The vertices of the whole grid: all rows, then all columns. */
  function GridVertices(rowSpacing: int, columnSpacing: int): seq<Vec3>
    requires rowSpacing > 0 && columnSpacing > 0
  {
    Lines(Rows, -GRID_X_RANGE, rowSpacing) + Lines(Columns, -GRID_Z_RANGE, columnSpacing)
  }

  /** The numbers one `push(x, y, z)` appends. */
  function Coords(p: Vec3): seq<int> {
    [p.x, p.y, p.z]
  }

  /** Vertices pushed one after another onto an empty flat sequence. */
  function Flatten(vs: seq<Vec3>): seq<int>
    decreases |vs|
  {
    if vs == [] then [] else Flatten(vs[..|vs| - 1]) + Coords(vs[|vs| - 1])
  }

  /** The whole grid, as buildGridMesh(rowSpacing, columnSpacing) returns it. */
  function GridMesh(rowSpacing: int, columnSpacing: int): seq<int>
    requires rowSpacing > 0 && columnSpacing > 0
  {
    Flatten(GridVertices(rowSpacing, columnSpacing))
  }

  /** Vertex v of a flat sequence of 3-number vertices. */
  function VertexAt(mesh: seq<int>, v: nat): Vec3
    requires 3 * v + 3 <= |mesh|
  {
    Vec3(mesh[3 * v], mesh[3 * v + 1], mesh[3 * v + 2])
  }

  /** Endpoint e (0 or 1) of line k of a flat line list: vertex 2 * k + e. */
  function LineEnd(mesh: seq<int>, k: nat, e: nat): Vec3
    requires e < 2 && 6 * k + 6 <= |mesh|
  {
    VertexAt(mesh, 2 * k + e)
  }

  /** Ceiling of a / b for a positive divisor. */
  function CeilDiv(a: nat, b: nat): nat
    requires b > 0
  {
    (a + b - 1) / b
  }

  /** How many values t, t + spacing, t + 2 * spacing, ... lie below bound. */
  function LineCount(t: int, bound: int, spacing: int): nat
    requires spacing > 0
  {
    if t < bound then CeilDiv(bound - t, spacing) else 0
  }

  /** Number of row lines: ceil(2 * GRID_X_RANGE / rowSpacing). */
  function RowCount(rowSpacing: int): nat
    requires rowSpacing > 0
  {
    CeilDiv(2 * GRID_X_RANGE, rowSpacing)
  }

  /** Number of column lines: ceil(2 * GRID_Z_RANGE / columnSpacing). */
  function ColumnCount(columnSpacing: int): nat
    requires columnSpacing > 0
  {
    CeilDiv(2 * GRID_Z_RANGE, columnSpacing)
  }

  /**
   * The builder itself: two loops that push onto a growing sequence. For
   * positive spacings both loops end; the result is the grid described by
   * GridMesh, six numbers for each of RowCount rows and ColumnCount columns.
   */
  method BuildGridMesh(rowSpacing: int, columnSpacing: int) returns (mesh: seq<int>)
    requires rowSpacing > 0 && columnSpacing > 0
    ensures mesh == GridMesh(rowSpacing, columnSpacing)
    ensures |mesh| == 6 * (RowCount(rowSpacing) + ColumnCount(columnSpacing))
  {
    mesh := [];
    ghost var pushed: seq<Vec3> := [];
    var x := -GRID_X_RANGE;
    while x < GRID_X_RANGE
      invariant mesh == Flatten(pushed)
      invariant pushed + Lines(Rows, x, rowSpacing) == Lines(Rows, -GRID_X_RANGE, rowSpacing)
      decreases GRID_X_RANGE - x
    {
      mesh := mesh + [x, 0, -GRID_Z_RANGE];
      mesh := mesh + [x, 0, GRID_Z_RANGE];
      PushLine(pushed, Rows, x, rowSpacing);
      assert Coords(Endpoint(Rows, x, 0)) == [x, 0, -GRID_Z_RANGE];
      assert Coords(Endpoint(Rows, x, 1)) == [x, 0, GRID_Z_RANGE];
      pushed := pushed + LineVertices(Rows, x);
      x := x + rowSpacing;
    }
    assert Lines(Rows, x, rowSpacing) == [];
    var z := -GRID_Z_RANGE;
    while z < GRID_Z_RANGE
      invariant mesh == Flatten(pushed)
      invariant pushed + Lines(Columns, z, columnSpacing) == GridVertices(rowSpacing, columnSpacing)
      decreases GRID_Z_RANGE - z
    {
      mesh := mesh + [-GRID_X_RANGE, 0, z];
      mesh := mesh + [GRID_X_RANGE, 0, z];
      PushLine(pushed, Columns, z, columnSpacing);
      assert Coords(Endpoint(Columns, z, 0)) == [-GRID_X_RANGE, 0, z];
      assert Coords(Endpoint(Columns, z, 1)) == [GRID_X_RANGE, 0, z];
      pushed := pushed + LineVertices(Columns, z);
      z := z + columnSpacing;
    }
    assert Lines(Columns, z, columnSpacing) == [];
    assert pushed + [] == pushed;
    GridMeshLength(rowSpacing, columnSpacing);
  }

  /**
   * Pushing the two vertices of the line at t appends their numbers to the
   * flat sequence and moves the line from the loop's pending lines to its output.
   */
  lemma PushLine(pushed: seq<Vec3>, fam: Family, t: int, spacing: int)
    requires spacing > 0 && t < Bound(fam)
    ensures Flatten(pushed + LineVertices(fam, t))
      == Flatten(pushed) + Coords(Endpoint(fam, t, 0)) + Coords(Endpoint(fam, t, 1))
    ensures (pushed + LineVertices(fam, t)) + Lines(fam, t + spacing, spacing) == pushed + Lines(fam, t, spacing)
  {
    var a, b := Endpoint(fam, t, 0), Endpoint(fam, t, 1);
    FlattenAppend(pushed, a);
    FlattenAppend(pushed + [a], b);
    assert pushed + [a] + [b] == pushed + LineVertices(fam, t);
  }

  /** Pushing one more vertex appends its three numbers. */
  lemma FlattenAppend(vs: seq<Vec3>, p: Vec3)
    ensures Flatten(vs + [p]) == Flatten(vs) + Coords(p)
  {
    assert (vs + [p])[..|vs|] == vs;
  }

  /** Three numbers per vertex, and vertex v of the flat sequence is vs[v]. */
  lemma {:induction false} FlattenVertex(vs: seq<Vec3>, v: nat)
    requires v < |vs|
    ensures |Flatten(vs)| == 3 * |vs|
    ensures VertexAt(Flatten(vs), v) == vs[v]
    decreases |vs|
  {
    var init := vs[..|vs| - 1];
    FlattenLength(init);
    var flat := Flatten(init) + Coords(vs[|vs| - 1]);
    assert Flatten(vs) == flat;
    if v < |init| {
      FlattenVertex(init, v);
      assert flat[3 * v] == Flatten(init)[3 * v];
      assert flat[3 * v + 1] == Flatten(init)[3 * v + 1];
      assert flat[3 * v + 2] == Flatten(init)[3 * v + 2];
    }
  }

  /** Three numbers per vertex. */
  lemma {:induction false} FlattenLength(vs: seq<Vec3>)
    ensures |Flatten(vs)| == 3 * |vs|
    decreases |vs|
  {
    if vs != [] {
      FlattenLength(vs[..|vs| - 1]);
    }
  }

  /** If n lies in [q * b, q * b + b) then n / b is q. */
  lemma DivIs(n: int, b: int, q: int)
    requires b > 0 && q * b <= n < q * b + b
    ensures n / b == q
  {
    var r, m := n / b, n % b;
    assert n == r * b + m && 0 <= m < b;
    if r < q {
      MulGap(r, q, b);
      assert false;
    } else if r > q {
      MulGap(q, r, b);
      assert false;
    }
  }

  /** Multiples of b that differ in their factor are at least b apart. */
  lemma MulGap(lo: int, hi: int, b: int)
    requires lo < hi && b > 0
    ensures lo * b + b <= hi * b
  {
    assert hi * b == lo * b + (hi - lo - 1) * b + b;
  }

  /** Taking one more step removes exactly one line from the count. */
  lemma LineCountStep(t: int, bound: int, spacing: int)
    requires spacing > 0 && t < bound
    ensures LineCount(t, bound, spacing) == 1 + LineCount(t + spacing, bound, spacing)
  {
    var d := bound - t;
    if d <= spacing {
      DivIs(d + spacing - 1, spacing, 1);
    } else {
      var q := (d - 1) / spacing;
      assert d - 1 == q * spacing + (d - 1) % spacing;
      DivIs(d + spacing - 1, spacing, q + 1);
    }
  }

  /** Each loop emits two vertices per line it counts. */
  lemma {:induction false} LinesLength(fam: Family, t: int, spacing: int)
    requires spacing > 0
    ensures |Lines(fam, t, spacing)| == 2 * LineCount(t, Bound(fam), spacing)
    decreases Bound(fam) - t
  {
    if t < Bound(fam) {
      LinesLength(fam, t + spacing, spacing);
      LineCountStep(t, Bound(fam), spacing);
    }
  }

  /**
   * Endpoint e of line k of one loop's output sits at the loop variable's k-th
   * value, t + k * spacing, which lies in [t, bound).
   */
  lemma {:induction false} LinesAt(fam: Family, t: int, spacing: int, k: nat, e: nat)
    requires spacing > 0 && e < 2
    requires 2 * k + 2 <= |Lines(fam, t, spacing)|
    ensures Lines(fam, t, spacing)[2 * k + e] == Endpoint(fam, t + k * spacing, e)
    ensures t <= t + k * spacing < Bound(fam)
    decreases k
  {
    assert t < Bound(fam);
    var rest := Lines(fam, t + spacing, spacing);
    assert Lines(fam, t, spacing) == LineVertices(fam, t) + rest;
    if k > 0 {
      LinesAt(fam, t + spacing, spacing, k - 1, e);
      assert Lines(fam, t, spacing)[2 * k + e] == rest[2 * (k - 1) + e];
      assert (t + spacing) + (k - 1) * spacing == t + k * spacing;
    }
  }

  /** The grid has two vertices, six numbers, per line: rows first, then columns. */
  lemma GridMeshLength(rowSpacing: int, columnSpacing: int)
    requires rowSpacing > 0 && columnSpacing > 0
    ensures |Lines(Rows, -GRID_X_RANGE, rowSpacing)| == 2 * RowCount(rowSpacing)
    ensures |GridVertices(rowSpacing, columnSpacing)| == 2 * (RowCount(rowSpacing) + ColumnCount(columnSpacing))
    ensures |GridMesh(rowSpacing, columnSpacing)| == 6 * (RowCount(rowSpacing) + ColumnCount(columnSpacing))
  {
    LinesLength(Rows, -GRID_X_RANGE, rowSpacing);
    LinesLength(Columns, -GRID_Z_RANGE, columnSpacing);
    FlattenLength(GridVertices(rowSpacing, columnSpacing));
  }

  /**
   * Row line k of the grid runs from z = -GRID_Z_RANGE to z = GRID_Z_RANGE at
   * x = -GRID_X_RANGE + k * rowSpacing, inside [-GRID_X_RANGE, GRID_X_RANGE).
   */
  lemma GridRowLine(rowSpacing: int, columnSpacing: int, k: nat, e: nat)
    requires rowSpacing > 0 && columnSpacing > 0
    requires k < RowCount(rowSpacing) && e < 2
    ensures 6 * k + 6 <= |GridMesh(rowSpacing, columnSpacing)|
    ensures LineEnd(GridMesh(rowSpacing, columnSpacing), k, e)
      == Endpoint(Rows, -GRID_X_RANGE + k * rowSpacing, e)
    ensures -GRID_X_RANGE <= -GRID_X_RANGE + k * rowSpacing < GRID_X_RANGE
  {
    var vs := GridVertices(rowSpacing, columnSpacing);
    var rowPart := Lines(Rows, -GRID_X_RANGE, rowSpacing);
    GridMeshLength(rowSpacing, columnSpacing);
    LinesAt(Rows, -GRID_X_RANGE, rowSpacing, k, e);
    assert vs[2 * k + e] == rowPart[2 * k + e];
    FlattenVertex(vs, 2 * k + e);
  }

  /**
   * Line j of the grid, for j past the rows, is column line j - RowCount: it
   * runs from x = -GRID_X_RANGE to x = GRID_X_RANGE at
   * z = -GRID_Z_RANGE + (j - RowCount) * columnSpacing, inside
   * [-GRID_Z_RANGE, GRID_Z_RANGE).
   */
  lemma GridColumnLine(rowSpacing: int, columnSpacing: int, j: nat, e: nat)
    requires rowSpacing > 0 && columnSpacing > 0
    requires RowCount(rowSpacing) <= j < RowCount(rowSpacing) + ColumnCount(columnSpacing) && e < 2
    ensures 6 * j + 6 <= |GridMesh(rowSpacing, columnSpacing)|
    ensures LineEnd(GridMesh(rowSpacing, columnSpacing), j, e)
      == Endpoint(Columns, -GRID_Z_RANGE + (j - RowCount(rowSpacing)) * columnSpacing, e)
    ensures -GRID_Z_RANGE <= -GRID_Z_RANGE + (j - RowCount(rowSpacing)) * columnSpacing < GRID_Z_RANGE
  {
    var vs := GridVertices(rowSpacing, columnSpacing);
    var rowPart := Lines(Rows, -GRID_X_RANGE, rowSpacing);
    var colPart := Lines(Columns, -GRID_Z_RANGE, columnSpacing);
    GridMeshLength(rowSpacing, columnSpacing);
    var k := j - RowCount(rowSpacing);
    LinesLength(Columns, -GRID_Z_RANGE, columnSpacing);
    LinesAt(Columns, -GRID_Z_RANGE, columnSpacing, k, e);
    assert vs[2 * j + e] == colPart[2 * k + e];
    FlattenVertex(vs, 2 * j + e);
  }

  /** Every vertex of the grid lies on the y = 0 plane. */
  lemma GridOnPlane(rowSpacing: int, columnSpacing: int)
    requires rowSpacing > 0 && columnSpacing > 0
    ensures forall v: nat :: 3 * v + 3 <= |GridMesh(rowSpacing, columnSpacing)| ==>
      VertexAt(GridMesh(rowSpacing, columnSpacing), v).y == 0
  {
    var mesh := GridMesh(rowSpacing, columnSpacing);
    var rows := RowCount(rowSpacing);
    GridMeshLength(rowSpacing, columnSpacing);
    forall v: nat | 3 * v + 3 <= |mesh|
      ensures VertexAt(mesh, v).y == 0
    {
      var k, e := v / 2, v % 2;
      assert v == 2 * k + e;
      if k < rows {
        GridRowLine(rowSpacing, columnSpacing, k, e);
      } else {
        GridColumnLine(rowSpacing, columnSpacing, k, e);
      }
    }
  }

  /**
   * Line k of mesh is a row line: it goes from (x, 0, -GRID_Z_RANGE) to
   * (x, 0, GRID_Z_RANGE) with x = -GRID_X_RANGE + i * rowSpacing inside
   * [-GRID_X_RANGE, GRID_X_RANGE).
   */
  ghost predicate IsRowLine(mesh: seq<int>, k: nat, i: nat, rowSpacing: int) {
    var x := -GRID_X_RANGE + i * rowSpacing;
    && 6 * k + 6 <= |mesh|
    && LineEnd(mesh, k, 0) == Vec3(x, 0, -GRID_Z_RANGE)
    && LineEnd(mesh, k, 1) == Vec3(x, 0, GRID_Z_RANGE)
    && -GRID_X_RANGE <= x < GRID_X_RANGE
  }

  /**
   * Line k of mesh, past the first rowCount lines, is a column line: it goes
   * from (-GRID_X_RANGE, 0, z) to (GRID_X_RANGE, 0, z) with
   * z = -GRID_Z_RANGE + (k - rowCount) * columnSpacing inside
   * [-GRID_Z_RANGE, GRID_Z_RANGE).
   */
  ghost predicate IsColumnLine(mesh: seq<int>, k: nat, rowCount: nat, columnSpacing: int) {
    var z := -GRID_Z_RANGE + (k - rowCount) * columnSpacing;
    && rowCount <= k
    && 6 * k + 6 <= |mesh|
    && LineEnd(mesh, k, 0) == Vec3(-GRID_X_RANGE, 0, z)
    && LineEnd(mesh, k, 1) == Vec3(GRID_X_RANGE, 0, z)
    && -GRID_Z_RANGE <= z < GRID_Z_RANGE
  }

  /** The rows come first: line k, for k below RowCount, is row line k. */
  lemma GridRowsShape(rowSpacing: int, columnSpacing: int)
    requires rowSpacing > 0 && columnSpacing > 0
    ensures forall k: nat :: k < RowCount(rowSpacing) ==>
      IsRowLine(GridMesh(rowSpacing, columnSpacing), k, k, rowSpacing)
  {
    forall k: nat | k < RowCount(rowSpacing)
      ensures IsRowLine(GridMesh(rowSpacing, columnSpacing), k, k, rowSpacing)
    {
      GridRowLine(rowSpacing, columnSpacing, k, 0);
      GridRowLine(rowSpacing, columnSpacing, k, 1);
    }
  }

  /** The columns follow: line j, from RowCount up to RowCount + ColumnCount, is a column line. */
  lemma GridColumnsShape(rowSpacing: int, columnSpacing: int)
    requires rowSpacing > 0 && columnSpacing > 0
    ensures forall j: nat :: RowCount(rowSpacing) <= j < RowCount(rowSpacing) + ColumnCount(columnSpacing) ==>
      IsColumnLine(GridMesh(rowSpacing, columnSpacing), j, RowCount(rowSpacing), columnSpacing)
  {
    forall j: nat | RowCount(rowSpacing) <= j < RowCount(rowSpacing) + ColumnCount(columnSpacing)
      ensures IsColumnLine(GridMesh(rowSpacing, columnSpacing), j, RowCount(rowSpacing), columnSpacing)
    {
      GridColumnLine(rowSpacing, columnSpacing, j, 0);
      GridColumnLine(rowSpacing, columnSpacing, j, 1);
    }
  }

  /** The only call in the viewer, buildGridMesh(1, 1), yields 2400 numbers: 800 vertices, 400 lines. */
  lemma UnitGridSize()
    ensures |GridMesh(1, 1)| == 2400
  {
    GridMeshLength(1, 1);
  }
}
