/**
 * The vertex-buffer layout of the viewer (startRendering and draw in a9.js):
 * one buffer holding the teapot positions, the grid, the teapot normals and the
 * grid again (standing in for grid normals), two vec3 attributes reading it at
 * byte offsets, and two draw calls over vertex ranges.
 */
module Layout {
  import opened Wrappers
  import Grid

  /** Bytes per 32-bit float. */
  const FLOAT_SIZE: nat := 4
  /** Floats per vec3 attribute value. */
  const VEC3_SIZE: nat := 3

  /** The combined buffer: mesh ++ grid ++ normals ++ grid. */
  function VertexBuffer<T>(mesh: seq<T>, grid: seq<T>, normals: seq<T>): (data: seq<T>)
    ensures |data| == |mesh| + |grid| + |normals| + |grid|
    ensures data[..|mesh|] == mesh
    ensures data[|mesh|..|mesh| + |grid|] == grid
    ensures data[|mesh| + |grid|..|mesh| + |grid| + |normals|] == normals
    ensures data[|mesh| + |grid| + |normals|..] == grid
  {
    mesh + grid + normals + grid
  }

  /** A vertex attribute binding: byte stride (0 means tightly packed) and byte offset. */
  datatype Attribute = Attribute(stride: nat, offset: nat)

  /** a_Position reads from the start of the buffer. */
  const PositionAttribute := Attribute(0, 0)

  /** a_Normal starts right after the mesh and grid positions. */
  function NormalAttribute(meshLength: nat, gridLength: nat): Attribute {
    Attribute(0, FLOAT_SIZE * (meshLength + gridLength))
  }

  /** The distance in bytes between consecutive vertices of a vec3 attribute. */
  function ByteStride(a: Attribute): nat {
    if a.stride == 0 then VEC3_SIZE * FLOAT_SIZE else a.stride
  }

  /**
   * The three floats a vec3 float attribute reads for vertex v, or None when
   * the binding is not float-aligned or the read runs past the buffer (both
   * refused by WebGL).
   */
  function Fetch<T>(buffer: seq<T>, a: Attribute, v: nat): (r: Option<seq<T>>)
    ensures r.Some? ==> |r.value| == VEC3_SIZE
  {
    var byteStart := a.offset + v * ByteStride(a);
    if a.offset % FLOAT_SIZE != 0 || ByteStride(a) % FLOAT_SIZE != 0 then None
    else if byteStart / FLOAT_SIZE + VEC3_SIZE > |buffer| then None
    else Some(buffer[byteStart / FLOAT_SIZE..byteStart / FLOAT_SIZE + VEC3_SIZE])
  }

  /**
   * The normal attribute's offset, in floats, is where the normals begin, so
   * every float the attribute addresses from there is the matching normal.
   */
  lemma NormalOffsetSelectsNormals<T>(mesh: seq<T>, grid: seq<T>, normals: seq<T>)
    ensures NormalAttribute(|mesh|, |grid|).offset % FLOAT_SIZE == 0
    ensures NormalAttribute(|mesh|, |grid|).offset / FLOAT_SIZE == |mesh| + |grid|
    ensures forall i :: 0 <= i < |normals| ==>
      VertexBuffer(mesh, grid, normals)[NormalAttribute(|mesh|, |grid|).offset / FLOAT_SIZE + i] == normals[i]
  {
    var front := mesh + grid;
    FloatIndex(|front|, 0);
    assert VertexBuffer(mesh, grid, normals) == (front + normals) + grid;
    forall i | 0 <= i < |normals|
      ensures ((front + normals) + grid)[|front| + i] == normals[i]
    {
      assert ((front + normals) + grid)[|front| + i] == (front + normals)[|front| + i];
    }
  }

  /**
   * Both attributes pair up per vertex: for a vertex of the mesh, a_Position
   * reads its position and a_Normal its normal; for a vertex of the grid, both
   * read the grid vertex (the duplicate grid stands in for the normals).
   * This needs as many normal floats as position floats and whole vertices.
   */
  lemma AttributesPairUp<T>(mesh: seq<T>, grid: seq<T>, normals: seq<T>, v: nat)
    requires |normals| == |mesh| && |mesh| % 3 == 0 && |grid| % 3 == 0
    requires 3 * v + 3 <= |mesh| + |grid|
    ensures var data := VertexBuffer(mesh, grid, normals);
      var position := Fetch(data, PositionAttribute, v);
      var normal := Fetch(data, NormalAttribute(|mesh|, |grid|), v);
      if 3 * v < |mesh| then
        position == Some(mesh[3 * v..3 * v + 3]) && normal == Some(normals[3 * v..3 * v + 3])
      else
        position == Some(grid[3 * v - |mesh|..3 * v - |mesh| + 3])
        && normal == Some(grid[3 * v - |mesh|..3 * v - |mesh| + 3])
  {
    var front := mesh + grid;
    var body := front + normals;
    var data := body + grid;
    assert VertexBuffer(mesh, grid, normals) == data;
    FloatIndex(0, v);
    FloatIndex(|front|, v);
    assert Fetch(data, PositionAttribute, v) == Some(data[3 * v..3 * v + 3]);
    assert Fetch(data, NormalAttribute(|mesh|, |grid|), v)
      == Some(data[|front| + 3 * v..|front| + 3 * v + 3]);
    ReadPrefix(body, grid, 3 * v);
    ReadPrefix(front, normals, 3 * v);
    if 3 * v < |mesh| {
      ReadPrefix(mesh, grid, 3 * v);
      ReadPrefix(body, grid, |front| + 3 * v);
      ReadSuffix(front, normals, 3 * v);
    } else {
      var w := 3 * v - |mesh|;
      ReadSuffix(mesh, grid, w);
      assert |front| + 3 * v == |body| + w;
      ReadSuffix(body, grid, w);
    }
  }

  /**
   * With no stride, vertex v of an attribute starting at float `start` is at
   * byte FLOAT_SIZE * start + v * 12, which is float start + 3 * v.
   */
  lemma FloatIndex(start: nat, v: nat)
    ensures (FLOAT_SIZE * start) % FLOAT_SIZE == 0
    ensures (FLOAT_SIZE * start + v * (VEC3_SIZE * FLOAT_SIZE)) / FLOAT_SIZE == start + 3 * v
  {
    assert FLOAT_SIZE * start + v * (VEC3_SIZE * FLOAT_SIZE) == FLOAT_SIZE * (start + 3 * v);
  }

  /** Three values read inside the first part of a concatenation come from it. */
  lemma ReadPrefix<T>(a: seq<T>, b: seq<T>, i: nat)
    requires i + 3 <= |a|
    ensures (a + b)[i..i + 3] == a[i..i + 3]
  {
  }

  /** Three values read past the first part of a concatenation come from the second. */
  lemma ReadSuffix<T>(a: seq<T>, b: seq<T>, i: nat)
    requires i + 3 <= |b|
    ensures (a + b)[|a| + i..|a| + i + 3] == b[i..i + 3]
  {
  }

  /** The primitive a draw call assembles. */
  datatype Primitive = TriangleList | LineList

  /** A draw over `count` vertices starting at vertex `first`. */
  datatype DrawCall = DrawCall(mode: Primitive, first: nat, count: nat)

  /**
   * The teapot draw: triangles over the mesh's vertices, starting at vertex 0
   * and lying wholly in the mesh positions. The float division `length / 3`
   * reaches WebGL as an integer count, truncated.
   */
  function MeshDraw(meshLength: nat): (d: DrawCall)
    ensures d.mode == TriangleList && d.first == 0
    ensures 3 * d.count <= meshLength < 3 * d.count + 3
  {
    DrawCall(TriangleList, 0, meshLength / 3)
  }

  /**
   * The grid draw: lines starting where the teapot draw ends, lying wholly in
   * the position region (mesh and grid positions), with no vertex left out when
   * both lengths are whole vertices.
   */
  function GridDraw(meshLength: nat, gridLength: nat): (d: DrawCall)
    ensures d.mode == LineList
    ensures d.first == MeshDraw(meshLength).first + MeshDraw(meshLength).count
    ensures 3 * (d.first + d.count) <= meshLength + gridLength
    ensures meshLength % 3 == 0 && gridLength % 3 == 0 ==> 3 * (d.first + d.count) == meshLength + gridLength
  {
    DrawCall(LineList, meshLength / 3, gridLength / 3)
  }

  /**
   * Every vertex the grid draw visits reads, through a_Position, the matching
   * vertex of the grid, whatever the normals are, as long as the mesh is whole
   * vertices.
   */
  lemma GridDrawReadsGrid<T>(mesh: seq<T>, grid: seq<T>, normals: seq<T>, v: nat)
    requires |mesh| % 3 == 0
    requires GridDraw(|mesh|, |grid|).first <= v < GridDraw(|mesh|, |grid|).first + GridDraw(|mesh|, |grid|).count
    ensures Fetch(VertexBuffer(mesh, grid, normals), PositionAttribute, v)
      == Some(grid[3 * (v - |mesh| / 3)..3 * (v - |mesh| / 3) + 3])
  {
    var front := mesh + grid;
    var body := front + normals;
    var w := 3 * (v - |mesh| / 3);
    assert |mesh| + w == 3 * v && w + 3 <= |grid|;
    assert VertexBuffer(mesh, grid, normals) == body + grid;
    FloatIndex(0, v);
    ReadPrefix(body, grid, 3 * v);
    ReadPrefix(front, normals, 3 * v);
    ReadSuffix(mesh, grid, w);
  }

  /**
   * A grid from the grid builder makes a whole number of lines: the grid draw
   * has an even vertex count, so the line list has no unpaired vertex.
   */
  lemma GridDrawIsWholeLines(meshLength: nat, rowSpacing: int, columnSpacing: int)
    requires rowSpacing > 0 && columnSpacing > 0
    ensures GridDraw(meshLength, |Grid.GridMesh(rowSpacing, columnSpacing)|).count % 2 == 0
  {
    Grid.GridMeshLength(rowSpacing, columnSpacing);
    var lines := Grid.RowCount(rowSpacing) + Grid.ColumnCount(columnSpacing);
    assert (6 * lines) / 3 == 2 * lines;
  }

  /**
   * The viewer's own layout: with the grid built at spacing (1, 1) and as many
   * normal floats as position floats, the buffer holds the mesh twice over and
   * 4800 grid floats, the normals start 9600 bytes past the mesh, and the grid
   * draw is 800 vertices (400 lines) right after the teapot's vertices.
   */
  lemma ViewerLayout<T>(mesh: seq<T>, grid: seq<T>, normals: seq<T>)
    requires |grid| == |Grid.GridMesh(1, 1)| && |normals| == |mesh|
    ensures |VertexBuffer(mesh, grid, normals)| == 2 * |mesh| + 4800
    ensures NormalAttribute(|mesh|, |grid|).offset == FLOAT_SIZE * |mesh| + 9600
    ensures GridDraw(|mesh|, |grid|) == DrawCall(LineList, |mesh| / 3, 800)
  {
    Grid.UnitGridSize();
  }
}
