// Shape.cpp: the built-in meshes (full-screen quad, unit cube, UV sphere and
// ground grid). Each keeps its vertex array in a function-local static that
// is built on the first call only; here those statics are the fields of one
// ShapeCache. The sphere's and grid's vertex and index lists are generated
// by loops, modelled as methods proved against the functions that define
// the lists. Vertex coordinates computed with trigonometry or float scaling
// are kept symbolic: a vertex is named by the grid cell it is computed from.
module Shapes {
  import opened GL
  import opened Shaders

  /** sizeof(float) and sizeof(unsigned int). */
  const WordSize := 4

  // ---------------------------------------------------------------- quad

  const QuadVertexCount := 4
  const QuadFloatsPerVertex := 5

  /** The quad's four vertices, each a position (x, y, z) and a texture
      coordinate (u, v), in strip order. */
  const QuadVertices: seq<real> := [
    -1.0, 1.0, 0.0, 0.0, 1.0,
    -1.0, -1.0, 0.0, 0.0, 0.0,
    1.0, 1.0, 0.0, 1.0, 1.0,
    1.0, -1.0, 0.0, 1.0, 0.0]

  /** The quad covers clip space: its corners are the four (±1, ±1) points in
      the z = 0 plane, and each texture coordinate is its position mapped
      from [-1, 1] onto [0, 1]. */
  lemma QuadCoversScreen()
    ensures |QuadVertices| == QuadVertexCount * QuadFloatsPerVertex
    ensures forall i | 0 <= i < |QuadVertices| && i % 5 < 2 :: QuadVertices[i] == 1.0 || QuadVertices[i] == -1.0
    ensures forall i | 0 <= i < |QuadVertices| && i % 5 == 2 :: QuadVertices[i] == 0.0
    ensures forall i | 3 <= i < |QuadVertices| && i % 5 >= 3 :: QuadVertices[i] == (QuadVertices[i - 3] + 1.0) / 2.0
  {
  }

  /** The one-time setup of the quad's vertex array: two attributes,
      position (3 floats) and texture coordinate (2 floats), interleaved. */
  function QuadSetupCalls(vao: Name, vbo: Name): seq<Event>
  {
    [Generate(VertexArrayObject, vao)] + [Generate(BufferObject, vbo)]
    + [BindVertexArray(vao), BindBuffer(ArrayBuffer, vbo), BufferData(ArrayBuffer, |QuadVertices| * WordSize),
       VertexAttrib(0, 3, QuadFloatsPerVertex * WordSize, 0),
       VertexAttrib(1, 2, QuadFloatsPerVertex * WordSize, 3 * WordSize)]
  }

  // ---------------------------------------------------------------- cube

  const CubeVertexCount := 36
  const CubeFloatsPerVertex := 8

  /** The one-time setup of the cube's vertex array: 36 vertices (six faces
      of two triangles) of position, normal and texture coordinate. */
  function CubeSetupCalls(vao: Name, vbo: Name): seq<Event>
  {
    [Generate(VertexArrayObject, vao)] + [Generate(BufferObject, vbo)]
    + [BindBuffer(ArrayBuffer, vbo), BufferData(ArrayBuffer, CubeVertexCount * CubeFloatsPerVertex * WordSize),
       BindVertexArray(vao),
       VertexAttrib(0, 3, CubeFloatsPerVertex * WordSize, 0),
       VertexAttrib(1, 3, CubeFloatsPerVertex * WordSize, 3 * WordSize),
       VertexAttrib(2, 2, CubeFloatsPerVertex * WordSize, 6 * WordSize),
       BindBuffer(ArrayBuffer, 0), BindVertexArray(0)]
  }

  // -------------------------------------------------------------- sphere

  /** X_SEGMENTS and Y_SEGMENTS. */
  const Segments := 64

  /** (X_SEGMENTS + 1) * (Y_SEGMENTS + 1) vertices (SphereCountsAgree). */
  const SphereVertexCount := 4225

  /** Y_SEGMENTS strips of 2 * (X_SEGMENTS + 1) indices (SphereCountsAgree). */
  const SphereIndexCount := 8320

  lemma SphereCountsAgree()
    ensures SphereVertexCount == (Segments + 1) * (Segments + 1)
    ensures SphereIndexCount == Segments * (Segments + 1) * 2
  {
  }

  /** The unit-sphere point (and normal) computed at segment (x, y): its
      coordinates come from cos and sin of x/64 turns and y/64 half-turns. */
  datatype SpherePoint = SpherePoint(x: nat, y: nat)

  /** The texture coordinate of a sphere vertex: the segment over 64. */
  function SphereUv(p: SpherePoint): (real, real)
  {
    (p.x as real / Segments as real, p.y as real / Segments as real)
  }

  /** The points of column x for y = 0 .. n-1, in push order. */
  function SphereColumn(x: nat, n: nat): seq<SpherePoint>
  {
    if n == 0 then [] else SphereColumn(x, n - 1) + [SpherePoint(x, n - 1)]
  }

  /** The points of columns 0 .. m-1, each of Segments + 1 points. */
  function SphereGrid(m: nat): seq<SpherePoint>
  {
    if m == 0 then [] else SphereGrid(m - 1) + SphereColumn(m - 1, Segments + 1)
  }

  lemma {:induction false} SphereColumnAt(x: nat, n: nat, y: nat)
    ensures |SphereColumn(x, n)| == n
    ensures y < n ==> SphereColumn(x, n)[y] == SpherePoint(x, y)
  {
    if n > 0 {
      SphereColumnAt(x, n - 1, y);
    }
  }

  /** Vertex 65·x + y is the point at segment (x, y): the vertex list holds
      every (x, y) with x, y in 0 .. 64, x-major. */
  lemma {:induction false} SphereGridAt(m: nat, x: nat, y: nat)
    ensures |SphereGrid(m)| == (Segments + 1) * m
    ensures x < m && y <= Segments ==> SphereGrid(m)[(Segments + 1) * x + y] == SpherePoint(x, y)
  {
    if m > 0 {
      SphereGridAt(m - 1, x, y);
      SphereColumnAt(m - 1, Segments + 1, y);
    }
  }

  /** The position, texture-coordinate and normal loop: positions and
      normals are the same points, one per segment pair, and the texture
      coordinate of each vertex is its segment over 64. */
  method SphereVertices() returns (positions: seq<SpherePoint>, uv: seq<(real, real)>, normals: seq<SpherePoint>)
    ensures positions == SphereGrid(Segments + 1) && normals == positions
    ensures |positions| == SphereVertexCount
    ensures |uv| == |positions| && forall i | 0 <= i < |uv| :: uv[i] == SphereUv(positions[i])
  {
    positions, uv, normals := [], [], [];
    var x := 0;
    while x <= Segments
      invariant 0 <= x <= Segments + 1
      invariant positions == SphereGrid(x) && normals == positions
      invariant |uv| == |positions| && forall i | 0 <= i < |uv| :: uv[i] == SphereUv(positions[i])
    {
      var y := 0;
      while y <= Segments
        invariant 0 <= y <= Segments + 1
        invariant positions == SphereGrid(x) + SphereColumn(x, y) && normals == positions
        invariant |uv| == |positions| && forall i | 0 <= i < |uv| :: uv[i] == SphereUv(positions[i])
      {
        var xSegment := x as real / Segments as real;
        var ySegment := y as real / Segments as real;
        positions := positions + [SpherePoint(x, y)];
        uv := uv + [(xSegment, ySegment)];
        normals := normals + [SpherePoint(x, y)];
        y := y + 1;
      }
      x := x + 1;
    }
    SphereGridAt(Segments + 1, 0, 0);
  }

  /** The first n index pairs of an even row y, walking x upwards: each
      pair is the point in row y and the one below it in row y + 1. */
  function EvenRow(y: nat, n: nat): seq<nat>
  {
    if n == 0 then []
    else EvenRow(y, n - 1) + [y * (Segments + 1) + (n - 1), (y + 1) * (Segments + 1) + (n - 1)]
  }

  /** The first n index pairs of an odd row y, walking x down from 64: each
      pair is the point in row y + 1 and then the one above it in row y. */
  function OddRow(y: nat, n: nat): seq<nat>
    requires n <= Segments + 1
  {
    if n == 0 then []
    else OddRow(y, n - 1) + [(y + 1) * (Segments + 1) + (Segments - (n - 1)), y * (Segments + 1) + (Segments - (n - 1))]
  }

  /** Strip row y, in the direction its parity gives it. */
  function StripRow(y: nat): seq<nat>
  {
    if y % 2 == 0 then EvenRow(y, Segments + 1) else OddRow(y, Segments + 1)
  }

  /** The sphere's index list after k rows. */
  function SphereIndices(k: nat): seq<nat>
  {
    if k == 0 then [] else SphereIndices(k - 1) + StripRow(k - 1)
  }

  /** Even rows pair (y·65 + x, (y+1)·65 + x) for x ascending. */
  lemma {:induction false} EvenRowAt(y: nat, n: nat, x: nat)
    ensures |EvenRow(y, n)| == 2 * n
    ensures x < n ==> EvenRow(y, n)[2 * x] == y * (Segments + 1) + x
                      && EvenRow(y, n)[2 * x + 1] == (y + 1) * (Segments + 1) + x
  {
    if n > 0 {
      EvenRowAt(y, n - 1, x);
    }
  }

  /** Odd rows pair ((y+1)·65 + x, y·65 + x) for x descending from 64: the
      k-th pair is at x = 64 - k. */
  lemma {:induction false} OddRowAt(y: nat, n: nat, k: nat)
    requires n <= Segments + 1
    ensures |OddRow(y, n)| == 2 * n
    ensures k < n ==> OddRow(y, n)[2 * k] == (y + 1) * (Segments + 1) + (Segments - k)
                      && OddRow(y, n)[2 * k + 1] == y * (Segments + 1) + (Segments - k)
  {
    if n > 0 {
      OddRowAt(y, n - 1, k);
    }
  }

  /** Every index of a row's first n pairs lies in rows y and y + 1. */
  lemma {:induction false} RowBounded(y: nat, n: nat)
    requires n <= Segments + 1
    ensures forall i | i in EvenRow(y, n) :: y * (Segments + 1) <= i < (y + 2) * (Segments + 1)
    ensures forall i | i in OddRow(y, n) :: y * (Segments + 1) <= i < (y + 2) * (Segments + 1)
  {
    if n > 0 {
      RowBounded(y, n - 1);
    }
  }

  /** A strip row has 130 indices, all in rows y and y + 1. */
  lemma StripRowBounded(y: nat)
    ensures |StripRow(y)| == 2 * (Segments + 1)
    ensures forall i | i in StripRow(y) :: i < (y + 2) * (Segments + 1)
  {
    EvenRowAt(y, Segments + 1, 0);
    OddRowAt(y, Segments + 1, 0);
    RowBounded(y, Segments + 1);
  }

  /** Joining two index lists below a bound stays below it. */
  lemma JoinBelow(a: seq<nat>, b: seq<nat>, bound: nat)
    requires forall i | i in a :: i < bound
    requires forall i | i in b :: i < bound
    ensures forall i | i in a + b :: i < bound
  {
  }

  /** After k rows there are 2·65·k indices, each naming one of the first
      65·(k + 1) vertices. */
  lemma {:induction false} SphereIndicesBounded(k: nat)
    ensures |SphereIndices(k)| == 2 * (Segments + 1) * k
    ensures forall i | i in SphereIndices(k) :: i < (Segments + 1) * (k + 1)
  {
    if k > 0 {
      var before, row := SphereIndices(k - 1), StripRow(k - 1);
      SphereIndicesBounded(k - 1);
      StripRowBounded(k - 1);
      assert SphereIndices(k) == before + row;
      ScaleBound(k, k + 1, Segments + 1);
      JoinBelow(before, row, (Segments + 1) * (k + 1));
    }
  }

  /** The sphere's rows so far never name a vertex outside the 4225, and
      the whole list has 8320 indices. */
  lemma SphereIndicesValid(k: nat)
    requires k <= Segments
    ensures |SphereIndices(k)| == 2 * (Segments + 1) * k
    ensures forall i | i in SphereIndices(k) :: i < SphereVertexCount
  {
    SphereIndicesBounded(k);
    ScaleBound(k + 1, Segments + 1, Segments + 1);
  }

  /** Products keep the order of their first factors. */
  lemma ScaleBound(a: nat, b: nat, c: nat)
    requires a <= b
    ensures a * c <= b * c
  {
  }

  lemma SphereIndexTotal()
    ensures |SphereIndices(Segments)| == SphereIndexCount
  {
    SphereIndicesBounded(Segments);
  }

  /** An even row: x ascending from 0 to 64. */
  method PushEvenRow(start: seq<nat>, y: nat) returns (indices: seq<nat>)
    ensures indices == start + EvenRow(y, Segments + 1)
  {
    indices := start;
    var x := 0;
    while x <= Segments
      invariant 0 <= x <= Segments + 1
      invariant indices == start + EvenRow(y, x)
    {
      indices := indices + [y * (Segments + 1) + x, (y + 1) * (Segments + 1) + x];
      x := x + 1;
    }
  }

  /** An odd row: x descending from 64 to 0. */
  method PushOddRow(start: seq<nat>, y: nat) returns (indices: seq<nat>)
    ensures indices == start + OddRow(y, Segments + 1)
  {
    indices := start;
    var x: int := Segments;
    while x >= 0
      invariant -1 <= x <= Segments
      invariant indices == start + OddRow(y, Segments - x)
    {
      indices := indices + [(y + 1) * (Segments + 1) + x, y * (Segments + 1) + x];
      x := x - 1;
    }
  }

  /** The index loop, with its row-parity flag. */
  method SphereIndexLoop() returns (indices: seq<nat>)
    ensures indices == SphereIndices(Segments)
  {
    indices := [];
    var oddRow := false;
    var y := 0;
    while y < Segments
      invariant 0 <= y <= Segments
      invariant indices == SphereIndices(y)
      invariant oddRow <==> y % 2 == 1
    {
      if !oddRow {
        indices := PushEvenRow(indices, y);
      } else {
        indices := PushOddRow(indices, y);
      }
      oddRow := !oddRow;
      y := y + 1;
    }
  }

  /** One float of the interleaved sphere buffer: a coordinate of a point's
      position or normal, or a texture coordinate. */
  datatype SphereFloat = PointComponent(p: SpherePoint, axis: nat) | UvComponent(r: real)

  /** The eight floats of one vertex: position, normal, texture coordinate. */
  function VertexRecord(position: SpherePoint, normal: SpherePoint, t: (real, real)): seq<SphereFloat>
  {
    [PointComponent(position, 0), PointComponent(position, 1), PointComponent(position, 2)]
    + [PointComponent(normal, 0), PointComponent(normal, 1), PointComponent(normal, 2)]
    + [UvComponent(t.0), UvComponent(t.1)]
  }

  /** The interleaved buffer for the first k vertices. */
  function Interleaved(positions: seq<SpherePoint>, normals: seq<SpherePoint>, uv: seq<(real, real)>, k: nat): seq<SphereFloat>
    requires k <= |positions| && k <= |normals| && k <= |uv|
  {
    if k == 0 then []
    else Interleaved(positions, normals, uv, k - 1) + VertexRecord(positions[k - 1], normals[k - 1], uv[k - 1])
  }

  /** Vertex i's eight floats sit at 8·i .. 8·i + 8. */
  lemma {:induction false} InterleavedAt(positions: seq<SpherePoint>, normals: seq<SpherePoint>, uv: seq<(real, real)>, k: nat, i: nat)
    requires k <= |positions| && k <= |normals| && k <= |uv|
    ensures |Interleaved(positions, normals, uv, k)| == 8 * k
    ensures i < k ==> Interleaved(positions, normals, uv, k)[8 * i .. 8 * i + 8] == VertexRecord(positions[i], normals[i], uv[i])
  {
    if k > 0 {
      InterleavedAt(positions, normals, uv, k - 1, i);
      if i < k - 1 {
        var prev := Interleaved(positions, normals, uv, k - 1);
        var last := VertexRecord(positions[k - 1], normals[k - 1], uv[k - 1]);
        assert (prev + last)[8 * i .. 8 * i + 8] == prev[8 * i .. 8 * i + 8];
      }
    }
  }

  /** The interleaving loop; the normal and texture-coordinate floats are
      added only when those lists are non-empty, which they always are. */
  method Interleave(positions: seq<SpherePoint>, normals: seq<SpherePoint>, uv: seq<(real, real)>) returns (data: seq<SphereFloat>)
    requires |normals| == |positions| && |uv| == |positions|
    ensures data == Interleaved(positions, normals, uv, |positions|)
    ensures |data| == 8 * |positions|
  {
    data := [];
    var i := 0;
    while i < |positions|
      invariant 0 <= i <= |positions|
      invariant data == Interleaved(positions, normals, uv, i)
    {
      data := data + [PointComponent(positions[i], 0), PointComponent(positions[i], 1), PointComponent(positions[i], 2)];
      if |normals| > 0 {
        data := data + [PointComponent(normals[i], 0), PointComponent(normals[i], 1), PointComponent(normals[i], 2)];
      }
      if |uv| > 0 {
        data := data + [UvComponent(uv[i].0), UvComponent(uv[i].1)];
      }
      i := i + 1;
    }
    InterleavedAt(positions, normals, uv, |positions|, 0);
  }

  /** The one-time setup of the sphere's vertex array: vertex buffer,
      element buffer, three attributes (position, normal, texture
      coordinate) at a stride of 8 floats. */
  function SphereSetupCalls(vao: Name, vbo: Name, ebo: Name, floats: nat, indices: nat): seq<Event>
  {
    [Generate(VertexArrayObject, vao)] + [Generate(BufferObject, vbo)] + [Generate(BufferObject, ebo)]
    + [BindVertexArray(vao), BindBuffer(ArrayBuffer, vbo), BufferData(ArrayBuffer, floats * WordSize),
       BindBuffer(ElementArrayBuffer, ebo), BufferData(ElementArrayBuffer, indices * WordSize),
       VertexAttrib(0, 3, 8 * WordSize, 0), VertexAttrib(1, 3, 8 * WordSize, 3 * WordSize),
       VertexAttrib(2, 2, 8 * WordSize, 6 * WordSize)]
  }

  // ---------------------------------------------------------------- grid

  /** The grid's cells per side (a float 100.0 in the source; every value
      derived from it is a whole number, so integers model it exactly). */
  const Slices := 100

  /** (slices + 1) * (slices + 1) vertices (GridCountsAgree). */
  const GridVertexCount := 10201

  /** Two four-index entries per cell, four indices each (GridCountsAgree). */
  const GridDrawLength := 80000

  lemma GridCountsAgree()
    ensures GridVertexCount == (Slices + 1) * (Slices + 1)
    ensures GridDrawLength == Slices * Slices * 2 * 4
  {
  }

  /** The grid vertex at column i, row j: x and z are i/100 and j/100 moved
      and scaled into [-250, 250], y is 0. */
  datatype GridPoint = GridPoint(i: nat, j: nat)

  /** A glm::uvec4 of the index list: two line segments (a, b) and (c, d). */
  datatype Uvec4 = Uvec4(a: nat, b: nat, c: nat, d: nat)

  /** Row j's first n vertices. */
  function GridRowPoints(j: nat, n: nat): seq<GridPoint>
  {
    if n == 0 then [] else GridRowPoints(j, n - 1) + [GridPoint(n - 1, j)]
  }

  /** The vertices of rows 0 .. m-1. */
  function GridPoints(m: nat): seq<GridPoint>
  {
    if m == 0 then [] else GridPoints(m - 1) + GridRowPoints(m - 1, Slices + 1)
  }

  lemma {:induction false} GridRowPointsAt(j: nat, n: nat, i: nat)
    ensures |GridRowPoints(j, n)| == n
    ensures i < n ==> GridRowPoints(j, n)[i] == GridPoint(i, j)
  {
    if n > 0 {
      GridRowPointsAt(j, n - 1, i);
    }
  }

  /** Vertex 101·j + i is the grid point (i, j). */
  lemma {:induction false} GridPointsAt(m: nat, i: nat, j: nat)
    ensures |GridPoints(m)| == (Slices + 1) * m
    ensures j < m && i <= Slices ==> GridPoints(m)[(Slices + 1) * j + i] == GridPoint(i, j)
  {
    if m > 0 {
      GridPointsAt(m - 1, i, j);
      GridRowPointsAt(m - 1, Slices + 1, i);
    }
  }

  /** Cell (i, j)'s two entries: the cell's four sides as line segments. */
  function GridCell(j: nat, i: nat): seq<Uvec4>
  {
    var row1 := j * (Slices + 1);
    var row2 := (j + 1) * (Slices + 1);
    [Uvec4(row1 + i, row1 + i + 1, row1 + i + 1, row2 + i + 1), Uvec4(row2 + i + 1, row2 + i, row2 + i, row1 + i)]
  }

  /** Row j's first n cells. */
  function GridRow(j: nat, n: nat): seq<Uvec4>
  {
    if n == 0 then [] else GridRow(j, n - 1) + GridCell(j, n - 1)
  }

  /** The index list after m rows of cells. */
  function GridIndices(m: nat): seq<Uvec4>
  {
    if m == 0 then [] else GridIndices(m - 1) + GridRow(m - 1, Slices)
  }

  predicate IndexBelow(u: Uvec4, bound: nat)
  {
    u.a < bound && u.b < bound && u.c < bound && u.d < bound
  }

  lemma {:induction false} GridRowBounded(j: nat, n: nat)
    requires n <= Slices
    ensures |GridRow(j, n)| == 2 * n
    ensures forall u | u in GridRow(j, n) :: IndexBelow(u, (j + 2) * (Slices + 1))
  {
    if n > 0 {
      GridRowBounded(j, n - 1);
    }
  }

  /** Joining two entry lists, the first below a smaller bound, stays below
      the larger one. */
  lemma JoinIndexBelow(a: seq<Uvec4>, b: seq<Uvec4>, lower: nat, bound: nat)
    requires lower <= bound
    requires forall u | u in a :: IndexBelow(u, lower)
    requires forall u | u in b :: IndexBelow(u, bound)
    ensures forall u | u in a + b :: IndexBelow(u, bound)
  {
  }

  /** After m rows of cells there are 200·m entries, each naming vertices
      of the first m + 1 rows. */
  lemma {:induction false} GridIndicesBounded(m: nat)
    ensures |GridIndices(m)| == 2 * Slices * m
    ensures forall u | u in GridIndices(m) :: IndexBelow(u, (m + 1) * (Slices + 1))
  {
    if m > 0 {
      var before, row := GridIndices(m - 1), GridRow(m - 1, Slices);
      GridIndicesBounded(m - 1);
      GridRowBounded(m - 1, Slices);
      assert GridIndices(m) == before + row;
      JoinIndexBelow(before, row, m * (Slices + 1), (m + 1) * (Slices + 1));
    }
  }

  /** The grid's rows of cells never name a vertex outside the 10201, and
      the whole list has 20000 entries, a draw length of 80000. */
  lemma GridIndicesValid(m: nat)
    requires m <= Slices
    ensures |GridIndices(m)| == 2 * Slices * m
    ensures forall u | u in GridIndices(m) :: IndexBelow(u, GridVertexCount)
  {
    GridIndicesBounded(m);
    ScaleBound(m + 1, Slices + 1, Slices + 1);
  }

  lemma GridIndexTotal()
    ensures |GridIndices(Slices)| * 4 == GridDrawLength
  {
    GridIndicesBounded(Slices);
  }

  /** The grid's vertex loop. */
  method GridVertices() returns (vertices: seq<GridPoint>)
    ensures vertices == GridPoints(Slices + 1)
    ensures |vertices| == GridVertexCount
  {
    vertices := [];
    var j := 0;
    while j <= Slices
      invariant 0 <= j <= Slices + 1
      invariant vertices == GridPoints(j)
    {
      var i := 0;
      while i <= Slices
        invariant 0 <= i <= Slices + 1
        invariant vertices == GridPoints(j) + GridRowPoints(j, i)
      {
        vertices := vertices + [GridPoint(i, j)];
        i := i + 1;
      }
      j := j + 1;
    }
    GridPointsAt(Slices + 1, 0, 0);
  }

  /** The grid's index loop. */
  method GridIndexLoop() returns (indices: seq<Uvec4>)
    ensures indices == GridIndices(Slices)
  {
    indices := [];
    var j := 0;
    while j < Slices
      invariant 0 <= j <= Slices
      invariant indices == GridIndices(j)
    {
      var i := 0;
      while i < Slices
        invariant 0 <= i <= Slices
        invariant indices == GridIndices(j) + GridRow(j, i)
      {
        var row1 := j * (Slices + 1);
        var row2 := (j + 1) * (Slices + 1);
        indices := indices + [Uvec4(row1 + i, row1 + i + 1, row1 + i + 1, row2 + i + 1)];
        indices := indices + [Uvec4(row2 + i + 1, row2 + i, row2 + i, row1 + i)];
        i := i + 1;
      }
      j := j + 1;
    }
  }

  /** The one-time setup of the grid's vertex array: positions only
      (3 floats, tightly packed) and an element buffer of uvec4 entries. */
  function GridSetupCalls(vao: Name, vbo: Name, ibo: Name, vertices: nat, entries: nat): seq<Event>
  {
    [Generate(VertexArrayObject, vao)] + [BindVertexArray(vao)] + [Generate(BufferObject, vbo)]
    + [BindBuffer(ArrayBuffer, vbo), BufferData(ArrayBuffer, vertices * 3 * WordSize), VertexAttrib(0, 3, 0, 0)]
    + [Generate(BufferObject, ibo)]
    + [BindBuffer(ElementArrayBuffer, ibo), BufferData(ElementArrayBuffer, entries * 4 * WordSize),
       BindVertexArray(0), BindBuffer(ElementArrayBuffer, 0), BindBuffer(ArrayBuffer, 0)]
  }

  // --------------------------------------------------------------- cache

  /** The function-local statics of the four draw functions. */
  class ShapeCache {
    var quadVao: Name
    var quadVbo: Name
    var cubeVao: Name
    var cubeVbo: Name
    var sphereVao: Name
    var sphereIndexCount: nat
    var gridVao: Name
    var gridVbo: Name
    var gridLength: nat

    /** Once a shape is built, its stored draw count is the count of its
        index list. */
    ghost predicate Valid()
      reads this
    {
      (sphereVao != 0 ==> sphereIndexCount == SphereIndexCount)
      && (gridVao != 0 ==> gridLength == GridDrawLength)
    }

    /** Statics start zeroed: nothing is built yet. */
    constructor ()
      ensures quadVao == 0 && quadVbo == 0 && cubeVao == 0 && cubeVbo == 0
      ensures sphereVao == 0 && sphereIndexCount == 0 && gridVao == 0 && gridVbo == 0 && gridLength == 0
      ensures Valid()
    {
      quadVao, quadVbo, cubeVao, cubeVbo := 0, 0, 0, 0;
      sphereVao, sphereIndexCount := 0, 0;
      gridVao, gridVbo, gridLength := 0, 0, 0;
    }

    /** RenderQuad: bind the shader, build the quad on the first call, draw
        its four vertices as a strip. */
    method RenderQuad(dev: Device, sh: Shader)
      requires Valid()
      modifies this, dev
      ensures Valid()
      ensures dev.trace == old(dev.trace) + [UseProgram(sh.id), DrawArrays(TriangleStrip, QuadVertexCount)]
      ensures dev.nextName == old(dev.nextName) && quadVao != 0
      ensures old(quadVao) != 0 ==>
        unchanged(this) && dev.geometryTrace == old(dev.geometryTrace) + [BindVertexArray(quadVao), BindVertexArray(0)]
      ensures old(quadVao) == 0 ==>
        quadVao == old(dev.nextGeometryName) && quadVbo == quadVao + 1
        && dev.geometryTrace == old(dev.geometryTrace) + QuadSetupCalls(quadVao, quadVbo) + [BindVertexArray(quadVao), BindVertexArray(0)]
      ensures cubeVao == old(cubeVao) && sphereVao == old(sphereVao) && gridVao == old(gridVao)
      ensures sphereIndexCount == old(sphereIndexCount) && gridLength == old(gridLength)
    {
      dev.Emit([UseProgram(sh.id)]);
      if quadVao == 0 {
        var vao := dev.NewGeometryName(VertexArrayObject);
        var vbo := dev.NewGeometryName(BufferObject);
        dev.EmitGeometry([BindVertexArray(vao), BindBuffer(ArrayBuffer, vbo), BufferData(ArrayBuffer, |QuadVertices| * WordSize),
                          VertexAttrib(0, 3, QuadFloatsPerVertex * WordSize, 0),
                          VertexAttrib(1, 2, QuadFloatsPerVertex * WordSize, 3 * WordSize)]);
        quadVao, quadVbo := vao, vbo;
      }
      dev.EmitGeometry([BindVertexArray(quadVao)]);
      dev.Emit([DrawArrays(TriangleStrip, 4)]);
      dev.EmitGeometry([BindVertexArray(0)]);
    }

    /** RenderCube: bind the shader, build the cube on the first call, draw
        its 36 vertices as triangles. */
    method RenderCube(dev: Device, sh: Shader)
      requires Valid()
      modifies this, dev
      ensures Valid()
      ensures dev.trace == old(dev.trace) + [UseProgram(sh.id), DrawArrays(Triangles, CubeVertexCount)]
      ensures dev.nextName == old(dev.nextName) && cubeVao != 0
      ensures old(cubeVao) != 0 ==>
        unchanged(this) && dev.geometryTrace == old(dev.geometryTrace) + [BindVertexArray(cubeVao), BindVertexArray(0)]
      ensures old(cubeVao) == 0 ==>
        cubeVao == old(dev.nextGeometryName) && cubeVbo == cubeVao + 1
        && dev.geometryTrace == old(dev.geometryTrace) + CubeSetupCalls(cubeVao, cubeVbo) + [BindVertexArray(cubeVao), BindVertexArray(0)]
      ensures quadVao == old(quadVao) && sphereVao == old(sphereVao) && gridVao == old(gridVao)
      ensures sphereIndexCount == old(sphereIndexCount) && gridLength == old(gridLength)
    {
      dev.Emit([UseProgram(sh.id)]);
      if cubeVao == 0 {
        var vao := dev.NewGeometryName(VertexArrayObject);
        var vbo := dev.NewGeometryName(BufferObject);
        dev.EmitGeometry([BindBuffer(ArrayBuffer, vbo), BufferData(ArrayBuffer, CubeVertexCount * CubeFloatsPerVertex * WordSize),
                          BindVertexArray(vao),
                          VertexAttrib(0, 3, CubeFloatsPerVertex * WordSize, 0),
                          VertexAttrib(1, 3, CubeFloatsPerVertex * WordSize, 3 * WordSize),
                          VertexAttrib(2, 2, CubeFloatsPerVertex * WordSize, 6 * WordSize),
                          BindBuffer(ArrayBuffer, 0), BindVertexArray(0)]);
        cubeVao, cubeVbo := vao, vbo;
      }
      dev.EmitGeometry([BindVertexArray(cubeVao)]);
      dev.Emit([DrawArrays(Triangles, 36)]);
      dev.EmitGeometry([BindVertexArray(0)]);
    }

    /** RenderSphere: bind the shader, build the sphere on the first call,
        draw its index list as one strip. The vertex array is left bound. */
    method RenderSphere(dev: Device, sh: Shader)
      requires Valid()
      modifies this, dev
      ensures Valid()
      ensures dev.trace == old(dev.trace) + [UseProgram(sh.id), DrawElements(TriangleStrip, SphereIndexCount)]
      ensures dev.nextName == old(dev.nextName) && sphereVao != 0 && sphereIndexCount == SphereIndexCount
      ensures old(sphereVao) != 0 ==>
        unchanged(this) && dev.geometryTrace == old(dev.geometryTrace) + [BindVertexArray(sphereVao)]
      ensures old(sphereVao) == 0 ==>
        sphereVao == old(dev.nextGeometryName)
        && dev.geometryTrace == old(dev.geometryTrace)
           + SphereSetupCalls(sphereVao, sphereVao + 1, sphereVao + 2, 8 * SphereVertexCount, SphereIndexCount)
           + [BindVertexArray(sphereVao)]
      ensures quadVao == old(quadVao) && cubeVao == old(cubeVao) && gridVao == old(gridVao)
      ensures gridLength == old(gridLength)
    {
      dev.Emit([UseProgram(sh.id)]);
      if sphereVao == 0 {
        var vao, count := BuildSphere(dev);
        sphereVao, sphereIndexCount := vao, count;
      }
      dev.EmitGeometry([BindVertexArray(sphereVao)]);
      dev.Emit([DrawElements(TriangleStrip, sphereIndexCount)]);
    }

    /** RenderGird: build the grid on the first call and draw it as lines.
        The shader argument is not bound here: the grid is drawn with
        whichever program is current. */
    method RenderGrid(dev: Device, sh: Shader)
      requires Valid()
      modifies this, dev
      ensures Valid()
      ensures dev.trace == old(dev.trace) + [DrawElements(Lines, GridDrawLength)]
      ensures dev.nextName == old(dev.nextName) && gridVao != 0 && gridLength == GridDrawLength
      ensures old(gridVao) != 0 ==>
        unchanged(this) && dev.geometryTrace == old(dev.geometryTrace) + [BindVertexArray(gridVao), BindVertexArray(0)]
      ensures old(gridVao) == 0 ==>
        gridVao == old(dev.nextGeometryName) && gridVbo == gridVao + 1
        && dev.geometryTrace == old(dev.geometryTrace)
           + GridSetupCalls(gridVao, gridVbo, gridVbo + 1, GridVertexCount, 2 * Slices * Slices)
           + [BindVertexArray(gridVao), BindVertexArray(0)]
      ensures quadVao == old(quadVao) && cubeVao == old(cubeVao) && sphereVao == old(sphereVao)
      ensures sphereIndexCount == old(sphereIndexCount)
    {
      if gridVao == 0 {
        var vao, vbo, length := BuildGrid(dev);
        gridVao, gridVbo, gridLength := vao, vbo, length;
      }
      dev.EmitGeometry([BindVertexArray(gridVao)]);
      dev.Emit([DrawElements(Lines, gridLength)]);
      dev.EmitGeometry([BindVertexArray(0)]);
    }
  }

  /** The sphere's vertex buffer contents and index list (their contents
      are stated by the loops that build them). */
  method GenerateSphere() returns (data: seq<SphereFloat>, indices: seq<nat>)
    ensures |data| == 8 * SphereVertexCount
    ensures |indices| == SphereIndexCount
  {
    var positions, uv, normals := SphereVertices();
    indices := SphereIndexLoop();
    SphereIndexTotal();
    data := Interleave(positions, normals, uv);
  }

  /** The sphere's first-call setup: generate the lists, upload them, and
      return the vertex array and the index count. */
  method BuildSphere(dev: Device) returns (vao: FreshName, count: nat)
    modifies dev
    ensures vao == old(dev.nextGeometryName) && count == SphereIndexCount
    ensures dev.geometryTrace == old(dev.geometryTrace)
      + SphereSetupCalls(vao, vao + 1, vao + 2, 8 * SphereVertexCount, SphereIndexCount)
    ensures dev.trace == old(dev.trace) && dev.nextName == old(dev.nextName)
  {
    vao := dev.NewGeometryName(VertexArrayObject);
    var vbo := dev.NewGeometryName(BufferObject);
    var ebo := dev.NewGeometryName(BufferObject);
    var data, indices := GenerateSphere();
    count := |indices|;
    dev.EmitGeometry([BindVertexArray(vao), BindBuffer(ArrayBuffer, vbo), BufferData(ArrayBuffer, |data| * WordSize),
                      BindBuffer(ElementArrayBuffer, ebo), BufferData(ElementArrayBuffer, |indices| * WordSize),
                      VertexAttrib(0, 3, 8 * WordSize, 0), VertexAttrib(1, 3, 8 * WordSize, 3 * WordSize),
                      VertexAttrib(2, 2, 8 * WordSize, 6 * WordSize)]);
  }

  /** The grid's vertex list and index list (their contents are stated by
      the loops that build them). */
  method GenerateGrid() returns (vertices: seq<GridPoint>, indices: seq<Uvec4>)
    ensures |vertices| == GridVertexCount
    ensures |indices| * 4 == GridDrawLength
  {
    vertices := GridVertices();
    indices := GridIndexLoop();
    GridIndexTotal();
  }

  /** The grid's first-call setup: generate the lists, upload them, and
      return the vertex array, its vertex buffer and the draw length. */
  method BuildGrid(dev: Device) returns (vao: FreshName, vbo: FreshName, length: nat)
    modifies dev
    ensures vao == old(dev.nextGeometryName) && vbo == vao + 1 && length == GridDrawLength
    ensures dev.geometryTrace == old(dev.geometryTrace)
      + GridSetupCalls(vao, vbo, vbo + 1, GridVertexCount, 2 * Slices * Slices)
    ensures dev.trace == old(dev.trace) && dev.nextName == old(dev.nextName)
  {
    var vertices, indices := GenerateGrid();
    vao := dev.NewGeometryName(VertexArrayObject);
    dev.EmitGeometry([BindVertexArray(vao)]);
    vbo := dev.NewGeometryName(BufferObject);
    dev.EmitGeometry([BindBuffer(ArrayBuffer, vbo), BufferData(ArrayBuffer, |vertices| * 3 * WordSize), VertexAttrib(0, 3, 0, 0)]);
    var ibo := dev.NewGeometryName(BufferObject);
    dev.EmitGeometry([BindBuffer(ElementArrayBuffer, ibo), BufferData(ElementArrayBuffer, |indices| * 4 * WordSize),
                      BindVertexArray(0), BindBuffer(ElementArrayBuffer, 0), BindBuffer(ArrayBuffer, 0)]);
    length := |indices| * 4;
  }
}
