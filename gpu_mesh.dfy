/**
 * The static grid mesh that the GPU wave renderer uploads once: a square
 * grid of GRID_SIZE x GRID_SIZE vertices on the plane y == 0, spanning
 * [-1, 1] in x and z, and an index buffer that turns every grid cell into
 * two triangles. The shader displaces the vertices; the mesh never changes.
 *
 * This module holds the constants and the closed-form reference layout of
 * both buffers; the renderer's GenerateMesh fills its arrays with a running
 * cursor and is proved to produce exactly this layout.
 */
module GpuMesh {

  /** Vertices along each side of the grid. */
  const GRID_SIZE: nat := 100
  /** Vertices in the whole grid. */
  const VERTEX_COUNT: nat := GRID_SIZE * GRID_SIZE
  /** Grid cells (quads) along each side. */
  const CELLS: nat := GRID_SIZE - 1
  /** Entries of the index buffer: six per quad. */
  const INDEX_COUNT: nat := CELLS * CELLS * 6
  /** Distance between neighbouring vertices, so that the grid spans [-1, 1]. */
  const STEP: real := 2.0 / CELLS as real

  /** World coordinate of grid line k (used for both x and z). */
  function Coord(k: int): real
  {
    k as real * STEP - 1.0
  }

  /** Number of the vertex in column x of row z. */
  function VertexIndex(x: int, z: int): int
  {
    z * GRID_SIZE + x
  }

  /** Where the three floats of vertex (x, z) start in the vertex buffer. */
  function VertexOffset(x: int, z: int): int
  {
    3 * VertexIndex(x, z)
  }

  /** Where the six indices of quad (x, z) start in the index buffer. */
  function QuadOffset(x: int, z: int): int
  {
    6 * (z * CELLS + x)
  }

  /**
   * The six indices emitted for quad (x, z): the triangle
   * (topLeft, bottomLeft, topRight) followed by (topRight, bottomLeft, bottomRight).
   */
  function QuadIndices(x: int, z: int): (q: seq<int>)
    ensures |q| == 6
  {
    var topLeft := VertexIndex(x, z);
    var topRight := topLeft + 1;
    var bottomLeft := VertexIndex(x, z + 1);
    var bottomRight := bottomLeft + 1;
    [topLeft, bottomLeft, topRight, topRight, bottomLeft, bottomRight]
  }

  /** Reference definition of the float at position i of the vertex buffer. */
  function VertexComponent(i: int): real
  {
    var v := i / 3;
    var x := v % GRID_SIZE;
    var z := v / GRID_SIZE;
    if i % 3 == 0 then Coord(x) else if i % 3 == 1 then 0.0 else Coord(z)
  }

  /** Reference definition of the entry at position i of the index buffer. */
  function IndexEntry(i: int): int
  {
    var q := i / 6;
    QuadIndices(q % CELLS, q / CELLS)[i % 6]
  }

  /** The whole vertex buffer, as the renderer must lay it out. */
  function MeshVertices(): (s: seq<real>)
    ensures |s| == VERTEX_COUNT * 3
  {
    seq(VERTEX_COUNT * 3, VertexComponent)
  }

  /** The whole index buffer, as the renderer must lay it out. */
  function MeshIndices(): (s: seq<int>)
    ensures |s| == INDEX_COUNT
  {
    seq(INDEX_COUNT, IndexEntry)
  }

  /** The three floats at the offset of vertex (x, z) are (x * step - 1, 0, z * step - 1). */
  lemma VertexComponentAt(x: int, z: int)
    requires 0 <= x < GRID_SIZE && 0 <= z < GRID_SIZE
    ensures VertexComponent(VertexOffset(x, z)) == Coord(x)
    ensures VertexComponent(VertexOffset(x, z) + 1) == 0.0
    ensures VertexComponent(VertexOffset(x, z) + 2) == Coord(z)
  {
    var v := VertexIndex(x, z);
    assert v % GRID_SIZE == x && v / GRID_SIZE == z;
    assert (3 * v) / 3 == v && (3 * v + 1) / 3 == v && (3 * v + 2) / 3 == v;
  }

  /** The six entries at the offset of quad (x, z) are that quad's two triangles. */
  lemma IndexEntryAt(x: int, z: int, k: int)
    requires 0 <= x < CELLS && 0 <= z < CELLS && 0 <= k < 6
    ensures IndexEntry(QuadOffset(x, z) + k) == QuadIndices(x, z)[k]
  {
    var q := z * CELLS + x;
    assert q % CELLS == x && q / CELLS == z;
    assert (6 * q + k) / 6 == q && (6 * q + k) % 6 == k;
  }

  /** All six entries of quad (x, z), by position relative to the quad's offset. */
  lemma QuadEntries(x: int, z: int)
    requires 0 <= x < CELLS && 0 <= z < CELLS
    ensures forall k :: 0 <= k < 6 ==> IndexEntry(QuadOffset(x, z) + k) == QuadIndices(x, z)[k]
  {
    forall k | 0 <= k < 6
      ensures IndexEntry(QuadOffset(x, z) + k) == QuadIndices(x, z)[k]
    {
      IndexEntryAt(x, z, k);
    }
  }

  /** Vertex (x, z) sits at offset 3 * (z * GRID_SIZE + x) of the mesh and is (x * step - 1, 0, z * step - 1). */
  lemma MeshVertexAt(x: int, z: int)
    requires 0 <= x < GRID_SIZE && 0 <= z < GRID_SIZE
    ensures VertexOffset(x, z) + 3 <= |MeshVertices()|
    ensures MeshVertices()[VertexOffset(x, z)..VertexOffset(x, z) + 3] == [Coord(x), 0.0, Coord(z)]
  {
    VertexComponentAt(x, z);
  }

  /** Every grid line lies in [-1, 1]; the first is at -1 and the last at 1. */
  lemma CoordInRange(k: int)
    requires 0 <= k < GRID_SIZE
    ensures -1.0 <= Coord(k) <= 1.0
    ensures k == 0 ==> Coord(k) == -1.0
    ensures k == GRID_SIZE - 1 ==> Coord(k) == 1.0
  {
  }

  /** Every float of the vertex buffer lies in [-1, 1], and every Y component is 0. */
  lemma MeshVerticesInUnitSquare()
    ensures forall i :: 0 <= i < |MeshVertices()| ==> -1.0 <= MeshVertices()[i] <= 1.0
    ensures forall v :: 0 <= v < VERTEX_COUNT ==> MeshVertices()[3 * v + 1] == 0.0
  {
    forall i | 0 <= i < |MeshVertices()|
      ensures -1.0 <= MeshVertices()[i] <= 1.0
    {
      CoordInRange(i / 3 % GRID_SIZE);
      CoordInRange(i / 3 / GRID_SIZE);
    }
    forall v | 0 <= v < VERTEX_COUNT
      ensures MeshVertices()[3 * v + 1] == 0.0
    {
      assert (3 * v + 1) % 3 == 1;
    }
  }

  /** The six entries of quad (x, z) start at 6 * (z * (GRID_SIZE - 1) + x) and follow the two-triangle pattern. */
  lemma MeshQuadAt(x: int, z: int)
    requires 0 <= x < CELLS && 0 <= z < CELLS
    ensures QuadOffset(x, z) + 6 <= |MeshIndices()|
    ensures MeshIndices()[QuadOffset(x, z)..QuadOffset(x, z) + 6] == QuadIndices(x, z)
  {
    QuadEntries(x, z);
  }

  /** Every index in the index buffer names an existing vertex. */
  lemma MeshIndicesInRange()
    ensures forall i :: 0 <= i < |MeshIndices()| ==> 0 <= MeshIndices()[i] < VERTEX_COUNT
  {
    forall i | 0 <= i < |MeshIndices()|
      ensures 0 <= MeshIndices()[i] < VERTEX_COUNT
    {
      var q := i / 6;
      assert 0 <= q % CELLS < CELLS && 0 <= q / CELLS < CELLS;
    }
  }

  /**
   * The two triangles of a quad are proper triangles (three distinct corners
   * each), share the diagonal topRight-bottomLeft, and together use exactly
   * the quad's four corners: right and bottom neighbours of topLeft.
   */
  lemma QuadTrianglesWellFormed(x: int, z: int)
    requires 0 <= x < CELLS && 0 <= z < CELLS
    ensures var q := QuadIndices(x, z);
      && q[0] != q[1] && q[1] != q[2] && q[0] != q[2]
      && q[3] != q[4] && q[4] != q[5] && q[3] != q[5]
      && q[3] == q[2] && q[4] == q[1]
      && q[2] == q[0] + 1 && q[1] == q[0] + GRID_SIZE && q[5] == q[0] + GRID_SIZE + 1
  {
  }
}
