/**
  The mesh grid that World::generateChunk builds for one chunk origin: a
  row-major grid of (CHUNK_SIZE+1)^2 vertices, two triangles per grid cell
  and a CHUNK_SIZE^2 height map.

  Heights and normals come from floating-point noise; here they are opaque
  samples that only record the grid point they were taken at. The vertex
  position (x - 0.5, height, z - 0.5) is likewise kept as its grid point.
*/
module ChunkMesh {

  /** Side of a chunk in grid cells. */
  const CHUNK_SIZE: nat := 16
  /** Vertices per grid row: CHUNK_SIZE + 1. */
  const MESH_WIDTH: nat := 17
  /** (CHUNK_SIZE + 1)^2 */
  const VERTEX_COUNT: nat := 289
  /** CHUNK_SIZE^2 cells, two triangles of three indices each */
  const INDEX_COUNT: nat := 1536
  /** CHUNK_SIZE^2 */
  const HEIGHT_MAP_SIZE: nat := 256

  /** The terrain height at world point (x - 0.5, z - 0.5). */
  datatype Height = HeightSample(x: int, z: int)
  /** The terrain normal at world point (x - 0.5, z - 0.5). */
  datatype Normal = NormalSample(x: int, z: int)
  /** One mesh vertex: its grid point, height and normal (texture coordinates stay zero). */
  datatype Vertex = Vertex(x: int, z: int, height: Height, normal: Normal)

  /** The raw buffers handed to the render thread, with their element counts. */
  datatype RawMeshData = RawMeshData(vertices: seq<Vertex>, indices: seq<int>, verticesCount: int, indicesCount: int)

  /** getChunkHeight at the grid point (x, z); the noise arithmetic is not modelled. */
  function ChunkHeight(x: int, z: int): Height
  {
    HeightSample(x, z)
  }

  /** getNormalVector at the grid point (x, z); the noise arithmetic is not modelled. */
  function NormalVector(x: int, z: int): Normal
  {
    NormalSample(x, z)
  }

  function Min(a: int, b: int): int
  {
    if a < b then a else b
  }

  // ---------------------------------------------------------------------------
  // Reference definition of the grid, row by row

  /** The vertex of grid point (i, j) of the chunk at (x, z). */
  function GridVertex(x: int, z: int, i: int, j: int): Vertex
  {
    Vertex(x + i, z + j, ChunkHeight(x + i, z + j), NormalVector(x + i, z + j))
  }

  /** Position of grid point (i, j) in the row-major vertex buffer. */
  function VertexOffset(i: int, j: int): int
  {
    i * MESH_WIDTH + j
  }

  /** Position of the first index of cell (i, j) in the index buffer. */
  function CellStart(i: int, j: int): int
  {
    6 * (i * CHUNK_SIZE + j)
  }

  /** Position of the t-th index of cell (i, j) in the index buffer. */
  function IndexPosition(i: int, j: int, t: int): int
  {
    CellStart(i, j) + t
  }

  /** Position of the height of cell (i, j) in the height map. */
  function HeightOffset(i: int, j: int): int
  {
    i * CHUNK_SIZE + j
  }

  /** The height of cell (i, j) of the chunk at (x, z). */
  function CellHeight(x: int, z: int, i: int, j: int): Height
  {
    ChunkHeight(x + i, z + j)
  }

  /** The six indices of cell (i, j): triangles (TL, TR, BL) and (TR, BR, BL). */
  function CellTriangles(i: int, j: int): seq<int>
  {
    var topLeft := VertexOffset(i, j);
    var topRight := VertexOffset(i, j + 1);
    var bottomLeft := VertexOffset(i + 1, j);
    var bottomRight := VertexOffset(i + 1, j + 1);
    [topLeft, topRight, bottomLeft, topRight, bottomRight, bottomLeft]
  }

  /** The first `cols` vertices of grid row i. */
  function RowVertices(x: int, z: int, i: int, cols: nat): seq<Vertex>
  {
    if cols == 0 then [] else RowVertices(x, z, i, cols - 1) + [GridVertex(x, z, i, cols - 1)]
  }

  /** The vertices of the first `rows` grid rows. */
  function GridVertices(x: int, z: int, rows: nat): seq<Vertex>
  {
    if rows == 0 then [] else GridVertices(x, z, rows - 1) + RowVertices(x, z, rows - 1, MESH_WIDTH)
  }

  /**
    The entry at position k of the index buffer: entry k % 6 of cell k / 6,
    the cells taken in row-major order.
  */
  function GridIndex(k: int): int
  {
    var cell := k / 6;
    CellTriangles(cell / CHUNK_SIZE, cell % CHUNK_SIZE)[k % 6]
  }

  /** The index buffer of every chunk. */
  function GridIndices(): seq<int>
  {
    seq(INDEX_COUNT, k => GridIndex(k))
  }

  /** The heights of the first `cols` cells of cell row i. */
  function RowHeights(x: int, z: int, i: int, cols: nat): seq<Height>
  {
    if cols == 0 then [] else RowHeights(x, z, i, cols - 1) + [CellHeight(x, z, i, cols - 1)]
  }

  /** The heights of the first `rows` cell rows. */
  function GridHeights(x: int, z: int, rows: nat): seq<Height>
  {
    if rows == 0 then [] else GridHeights(x, z, rows - 1) + RowHeights(x, z, rows - 1, CHUNK_SIZE)
  }

  /** The mesh of the chunk at (x, z): all vertex rows and all cell rows. */
  function GridMesh(x: int, z: int): RawMeshData
  {
    RawMeshData(GridVertices(x, z, MESH_WIDTH), GridIndices(), VERTEX_COUNT, INDEX_COUNT)
  }

  /** The height map of the chunk at (x, z): one height per cell. */
  function GridHeightMap(x: int, z: int): seq<Height>
  {
    GridHeights(x, z, CHUNK_SIZE)
  }

  // ---------------------------------------------------------------------------
  // Closed-form layout of the reference grid

  lemma {:induction false} RowVerticesAt(x: int, z: int, i: int, cols: nat)
    ensures |RowVertices(x, z, i, cols)| == cols
    ensures forall j :: 0 <= j < cols ==> RowVertices(x, z, i, cols)[j] == GridVertex(x, z, i, j)
  {
    if cols > 0 {
      RowVerticesAt(x, z, i, cols - 1);
    }
  }

  /** Vertex (i, j) sits at offset i * MESH_WIDTH + j. */
  lemma {:induction false} GridVerticesAt(x: int, z: int, rows: nat)
    ensures |GridVertices(x, z, rows)| == rows * MESH_WIDTH
    ensures forall i, j {:trigger GridVertices(x, z, rows)[VertexOffset(i, j)]} :: 0 <= i < rows && 0 <= j < MESH_WIDTH ==>
      GridVertices(x, z, rows)[VertexOffset(i, j)] == GridVertex(x, z, i, j)
  {
    if rows > 0 {
      GridVerticesAt(x, z, rows - 1);
      RowVerticesAt(x, z, rows - 1, MESH_WIDTH);
      var prefix, row := GridVertices(x, z, rows - 1), RowVertices(x, z, rows - 1, MESH_WIDTH);
      forall i, j | 0 <= i < rows && 0 <= j < MESH_WIDTH
        ensures GridVertices(x, z, rows)[VertexOffset(i, j)] == GridVertex(x, z, i, j)
      {
        if i < rows - 1 {
          assert VertexOffset(i, j) < |prefix|;
          assert (prefix + row)[VertexOffset(i, j)] == prefix[VertexOffset(i, j)];
        } else {
          assert VertexOffset(i, j) == |prefix| + j;
          assert (prefix + row)[VertexOffset(i, j)] == row[j];
        }
      }
    }
  }

  /** Position IndexPosition(i, j, t) of the index buffer decodes back to entry t of cell (i, j). */
  lemma GridIndexAt(i: int, j: int, t: int)
    requires 0 <= i < CHUNK_SIZE && 0 <= j < CHUNK_SIZE && 0 <= t < 6
    ensures 0 <= IndexPosition(i, j, t) < INDEX_COUNT
    ensures GridIndex(IndexPosition(i, j, t)) == CellTriangles(i, j)[t]
  {
    var cell := i * CHUNK_SIZE + j;
    assert IndexPosition(i, j, t) / 6 == cell && IndexPosition(i, j, t) % 6 == t;
    assert cell / CHUNK_SIZE == i && cell % CHUNK_SIZE == j;
  }

  lemma {:induction false} RowHeightsAt(x: int, z: int, i: int, cols: nat)
    ensures |RowHeights(x, z, i, cols)| == cols
    ensures forall j :: 0 <= j < cols ==> RowHeights(x, z, i, cols)[j] == CellHeight(x, z, i, j)
  {
    if cols > 0 {
      RowHeightsAt(x, z, i, cols - 1);
    }
  }

  lemma {:induction false} GridHeightsAt(x: int, z: int, rows: nat)
    ensures |GridHeights(x, z, rows)| == CHUNK_SIZE * rows
    ensures forall i, j {:trigger GridHeights(x, z, rows)[HeightOffset(i, j)]} :: 0 <= i < rows && 0 <= j < CHUNK_SIZE ==>
      GridHeights(x, z, rows)[HeightOffset(i, j)] == CellHeight(x, z, i, j)
  {
    if rows > 0 {
      GridHeightsAt(x, z, rows - 1);
      RowHeightsAt(x, z, rows - 1, CHUNK_SIZE);
      var prefix, row := GridHeights(x, z, rows - 1), RowHeights(x, z, rows - 1, CHUNK_SIZE);
      forall i, j | 0 <= i < rows && 0 <= j < CHUNK_SIZE
        ensures GridHeights(x, z, rows)[HeightOffset(i, j)] == CellHeight(x, z, i, j)
      {
        if i < rows - 1 {
          assert HeightOffset(i, j) < |prefix|;
          assert (prefix + row)[HeightOffset(i, j)] == prefix[HeightOffset(i, j)];
        } else {
          assert HeightOffset(i, j) == |prefix| + j;
          assert (prefix + row)[HeightOffset(i, j)] == row[j];
        }
      }
    }
  }

  // ---------------------------------------------------------------------------
  // What the mesh of one chunk promises

  /** The mesh declares (CHUNK_SIZE+1)^2 vertices and CHUNK_SIZE^2 * 6 indices and holds exactly that many. */
  lemma MeshCounts(x: int, z: int)
    ensures GridMesh(x, z).verticesCount == |GridMesh(x, z).vertices| == (CHUNK_SIZE + 1) * (CHUNK_SIZE + 1)
    ensures GridMesh(x, z).indicesCount == |GridMesh(x, z).indices| == CHUNK_SIZE * CHUNK_SIZE * 6
    ensures |GridHeightMap(x, z)| == CHUNK_SIZE * CHUNK_SIZE
  {
    GridVerticesAt(x, z, MESH_WIDTH);
    GridHeightsAt(x, z, CHUNK_SIZE);
  }

  /** The vertex buffer is row-major: grid point (i, j) is at i * (CHUNK_SIZE+1) + j, sampled at (x + i, z + j). */
  lemma VertexLayout(x: int, z: int, i: int, j: int)
    requires 0 <= i < MESH_WIDTH && 0 <= j < MESH_WIDTH
    ensures 0 <= i * MESH_WIDTH + j < |GridMesh(x, z).vertices|
    ensures GridMesh(x, z).vertices[i * MESH_WIDTH + j]
         == Vertex(x + i, z + j, ChunkHeight(x + i, z + j), NormalVector(x + i, z + j))
  {
    GridVerticesAt(x, z, MESH_WIDTH);
    assert GridMesh(x, z).vertices[VertexOffset(i, j)] == GridVertex(x, z, i, j);
  }

  /**
    Cell (i, j) contributes the triangles (TL, TR, BL) and (TR, BR, BL), in that
    order, from position 6 * (i * CHUNK_SIZE + j) on.
  */
  lemma TriangleLayout(x: int, z: int, i: int, j: int)
    requires 0 <= i < CHUNK_SIZE && 0 <= j < CHUNK_SIZE
    ensures var start := 6 * (i * CHUNK_SIZE + j);
      var topLeft, topRight := VertexOffset(i, j), VertexOffset(i, j + 1);
      var bottomLeft, bottomRight := VertexOffset(i + 1, j), VertexOffset(i + 1, j + 1);
      0 <= start && start + 6 <= |GridMesh(x, z).indices| &&
      GridMesh(x, z).indices[start..start + 6] == [topLeft, topRight, bottomLeft, topRight, bottomRight, bottomLeft]
  {
    var start := CellStart(i, j);
    var s := GridMesh(x, z).indices;
    forall t | 0 <= t < 6
      ensures s[start + t] == CellTriangles(i, j)[t]
    {
      GridIndexAt(i, j, t);
    }
    assert s[start..start + 6] == CellTriangles(i, j);
  }

  /** Every index in the index buffer names a vertex: it is below the vertex count. */
  lemma IndicesInRange(x: int, z: int)
    ensures forall k :: 0 <= k < |GridMesh(x, z).indices| ==> 0 <= GridMesh(x, z).indices[k] < GridMesh(x, z).verticesCount
  {
    forall k | 0 <= k < |GridMesh(x, z).indices|
      ensures 0 <= GridMesh(x, z).indices[k] < VERTEX_COUNT
    {
      var cell := k / 6;
      assert 0 <= cell / CHUNK_SIZE < CHUNK_SIZE && 0 <= cell % CHUNK_SIZE < CHUNK_SIZE;
    }
  }

  /** The height of cell (i, j) is stored at i * CHUNK_SIZE + j, inside the CHUNK_SIZE^2 map. */
  lemma HeightMapLayout(x: int, z: int, i: int, j: int)
    requires 0 <= i < CHUNK_SIZE && 0 <= j < CHUNK_SIZE
    ensures 0 <= i * CHUNK_SIZE + j < CHUNK_SIZE * CHUNK_SIZE == |GridHeightMap(x, z)|
    ensures GridHeightMap(x, z)[i * CHUNK_SIZE + j] == ChunkHeight(x + i, z + j)
  {
    GridHeightsAt(x, z, CHUNK_SIZE);
    assert GridHeightMap(x, z)[HeightOffset(i, j)] == CellHeight(x, z, i, j);
  }

  // ---------------------------------------------------------------------------
  // The builder

  /** The first n entries of `stored` are those of the index buffer. */
  ghost predicate IndicesWritten(stored: seq<int>, n: int)
  {
    0 <= n <= |stored| && forall k :: 0 <= k < n ==> stored[k] == GridIndex(k)
  }

  /** The first `rows` cell rows, and the first `cols` cells of the next, have their heights in `stored` at their offsets. */
  ghost predicate HeightsStored(x: int, z: int, stored: seq<Height>, rows: int, cols: int)
  {
    |stored| == HEIGHT_MAP_SIZE &&
    forall a, b :: 0 <= a < CHUNK_SIZE && 0 <= b < CHUNK_SIZE && (a < rows || (a == rows && b < cols)) ==>
      stored[HeightOffset(a, b)] == CellHeight(x, z, a, b)
  }

  /** Store the height of cell (i, j) at its offset i * CHUNK_SIZE + j of the height map. */
  method StoreCellHeight(x: int, z: int, i: int, j: int, cy: Height, dataPoints: array<Height>)
    requires 0 <= i < CHUNK_SIZE && 0 <= j < CHUNK_SIZE && cy == CellHeight(x, z, i, j)
    requires HeightsStored(x, z, dataPoints[..], i, j)
    modifies dataPoints
    ensures HeightsStored(x, z, dataPoints[..], i, j + 1)
  {
    ghost var heightsBefore := dataPoints[..];
    dataPoints[i * CHUNK_SIZE + j] := cy;
    forall a, b | 0 <= a < CHUNK_SIZE && 0 <= b < CHUNK_SIZE && (a < i || (a == i && b < j + 1))
      ensures dataPoints[HeightOffset(a, b)] == CellHeight(x, z, a, b)
    {
      if a < i || b < j {
        assert HeightOffset(a, b) < HeightOffset(i, j);
        assert dataPoints[HeightOffset(a, b)] == heightsBefore[HeightOffset(a, b)];
      }
    }
  }

  /** Append the six indices of cell (i, j), triangles (TL, TR, BL) and (TR, BR, BL), at `start`. */
  method PushCellIndices(i: int, j: int, indices: array<int>, start: int) returns (next: int)
    requires 0 <= i < CHUNK_SIZE && 0 <= j < CHUNK_SIZE
    requires indices.Length == INDEX_COUNT && start == CellStart(i, j) && IndicesWritten(indices[..], start)
    modifies indices
    ensures next == start + 6 && IndicesWritten(indices[..], next)
  {
    var meshWidth := CHUNK_SIZE + 1;
    var topLeft := i * meshWidth + j;
    var bottomLeft := (i + 1) * meshWidth + j;
    var topRight := i * meshWidth + (j + 1);
    var bottomRight := (i + 1) * meshWidth + (j + 1);

    next := start;
    indices[next] := topLeft;
    next := next + 1;
    indices[next] := topRight;
    next := next + 1;
    indices[next] := bottomLeft;
    next := next + 1;

    indices[next] := topRight;
    next := next + 1;
    indices[next] := bottomRight;
    next := next + 1;
    indices[next] := bottomLeft;
    next := next + 1;

    assert indices[start..next] == CellTriangles(i, j);
    forall k | start <= k < next
      ensures indices[k] == GridIndex(k)
    {
      GridIndexAt(i, j, k - start);
      assert indices[k] == indices[start..next][k - start];
    }
  }


  /**
    One pass of the inner loop of the builder: the MESH_WIDTH grid points of row
    i. Each point appends its vertex; each point that is the top-left corner of a
    cell also stores the cell's height and appends the cell's six indices.
  */
  method FillGridRow(x: int, z: int, i: int, vertices: array<Vertex>, indices: array<int>, dataPoints: array<Height>,
                     verticesStart: int, indicesStart: int) returns (verticesIndex: int, indicesIndex: int)
    requires 0 <= i < MESH_WIDTH
    requires vertices.Length == VERTEX_COUNT && indices.Length == INDEX_COUNT && dataPoints.Length == HEIGHT_MAP_SIZE
    requires verticesStart == i * MESH_WIDTH && vertices[..verticesStart] == GridVertices(x, z, i)
    requires indicesStart == 6 * CHUNK_SIZE * Min(i, CHUNK_SIZE)
    requires IndicesWritten(indices[..], indicesStart)
    requires HeightsStored(x, z, dataPoints[..], Min(i, CHUNK_SIZE), 0)
    modifies vertices, indices, dataPoints
    ensures verticesIndex == (i + 1) * MESH_WIDTH && vertices[..verticesIndex] == GridVertices(x, z, i + 1)
    ensures indicesIndex == 6 * CHUNK_SIZE * Min(i + 1, CHUNK_SIZE)
    ensures IndicesWritten(indices[..], indicesIndex)
    ensures HeightsStored(x, z, dataPoints[..], Min(i + 1, CHUNK_SIZE), 0)
  {
    verticesIndex, indicesIndex := verticesStart, indicesStart;
    var j := 0;
    while j <= CHUNK_SIZE
      invariant 0 <= j <= MESH_WIDTH
      invariant verticesIndex == i * MESH_WIDTH + j
      invariant vertices[..verticesIndex] == GridVertices(x, z, i) + RowVertices(x, z, i, j)
      invariant 0 <= indicesIndex <= indices.Length
      invariant IndicesWritten(indices[..], indicesIndex)
      invariant i < CHUNK_SIZE ==>
        indicesIndex == 6 * (CHUNK_SIZE * i + Min(j, CHUNK_SIZE)) && HeightsStored(x, z, dataPoints[..], i, Min(j, CHUNK_SIZE))
      invariant i == CHUNK_SIZE ==>
        indicesIndex == 6 * CHUNK_SIZE * CHUNK_SIZE && HeightsStored(x, z, dataPoints[..], CHUNK_SIZE, 0)
    {
      var chunkX := x + i;
      var chunkZ := z + j;
      var cy := ChunkHeight(chunkX, chunkZ);
      var normal := NormalVector(chunkX, chunkZ);
      ghost var written := vertices[..verticesIndex];
      vertices[verticesIndex] := Vertex(chunkX, chunkZ, cy, normal);
      verticesIndex := verticesIndex + 1;
      assert vertices[..verticesIndex] == written + [GridVertex(x, z, i, j)];
      assert written + [GridVertex(x, z, i, j)] == GridVertices(x, z, i) + RowVertices(x, z, i, j + 1);

      if i < CHUNK_SIZE && j < CHUNK_SIZE {
        StoreCellHeight(x, z, i, j, cy, dataPoints);
        indicesIndex := PushCellIndices(i, j, indices, indicesIndex);
      }
      j := j + 1;
    }
  }

  /**
    Fills the vertex, index and height-map buffers of the chunk at (x, z) in two
    nested loops over the grid points, with running counters for the vertex and
    index buffers; the last row and column of points add no cells.
  */
  method BuildChunkMesh(x: int, z: int) returns (mesh: RawMeshData, heightMap: seq<Height>)
    ensures mesh == GridMesh(x, z)
    ensures heightMap == GridHeightMap(x, z)
  {
    var dataPoints := new Height[CHUNK_SIZE * CHUNK_SIZE];
    var meshWidth := CHUNK_SIZE + 1;
    var indicesCount := CHUNK_SIZE * CHUNK_SIZE * 6;
    var indicesIndex := 0;
    var verticesIndex := 0;
    var indices := new int[indicesCount];
    var vertices := new Vertex[meshWidth * meshWidth];

    var i := 0;
    while i <= CHUNK_SIZE
      invariant 0 <= i <= MESH_WIDTH
      invariant verticesIndex == i * MESH_WIDTH
      invariant vertices[..verticesIndex] == GridVertices(x, z, i)
      invariant indicesIndex == 6 * CHUNK_SIZE * Min(i, CHUNK_SIZE)
      invariant IndicesWritten(indices[..], indicesIndex)
      invariant HeightsStored(x, z, dataPoints[..], Min(i, CHUNK_SIZE), 0)
    {
      verticesIndex, indicesIndex := FillGridRow(x, z, i, vertices, indices, dataPoints, verticesIndex, indicesIndex);
      i := i + 1;
    }

    assert indices[..] == GridIndices();
    GridHeightsAt(x, z, CHUNK_SIZE);
    forall k | 0 <= k < HEIGHT_MAP_SIZE
      ensures dataPoints[k] == GridHeightMap(x, z)[k]
    {
      assert k == HeightOffset(k / CHUNK_SIZE, k % CHUNK_SIZE);
    }
    assert dataPoints[..] == GridHeightMap(x, z);
    mesh := RawMeshData(vertices[..], indices[..], meshWidth * meshWidth, indicesCount);
    heightMap := dataPoints[..];
  }
}
