# Voxel world: chunk meshes, the chunk store and the generation sweep

This project models the chunk bookkeeping of the voxel game's `World`
(`src/world/World.cpp`) and proves properties of that model in Dafny. It has
three modules.

- `ChunkMesh` (`mesh.dfy`) holds the grid builder of `World::generateChunk`.
  For a chunk origin `(x, z)` it fills three arrays in two nested loops with
  running counters:
  - a row-major buffer of `(CHUNK_SIZE+1)^2` vertices;
  - an index buffer of `CHUNK_SIZE^2 * 6` entries, two triangles per grid cell;
  - a `CHUNK_SIZE^2` height map.

  The method `BuildChunkMesh` is proved equal to a reference definition,
  `GridMesh` and `GridHeightMap`. The lemmas then give the layout of that
  reference: counts, vertex positions, the per-cell triangles, and every index
  below the vertex count.
- `Sweep` (`sweep.dfy`) holds one pass of the generation thread. It snaps the
  observation point to a chunk origin with C++ integer division, which
  truncates toward zero. It then lists the 20 x 20 ring of chunk origins in
  the order the nested loops request them.
- `WorldChunks` (`world.dfy`) holds the class `World`. Its `seq` fields are
  the `chunks` store, the FIFO of chunks waiting for a GPU mesh, and the
  drawable and world-object lists; an `Option` field records the generation
  thread. Its methods are:
  - `generateChunk`, with its duplicate check against `chunks`;
  - the queue step of `render`;
  - one pass and the repeated passes of the generation thread;
  - the `startWorldGeneration` guard;
  - the queue drain of the destructor.

  `Requests` states what a list of requested origins adds to the queue.
  `Valid` is the class invariant: every queued or stored chunk holds the grid
  built for its own origin.

`CHUNK_SIZE` is fixed at 16, a signed integer (see "## Left out").

Heights and normals come from floating-point simplex noise. Here they are
opaque samples, `HeightSample(x, z)` and `NormalSample(x, z)`, that only
record the grid point they were taken at. A vertex records its integer grid
point `(x + i, z + j)` in place of the float position `(x + i - 0.5, height,
z + j - 0.5)`.

Two facts about the code that a reader might expect otherwise:
- The snap to a chunk origin is `((int32_t) p / CHUNK_SIZE) * CHUNK_SIZE`.
  This truncates toward zero; it does not floor: `-5` snaps to `0`, not to
  `-16` (`SnapTruncatesNegative`).
- The duplicate check in `generateChunk` looks only at `chunks`, not at the
  queue. One pass never enqueues an origin twice (`RoundDistinct`). Two passes
  whose positions snap to the same unstored origin, with no drain between
  them, enqueue that origin twice (`PassesDuplicateOrigin`). So the model does
  not claim that stored chunks have distinct origins.

## Model

| member | source | states |
|---|---|---|
| ChunkMesh.BuildChunkMesh | src/world/World.cpp:167-240 | The buffers the nested loops fill are exactly the reference grid mesh of the origin (vertices, indices and both counts) and its height map. |
| ChunkMesh.FillGridRow | src/world/World.cpp:190-225 | One inner-loop pass over row i appends that row's MESH_WIDTH vertices. For i < CHUNK_SIZE it also adds the row's cells: 6·CHUNK_SIZE more indices and CHUNK_SIZE more heights. For the last row it adds neither. |
| ChunkMesh.StoreCellHeight | src/world/World.cpp:208-210 | Writing the height of cell (i, j) at offset i·CHUNK_SIZE+j extends the stored part of the height map by that one cell in row-major order. |
| ChunkMesh.PushCellIndices | src/world/World.cpp:212-223 | The six writes for cell (i, j) extend the correct prefix of the index buffer by six entries. |
| ChunkMesh.MeshCounts | src/world/World.cpp:174-175 | The mesh declares (CHUNK_SIZE+1)^2 vertices and CHUNK_SIZE^2·6 indices and holds exactly that many of each. The height map has CHUNK_SIZE^2 entries. |
| ChunkMesh.VertexLayout | src/world/World.cpp:193-204 | Grid point (i, j) is at buffer position i·(CHUNK_SIZE+1)+j. It is sampled at (x+i, z+j). |
| ChunkMesh.TriangleLayout | src/world/World.cpp:212-223 | Cell (i, j) contributes (TL, TR, BL) and then (TR, BR, BL), in that order, at positions 6·(i·CHUNK_SIZE+j) to 6·(i·CHUNK_SIZE+j)+5. The four corners are given as vertex offsets. |
| ChunkMesh.IndicesInRange | src/world/World.cpp:212-223 | Every index in the index buffer is in [0, verticesCount). |
| ChunkMesh.HeightMapLayout | src/world/World.cpp:208-210 | Offset i·CHUNK_SIZE+j, for i, j < CHUNK_SIZE, is inside the CHUNK_SIZE^2 map and holds the height sampled at (x+i, z+j). |
| Sweep.TruncDiv | src/world/World.cpp:32-33 | The quotient of C++ division: its remainder has the sign of the dividend and is smaller than the divisor. |
| Sweep.SnapToChunk | src/world/World.cpp:32-33 | The snapped origin is a multiple of CHUNK_SIZE. It lies between 0 and p, less than CHUNK_SIZE away from p. |
| Sweep.SnapSymmetric | src/world/World.cpp:32-33 | Snapping -p gives minus the snap of p. |
| Sweep.SnapFixesAligned | src/world/World.cpp:32-33 | A chunk-aligned point snaps to itself. |
| Sweep.SnapTruncatesNegative | src/world/World.cpp:32-33 | -5 snaps to 0 and -17 snaps to -16, where flooring would give -16 and -32. |
| Sweep.RingAt | src/world/World.cpp:35-41 | Offset (a, b) in [-10, 10)^2 is requested at position (a+10)·20+(b+10) as origin (px+16a, pz+16b). |
| Sweep.RingMembers | src/world/World.cpp:35-41 | A pass requests 400 origins. An origin is requested exactly when it is (px+16a, pz+16b) for some a, b in [-10, 10). |
| Sweep.RingAligned | src/world/World.cpp:32-41 | Around an aligned origin every requested origin is a multiple of CHUNK_SIZE in both axes. |
| Sweep.RingIncreasing | src/world/World.cpp:35-36 | The requests of a pass are strictly increasing in (x, z) order. |
| Sweep.RingRowSlice | src/world/World.cpp:35-41 | The requests of outer offset a fill positions (a+10)·20 up to (a+11)·20 of the pass. |
| WorldChunks.RequestsMembers | src/world/World.cpp:162-166 | A list of requests enqueues an origin's entry if and only if that origin is requested and not stored. It enqueues no other entry and no more entries than requests. |
| WorldChunks.RequestsDistinct | src/world/World.cpp:162-166 | Distinct requested origins give distinct queue entries. |
| WorldChunks.RequestsAppend | src/world/World.cpp:35-43 | Requesting a then b enqueues a's entries followed by b's. |
| WorldChunks.RoundDistinct | src/world/World.cpp:35-43 | One pass enqueues no entry twice. |
| WorldChunks.OriginRequested | src/world/World.cpp:32-41 | A pass around p enqueues the entry of p's snapped origin whenever that origin is not stored. |
| WorldChunks.PassContained | src/world/World.cpp:29-44 | Every entry a single pass enqueues is among what the sequence of passes enqueues, with multiplicity. |
| WorldChunks.PassesDuplicateOrigin | src/world/World.cpp:29-44 | If two passes' positions snap to the same origin and that origin is not stored, the passes, with no drain in between, enqueue its entry at least twice. |
| WorldChunks.World.Contains | src/world/World.cpp:162-166 | The scan finds a match if and only if some stored chunk has origin (x, z). |
| WorldChunks.World.GenerateChunk | src/world/World.cpp:160-245 | If (x, z) is stored, nothing changes. Otherwise exactly one entry is appended to the back of the queue: the chunk at (x, z) with its grid height map and grid mesh. `chunks` never changes, and the invariant is kept. |
| WorldChunks.World.GenerateChunkMesh | src/world/World.cpp:132-146 | The chunk, with the uploaded mesh attached, is appended to `chunks`. Nothing else changes. |
| WorldChunks.World.Render | src/world/World.cpp:77-81 | On an empty queue nothing changes. Otherwise the front entry leaves the queue, the rest keep their order, and exactly that entry's chunk, uploaded, is appended to `chunks`. The invariant is kept. |
| WorldChunks.World.SweepRow | src/world/World.cpp:36-42 | The inner loop enqueues exactly the requests of its ring row. |
| WorldChunks.World.GenerationSweep | src/world/World.cpp:30-43 | A pass stops exactly when more than 1000 chunks are stored, and then changes nothing. Otherwise it appends the requests of the ring around the snapped origin, in row-major order. |
| WorldChunks.World.WorldGeneration | src/world/World.cpp:11-45 | With no observation point, more than 100 world objects, or more than 1000 chunks, the queue is unchanged. Otherwise one pass per position read from the observation point appends, in order, the requests of the ring around that position's snapped origin. |
| WorldChunks.World.StartWorldGeneration | src/world/World.cpp:47-59 | Once a thread exists the call changes nothing, so a second call is a no-op. The first call empties the drawable and world-object lists and records the thread with its observation point. The invariant is kept. |
| WorldChunks.World.Destroy | src/world/World.cpp:247-275 | Every queued entry is released, front to back; the queue ends empty. The drawable and world-object lists are cleared and the thread is let go. The invariant is kept. |

## Left out

- Floating-point terrain: `getBiomeNoise`, `getChunkHeight` and `getNormalVector` (src/world/World.cpp:88-126) and the external SimplexNoise are left out. Heights and normals are opaque samples named by their grid point. The biome index at line 101 is not clamped, and the model makes no claim about it.
- Vertex floats: the vertex position `(chunk_x - 0.5, cy, chunk_z - 0.5)`, the normal components and the zero texture coordinates are kept as the grid point and the opaque samples.
- The observation point's float-to-`int32_t` cast is left out. The observation point is given by its already-truncated integer coordinates.
- 32-bit arithmetic: coordinates are unbounded integers. Overflow of `px + x * CHUNK_SIZE` and `x + i` in `int32_t` is not modelled.
- Threads: the thread creation in `startWorldGeneration`, its `detach` in the destructor, and the unsynchronised sharing of `chunks` and the queue between the generation thread and the render thread are left out. Each operation is modelled as one atomic step.
- WorldChunks.World.WorldGeneration: the endless `while (true)` loop is cut off after one pass per position in the observation point's track. The model covers runs in which no `render` call interleaves with the passes, so `chunks` stays fixed and the cap at line 30 either trips on the first pass or never. Growth of `chunks` during the run, the only way the cap trips later, is not modelled; a run with renders in between is modelled by calling GenerationSweep and Render in turn.
- CHUNK_SIZE: it is declared outside the modelled file. The model assumes it is 16 and a signed integer type. With an unsigned CHUNK_SIZE the division at lines 32-33 would be unsigned and the snap would behave differently for negative positions.
- GPU and dispatch: the VBO upload (`withVertices`, `withIndices`, `build`), the `draw` calls of `render` over chunks and drawables, and `World::update`'s `Updatable::update` calls are left out. An uploaded mesh is recorded as the raw mesh data it was built from.
- Memory: the `malloc`/`free` and `delete` pairs are left out. Ownership moves as values, from the queue to `chunks` or out of the queue in `Destroy`. The destructor's freeing of stored chunks is not modelled, so `chunks` keeps its value.
- Logging: the `std::cerr` message for a missing observation point is left out.
- Header declarations: `src/rendering/Rendering.h` holds matrix, frustum and GL declarations and no logic of the core. `World.h` is not part of this model.
