/**
  The chunk bookkeeping of World: the `chunks` store, the FIFO of chunks whose
  mesh still has to be uploaded, the generation sweep that fills that FIFO and
  the start/teardown of world generation.

  The generation thread and the render thread share `chunks` and the queue
  without synchronisation; here every operation is a whole step on its own.
*/
module WorldChunks {
  import opened ChunkMesh
  import opened Sweep

  /** world_generation_fn gives up when more than this many chunks are stored. */
  const MAX_CHUNK_COUNT: int := 1000
  /** world_generation_fn does not start when more than this many world objects exist. */
  const MAX_WORLD_OBJECTS: int := 100

  datatype Option<T> = None | Some(value: T)

  /** A chunk's GPU mesh: absent until the render thread has built it from the raw data. */
  datatype GpuMesh = NotUploaded | Uploaded(data: RawMeshData)

  /** chunk_t: origin, height map and mesh. */
  datatype Chunk = Chunk(x: int, z: int, heightMap: seq<Height>, mesh: GpuMesh)

  /** immature_chunk_data_t: a generated chunk waiting for its mesh to be uploaded. */
  datatype PendingChunkMesh = PendingChunkMesh(chunk: Chunk, meshData: RawMeshData)

  /** A Drawable or Updatable registered with the world. */
  datatype Handle = Handle(id: nat)

  /**
    The observation point handed to the generation thread. The thread re-reads
    its position on every pass; `track` lists those positions, as integer-truncated
    (x, z), one per pass, in order.
  */
  datatype ObservationPoint = NoObservationPoint | ObservationPoint(track: seq<Coord>)

  /** The generation thread, recorded by the observation point it was started with. */
  datatype GenerationThread = GenerationThread(observation: ObservationPoint)

  /** Some stored chunk has origin (x, z). */
  ghost predicate Stored(chunks: seq<Chunk>, x: int, z: int)
  {
    exists k :: 0 <= k < |chunks| && chunks[k].x == x && chunks[k].z == z
  }

  /** The queue entry generateChunk produces for origin (x, z). */
  function PendingFor(x: int, z: int): PendingChunkMesh
  {
    PendingChunkMesh(Chunk(x, z, GridHeightMap(x, z), NotUploaded), GridMesh(x, z))
  }

  /** A queue entry once its mesh is uploaded: the chunk that joins the store. */
  function Upload(entry: PendingChunkMesh): Chunk
  {
    entry.chunk.(mesh := Uploaded(entry.meshData))
  }

  /** What one generateChunk call at c adds to the queue: nothing if c is stored, else the entry for c. */
  ghost function Request(chunks: seq<Chunk>, c: Coord): seq<PendingChunkMesh>
  {
    if Stored(chunks, c.x, c.z) then [] else [PendingFor(c.x, c.z)]
  }

  /** The queue entries that requesting `coords` in order adds while `chunks` stays fixed. */
  ghost function Requests(chunks: seq<Chunk>, coords: seq<Coord>): seq<PendingChunkMesh>
  {
    if coords == [] then []
    else Requests(chunks, coords[..|coords| - 1]) + Request(chunks, coords[|coords| - 1])
  }

  /** Requesting one more origin extends the requests by that origin's entry, if it is not stored. */
  lemma RequestsStep(chunks: seq<Chunk>, coords: seq<Coord>, k: nat)
    requires k < |coords|
    ensures Requests(chunks, coords[..k + 1]) == Requests(chunks, coords[..k]) + Request(chunks, coords[k])
  {
    assert coords[..k + 1][..k] == coords[..k];
  }

  /** Requesting a + b is requesting a, then b. */
  lemma {:induction false} RequestsAppend(chunks: seq<Chunk>, a: seq<Coord>, b: seq<Coord>)
    ensures Requests(chunks, a + b) == Requests(chunks, a) + Requests(chunks, b)
  {
    if b != [] {
      var init := b[..|b| - 1];
      RequestsAppend(chunks, a, init);
      assert (a + b)[..|a + b| - 1] == a + init;
      AppendAssoc(Requests(chunks, a), Requests(chunks, init), Request(chunks, b[|b| - 1]));
    } else {
      assert a + b == a;
    }
  }

  /** One more request of the next origin in `coords` extends a queue holding the earlier requests accordingly. */
  lemma RequestNext(chunks: seq<Chunk>, coords: seq<Coord>, k: nat, base: seq<PendingChunkMesh>,
                    queue: seq<PendingChunkMesh>, c: Coord)
    requires k < |coords| && coords[k] == c
    requires queue == base + Requests(chunks, coords[..k])
    ensures queue + Request(chunks, c) == base + Requests(chunks, coords[..k + 1])
  {
    RequestsStep(chunks, coords, k);
    AppendAssoc(base, Requests(chunks, coords[..k]), Request(chunks, c));
  }

  /** Requesting ring row x extends a queue holding the requests of the rows before it accordingly. */
  lemma RowNext(chunks: seq<Chunk>, px: int, pz: int, x: int, base: seq<PendingChunkMesh>, queue: seq<PendingChunkMesh>)
    requires -CHUNK_GENERATION_RADIUS <= x < CHUNK_GENERATION_RADIUS
    requires queue == base + Requests(chunks, Ring(px, pz)[..RingPosition(x, -CHUNK_GENERATION_RADIUS)])
    ensures queue + Requests(chunks, RingRow(px, pz, x)) ==
      base + Requests(chunks, Ring(px, pz)[..RingPosition(x + 1, -CHUNK_GENERATION_RADIUS)])
  {
    var ring := Ring(px, pz);
    var done := ring[..RingPosition(x, -CHUNK_GENERATION_RADIUS)];
    RingRowSlice(px, pz, x);
    assert ring[..RingPosition(x + 1, -CHUNK_GENERATION_RADIUS)] == done + RingRow(px, pz, x);
    RequestsAppend(chunks, done, RingRow(px, pz, x));
    AppendAssoc(base, Requests(chunks, done), Requests(chunks, RingRow(px, pz, x)));
  }

  /** One more pass, around the next position of `track`, extends a queue holding the earlier passes accordingly. */
  lemma PassNext(chunks: seq<Chunk>, track: seq<Coord>, r: nat, base: seq<PendingChunkMesh>, queue: seq<PendingChunkMesh>)
    requires r < |track|
    requires queue == base + Passes(chunks, track[..r])
    ensures queue + Requests(chunks, RoundCoords(track[r])) == base + Passes(chunks, track[..r + 1])
  {
    assert track[..r + 1][..r] == track[..r];
    AppendAssoc(base, Passes(chunks, track[..r]), Requests(chunks, RoundCoords(track[r])));
  }

  lemma AppendAssoc<T>(a: seq<T>, b: seq<T>, c: seq<T>)
    ensures (a + b) + c == a + (b + c)
  {
  }

  /** The origins requested by one round around observation point p. */
  function RoundCoords(p: Coord): seq<Coord>
  {
    Ring(SnapToChunk(p.x), SnapToChunk(p.z))
  }

  /** What the queue gains over passes around the positions of `track`, one pass each, while `chunks` stays fixed. */
  ghost function Passes(chunks: seq<Chunk>, track: seq<Coord>): seq<PendingChunkMesh>
  {
    if track == [] then []
    else Passes(chunks, track[..|track| - 1]) + Requests(chunks, RoundCoords(track[|track| - 1]))
  }

  /** Requesting `coords` enqueues origin c exactly when c is requested and not stored, and never anything else. */
  lemma {:induction false} RequestsMembers(chunks: seq<Chunk>, coords: seq<Coord>)
    ensures |Requests(chunks, coords)| <= |coords|
    ensures forall e :: e in Requests(chunks, coords) ==>
      e == PendingFor(e.chunk.x, e.chunk.z) && Coord(e.chunk.x, e.chunk.z) in coords && !Stored(chunks, e.chunk.x, e.chunk.z)
    ensures forall c :: c in coords && !Stored(chunks, c.x, c.z) ==> PendingFor(c.x, c.z) in Requests(chunks, coords)
  {
    if coords != [] {
      var init := coords[..|coords| - 1];
      RequestsMembers(chunks, init);
      assert coords == init + [coords[|coords| - 1]];
    }
  }

  /** Requesting distinct origins enqueues distinct entries. */
  lemma {:induction false} RequestsDistinct(chunks: seq<Chunk>, coords: seq<Coord>)
    requires forall k, l :: 0 <= k < l < |coords| ==> coords[k] != coords[l]
    ensures forall k, l :: 0 <= k < l < |Requests(chunks, coords)| ==> Requests(chunks, coords)[k] != Requests(chunks, coords)[l]
  {
    if coords != [] {
      var init := coords[..|coords| - 1];
      var last := coords[|coords| - 1];
      RequestsDistinct(chunks, init);
      RequestsMembers(chunks, init);
      assert last !in init by {
        forall k | 0 <= k < |init|
          ensures init[k] != last
        {
          assert init[k] == coords[k];
        }
      }
    }
  }

  /** One round never enqueues the same origin twice. */
  lemma RoundDistinct(chunks: seq<Chunk>, p: Coord)
    ensures forall k, l :: 0 <= k < l < |Requests(chunks, RoundCoords(p))| ==>
      Requests(chunks, RoundCoords(p))[k] != Requests(chunks, RoundCoords(p))[l]
  {
    RingIncreasing(SnapToChunk(p.x), SnapToChunk(p.z));
    RequestsDistinct(chunks, RoundCoords(p));
  }

  /** A pass around p enqueues the entry of its snapped origin unless that origin is stored. */
  lemma OriginRequested(chunks: seq<Chunk>, p: Coord)
    requires !Stored(chunks, SnapToChunk(p.x), SnapToChunk(p.z))
    ensures PendingFor(SnapToChunk(p.x), SnapToChunk(p.z)) in Requests(chunks, RoundCoords(p))
  {
    var px, pz := SnapToChunk(p.x), SnapToChunk(p.z);
    RingAt(px, pz, 0, 0);
    assert Coord(px, pz) in RoundCoords(p);
    RequestsMembers(chunks, RoundCoords(p));
  }

  /** Every pass contributes all of its entries to what the passes enqueue. */
  lemma {:induction false} PassContained(chunks: seq<Chunk>, track: seq<Coord>, r: int)
    requires 0 <= r < |track|
    ensures multiset(Requests(chunks, RoundCoords(track[r]))) <= multiset(Passes(chunks, track))
  {
    var init := track[..|track| - 1];
    if r < |track| - 1 {
      PassContained(chunks, init, r);
      assert init[r] == track[r];
    }
  }

  /**
    The duplicate check looks only at `chunks`, never at the queue: two passes
    whose positions snap to the same unstored origin, with no upload in between,
    both enqueue that origin's entry, so the queue holds it twice.
  */
  lemma {:induction false} PassesDuplicateOrigin(chunks: seq<Chunk>, track: seq<Coord>, r: int, s: int)
    requires 0 <= r < s < |track|
    requires SnapToChunk(track[r].x) == SnapToChunk(track[s].x) && SnapToChunk(track[r].z) == SnapToChunk(track[s].z)
    requires !Stored(chunks, SnapToChunk(track[s].x), SnapToChunk(track[s].z))
    ensures multiset(Passes(chunks, track))[PendingFor(SnapToChunk(track[s].x), SnapToChunk(track[s].z))] >= 2
  {
    var init := track[..|track| - 1];
    var origin := PendingFor(SnapToChunk(track[s].x), SnapToChunk(track[s].z));
    assert init[r] == track[r];
    if s == |track| - 1 {
      OriginRequested(chunks, track[r]);
      OriginRequested(chunks, track[s]);
      PassContained(chunks, init, r);
      assert multiset(Passes(chunks, init))[origin] >= 1;
    } else {
      assert init[s] == track[s];
      PassesDuplicateOrigin(chunks, init, r, s);
    }
  }

  class World {
    /** Chunks whose mesh is uploaded, in upload order. */
    var chunks: seq<Chunk>
    /** chunkMeshGenerationQueue: front at index 0. */
    var queue: seq<PendingChunkMesh>
    var drawables: seq<Handle>
    var worldObjects: seq<Handle>
    /** worldGenerationThread: None while no thread has been started. */
    var generationThread: Option<GenerationThread>

    /** Every queued entry and every stored chunk holds the grid built for its own origin. */
    ghost predicate Valid()
      reads this
    {
      (forall k :: 0 <= k < |queue| ==> queue[k] == PendingFor(queue[k].chunk.x, queue[k].chunk.z)) &&
      (forall k :: 0 <= k < |chunks| ==> chunks[k] == Upload(PendingFor(chunks[k].x, chunks[k].z)))
    }

    constructor ()
      ensures Valid()
      ensures chunks == [] && queue == [] && drawables == [] && worldObjects == [] && generationThread == None
    {
      chunks := [];
      queue := [];
      drawables := [];
      worldObjects := [];
      generationThread := None;
    }

    /** The scan at the top of generateChunk: is some stored chunk at (x, z)? */
    method Contains(x: int, z: int) returns (found: bool)
      ensures found <==> Stored(chunks, x, z)
    {
      var k := 0;
      while k < |chunks|
        invariant 0 <= k <= |chunks|
        invariant forall l :: 0 <= l < k ==> !(chunks[l].x == x && chunks[l].z == z)
      {
        if chunks[k].x == x && chunks[k].z == z {
          return true;
        }
        k := k + 1;
      }
      return false;
    }

    /** generateChunk: unless a stored chunk already has origin (x, z), build its grid and enqueue it. */
    method GenerateChunk(x: int, z: int)
      modifies this
      ensures chunks == old(chunks) && drawables == old(drawables) && worldObjects == old(worldObjects)
      ensures generationThread == old(generationThread)
      ensures queue == old(queue) + Request(old(chunks), Coord(x, z))
      ensures old(Valid()) ==> Valid()
    {
      var found := Contains(x, z);
      if found {
        return;
      }
      var meshData, heightMap := BuildChunkMesh(x, z);
      var generated := Chunk(x, z, heightMap, NotUploaded);
      queue := queue + [PendingChunkMesh(generated, meshData)];
    }

    /** generateChunkMesh: attach the uploaded mesh to the chunk and add it to the store. */
    method GenerateChunkMesh(chunk: Chunk, meshData: RawMeshData)
      modifies this
      ensures chunks == old(chunks) + [Upload(PendingChunkMesh(chunk, meshData))]
      ensures queue == old(queue) && drawables == old(drawables) && worldObjects == old(worldObjects)
      ensures generationThread == old(generationThread)
    {
      chunks := chunks + [chunk.(mesh := Uploaded(meshData))];
    }

    /** The queue step of render: upload the front entry, if any, and pop it. */
    method Render()
      modifies this
      ensures old(queue) == [] ==> chunks == old(chunks) && queue == []
      ensures old(queue) != [] ==> chunks == old(chunks) + [Upload(old(queue)[0])] && queue == old(queue)[1..]
      ensures drawables == old(drawables) && worldObjects == old(worldObjects)
      ensures generationThread == old(generationThread)
      ensures old(Valid()) ==> Valid()
    {
      if queue != [] {
        var entry := queue[0];
        GenerateChunkMesh(entry.chunk, entry.meshData);
        queue := queue[1..];
      }
    }

    /** The inner loop of one pass: request the 20 origins of ring row x around (px, pz), in order. */
    method SweepRow(px: int, pz: int, x: int)
      modifies this
      ensures chunks == old(chunks) && drawables == old(drawables) && worldObjects == old(worldObjects)
      ensures generationThread == old(generationThread)
      ensures queue == old(queue) + Requests(chunks, RingRow(px, pz, x))
      ensures old(Valid()) ==> Valid()
    {
      ghost var row := RingRow(px, pz, x);
      var z := -CHUNK_GENERATION_RADIUS;
      while z < CHUNK_GENERATION_RADIUS
        invariant -CHUNK_GENERATION_RADIUS <= z <= CHUNK_GENERATION_RADIUS
        invariant chunks == old(chunks) && drawables == old(drawables) && worldObjects == old(worldObjects)
        invariant generationThread == old(generationThread)
        invariant queue == old(queue) + Requests(chunks, row[..z + CHUNK_GENERATION_RADIUS])
        invariant old(Valid()) ==> Valid()
      {
        var origin := RingCoord(px, pz, x, z);
        RequestNext(chunks, row, z + CHUNK_GENERATION_RADIUS, old(queue), queue, origin);
        GenerateChunk(origin.x, origin.z);
        z := z + 1;
      }
      assert row[..RING_WIDTH] == row;
    }

    /**
      One pass of the while body of world_generation_fn: give up when more than
      MAX_CHUNK_COUNT chunks are stored, else snap p to its chunk origin and
      request the 20 x 20 ring around it.
    */
    method GenerationSweep(p: Coord) returns (stopped: bool)
      modifies this
      ensures stopped <==> |old(chunks)| > MAX_CHUNK_COUNT
      ensures chunks == old(chunks) && drawables == old(drawables) && worldObjects == old(worldObjects)
      ensures generationThread == old(generationThread)
      ensures queue == old(queue) + (if stopped then [] else Requests(old(chunks), RoundCoords(p)))
      ensures old(Valid()) ==> Valid()
    {
      if |chunks| > MAX_CHUNK_COUNT {
        return true;
      }
      var px := SnapToChunk(p.x);
      var pz := SnapToChunk(p.z);
      ghost var ring := Ring(px, pz);
      var x := -CHUNK_GENERATION_RADIUS;
      assert ring[..RingPosition(x, -CHUNK_GENERATION_RADIUS)] == [];
      while x < CHUNK_GENERATION_RADIUS
        invariant -CHUNK_GENERATION_RADIUS <= x <= CHUNK_GENERATION_RADIUS
        invariant chunks == old(chunks) && drawables == old(drawables) && worldObjects == old(worldObjects)
        invariant generationThread == old(generationThread)
        invariant queue == old(queue) + Requests(chunks, ring[..RingPosition(x, -CHUNK_GENERATION_RADIUS)])
        invariant old(Valid()) ==> Valid()
      {
        RowNext(chunks, px, pz, x, old(queue), queue);
        SweepRow(px, pz, x);
        x := x + 1;
      }
      assert ring[..RingPosition(x, -CHUNK_GENERATION_RADIUS)] == ring;
      return false;
    }

    /**
      world_generation_fn with its endless loop cut off after one pass per
      position in the observation point's track: nothing happens without an
      observation point or with more than MAX_WORLD_OBJECTS world objects;
      otherwise passes repeat, each around the position read for it, until one
      gives up.
    */
    method WorldGeneration(observation: ObservationPoint)
      modifies this
      ensures chunks == old(chunks) && drawables == old(drawables) && worldObjects == old(worldObjects)
      ensures generationThread == old(generationThread)
      ensures observation.NoObservationPoint? || |old(worldObjects)| > MAX_WORLD_OBJECTS || |old(chunks)| > MAX_CHUNK_COUNT
        ==> queue == old(queue)
      ensures observation.ObservationPoint? && |old(worldObjects)| <= MAX_WORLD_OBJECTS && |old(chunks)| <= MAX_CHUNK_COUNT
        ==> queue == old(queue) + Passes(old(chunks), observation.track)
      ensures old(Valid()) ==> Valid()
    {
      if observation.NoObservationPoint? {
        return;
      }
      if |worldObjects| > MAX_WORLD_OBJECTS {
        return;
      }
      var track := observation.track;
      var r := 0;
      while r < |track|
        invariant 0 <= r <= |track|
        invariant chunks == old(chunks) && drawables == old(drawables) && worldObjects == old(worldObjects)
        invariant generationThread == old(generationThread)
        invariant |chunks| <= MAX_CHUNK_COUNT ==> queue == old(queue) + Passes(chunks, track[..r])
        invariant |chunks| > MAX_CHUNK_COUNT ==> queue == old(queue)
        invariant old(Valid()) ==> Valid()
      {
        if |chunks| <= MAX_CHUNK_COUNT {
          PassNext(chunks, track, r, old(queue), queue);
        }
        var stopped := GenerationSweep(track[r]);
        if stopped {
          return;
        }
        r := r + 1;
      }
      assert track[..r] == track;
    }

    /** startWorldGeneration: a no-op once a thread exists; else reset the object lists and start the thread. */
    method StartWorldGeneration(observation: ObservationPoint)
      modifies this
      ensures chunks == old(chunks) && queue == old(queue)
      ensures old(generationThread).Some? ==>
        drawables == old(drawables) && worldObjects == old(worldObjects) && generationThread == old(generationThread)
      ensures old(generationThread).None? ==>
        drawables == [] && worldObjects == [] && generationThread == Some(GenerationThread(observation))
      ensures generationThread.Some?
      ensures old(Valid()) ==> Valid()
    {
      if generationThread.Some? {
        return;
      }
      drawables := [];
      worldObjects := [];
      generationThread := Some(GenerationThread(observation));
    }

    /** ~World: release every queued entry front to back, clear the object lists and let go of the thread. */
    method Destroy() returns (released: seq<PendingChunkMesh>)
      modifies this
      ensures released == old(queue) && queue == []
      ensures chunks == old(chunks) && drawables == [] && worldObjects == []
      ensures generationThread == None
      ensures old(Valid()) ==> Valid()
    {
      released := [];
      while queue != []
        invariant released + queue == old(queue)
        invariant chunks == old(chunks)
        decreases |queue|
      {
        released := released + [queue[0]];
        queue := queue[1..];
      }
      assert released + [] == released;
      drawables := [];
      worldObjects := [];
      generationThread := None;
    }
  }
}
