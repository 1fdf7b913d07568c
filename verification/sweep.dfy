/**
  One round of the world-generation thread: the observation point is snapped
  to a chunk-aligned origin with C++ integer division, which truncates toward
  zero, and the 20 x 20 ring of chunk origins around it is requested in
  row-major order (outer offset along x, inner offset along z).
*/
module Sweep {
  import opened ChunkMesh

  /** Ring offsets run from -CHUNK_GENERATION_RADIUS up to CHUNK_GENERATION_RADIUS - 1. */
  const CHUNK_GENERATION_RADIUS: int := 10
  /** 2 * CHUNK_GENERATION_RADIUS offsets per axis. */
  const RING_WIDTH: nat := 20
  /** RING_WIDTH^2 requests per round. */
  const RING_SIZE: nat := 400

  /** A chunk origin (or an observation point) on the integer x/z plane. */
  datatype Coord = Coord(x: int, z: int)

  /** C++ `n / d` for a positive divisor: the quotient truncated toward zero. */
  function TruncDiv(n: int, d: int): (q: int)
    requires d > 0
    ensures n >= 0 ==> 0 <= n - q * d < d
    ensures n < 0 ==> -d < n - q * d <= 0
  {
    if n >= 0 then n / d else -((-n) / d)
  }

  /** The chunk-aligned origin for coordinate p: (p / CHUNK_SIZE) * CHUNK_SIZE in C++ arithmetic. */
  function SnapToChunk(p: int): (s: int)
    ensures s % CHUNK_SIZE == 0
    ensures p >= 0 ==> 0 <= s <= p < s + CHUNK_SIZE
    ensures p < 0 ==> s - CHUNK_SIZE < p <= s <= 0
  {
    TruncDiv(p, CHUNK_SIZE) * CHUNK_SIZE
  }

  /** Snapping is odd-symmetric, so a negative point rounds up toward zero rather than down. */
  lemma SnapSymmetric(p: int)
    ensures SnapToChunk(-p) == -SnapToChunk(p)
  {
    if p > 0 {
      assert -(-p) == p;
    }
  }

  /** Snapping leaves a chunk-aligned point where it is. */
  lemma SnapFixesAligned(k: int)
    ensures SnapToChunk(k * CHUNK_SIZE) == k * CHUNK_SIZE
  {
    var s := SnapToChunk(k * CHUNK_SIZE);
    assert s % CHUNK_SIZE == 0;
    if k >= 0 {
      assert s <= k * CHUNK_SIZE < s + CHUNK_SIZE;
    } else {
      assert s - CHUNK_SIZE < k * CHUNK_SIZE <= s;
    }
  }

  /** The snap truncates: -5 goes to 0 and -17 to -16, where flooring gives -16 and -32. */
  lemma SnapTruncatesNegative()
    ensures SnapToChunk(-5) == 0 && (-5 / CHUNK_SIZE) * CHUNK_SIZE == -16
    ensures SnapToChunk(-17) == -16 && (-17 / CHUNK_SIZE) * CHUNK_SIZE == -32
    ensures SnapToChunk(21) == 16
  {
  }

  /** The origin offset by (a, b) chunks from (px, pz). */
  function RingCoord(px: int, pz: int, a: int, b: int): Coord
  {
    Coord(px + a * CHUNK_SIZE, pz + b * CHUNK_SIZE)
  }

  /** Position of offset (a, b) in the row-major request order. */
  function RingPosition(a: int, b: int): int
  {
    (a + CHUNK_GENERATION_RADIUS) * RING_WIDTH + (b + CHUNK_GENERATION_RADIUS)
  }

  /** The k-th request of a round around origin (px, pz). */
  function RingEntry(px: int, pz: int, k: int): Coord
  {
    RingCoord(px, pz, k / RING_WIDTH - CHUNK_GENERATION_RADIUS, k % RING_WIDTH - CHUNK_GENERATION_RADIUS)
  }

  /** All requests of a round around origin (px, pz), in the order the nested loops issue them. */
  function Ring(px: int, pz: int): seq<Coord>
  {
    seq(RING_SIZE, k => RingEntry(px, pz, k))
  }

  /** Offset (a, b) in [-10, 10)^2 is requested at position (a + 10) * 20 + (b + 10). */
  lemma RingAt(px: int, pz: int, a: int, b: int)
    requires -CHUNK_GENERATION_RADIUS <= a < CHUNK_GENERATION_RADIUS
    requires -CHUNK_GENERATION_RADIUS <= b < CHUNK_GENERATION_RADIUS
    ensures 0 <= RingPosition(a, b) < |Ring(px, pz)|
    ensures Ring(px, pz)[RingPosition(a, b)] == RingCoord(px, pz, a, b)
  {
    var k := RingPosition(a, b);
    assert k / RING_WIDTH == a + CHUNK_GENERATION_RADIUS && k % RING_WIDTH == b + CHUNK_GENERATION_RADIUS;
  }

  /** Ring row a: the 20 origins the inner loop requests for outer offset a, in order. */
  function RingRow(px: int, pz: int, a: int): seq<Coord>
  {
    seq(RING_WIDTH, j => RingCoord(px, pz, a, j - CHUNK_GENERATION_RADIUS))
  }

  /** Entry j of ring row a is offset (a, j - 10). */
  lemma RingRowAt(px: int, pz: int, a: int, j: int)
    requires 0 <= j < RING_WIDTH
    ensures |RingRow(px, pz, a)| == RING_WIDTH
    ensures RingRow(px, pz, a)[j] == RingCoord(px, pz, a, j - CHUNK_GENERATION_RADIUS)
  {
  }

  /** The round is its rows one after the other: row a fills positions RingPosition(a, -10) up to RingPosition(a + 1, -10). */
  lemma RingRowSlice(px: int, pz: int, a: int)
    requires -CHUNK_GENERATION_RADIUS <= a < CHUNK_GENERATION_RADIUS
    ensures 0 <= RingPosition(a, -CHUNK_GENERATION_RADIUS) < RingPosition(a + 1, -CHUNK_GENERATION_RADIUS) <= |Ring(px, pz)|
    ensures Ring(px, pz)[RingPosition(a, -CHUNK_GENERATION_RADIUS)..RingPosition(a + 1, -CHUNK_GENERATION_RADIUS)] == RingRow(px, pz, a)
  {
    var start := RingPosition(a, -CHUNK_GENERATION_RADIUS);
    forall j | 0 <= j < RING_WIDTH
      ensures Ring(px, pz)[start + j] == RingRow(px, pz, a)[j]
    {
      RingAt(px, pz, a, j - CHUNK_GENERATION_RADIUS);
    }
  }

  /** A round requests exactly the 400 origins (px + 16a, pz + 16b) for a, b in [-10, 10). */
  lemma RingMembers(px: int, pz: int, c: Coord)
    ensures |Ring(px, pz)| == RING_SIZE
    ensures c in Ring(px, pz) <==>
      exists a, b :: -CHUNK_GENERATION_RADIUS <= a < CHUNK_GENERATION_RADIUS &&
                     -CHUNK_GENERATION_RADIUS <= b < CHUNK_GENERATION_RADIUS && c == RingCoord(px, pz, a, b)
  {
    if c in Ring(px, pz) {
      var k :| 0 <= k < |Ring(px, pz)| && Ring(px, pz)[k] == c;
      var a, b := k / RING_WIDTH - CHUNK_GENERATION_RADIUS, k % RING_WIDTH - CHUNK_GENERATION_RADIUS;
      assert c == RingCoord(px, pz, a, b);
    }
    if exists a, b :: -CHUNK_GENERATION_RADIUS <= a < CHUNK_GENERATION_RADIUS &&
                      -CHUNK_GENERATION_RADIUS <= b < CHUNK_GENERATION_RADIUS && c == RingCoord(px, pz, a, b) {
      var a, b :| -CHUNK_GENERATION_RADIUS <= a < CHUNK_GENERATION_RADIUS &&
                  -CHUNK_GENERATION_RADIUS <= b < CHUNK_GENERATION_RADIUS && c == RingCoord(px, pz, a, b);
      RingAt(px, pz, a, b);
    }
  }

  /** Every origin requested around an aligned origin is itself aligned. */
  lemma RingAligned(px: int, pz: int)
    requires px % CHUNK_SIZE == 0 && pz % CHUNK_SIZE == 0
    ensures forall k :: 0 <= k < |Ring(px, pz)| ==>
      Ring(px, pz)[k].x % CHUNK_SIZE == 0 && Ring(px, pz)[k].z % CHUNK_SIZE == 0
  {
  }

  /** Lexicographic order on (x, z). */
  predicate Before(c: Coord, d: Coord)
  {
    c.x < d.x || (c.x == d.x && c.z < d.z)
  }

  /** The requests of a round are strictly increasing in (x, z) order, so no origin is requested twice in one round. */
  lemma RingIncreasing(px: int, pz: int)
    ensures forall k, l :: 0 <= k < l < |Ring(px, pz)| ==> Before(Ring(px, pz)[k], Ring(px, pz)[l])
  {
    forall k, l | 0 <= k < l < |Ring(px, pz)|
      ensures Before(Ring(px, pz)[k], Ring(px, pz)[l])
    {
      var a, b := k / RING_WIDTH, l / RING_WIDTH;
      assert k == a * RING_WIDTH + k % RING_WIDTH;
      assert l == b * RING_WIDTH + l % RING_WIDTH;
      if a == b {
        assert k % RING_WIDTH < l % RING_WIDTH;
      } else {
        assert a < b;
      }
    }
  }
}
