/** The terrain height field: the analytic height from octave noise, the
    surreal edge factor, the 33x33 sample arrays stored per chunk, and the
    bilinear lookup into those arrays with its fall-back to the analytic
    height. */
module Terrain {
  import opened Host
  import opened MathHelpers
  import Noise

  const WORLD_SIZE: int := 2048
  const CHUNK_SIZE: int := 64
  const HALF_WORLD: int := 1024
  const HEIGHT_SEGMENTS: int := 32
  /** Samples per row of a chunk's height array. */
  const ROW: int := 33
  /** Samples per chunk: 33 * 33. */
  const SAMPLES: int := 1089
  const MAX_HEIGHT: real := 30.0

  /** Distance from the world centre normalised by half the world size. */
  function NormalisedRadius(env: Env, x: real, z: real): real {
    var dx := x / HALF_WORLD as real;
    var dz := z / HALF_WORLD as real;
    env.sqrt(dx * dx + dz * dz)
  }

  /** `getSurrealFactor`: 0 in the inner disc, 1 near the rim, smooth between. */
  function SurrealFactor(env: Env, x: real, z: real): (r: real)
    ensures 0.0 <= r <= 1.0
    ensures NormalisedRadius(env, x, z) <= 0.4 ==> r == 0.0
    ensures NormalisedRadius(env, x, z) >= 0.9 ==> r == 1.0
  {
    Smoothstep(0.4, 0.9, NormalisedRadius(env, x, z))
  }

  function DistFromCenter(env: Env, x: real, z: real): real {
    env.sqrt(x * x + z * z)
  }

  /** `getTerrainHeight`: two octave-noise layers mixed 80/20, scaled to
      MAX_HEIGHT, flattened around the spawn point and exaggerated towards
      the rim. */
  function TerrainHeight(env: Env, x: real, z: real): (h: real)
    requires Valid(env)
    ensures DistFromCenter(env, x, z) <= 20.0 ==> h == 0.0
    ensures -75.0 <= h <= 75.0
  {
    var r := SurrealFactor(env, x, z);
    var base := Noise.OctaveNoise(env, x, z, 4, 0.5, 2.0, 0.006);
    var detail := Noise.OctaveNoise(env, x + 1000.0, z + 1000.0, 2, 0.4, 2.5, 0.02);
    var mixed := base * 0.8 + detail * 0.2;
    var h0 := mixed * MAX_HEIGHT;
    var flatZone := Smoothstep(20.0, 60.0, DistFromCenter(env, x, z));
    var h1 := h0 * flatZone;
    var edgeFactor := 1.0 + r * 1.5;
    MulBounded(h0, 30.0, flatZone, 1.0);
    MulBounded(h1, 30.0, edgeFactor, 2.5);
    h1 * edgeFactor
  }

  /** |v| <= m and 0 <= a <= amax give |v * a| <= m * amax. */
  lemma MulBounded(v: real, m: real, a: real, amax: real)
    requires -m <= v <= m
    requires 0.0 <= a <= amax
    ensures -(m * amax) <= v * a <= m * amax
  {
    MulNonneg(m - v, a);
    MulNonneg(m + v, a);
    MulNonneg(m, amax - a);
    assert m * a - v * a == (m - v) * a;
    assert m * a + v * a == (m + v) * a;
    assert m * amax - m * a == m * (amax - a);
  }

  /** The global height cache: chunk key (cx, cz) to its sample array. */
  type HeightCache = map<(int, int), seq<real>>

  /** Every stored array has one entry per vertex of the chunk grid. */
  predicate WellFormedCache(cache: HeightCache) {
    forall k :: k in cache ==> |cache[k]| == SAMPLES
  }

  /** Index of the chunk containing world coordinate `x` along one axis. */
  function ChunkCoord(x: real): int {
    ((x + CHUNK_SIZE as real * 0.5) / CHUNK_SIZE as real).Floor
  }

  /** Coordinate relative to the centre of its chunk. */
  function LocalCoord(x: real): (l: real)
    ensures -32.0 <= l < 32.0
  {
    var c := ChunkCoord(x);
    var q := (x + 32.0) / 64.0;
    assert c as real <= q < c as real + 1.0;
    assert x == q * 64.0 - 32.0;
    x - (c * CHUNK_SIZE) as real
  }

  /** Fractional grid position inside the chunk, in units of cells. */
  function GridCoord(x: real): (f: real)
    ensures 0.0 <= f < 32.0
  {
    (LocalCoord(x) / CHUNK_SIZE as real + 0.5) * HEIGHT_SEGMENTS as real
  }

  /** The cell a grid coordinate falls in and the position inside it. */
  datatype Cell = Cell(i0: int, t: real)

  /** `x0 = max(0, min(31, floor(f)))`, `tx = max(0, min(1, f - x0))`. */
  function CellOf(f: real): (c: Cell)
    ensures 0 <= c.i0 <= HEIGHT_SEGMENTS - 1
    ensures 0.0 <= c.t <= 1.0
  {
    var fl := f.Floor;
    var i0 := if fl < HEIGHT_SEGMENTS - 1 then fl else HEIGHT_SEGMENTS - 1;
    var i0' := if i0 < 0 then 0 else i0;
    var t := f - i0' as real;
    var t' := if t < 1.0 then t else 1.0;
    Cell(i0', if t' < 0.0 then 0.0 else t')
  }

  /** On coordinates produced by `GridCoord` the clamps never bind: the
      cell is the floor and the offset is the fractional part. */
  lemma CellOfGrid(x: real)
    ensures CellOf(GridCoord(x)).i0 == GridCoord(x).Floor
    ensures CellOf(GridCoord(x)).t == GridCoord(x) - GridCoord(x).Floor as real
    ensures CellOf(GridCoord(x)).t < 1.0
  {
  }

  /** Row-major sample index of vertex (ix, iz). */
  function SampleIndex(ix: int, iz: int): (i: int)
    requires 0 <= ix <= HEIGHT_SEGMENTS && 0 <= iz <= HEIGHT_SEGMENTS
    ensures 0 <= i < SAMPLES
    ensures i % ROW == ix && i / ROW == iz
  {
    ix + iz * ROW
  }

  /** The four corner indices of any cell lie inside a chunk's array. */
  lemma CornerIndicesInRange(c0: Cell, c1: Cell)
    requires 0 <= c0.i0 <= HEIGHT_SEGMENTS - 1 && 0 <= c1.i0 <= HEIGHT_SEGMENTS - 1
    ensures 0 <= SampleIndex(c0.i0, c1.i0) < SAMPLES
    ensures 0 <= SampleIndex(c0.i0 + 1, c1.i0) < SAMPLES
    ensures 0 <= SampleIndex(c0.i0, c1.i0 + 1) < SAMPLES
    ensures 0 <= SampleIndex(c0.i0 + 1, c1.i0 + 1) < SAMPLES
  {
  }

  function Min4(a: real, b: real, c: real, d: real): real {
    var ab := if a <= b then a else b;
    var cd := if c <= d then c else d;
    if ab <= cd then ab else cd
  }

  function Max4(a: real, b: real, c: real, d: real): real {
    var ab := if a >= b then a else b;
    var cd := if c >= d then c else d;
    if ab >= cd then ab else cd
  }

  /** Bilinear blend of four corner samples: along x first, then along z. */
  function Bilinear(h00: real, h10: real, h01: real, h11: real, tx: real, tz: real): (r: real)
    requires 0.0 <= tx <= 1.0 && 0.0 <= tz <= 1.0
    ensures Min4(h00, h10, h01, h11) <= r <= Max4(h00, h10, h01, h11)
    ensures tx == 0.0 && tz == 0.0 ==> r == h00
    ensures tx == 1.0 && tz == 0.0 ==> r == h10
    ensures tx == 0.0 && tz == 1.0 ==> r == h01
    ensures tx == 1.0 && tz == 1.0 ==> r == h11
  {
    var hx0 := Lerp(h00, h10, tx);
    var hx1 := Lerp(h01, h11, tx);
    Lerp(hx0, hx1, tz)
  }

  /** `getTerrainHeightCached`: bilinear lookup in the stored array of the
      chunk containing (x, z), or the analytic height when that chunk has not
      been generated. */
  function TerrainHeightCached(env: Env, cache: HeightCache, x: real, z: real): real
    requires Valid(env)
    requires WellFormedCache(cache)
  {
    var key := (ChunkCoord(x), ChunkCoord(z));
    if key !in cache then TerrainHeight(env, x, z)
    else
      var heights := cache[key];
      var cx := CellOf(GridCoord(x));
      var cz := CellOf(GridCoord(z));
      Bilinear(heights[SampleIndex(cx.i0, cz.i0)], heights[SampleIndex(cx.i0 + 1, cz.i0)],
               heights[SampleIndex(cx.i0, cz.i0 + 1)], heights[SampleIndex(cx.i0 + 1, cz.i0 + 1)],
               cx.t, cz.t)
  }

  /** The cached lookup as the ground-height query the simulation takes. */
  function Ground(env: Env, cache: HeightCache): (real, real) -> real
    requires Valid(env)
    requires WellFormedCache(cache)
  {
    (x, z) => TerrainHeightCached(env, cache, x, z)
  }

  /** A point whose chunk has not been generated yet gets the analytic
      height. */
  lemma CachedFallback(env: Env, cache: HeightCache, x: real, z: real)
    requires Valid(env)
    requires WellFormedCache(cache)
    requires (ChunkCoord(x), ChunkCoord(z)) !in cache
    ensures TerrainHeightCached(env, cache, x, z) == TerrainHeight(env, x, z)
  {
  }

  /** The ground query answers every point with the cached lookup. */
  lemma GroundAt(env: Env, cache: HeightCache, x: real, z: real)
    requires Valid(env)
    requires WellFormedCache(cache)
    ensures Ground(env, cache)(x, z) == TerrainHeightCached(env, cache, x, z)
  {
  }

  /** A cached lookup never leaves the range of the four samples around it. */
  lemma CachedWithinCorners(env: Env, cache: HeightCache, x: real, z: real)
    requires Valid(env)
    requires WellFormedCache(cache)
    requires (ChunkCoord(x), ChunkCoord(z)) in cache
    ensures var hs := cache[(ChunkCoord(x), ChunkCoord(z))];
            var x0 := GridCoord(x).Floor;
            var z0 := GridCoord(z).Floor;
            && 0 <= x0 < HEIGHT_SEGMENTS && 0 <= z0 < HEIGHT_SEGMENTS
            && Min4(hs[SampleIndex(x0, z0)], hs[SampleIndex(x0 + 1, z0)],
                    hs[SampleIndex(x0, z0 + 1)], hs[SampleIndex(x0 + 1, z0 + 1)])
               <= TerrainHeightCached(env, cache, x, z)
               <= Max4(hs[SampleIndex(x0, z0)], hs[SampleIndex(x0 + 1, z0)],
                       hs[SampleIndex(x0, z0 + 1)], hs[SampleIndex(x0 + 1, z0 + 1)])
  {
    CellOfGrid(x);
    CellOfGrid(z);
  }

  /** World x of vertex `i` of chunk column `cx`: the plane geometry lays out
      33 vertices per row from -32 to 32 in steps of 2, offset by the chunk
      origin. */
  function VertexX(cx: int, i: int): real {
    (cx * CHUNK_SIZE + (i % ROW) * 2 - CHUNK_SIZE / 2) as real
  }

  /** World z of vertex `i` of chunk row `cz`. */
  function VertexZ(cz: int, i: int): real {
    (cz * CHUNK_SIZE + (i / ROW) * 2 - CHUNK_SIZE / 2) as real
  }

  /** The height array `createTerrainChunk` stores for chunk (cx, cz). */
  function ChunkHeights(env: Env, cx: int, cz: int): (hs: seq<real>)
    requires Valid(env)
    ensures |hs| == SAMPLES
  {
    seq(SAMPLES, i requires 0 <= i < SAMPLES => TerrainHeight(env, VertexX(cx, i), VertexZ(cz, i)))
  }

  /** Sample (ix, iz) of a chunk is the analytic height at that vertex. */
  lemma ChunkSampleAt(env: Env, cx: int, cz: int, ix: int, iz: int)
    requires Valid(env)
    requires 0 <= ix <= HEIGHT_SEGMENTS && 0 <= iz <= HEIGHT_SEGMENTS
    ensures ChunkHeights(env, cx, cz)[SampleIndex(ix, iz)]
            == TerrainHeight(env, (cx * CHUNK_SIZE + ix * 2 - 32) as real,
                                  (cz * CHUNK_SIZE + iz * 2 - 32) as real)
  {
    var i := SampleIndex(ix, iz);
    assert VertexX(cx, i) == (cx * CHUNK_SIZE + ix * 2 - 32) as real;
    assert VertexZ(cz, i) == (cz * CHUNK_SIZE + iz * 2 - 32) as real;
  }

  /** Neighbouring chunks sample the same world points on their shared edge,
      so their stored heights agree there (x seam and z seam). */
  lemma SeamsAgree(env: Env, cx: int, cz: int, k: int)
    requires Valid(env)
    requires 0 <= k <= HEIGHT_SEGMENTS
    ensures ChunkHeights(env, cx, cz)[SampleIndex(HEIGHT_SEGMENTS, k)]
            == ChunkHeights(env, cx + 1, cz)[SampleIndex(0, k)]
    ensures ChunkHeights(env, cx, cz)[SampleIndex(k, HEIGHT_SEGMENTS)]
            == ChunkHeights(env, cx, cz + 1)[SampleIndex(k, 0)]
  {
    ChunkSampleAt(env, cx, cz, HEIGHT_SEGMENTS, k);
    ChunkSampleAt(env, cx + 1, cz, 0, k);
    assert cx * CHUNK_SIZE + HEIGHT_SEGMENTS * 2 - 32 == (cx + 1) * CHUNK_SIZE + 0 * 2 - 32;
    ChunkSampleAt(env, cx, cz, k, HEIGHT_SEGMENTS);
    ChunkSampleAt(env, cx, cz + 1, k, 0);
    assert cz * CHUNK_SIZE + HEIGHT_SEGMENTS * 2 - 32 == (cz + 1) * CHUNK_SIZE + 0 * 2 - 32;
  }

  /** At a grid vertex the cached lookup returns exactly the analytic height,
      whenever the chunk's array is the one `createTerrainChunk` stores. */
  lemma CachedAtGridNodes(env: Env, cache: HeightCache, cx: int, cz: int, ix: int, iz: int)
    requires Valid(env)
    requires WellFormedCache(cache)
    requires 0 <= ix < HEIGHT_SEGMENTS && 0 <= iz < HEIGHT_SEGMENTS
    requires (cx, cz) in cache && cache[(cx, cz)] == ChunkHeights(env, cx, cz)
    ensures var x := (cx * CHUNK_SIZE + ix * 2 - 32) as real;
            var z := (cz * CHUNK_SIZE + iz * 2 - 32) as real;
            TerrainHeightCached(env, cache, x, z) == TerrainHeight(env, x, z)
  {
    var x := (cx * CHUNK_SIZE + ix * 2 - 32) as real;
    var z := (cz * CHUNK_SIZE + iz * 2 - 32) as real;
    NodeCoords(cx, ix);
    NodeCoords(cz, iz);
    ChunkSampleAt(env, cx, cz, ix, iz);
  }

  /** A vertex coordinate with 0 <= i < 32 lies in chunk `c` at grid cell `i`
      with zero offset. */
  lemma NodeCoords(c: int, i: int)
    requires 0 <= i < HEIGHT_SEGMENTS
    ensures var x := (c * CHUNK_SIZE + i * 2 - 32) as real;
            && ChunkCoord(x) == c
            && GridCoord(x) == i as real
            && CellOf(GridCoord(x)) == Cell(i, 0.0)
  {
    var x := (c * CHUNK_SIZE + i * 2 - 32) as real;
    var q := (x + 32.0) / 64.0;
    assert q == c as real + (i as real) / 32.0;
    assert c as real <= q < c as real + 1.0;
    assert ChunkCoord(x) == c;
    assert LocalCoord(x) == (i * 2 - 32) as real;
  }
}
