/** Chunk streaming: the batched generation of the 32x32 grid of terrain
    chunks during loading, and the visibility window around the player. */
module ChunkManager {
  import opened Host
  import opened Wrappers
  import Terrain

  const CHUNKS_PER_SIDE: int := 32
  const HALF_CHUNKS: int := 16
  const TOTAL_CHUNKS: int := 1024
  /** ceil(500 / 64) + 1 chunks in each direction. */
  const VIEW_CHUNK_RADIUS: int := 9

  type Key = (int, int)

  /** The manager's state. `chunks` maps every generated key to its mesh's
      visibility flag; `heights` is the terrain height cache the chunks fill;
      `lastVis` is the chunk the window was last centred on (None before the
      first update). */
  datatype Manager = Manager(
    chunks: map<Key, bool>,
    heights: Terrain.HeightCache,
    generatedCount: int,
    lastVis: Option<Key>,
    visibleKeys: set<Key>)

  function Initial(): (m: Manager)
    ensures Inv(m)
    ensures Progress(m) == 0.0
  {
    Manager(map[], map[], 0, None, {})
  }

  /** Chunk key generated at position `i` of the loading order. */
  function KeyOf(i: int): (k: Key)
    requires 0 <= i < TOTAL_CHUNKS
    ensures -HALF_CHUNKS <= k.0 < HALF_CHUNKS && -HALF_CHUNKS <= k.1 < HALF_CHUNKS
  {
    (i % CHUNKS_PER_SIDE - HALF_CHUNKS, i / CHUNKS_PER_SIDE - HALF_CHUNKS)
  }

  /** Position in the loading order of an in-range key. */
  function IndexOf(k: Key): (i: int)
    requires -HALF_CHUNKS <= k.0 < HALF_CHUNKS && -HALF_CHUNKS <= k.1 < HALF_CHUNKS
    ensures 0 <= i < TOTAL_CHUNKS
  {
    (k.0 + HALF_CHUNKS) + (k.1 + HALF_CHUNKS) * CHUNKS_PER_SIDE
  }

  /** `KeyOf` and `IndexOf` are inverse bijections between [0, 1024) and the
      32x32 key square, so no key is generated twice. */
  lemma KeyIndexRoundTrip(i: int, k: Key)
    requires 0 <= i < TOTAL_CHUNKS
    requires -HALF_CHUNKS <= k.0 < HALF_CHUNKS && -HALF_CHUNKS <= k.1 < HALF_CHUNKS
    ensures IndexOf(KeyOf(i)) == i
    ensures KeyOf(IndexOf(k)) == k
  {
    var j := IndexOf(k);
    assert j == (k.0 + HALF_CHUNKS) + (k.1 + HALF_CHUNKS) * CHUNKS_PER_SIDE;
    assert j % CHUNKS_PER_SIDE == k.0 + HALF_CHUNKS;
    assert j / CHUNKS_PER_SIDE == k.1 + HALF_CHUNKS;
  }

  lemma KeyOfInjective(i: int, j: int)
    requires 0 <= i < TOTAL_CHUNKS && 0 <= j < TOTAL_CHUNKS
    requires KeyOf(i) == KeyOf(j)
    ensures i == j
  {
    KeyIndexRoundTrip(i, (0, 0));
    KeyIndexRoundTrip(j, (0, 0));
  }

  /** Keys of the first `n` chunks of the loading order. */
  function GeneratedKeys(n: int): set<Key>
    requires 0 <= n <= TOTAL_CHUNKS
  {
    set i | 0 <= i < n :: KeyOf(i)
  }

  /** Generating one more chunk of the order adds exactly its key. */
  lemma GeneratedKeysStep(n: int)
    requires 0 <= n < TOTAL_CHUNKS
    ensures GeneratedKeys(n + 1) == GeneratedKeys(n) + {KeyOf(n)}
  {
  }

  /** The state the manager keeps: the counter in range, exactly the first
      `generatedCount` keys generated, the cache holding each generated
      chunk's samples (only chunk creation writes the cache), and the visible set inside the generated keys. */
  ghost predicate Inv(m: Manager) {
    && 0 <= m.generatedCount <= TOTAL_CHUNKS
    && m.chunks.Keys == GeneratedKeys(m.generatedCount)
    && m.heights.Keys == m.chunks.Keys
    && (forall k :: k in m.heights ==> |m.heights[k]| == Terrain.SAMPLES)
    && m.visibleKeys <= m.chunks.Keys
  }

  /** `progress`: the fraction of chunks generated. */
  function Progress(m: Manager): (p: real)
    requires 0 <= m.generatedCount <= TOTAL_CHUNKS
    ensures 0.0 <= p <= 1.0
    ensures p == 1.0 <==> m.generatedCount == TOTAL_CHUNKS
  {
    m.generatedCount as real / TOTAL_CHUNKS as real
  }

  /** Midway through a batch: the chunks of the first `i` keys of the order
      exist, the ones that existed before are untouched, and each new one is
      visible with its analytic samples. */
  ghost predicate BatchInv(env: Env, m: Manager, chunks: map<Key, bool>, heights: Terrain.HeightCache, i: int)
    requires Valid(env)
  {
    && 0 <= i <= TOTAL_CHUNKS
    && chunks.Keys == GeneratedKeys(i)
    && heights.Keys == chunks.Keys
    && (forall k :: k in heights ==> |heights[k]| == Terrain.SAMPLES)
    && (forall k :: k in m.chunks ==> k in chunks && chunks[k] == m.chunks[k])
    && (forall k :: k in m.heights ==> k in heights && heights[k] == m.heights[k])
    && (forall k :: k in chunks && k !in m.chunks ==>
          chunks[k] && k in heights && heights[k] == Terrain.ChunkHeights(env, k.0, k.1))
  }

  /** One iteration of `generateBatch`: create chunk `i` of the order unless
      it already exists. */
  method AddChunk(env: Env, m: Manager, chunks: map<Key, bool>, heights: Terrain.HeightCache, i: int)
    returns (chunks': map<Key, bool>, heights': Terrain.HeightCache)
    requires Valid(env)
    requires 0 <= i < TOTAL_CHUNKS
    requires BatchInv(env, m, chunks, heights, i)
    ensures BatchInv(env, m, chunks', heights', i + 1)
    ensures KeyOf(i) in chunks' && chunks'[KeyOf(i)]
  {
    var key := KeyOf(i);
    chunks', heights' := chunks, heights;
    if key !in chunks {
      heights' := heights[key := Terrain.ChunkHeights(env, key.0, key.1)];
      chunks' := chunks[key := true];
    }
    GeneratedKeysStep(i);
  }

  /** `generateBatch`: generate the next `batchSize` chunks of the loading
      order (fewer at the end), storing each new chunk visible with its height
      samples, and report whether every chunk now exists. */
  method GenerateBatch(env: Env, m: Manager, batchSize: int) returns (m': Manager, done: bool)
    requires Valid(env)
    requires Inv(m)
    requires 0 <= batchSize
    ensures Inv(m')
    ensures m'.generatedCount == if m.generatedCount + batchSize < TOTAL_CHUNKS
                                 then m.generatedCount + batchSize else TOTAL_CHUNKS
    ensures m.generatedCount <= m'.generatedCount
    ensures done <==> m'.generatedCount >= TOTAL_CHUNKS
    ensures forall k :: k in m.chunks ==> k in m'.chunks && m'.chunks[k] == m.chunks[k]
    ensures forall k :: k in m.heights ==> k in m'.heights && m'.heights[k] == m.heights[k]
    ensures forall k :: k in m'.chunks && k !in m.chunks ==>
              m'.chunks[k] && k in m'.heights && m'.heights[k] == Terrain.ChunkHeights(env, k.0, k.1)
    ensures m'.lastVis == m.lastVis && m'.visibleKeys == m.visibleKeys
  {
    var startIdx := m.generatedCount;
    var endIdx := if startIdx + batchSize < TOTAL_CHUNKS then startIdx + batchSize else TOTAL_CHUNKS;
    var chunks := m.chunks;
    var heights := m.heights;
    var i := startIdx;
    while i < endIdx
      invariant startIdx <= i <= endIdx
      invariant BatchInv(env, m, chunks, heights, i)
    {
      chunks, heights := AddChunk(env, m, chunks, heights, i);
      i := i + 1;
    }
    m' := m.(chunks := chunks, heights := heights, generatedCount := endIdx);
    done := endIdx >= TOTAL_CHUNKS;
  }

  /** Once the counter reaches the total, every key of the 32x32 square has
      been generated. */
  lemma AllGenerated(m: Manager, k: Key)
    requires Inv(m)
    requires m.generatedCount == TOTAL_CHUNKS
    requires -HALF_CHUNKS <= k.0 < HALF_CHUNKS && -HALF_CHUNKS <= k.1 < HALF_CHUNKS
    ensures k in m.chunks
  {
    KeyIndexRoundTrip(0, k);
    assert KeyOf(IndexOf(k)) in GeneratedKeys(TOTAL_CHUNKS);
  }

  /** Generated keys within Chebyshev distance VIEW_CHUNK_RADIUS of the
      focus chunk. */
  function Window(chunks: map<Key, bool>, pcx: int, pcz: int): set<Key> {
    set k | k in chunks && pcx - VIEW_CHUNK_RADIUS <= k.0 <= pcx + VIEW_CHUNK_RADIUS
                        && pcz - VIEW_CHUNK_RADIUS <= k.1 <= pcz + VIEW_CHUNK_RADIUS
  }

  /** The double loop of `update` over dz, dx in [-9, 9] collecting the
      generated keys it meets. */
  method CollectWindow(chunks: map<Key, bool>, pcx: int, pcz: int) returns (next: set<Key>)
    ensures next == Window(chunks, pcx, pcz)
  {
    next := {};
    var dz := -VIEW_CHUNK_RADIUS;
    while dz <= VIEW_CHUNK_RADIUS
      invariant -VIEW_CHUNK_RADIUS <= dz <= VIEW_CHUNK_RADIUS + 1
      invariant next == set k | k in chunks && pcx - VIEW_CHUNK_RADIUS <= k.0 <= pcx + VIEW_CHUNK_RADIUS
                                && pcz - VIEW_CHUNK_RADIUS <= k.1 < pcz + dz
    {
      var dx := -VIEW_CHUNK_RADIUS;
      ghost var before := next;
      while dx <= VIEW_CHUNK_RADIUS
        invariant -VIEW_CHUNK_RADIUS <= dx <= VIEW_CHUNK_RADIUS + 1
        invariant next == before + set k | k in chunks && pcx - VIEW_CHUNK_RADIUS <= k.0 < pcx + dx
                                           && k.1 == pcz + dz
      {
        var key := (pcx + dx, pcz + dz);
        if key in chunks {
          next := next + {key};
        }
        dx := dx + 1;
      }
      dz := dz + 1;
    }
  }

  /** Every key in the visible set has its mesh shown. */
  predicate VisibleShown(m: Manager) {
    forall k :: k in m.visibleKeys ==> k in m.chunks && m.chunks[k]
  }

  /** A chunk's mesh is shown exactly when its key is in the visible set. */
  predicate VisibilityExact(m: Manager) {
    && m.visibleKeys <= m.chunks.Keys
    && forall k :: k in m.chunks ==> (m.chunks[k] <==> k in m.visibleKeys)
  }

  /** `update`: re-centre the visibility window when the player has moved to
      another chunk. Chunks in the new window are shown; chunks of the old
      window outside it are hidden; on the first call every generated chunk
      outside the window is hidden. */
  function Update(m: Manager, playerX: real, playerZ: real): (m': Manager)
    ensures m'.chunks.Keys == m.chunks.Keys
    ensures m'.generatedCount == m.generatedCount && m'.heights == m.heights
    ensures m.lastVis == Some((Terrain.ChunkCoord(playerX), Terrain.ChunkCoord(playerZ))) ==> m' == m
    ensures m'.lastVis == Some((Terrain.ChunkCoord(playerX), Terrain.ChunkCoord(playerZ)))
    ensures m.lastVis != m'.lastVis ==>
              m'.visibleKeys == Window(m.chunks, Terrain.ChunkCoord(playerX), Terrain.ChunkCoord(playerZ))
    ensures m.lastVis != m'.lastVis ==> VisibleShown(m')
    ensures VisibleShown(m) ==> VisibleShown(m')
    ensures m.lastVis.None? ==> VisibilityExact(m')
    ensures VisibilityExact(m) ==> VisibilityExact(m')
  {
    var pcx := Terrain.ChunkCoord(playerX);
    var pcz := Terrain.ChunkCoord(playerZ);
    if m.lastVis == Some((pcx, pcz)) then m
    else
      var firstVisUpdate := m.lastVis.None?;
      var next := Window(m.chunks, pcx, pcz);
      var chunks := map k | k in m.chunks ::
        if k in next then true
        else if k in m.visibleKeys || firstVisUpdate then false
        else m.chunks[k];
      m.(chunks := chunks, lastVis := Some((pcx, pcz)), visibleKeys := next)
  }

  /** Generating more chunks keeps every visible key shown. */
  lemma GenerateKeepsVisibleShown(m: Manager, m': Manager)
    requires VisibleShown(m)
    requires m'.visibleKeys == m.visibleKeys
    requires forall k :: k in m.chunks ==> k in m'.chunks && m'.chunks[k] == m.chunks[k]
    ensures VisibleShown(m')
  {
  }
}
