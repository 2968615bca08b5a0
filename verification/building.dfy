/** Block building: a palette of five block types with a selected entry, a
    preview cube marking where the next block goes, and the placed blocks
    keyed by their rounded grid position. */
module Building {
  import opened Host
  import opened Wrappers

  datatype BlockType = Dirt | Stone | Wood | Glass | Sand

  /** The palette, in selection order. */
  const BLOCK_TYPES: seq<BlockType> := [Dirt, Stone, Wood, Glass, Sand]
  const TYPE_COUNT: int := 5

  /** Grid key of a position: its three rounded coordinates (the source
      joins them into a string, which is just as injective). */
  datatype Key = Key(x: int, y: int, z: int)

  datatype Building = Building(
    blocks: map<Key, BlockType>,
    selectedIndex: int,
    selectedType: BlockType,
    previewVisible: bool,
    px: real, py: real, pz: real)

  /** The selected type is always the palette entry at the selected index. */
  ghost predicate Inv(b: Building) {
    0 <= b.selectedIndex < TYPE_COUNT && b.selectedType == BLOCK_TYPES[b.selectedIndex]
  }

  function Initial(): (b: Building)
    ensures Inv(b) && !b.previewVisible && b.blocks == map[]
    ensures b.selectedType == Dirt
  {
    Building(map[], 0, Dirt, false, 0.0, 0.0, 0.0)
  }

  /** JavaScript's `%` on integers: the remainder takes the sign of the
      dividend (division truncates towards zero). */
  function JsRem(a: int, n: int): (r: int)
    requires n > 0
    ensures a >= 0 ==> 0 <= r < n
    ensures a < 0 ==> -n < r <= 0
  {
    if a >= 0 then a % n else -((-a) % n)
  }

  /** Adding the palette size once and taking JavaScript's remainder again
      gives the mathematical (never negative) remainder, for either sign of
      `a`. */
  lemma JsWrap(a: int)
    ensures JsRem(JsRem(a, TYPE_COUNT) + TYPE_COUNT, TYPE_COUNT) == a % TYPE_COUNT
  {
  }

  /** `cycleBlock`: step through the palette by `direction`, wrapping round
      at both ends. */
  function CycleBlock(b: Building, direction: int): (b': Building)
    requires Inv(b)
    ensures Inv(b')
    ensures b'.selectedIndex == (b.selectedIndex + direction) % TYPE_COUNT
    ensures b'.blocks == b.blocks && b'.previewVisible == b.previewVisible
    ensures b'.px == b.px && b'.py == b.py && b'.pz == b.pz
  {
    var i := JsRem(JsRem(b.selectedIndex + direction, TYPE_COUNT) + TYPE_COUNT, TYPE_COUNT);
    JsWrap(b.selectedIndex + direction);
    b.(selectedIndex := i, selectedType := BLOCK_TYPES[i])
  }

  /** Cycling back by the same amount restores the selection. */
  lemma CycleRoundTrip(b: Building, direction: int)
    requires Inv(b)
    ensures CycleBlock(CycleBlock(b, direction), -direction) == b
  {
    var i := b.selectedIndex;
    var j := (i + direction) % TYPE_COUNT;
    assert (j - direction) % TYPE_COUNT == i by {
      var q := (i + direction) / TYPE_COUNT;
      assert i + direction == q * TYPE_COUNT + j;
      assert j - direction == (-q) * TYPE_COUNT + i;
    }
  }

  /** `selectBlock`: choose a palette entry directly; an index outside the
      palette is ignored. */
  function SelectBlock(b: Building, index: int): (b': Building)
    requires Inv(b)
    ensures Inv(b')
    ensures 0 <= index < TYPE_COUNT ==> b'.selectedIndex == index && b'.selectedType == BLOCK_TYPES[index]
    ensures !(0 <= index < TYPE_COUNT) ==> b' == b
    ensures b'.blocks == b.blocks && b'.previewVisible == b.previewVisible
  {
    if 0 <= index < TYPE_COUNT then b.(selectedIndex := index, selectedType := BLOCK_TYPES[index])
    else b
  }

  /** The selection changes exactly when a palette index other than the
      current one is chosen. */
  lemma SelectChanges(b: Building, index: int)
    requires Inv(b)
    ensures SelectBlock(b, index) != b <==> 0 <= index < TYPE_COUNT && index != b.selectedIndex
  {
    if 0 <= index < TYPE_COUNT && index != b.selectedIndex {
      assert SelectBlock(b, index).selectedIndex != b.selectedIndex;
    }
  }

  /** `hidePreview`. */
  function HidePreview(b: Building): (b': Building)
    ensures !b'.previewVisible
    ensures b'.blocks == b.blocks && b'.selectedIndex == b.selectedIndex && b'.selectedType == b.selectedType
  {
    b.(previewVisible := false)
  }

  /** The effect of `updatePreview`: the preview is shown at the placement
      point the ray cast found. */
  function ShowPreview(b: Building, x: real, y: real, z: real): (b': Building)
    ensures b'.previewVisible && b'.px == x && b'.py == y && b'.pz == z
    ensures b'.blocks == b.blocks && b'.selectedIndex == b.selectedIndex && b'.selectedType == b.selectedType
  {
    b.(previewVisible := true, px := x, py := y, pz := z)
  }

  /** `posKey`. */
  function PosKey(x: real, y: real, z: real): (k: Key)
    ensures x - 0.5 < k.x as real <= x + 0.5
    ensures y - 0.5 < k.y as real <= y + 0.5
    ensures z - 0.5 < k.z as real <= z + 0.5
  {
    Key(Round(x), Round(y), Round(z))
  }

  datatype Point = Point(x: real, y: real, z: real)

  /** `snapToGrid` with BLOCK_SIZE 1: the nearest grid point, halves going
      up. */
  function SnapToGrid(x: real, y: real, z: real): (p: Point)
    ensures p.x == Round(x) as real && p.y == Round(y) as real && p.z == Round(z) as real
  {
    Point(Round(x / 1.0) as real * 1.0, Round(y / 1.0) as real * 1.0, Round(z / 1.0) as real * 1.0)
  }

  /** A snapped point lies on the grid, so its key is exactly its integer
      coordinates, and snapping it again moves nothing. */
  lemma SnapKey(x: real, y: real, z: real)
    ensures var p := SnapToGrid(x, y, z);
            && PosKey(p.x, p.y, p.z) == Key(Round(x), Round(y), Round(z))
            && SnapToGrid(p.x, p.y, p.z) == p
  {
  }

  /** Outcome of an action that may or may not change the blocks. */
  datatype Outcome = Outcome(b: Building, ok: bool)

  /** `placeBlock`: a block of the selected type goes under the preview's key
      unless the preview is hidden or that key is already taken. */
  function PlaceBlock(b: Building): (o: Outcome)
    ensures var key := PosKey(b.px, b.py, b.pz);
            o.ok <==> b.previewVisible && key !in b.blocks
    ensures !o.ok ==> o.b == b
    ensures o.ok ==> o.b.blocks == b.blocks[PosKey(b.px, b.py, b.pz) := b.selectedType]
    ensures o.ok ==> |o.b.blocks| == |b.blocks| + 1
    ensures o.b.selectedIndex == b.selectedIndex && o.b.previewVisible == b.previewVisible
  {
    if !b.previewVisible then Outcome(b, false)
    else
      var key := PosKey(b.px, b.py, b.pz);
      if key in b.blocks then Outcome(b, false)
      else Outcome(b.(blocks := b.blocks[key := b.selectedType]), true)
  }

  /** Once hidden, the preview places nothing until it is shown again,
      whatever selection happens in between. */
  lemma HiddenPlacesNothing(b: Building, cycles: seq<int>)
    requires Inv(b)
    ensures var h := CycleAll(HidePreview(b), cycles);
            !PlaceBlock(h).ok && PlaceBlock(h).b == h
  {
    CycleKeepsPreview(HidePreview(b), cycles);
  }

  /** Palette steps in a row. */
  function CycleAll(b: Building, ds: seq<int>): (b': Building)
    requires Inv(b)
    ensures Inv(b')
    decreases |ds|
  {
    if |ds| == 0 then b else CycleAll(CycleBlock(b, ds[0]), ds[1..])
  }

  lemma {:induction false} CycleKeepsPreview(b: Building, ds: seq<int>)
    requires Inv(b)
    ensures CycleAll(b, ds).previewVisible == b.previewVisible
    ensures CycleAll(b, ds).blocks == b.blocks
    decreases |ds|
  {
    if |ds| > 0 {
      CycleKeepsPreview(CycleBlock(b, ds[0]), ds[1..]);
    }
  }

  /** `removeBlock`, with the ray cast abstracted to the position of the
      first block mesh it hits (None when it hits nothing): the block stored
      under that position's key is deleted, if there is one. */
  function RemoveBlock(b: Building, hit: Option<Point>): (o: Outcome)
    ensures o.ok <==> hit.Some? && PosKey(hit.value.x, hit.value.y, hit.value.z) in b.blocks
    ensures !o.ok ==> o.b == b
    ensures o.ok ==> var key := PosKey(hit.value.x, hit.value.y, hit.value.z);
                     && o.b.blocks == b.blocks - {key}
                     && |o.b.blocks| == |b.blocks| - 1
    ensures o.b.blocks.Keys <= b.blocks.Keys
    ensures forall k :: k in o.b.blocks ==> o.b.blocks[k] == b.blocks[k]
  {
    if hit.None? then Outcome(b, false)
    else
      var key := PosKey(hit.value.x, hit.value.y, hit.value.z);
      if key in b.blocks then Outcome(b.(blocks := b.blocks - {key}), true)
      else Outcome(b, false)
  }

  /** Removing the block just placed, by hitting its mesh (which sits at the
      preview position), undoes the placement. */
  lemma PlaceThenRemove(b: Building)
    requires PlaceBlock(b).ok
    ensures var placed := PlaceBlock(b).b;
            var removed := RemoveBlock(placed, Some(Point(b.px, b.py, b.pz)));
            removed.ok && removed.b.blocks == b.blocks
  {
    var key := PosKey(b.px, b.py, b.pz);
    assert b.blocks[key := b.selectedType] - {key} == b.blocks;
  }
}
