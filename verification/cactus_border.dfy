/** The ring of cacti marking the edge of the playable world: only its
    geometry test is modelled, a disc of fixed radius around the origin. */
module CactusBorder {
  import Terrain

  const BORDER_RADIUS: real := Terrain.HALF_WORLD as real * 0.92
  const BORDER_WIDTH: real := 15.0

  /** `getBorderRadius`: the ring's centre line plus half its width. */
  function BorderRadius(): (r: real)
    ensures r == 949.58
    ensures 0.0 < r
  {
    BORDER_RADIUS + BORDER_WIDTH * 0.5
  }

  /** `isOutsideBorder`: the squared distance from the origin exceeds the
      squared border radius. */
  predicate IsOutsideBorder(x: real, z: real) {
    var r := BORDER_RADIUS + BORDER_WIDTH * 0.5;
    x * x + z * z > r * r
  }

  /** The test is a disc: it depends only on the squared distance, so it is
      monotone in it, and every point no farther than the radius is inside. */
  lemma OutsideMonotone(x1: real, z1: real, x2: real, z2: real)
    requires x1 * x1 + z1 * z1 <= x2 * x2 + z2 * z2
    ensures IsOutsideBorder(x1, z1) ==> IsOutsideBorder(x2, z2)
  {
  }

  /** Points with squared distance at most R^2 (the origin among them) are
      never outside, and points beyond it always are. */
  lemma OutsideIffBeyondRadius(x: real, z: real)
    ensures IsOutsideBorder(x, z) <==> x * x + z * z > BorderRadius() * BorderRadius()
    ensures !IsOutsideBorder(0.0, 0.0)
  {
  }

  /** Reflecting a point through either axis or swapping the axes does not
      change the test. */
  lemma OutsideSymmetric(x: real, z: real)
    ensures IsOutsideBorder(-x, z) == IsOutsideBorder(x, z)
    ensures IsOutsideBorder(x, -z) == IsOutsideBorder(x, z)
    ensures IsOutsideBorder(z, x) == IsOutsideBorder(x, z)
  {
    assert (-x) * (-x) == x * x;
    assert (-z) * (-z) == z * z;
  }
}
