/** Axis-aligned bounding boxes (`src/math/aabb.rs`). */
module Aabb {
  import opened Math

  /** A box given by its two corners; the engine does not check `min <= max`. */
  datatype AABB = AABB(min: Vec2, max: Vec2)

  /** The boxes callers are meant to build: `min <= max` on both axes. */
  predicate WellFormed(b: AABB) {
    b.min.x <= b.max.x && b.min.y <= b.max.y
  }

  /** `AABB::new`. */
  function New(min: Vec2, max: Vec2): (r: AABB)
    ensures r.min == min && r.max == max
  {
    AABB(min, max)
  }

  /** `AABB::from_min_max`: the same box as `New` from four scalars. */
  function FromMinMax(minX: real, minY: real, maxX: real, maxY: real): (r: AABB)
    ensures r == New(Vec2(minX, minY), Vec2(maxX, maxY))
  {
    AABB(Vec2(minX, minY), Vec2(maxX, maxY))
  }

  /** `AABB::contains`: inclusive on all four edges. */
  predicate Contains(b: AABB, p: Vec2): (r: bool)
    ensures r ==> WellFormed(b)
    ensures WellFormed(b) && (p == b.min || p == b.max) ==> r
  {
    p.x >= b.min.x && p.y >= b.min.y && p.x <= b.max.x && p.y <= b.max.y
  }

  /** `AABB::merge`: componentwise minimum of the mins and maximum of the maxes. */
  function Merge(a: AABB, b: AABB): (r: AABB)
    ensures r.min.x <= a.min.x && r.min.x <= b.min.x && (r.min.x == a.min.x || r.min.x == b.min.x)
    ensures r.min.y <= a.min.y && r.min.y <= b.min.y && (r.min.y == a.min.y || r.min.y == b.min.y)
    ensures r.max.x >= a.max.x && r.max.x >= b.max.x && (r.max.x == a.max.x || r.max.x == b.max.x)
    ensures r.max.y >= a.max.y && r.max.y >= b.max.y && (r.max.y == a.max.y || r.max.y == b.max.y)
    ensures forall p :: Contains(a, p) || Contains(b, p) ==> Contains(r, p)
  {
    New(Vec2(Min(a.min.x, b.min.x), Min(a.min.y, b.min.y)),
        Vec2(Max(a.max.x, b.max.x), Max(a.max.y, b.max.y)))
  }

  /** `AABB::center`: the midpoint of the two corners. */
  function Center(b: AABB): (r: Vec2)
    ensures r.x - b.min.x == b.max.x - r.x && r.y - b.min.y == b.max.y - r.y
    ensures WellFormed(b) ==> Contains(b, r)
  {
    Vec2((b.min.x + b.max.x) / 2.0, (b.min.y + b.max.y) / 2.0)
  }

  /** `AABB::size`: the extent from `min` to `max`. */
  function Size(b: AABB): (r: Vec2)
    ensures b.min.Plus(r) == b.max
    ensures WellFormed(b) <==> r.x >= 0.0 && r.y >= 0.0
  {
    b.max.Minus(b.min)
  }

  /** `AABB::from_position_and_size`: the box of extent `size` centred on `center`. */
  function FromPositionAndSize(center: Vec2, size: Vec2): (r: AABB)
    ensures Center(r) == center && Size(r) == size
    ensures WellFormed(r) <==> size.x >= 0.0 && size.y >= 0.0
  {
    var halfSize := size.Half();
    New(center.Minus(halfSize), center.Plus(halfSize))
  }

  /**
   * A second reading of `contains`: a point lies in a box exactly when, on
   * each axis, its distance from the centre is at most half the size.
   */
  lemma ContainsByCenterDistance(b: AABB, p: Vec2)
    ensures Contains(b, p) <==>
      (Abs(p.x - Center(b).x) <= Size(b).x / 2.0 && Abs(p.y - Center(b).y) <= Size(b).y / 2.0)
  {
  }

  function Abs(a: real): real { if a < 0.0 then -a else a }

  /** `merge` is commutative. */
  lemma MergeCommutative(a: AABB, b: AABB)
    ensures Merge(a, b) == Merge(b, a)
  {
  }

  /** `merge` is idempotent. */
  lemma MergeIdempotent(a: AABB)
    ensures Merge(a, a) == a
  {
  }

  /** `merge` is associative, so merging a list of boxes does not depend on grouping. */
  lemma MergeAssociative(a: AABB, b: AABB, c: AABB)
    ensures Merge(Merge(a, b), c) == Merge(a, Merge(b, c))
  {
  }

  /** A box merged with anything still covers the original box. */
  lemma MergeCoversBoth(a: AABB, b: AABB, p: Vec2)
    requires Contains(a, p) || Contains(b, p)
    ensures Contains(Merge(a, b), p)
  {
  }
}
