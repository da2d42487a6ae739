/** The eight corners of the guide box, in the fixed order _get_vertex_bbox
    lists them. A corner is described by which end of each axis it takes. */
module Corners {
  import opened Geometry

  /** For each axis, whether the corner takes the maximum (true) or the
      minimum (false). */
  datatype Pick = Pick(x: bool, y: bool, z: bool)

  function PickOn(p: Pick, a: Axis): bool
  {
    match a
    case X => p.x
    case Y => p.y
    case Z => p.z
  }

  /** The corner of the box [lo, hi] that `p` describes. */
  function Select<C>(lo: Vec3<C>, hi: Vec3<C>, p: Pick): (v: Vec3<C>)
    ensures forall a :: Coord(v, a) == if PickOn(p, a) then Coord(hi, a) else Coord(lo, a)
  {
    Vec3(if p.x then hi.x else lo.x,
         if p.y then hi.y else lo.y,
         if p.z then hi.z else lo.z)
  }

  /** vertex_points, built from the corrected minimum `lo` and maximum `hi`. */
  function BoxCorners<C>(lo: Vec3<C>, hi: Vec3<C>): (r: seq<Vec3<C>>)
    ensures |r| == 8
  {
    [ Vec3(hi.x, lo.y, hi.z),
      Vec3(lo.x, lo.y, hi.z),
      Vec3(hi.x, hi.y, hi.z),
      Vec3(lo.x, hi.y, hi.z),
      Vec3(lo.x, lo.y, lo.z),
      Vec3(hi.x, lo.y, lo.z),
      Vec3(lo.x, hi.y, lo.z),
      Vec3(hi.x, hi.y, lo.z) ]
  }

  /** An arithmetic description of the same order: the first four corners lie
      on the maximum z side, corners 2, 3, 6, 7 on the maximum y side, and the
      x side alternates, starting from the maximum on the top four and from
      the minimum on the bottom four. */
  function CornerPick(k: nat): Pick
  {
    Pick(k == 0 || k == 2 || k == 5 || k == 7, k == 2 || k == 3 || k == 6 || k == 7, k < 4)
  }

  /** The position of a corner in the order, the inverse of CornerPick. */
  function CornerIndex(p: Pick): (k: nat)
    ensures k < 8
  {
    (if p.z then 0 else 4) + (if p.y then 2 else 0) + (if p.x == p.z then 0 else 1)
  }

  lemma CornerIndexOfPick(k: nat)
    requires k < 8
    ensures CornerIndex(CornerPick(k)) == k
  {
  }

  lemma CornerPickOfIndex(p: Pick)
    ensures CornerPick(CornerIndex(p)) == p
  {
  }

  /** The literal corner table agrees with the arithmetic description. */
  lemma CornerOrder<C>(lo: Vec3<C>, hi: Vec3<C>, k: nat)
    requires k < 8
    ensures BoxCorners(lo, hi)[k] == Select(lo, hi, CornerPick(k))
  {
  }

  /** Every corner takes, on each axis, either the minimum or the maximum;
      corners 0, 4 and 7 are (max.x, min.y, max.z), the minimum itself and
      (max.x, max.y, min.z). */
  lemma CornersOnBox<C>(lo: Vec3<C>, hi: Vec3<C>)
    ensures forall k, a :: 0 <= k < 8 ==>
              Coord(BoxCorners(lo, hi)[k], a) == Coord(lo, a) ||
              Coord(BoxCorners(lo, hi)[k], a) == Coord(hi, a)
    ensures BoxCorners(lo, hi)[0] == Vec3(hi.x, lo.y, hi.z)
    ensures BoxCorners(lo, hi)[4] == lo
    ensures BoxCorners(lo, hi)[7] == Vec3(hi.x, hi.y, lo.z)
  {
    forall k: nat | k < 8 {
      CornerOrder(lo, hi, k);
    }
  }

  /** Every min/max combination is one of the eight corners. */
  lemma CornersCoverBox<C>(lo: Vec3<C>, hi: Vec3<C>, p: Pick)
    ensures BoxCorners(lo, hi)[CornerIndex(p)] == Select(lo, hi, p)
  {
    CornerOrder(lo, hi, CornerIndex(p));
    CornerPickOfIndex(p);
  }

  /** When the box has extent on every axis, the eight corners are pairwise
      distinct, so each combination appears exactly once. */
  lemma CornersDistinct<C>(lo: Vec3<C>, hi: Vec3<C>, i: nat, j: nat)
    requires lo.x != hi.x && lo.y != hi.y && lo.z != hi.z
    requires i < 8 && j < 8 && i != j
    ensures BoxCorners(lo, hi)[i] != BoxCorners(lo, hi)[j]
  {
    CornerOrder(lo, hi, i);
    CornerOrder(lo, hi, j);
    CornerIndexOfPick(i);
    CornerIndexOfPick(j);
    var pi, pj := CornerPick(i), CornerPick(j);
    assert pi != pj;
    if pi.x != pj.x {
      assert Coord(Select(lo, hi, pi), X) != Coord(Select(lo, hi, pj), X);
    } else if pi.y != pj.y {
      assert Coord(Select(lo, hi, pi), Y) != Coord(Select(lo, hi, pj), Y);
    } else {
      assert Coord(Select(lo, hi, pi), Z) != Coord(Select(lo, hi, pj), Z);
    }
  }
}
