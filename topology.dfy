/** The fixed cube topology written on every guide mesh: six quads whose
    vertex indices refer to the corner order of module Corners. */
module Topology {
  import opened Geometry
  import opened Corners

  const FaceVertexCounts: seq<int> := [4, 4, 4, 4, 4, 4]

  const FaceVertexIndices: seq<int> :=
    [0, 1, 3, 2, 4, 5, 7, 6, 6, 7, 2, 3, 5, 4, 1, 0, 5, 0, 2, 7, 1, 4, 6, 3]

  function Sum(s: seq<int>): int
  {
    if s == [] then 0 else s[0] + Sum(s[1..])
  }

  /** The counts describe exactly the index table: six quads, 24 indices,
      every index naming one of the eight corners. */
  lemma CountsCoverIndices()
    ensures |FaceVertexCounts| == 6
    ensures forall f :: 0 <= f < |FaceVertexCounts| ==> FaceVertexCounts[f] == 4
    ensures Sum(FaceVertexCounts) == |FaceVertexIndices| == 24
    ensures forall i :: 0 <= i < |FaceVertexIndices| ==> 0 <= FaceVertexIndices[i] < 8
  {
    assert FaceVertexCounts[5..] == [4];
    assert FaceVertexCounts[4..] == [4, 4];
    assert FaceVertexCounts[3..] == [4, 4, 4];
    assert FaceVertexCounts[2..] == [4, 4, 4, 4];
    assert FaceVertexCounts[1..] == [4, 4, 4, 4, 4];
  }

  /** Vertex `j` of face `f` (faces are consecutive groups of four). */
  function FaceCorner(f: nat, j: nat): (k: nat)
    requires f < 6 && j < 4
    ensures k < 8
  {
    var i := 4 * f + j;
    assert 0 <= FaceVertexIndices[i] < 8;
    FaceVertexIndices[i] as nat
  }

  /** The two ends of side `j` of face `f`, walking the face in table order. */
  function Side(f: nat, j: nat): (nat, nat)
    requires f < 6 && j < 4
  {
    (FaceCorner(f, j), FaceCorner(f, if j == 3 then 0 else j + 1))
  }

  /** The plane a face lies on: an axis and the side (true for the maximum). */
  datatype Plane = Plane(axis: Axis, high: bool)

  function FacePlane(f: nat): Plane
    requires f < 6
  {
    [Plane(Z, true), Plane(Z, false), Plane(Y, true), Plane(Y, false), Plane(X, true), Plane(X, false)][f]
  }

  predicate OnPlane(k: nat, pl: Plane)
    requires k < 8
  {
    PickOn(CornerPick(k), pl.axis) == pl.high
  }

  predicate FaceContains(f: nat, k: nat)
    requires f < 6
  {
    k == FaceCorner(f, 0) || k == FaceCorner(f, 1) || k == FaceCorner(f, 2) || k == FaceCorner(f, 3)
  }

  function Differences(p: Pick, q: Pick): nat
  {
    (if p.x != q.x then 1 else 0) + (if p.y != q.y then 1 else 0) + (if p.z != q.z then 1 else 0)
  }

  function Bit(b: bool): int
  {
    if b then 1 else 0
  }

  /** The two coordinates of a corner in the plane perpendicular to `a`,
      in right-handed order (y z, z x, x y). */
  function Project(p: Pick, a: Axis): (bool, bool)
  {
    match a
    case X => (p.y, p.z)
    case Y => (p.z, p.x)
    case Z => (p.x, p.y)
  }

  /** The step from `p` to `q`, a side of the unit square, goes round the
      square counter-clockwise. */
  predicate CounterClockwise(p: (bool, bool), q: (bool, bool))
  {
    (p.0 != q.0 && q.0 != p.1) || (p.1 != q.1 && q.1 == p.0)
  }

  /** Side `j` of face `f` turns clockwise as seen from outside the box. Seen
      from outside, the projected axes of a maximum-side plane keep their
      right-handed order and those of a minimum-side plane are mirrored. */
  predicate SeenClockwise(f: nat, j: nat)
    requires f < 6 && j < 4
  {
    var a := FacePlane(f).axis;
    CounterClockwise(Project(CornerPick(Side(f, j).0), a), Project(CornerPick(Side(f, j).1), a)) != FacePlane(f).high
  }

  /** Side `j` of face `f`, by inspection of the index table. */
  lemma SideFacts(f: nat, j: nat)
    requires f < 6 && j < 4
    ensures OnPlane(FaceCorner(f, j), FacePlane(f))
    ensures Differences(CornerPick(Side(f, j).0), CornerPick(Side(f, j).1)) == 1
  {
  }

  /** No face repeats a corner. */
  lemma FaceDistinct(f: nat)
    requires f < 6
    ensures forall i, j :: 0 <= j < i < 4 ==> FaceCorner(f, i) != FaceCorner(f, j)
  {
  }

  /** Face `f` holds exactly the corners on its plane. */
  lemma FaceMembers(f: nat)
    requires f < 6
    ensures forall k :: 0 <= k < 8 ==> (FaceContains(f, k) <==> OnPlane(k, FacePlane(f)))
  {
  }

  /** The turning direction of side `j` of face `f`, by inspection. */
  lemma SideTurn(f: nat, j: nat)
    requires f < 6 && j < 4
    ensures SeenClockwise(f, j)
  {
    if f == 0 {
    } else if f == 1 {
    } else if f == 2 {
    } else if f == 3 {
    } else if f == 4 {
    } else {
    }
  }

  /** Each face is planar: its four corners lie on the face's plane, and the
      six planes are the six distinct sides of the box. */
  lemma FacesArePlanar()
    ensures forall f, j :: 0 <= f < 6 && 0 <= j < 4 ==> OnPlane(FaceCorner(f, j), FacePlane(f))
    ensures forall f, g :: 0 <= f < g < 6 ==> FacePlane(f) != FacePlane(g)
  {
    forall f, j | 0 <= f < 6 && 0 <= j < 4
      ensures OnPlane(FaceCorner(f, j), FacePlane(f))
    {
      SideFacts(f, j);
    }
  }

  /** Going round a face, each step moves along exactly one axis: every side
      of every face is an edge of the box. */
  lemma FaceSidesAreBoxEdges()
    ensures forall f, j :: 0 <= f < 6 && 0 <= j < 4 ==>
              Differences(CornerPick(Side(f, j).0), CornerPick(Side(f, j).1)) == 1
  {
    forall f, j | 0 <= f < 6 && 0 <= j < 4
      ensures Differences(CornerPick(Side(f, j).0), CornerPick(Side(f, j).1)) == 1
    {
      SideFacts(f, j);
    }
  }

  /** Every corner is in exactly three faces: the sides of the box it lies
      on, one per axis. */
  lemma EachCornerInThreeFaces()
    ensures forall k :: 0 <= k < 8 ==>
              Bit(FaceContains(0, k)) + Bit(FaceContains(1, k)) + Bit(FaceContains(2, k)) +
              Bit(FaceContains(3, k)) + Bit(FaceContains(4, k)) + Bit(FaceContains(5, k)) == 3
  {
    forall f | 0 <= f < 6
      ensures forall k :: 0 <= k < 8 ==> (FaceContains(f, k) <==> OnPlane(k, FacePlane(f)))
    {
      FaceMembers(f);
    }
  }

  /** The winding is consistent: seen from outside the box, every side of
      every face turns clockwise, so all six quads face the same way. */
  lemma WindingIsConsistent()
    ensures forall f, j :: 0 <= f < 6 && 0 <= j < 4 ==> SeenClockwise(f, j)
  {
    forall f, j | 0 <= f < 6 && 0 <= j < 4
      ensures SeenClockwise(f, j)
    {
      SideTurn(f, j);
    }
  }

  /** On actual coordinates: the corners of face `f` share the min or max of
      its plane's axis, and when the box has extent on every axis, the two
      ends of every face side differ in exactly one coordinate. */
  lemma FacesOnBox<C>(lo: Vec3<C>, hi: Vec3<C>, f: nat, j: nat)
    requires f < 6 && j < 4
    ensures Coord(BoxCorners(lo, hi)[FaceCorner(f, j)], FacePlane(f).axis) ==
            Coord(if FacePlane(f).high then hi else lo, FacePlane(f).axis)
    ensures lo.x != hi.x && lo.y != hi.y && lo.z != hi.z ==>
              var (a, b) := (BoxCorners(lo, hi)[Side(f, j).0], BoxCorners(lo, hi)[Side(f, j).1]);
              Bit(a.x != b.x) + Bit(a.y != b.y) + Bit(a.z != b.z) == 1
  {
    SideFacts(f, j);
    CornerOrder(lo, hi, FaceCorner(f, j));
    CornerOrder(lo, hi, Side(f, j).1);
  }
}
