/** _get_vertex_bbox: the corrected extents of an asset's world bound and the
    eight corners of the guide box. The world-bound computation inside
    _get_extent is an input: its range, or the failure it raised, which
    _get_extent re-raises as its own error. */
module VertexBox {
  import opened Errors
  import opened Geometry
  import opened Mantissa
  import opened Corners

  /** What _get_vertex_bbox returns: `extents` is the list [min, max] and
      `points` the eight corners. */
  datatype VertexBox<C> = VertexBox(extents: seq<Vec3<C>>, points: seq<Vec3<C>>)

  function GetVertexBbox<C>(bound: Result<Range3<C>>, render: C -> string, parse: string -> Option<C>)
    : (r: Result<VertexBox<C>>)
    ensures r.Success? ==> |r.value.extents| == 2 && |r.value.points| == 8
    ensures r.Success? ==> r.value.points == BoxCorners(r.value.extents[0], r.value.extents[1])
    ensures r.Failure? ==> r.error.ExtractingExtents?
  {
    match bound
    case Failure(e) => Failure(ExtractingExtents(ExtentFailed(e)))
    case Success(range) =>
      match CorrectVec(range.min, render, parse)
      case Failure(e) => Failure(ExtractingExtents(e))
      case Success(lo) =>
        match CorrectVec(range.max, render, parse)
        case Failure(e) => Failure(ExtractingExtents(e))
        case Success(hi) => Success(VertexBox([lo, hi], BoxCorners(lo, hi)))
  }

  /** The bound's min and max after the coordinate-wise correction. */
  ghost predicate Corrects<C>(range: Range3<C>, render: C -> string, parse: string -> Option<C>, lo: Vec3<C>, hi: Vec3<C>)
  {
    CorrectVec(range.min, render, parse) == Success(lo) && CorrectVec(range.max, render, parse) == Success(hi)
  }

  /** The call succeeds exactly when the world-bound query succeeded and all
      six coordinates convert; the extents are then [corrected min, corrected
      max]. A failure of the query or of a conversion is reported as a failure
      to extract the extents, never as a failure to build the corners. */
  lemma VertexBoxOutcome<C>(bound: Result<Range3<C>>, render: C -> string, parse: string -> Option<C>)
    ensures GetVertexBbox(bound, render, parse).Success? <==>
              bound.Success? &&
              CorrectVec(bound.value.min, render, parse).Success? &&
              CorrectVec(bound.value.max, render, parse).Success?
    ensures GetVertexBbox(bound, render, parse).Success? ==>
              GetVertexBbox(bound, render, parse).value.extents ==
                [CorrectVec(bound.value.min, render, parse).value, CorrectVec(bound.value.max, render, parse).value]
    ensures bound.Failure? ==> GetVertexBbox(bound, render, parse) == Failure(ExtractingExtents(ExtentFailed(bound.error)))
  {
  }

  /** The corner list on a successful call: the corners of the corrected
      min and max (whose order Corners.CornersOnBox states); when min and max
      differ on every axis the corners are pairwise distinct. */
  lemma VertexBoxCorners<C>(range: Range3<C>, render: C -> string, parse: string -> Option<C>, lo: Vec3<C>, hi: Vec3<C>)
    requires Corrects(range, render, parse, lo, hi)
    ensures GetVertexBbox(Success(range), render, parse) == Success(VertexBox([lo, hi], BoxCorners(lo, hi)))
    ensures lo.x != hi.x && lo.y != hi.y && lo.z != hi.z ==>
              forall i, j :: 0 <= i < j < 8 ==> BoxCorners(lo, hi)[i] != BoxCorners(lo, hi)[j]
  {
    if lo.x != hi.x && lo.y != hi.y && lo.z != hi.z {
      forall i, j | 0 <= i < j < 8
        ensures BoxCorners(lo, hi)[i] != BoxCorners(lo, hi)[j]
      {
        CornersDistinct(lo, hi, i, j);
      }
    }
  }
}
