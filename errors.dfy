/** Outcomes of the guide pipeline: every stage either yields a value or a
    failure tagged with the stage that raised it. In the source every stage
    re-raises as a ValueError whose message names the stage; the tags below
    stand for those messages. */
module Errors {

  datatype GuideError =
    | QueryFailed(message: string)           // the world-bound query itself raised
    | ExtentFailed(cause: GuideError)        // "Error in get_extent: ..."
    | NotANumber(text: string)               // float() rejected the mantissa text
    | ExtractingExtents(cause: GuideError)   // "Error in get_vertex_bbox when extracting extents: ..."
    | DefiningVertexPoints(cause: GuideError) // "Error in get_vertex_bbox when defining vertex_points : ..."
    | InvalidPrimPath(path: string)          // DefinePrim refused the path
    | NoGetPath(text: string)                // a plain string has no GetPath()
    | CreatingCubeMesh(cause: GuideError)    // "Error in create_cube_mesh: ..."

  datatype Option<T> = None | Some(value: T)

  datatype Result<T> = Success(value: T) | Failure(error: GuideError)
}
