# usdautoguide guide box, modelled in Dafny

usdautoguide builds a "guide" for a USD asset: a box mesh that encloses the
asset's world bound. The builder has three steps.

1. It reads the bound's min and max corners.
2. It "corrects" each coordinate by rendering it as text and, when the text
   has an `e`, parsing back only the part before the first `e`.
3. It writes the prims `<asset>`, `<asset>/model`, `<asset>/model/guide`
   (transforms) and `<asset>/model/guide/box` (a mesh) into a stage. The box
   gets the eight corner points, the extent `[min, max]` and a fixed quad
   topology.

This project models those steps and proves what they promise:

- The coordinate correction, over an abstract coordinate type with an
  abstract text rendering and parser (`mantissa.dfy`). The exponent is
  dropped, and a lemma makes that explicit.
- The extents and the corner table (`vertex_bbox.dfy`, `corners.dfy`). The
  literal corner order is tied to an independent description in which each
  corner picks min or max per axis.
- The constant face tables `Topology.FaceVertexCounts` and
  `Topology.FaceVertexIndices` (`topology.dfy`). Together with the corner order,
  they describe six planar quads, one on each side of the box. Every side of
  every quad is a box edge, and every corner lies in exactly three faces.
  Seen from outside the box, every face turns clockwise. Under USD's default
  right-handed orientation, that means every face normal points into the box,
  as long as min < max on every axis. A range inverted on an odd number of
  axes mirrors the box and flips the winding (USD's empty range is inverted
  on all three); one inverted on two axes keeps it. The model proves the
  winding over min/max picks only, not over actual coordinates.
- The stage as a class holding a map from prim paths to (kind, attributes)
  (`scene.dfy`). `DefinePrim` is an upsert and an attribute write is a map
  write.
- The builder `_create_cube_mesh` as a method on that stage
  (`cube_mesh.dfy`). Its `default_prim` argument is a `CubeMesh.AssetRef`:
  a prim known by its path, or a plain string, as the type hint allows. Its final stage is tied to a specification function;
  lemmas give the prims it leaves, that nothing else changes, and that
  running it twice gives the same stage as running it once.

Errors follow the source: each stage wraps any failure in its own error tag
(`Errors.GuideError`).

## Model

| member | source | states |
|---|---|---|
| Mantissa.MantissaText | usdautoguide/auto_guide.py:70-71 | the text before the first `e`: a prefix with no `e`, shorter exactly when the text has an `e`, and then followed by that `e` |
| Mantissa.MantissaTextUnique | usdautoguide/auto_guide.py:70-71 | any prefix with no `e` that ends at the first `e` (or at the end) is the mantissa text |
| Mantissa.MantissaDropsExponent | usdautoguide/auto_guide.py:68-71 | the mantissa text of `<m>e<x>` is `<m>`, whatever the exponent `x` |
| Mantissa.ConvertToFloat | usdautoguide/auto_guide.py:66-72 | a number whose rendering has no `e` is returned unchanged; otherwise the result is the parse of the mantissa text, and a failed parse is a NotANumber failure |
| Mantissa.ConvertDropsMagnitude | usdautoguide/auto_guide.py:66-72 | two numbers whose renderings differ only after the `e` are corrected to the same value, the parse of the bare mantissa |
| Mantissa.CorrectVec | usdautoguide/auto_guide.py:75-76 | each coordinate is converted on its own; the vector succeeds exactly when all three do, holds the three converted values, and otherwise reports the first failure in x, y, z order |
| Mantissa.CorrectVecPlain | usdautoguide/auto_guide.py:75-76 | a vector with no `e` in any rendering passes through unchanged |
| Corners.Select | usdautoguide/auto_guide.py:88-97 | a pick of min or max per axis gives the corner with those coordinates |
| Corners.BoxCorners | usdautoguide/auto_guide.py:88-97 | the corner list has exactly eight entries |
| Corners.CornerIndexOfPick | usdautoguide/auto_guide.py:88-97 | the position function inverts the pick of every corner position |
| Corners.CornerPickOfIndex | usdautoguide/auto_guide.py:88-97 | every min/max pick has a position, and the pick there is that pick |
| Corners.CornerOrder | usdautoguide/auto_guide.py:88-97 | the literal corner k is the corner picked by the independent description of position k |
| Corners.CornersOnBox | usdautoguide/auto_guide.py:88-97 | every corner's coordinate on each axis is the min or the max; corner 0 is (max.x, min.y, max.z), corner 4 the min, corner 7 (max.x, max.y, min.z) |
| Corners.CornersCoverBox | usdautoguide/auto_guide.py:88-97 | every min/max combination is one of the eight corners |
| Corners.CornersDistinct | usdautoguide/auto_guide.py:88-97 | when min and max differ on every axis, the eight corners are pairwise distinct |
| Topology.CountsCoverIndices | usdautoguide/auto_guide.py:130-142 | the constant tables `FaceVertexCounts` (line 130) and `FaceVertexIndices` (line 142): the counts are six 4s summing to 24, the length of the index table, and every index names one of the eight corners |
| Topology.FaceCorner | usdautoguide/auto_guide.py:142 | vertex j of face f names one of the eight corners |
| Topology.SideFacts | usdautoguide/auto_guide.py:88-142 | a face's vertex lies on the face's plane, and the side from it differs in exactly one axis pick |
| Topology.FaceDistinct | usdautoguide/auto_guide.py:142 | no face repeats a corner |
| Topology.FaceMembers | usdautoguide/auto_guide.py:88-142 | a face contains exactly the corners on its plane |
| Topology.SideTurn | usdautoguide/auto_guide.py:88-142 | side j of face f turns clockwise as seen from outside the box |
| Topology.FacesArePlanar | usdautoguide/auto_guide.py:88-142 | all four corners of each face lie on its plane, and the six planes are distinct (the six sides of the box) |
| Topology.FaceSidesAreBoxEdges | usdautoguide/auto_guide.py:88-142 | consecutive vertices of a face, cyclically, differ on exactly one axis |
| Topology.EachCornerInThreeFaces | usdautoguide/auto_guide.py:88-142 | every corner is in exactly three faces (derived from FaceMembers) |
| Topology.WindingIsConsistent | usdautoguide/auto_guide.py:88-142 | every side of every face turns clockwise as seen from outside, so all six quads face the same way |
| Topology.FacesOnBox | usdautoguide/auto_guide.py:88-142 | on actual coordinates, the corners of a face share the min or max of its plane's axis, and when the box has extent on every axis the ends of each side differ in exactly one coordinate |
| VertexBox.GetVertexBbox | usdautoguide/auto_guide.py:40-101 | a result holds two extents and eight points, the points are the corners of the two extents, and every failure is an extraction failure |
| VertexBox.VertexBoxOutcome | usdautoguide/auto_guide.py:40-84 | the call succeeds exactly when the bound query succeeds and all six coordinates convert; the extents are then [corrected min, corrected max]; a failed query is wrapped first as a get-extent failure and then as an extraction failure; the corner step never fails |
| VertexBox.VertexBoxCorners | usdautoguide/auto_guide.py:86-98 | on corrected min and max, the result is those extents and the corners of the box they span (placed by Corners.CornersOnBox), pairwise distinct when the box has extent on every axis |
| Scene.ChildIsPrimPath | usdautoguide/auto_guide.py:124-126 | appending an identifier to a prim path gives a prim path |
| Scene.AncestorsOfChild | usdautoguide/auto_guide.py:124-126 | the ancestors of a child path are the parent and the parent's ancestors |
| Scene.Defined | usdautoguide/auto_guide.py:123-126 | an upsert: the path and its missing ancestors are added, the path gets the kind and keeps its attributes, every other path keeps its prim |
| Scene.WithAttribute | usdautoguide/auto_guide.py:129-142 | an attribute write sets that one attribute on that one prim; paths and all other prims are unchanged |
| Scene.DefinedIdempotent | usdautoguide/auto_guide.py:123-126 | defining the same prim twice is the same as defining it once |
| Scene.Stage.constructor | usdautoguide/auto_guide.py:176 | a new stage holds no prims |
| Scene.Stage.DefinePrim | usdautoguide/auto_guide.py:123-126 | succeeds exactly on a prim path and returns that path, with the stage upserted; otherwise fails and leaves the stage unchanged |
| Scene.Stage.SetAttribute | usdautoguide/auto_guide.py:129-142 | the new stage is the old one with the attribute written |
| CubeMesh.BoxAttrs | usdautoguide/auto_guide.py:129-142 | after the four writes the box holds its old attributes plus the four names, with points, extent and the two constant tables as values; every other attribute keeps its value |
| CubeMesh.BoxAttrsIdempotent | usdautoguide/auto_guide.py:129-142 | writing the four attributes again changes nothing |
| CubeMesh.ModelPath | usdautoguide/auto_guide.py:124 | the model path is the asset path followed by a separator and more: it lies below the asset |
| CubeMesh.GuidePath | usdautoguide/auto_guide.py:125 | the guide path lies below the model path in the same way |
| CubeMesh.BoxPath | usdautoguide/auto_guide.py:126 | the box path lies below the guide path in the same way |
| CubeMesh.GuidePaths | usdautoguide/auto_guide.py:123-126 | the model, guide and box paths are prim paths of increasing length; each one's ancestors are the asset's ancestors plus the guide paths above it |
| CubeMesh.BuildSteps | usdautoguide/auto_guide.py:123-142 | the eight steps in source order (four definitions, four writes on the last path): no prim is removed, the four paths are defined, and the last is a mesh holding the four written attributes |
| CubeMesh.CubeMeshState | usdautoguide/auto_guide.py:123-142 | the eight steps on the asset and its model, guide and box paths; the builder never removes a prim |
| CubeMesh.NestedDefinitions | usdautoguide/auto_guide.py:123-126 | after four upserts of distinct paths, the first three are transforms, the fourth a mesh, each keeping its attributes, and every other path keeps its prim |
| CubeMesh.NestedKeys | usdautoguide/auto_guide.py:123-126 | after four upserts the stage holds the old paths, the four paths and their ancestors |
| CubeMesh.BoxWrites | usdautoguide/auto_guide.py:129-142 | the four writes change only the box, whose attributes become the written ones over the old ones |
| CubeMesh.BuildStepsAt | usdautoguide/auto_guide.py:123-142 | the eight steps, path by path, for any four distinct paths |
| CubeMesh.CubeMeshStateAt | usdautoguide/auto_guide.py:123-142 | the builder adds the guide paths and the asset's missing ancestors, and gives each path its prim |
| CubeMesh.BuildStepsPrims | usdautoguide/auto_guide.py:123-142 | the prims the eight steps leave at the four paths they write |
| CubeMesh.CubeMeshPrims | usdautoguide/auto_guide.py:123-142 | the asset, model and guide are transforms and the box a mesh, each keeping its old attributes; the box's points and extent are the given values and its counts and indices are the constant tables |
| CubeMesh.CubeMeshFrame | usdautoguide/auto_guide.py:123-142 | the asset's missing ancestors are typeless prims and every prim off the written paths is unchanged (the key set is stated by CubeMeshStateAt) |
| CubeMesh.CubeMeshIdempotent | usdautoguide/auto_guide.py:123-142 | running the builder twice with the same inputs gives the same stage as running it once |
| CubeMesh.BuildStepsIdempotent | usdautoguide/auto_guide.py:123-142 | the eight steps applied to their own output change nothing |
| CubeMesh.CreateCubeMesh | usdautoguide/auto_guide.py:104-147 | succeeds exactly when the default prim is a prim (not a plain string) whose path is a prim path, returning the box path with the stage as the builder specifies; a plain string fails at GetPath() and a refused path at the first definition, both wrapped as mesh-creation errors with the stage unchanged |
| CubeMesh.GuideCarriesBound | usdautoguide/auto_guide.py:173-177 | on a corrected bound, the box built from what the corner step returns has extent [corrected min, corrected max] and the eight corners of that box as points |

## Left out

- The world-bound query of `_get_extent` (BBoxCache, ComputeWorldBound, ComputeAlignedBox, visibility and purpose filtering) foreign library code. Its outcome is an input, a bound or the failure it raised; the model then wraps that failure as `_get_extent` does (`ExtentFailed`).
- The path lookup through GetPrimAtPath, which runs before that `try`: it is assumed not to raise. On a bad path it returns an invalid prim, and the failure then comes from the world-bound query inside the `try`.
- Python's float-to-text rendering and `float()` parsing: they are the parameters `render` and `parse` over an abstract coordinate type.
- The narrowing of Vec3d values to the Point3f and Vector3fArray types of the box attributes, and the attribute value-type names: library typing. Attribute values are recorded as written.
- `create_auto_guide`: I/O orchestration (file check, stage open and save, default prim, printing). Only its hand-off of the extents and points to the builder is modelled, by `GuideCarriesBound`.
- The test module: it depends on fixture files and environment variables and checks only result types.
- Scene.Stage.DefinePrim: the prim-path rule is a simplification of USD's: an absolute path of identifier components. A refused path and a plain-string default prim are the model's only causes of a mesh-creation failure.
- VertexBox.GetVertexBbox: the corner step cannot fail in the model, so the corner-construction error tag exists but is never produced.
