/** _create_cube_mesh: the guide hierarchy <asset>/model/guide/box written
    into a stage, with the box carrying the corner points, the extent and the
    fixed cube topology. */
module CubeMesh {
  import opened Errors
  import opened Geometry
  import opened Corners
  import opened Topology
  import opened Scene
  import opened VertexBox

  /** The paths of the three prims the builder nests below the asset: each
      lies directly below the one before. */
  function ModelPath(asset: string): (r: string)
    ensures |r| > |asset| && r[..|asset|] == asset && r[|asset|] == '/'
  {
    Child(asset, "model")
  }

  function GuidePath(asset: string): (r: string)
    ensures |r| > |ModelPath(asset)| && r[..|ModelPath(asset)|] == ModelPath(asset) && r[|ModelPath(asset)|] == '/'
  {
    Child(ModelPath(asset), "guide")
  }

  function BoxPath(asset: string): (r: string)
    ensures |r| > |GuidePath(asset)| && r[..|GuidePath(asset)|] == GuidePath(asset) && r[|GuidePath(asset)|] == '/'
  {
    Child(GuidePath(asset), "box")
  }

  /** The attributes of the box after the four writes, on top of those it
      already had. */
  function BoxAttrs<C>(old_attrs: map<string, AttrValue<C>>, points: seq<Vec3<C>>, extent: seq<Vec3<C>>)
    : (r: map<string, AttrValue<C>>)
    ensures r.Keys == old_attrs.Keys + {"faceVertexCounts", "points", "extent", "faceVertexIndices"}
    ensures r["points"] == Vec3Array(points) && r["extent"] == Vec3Array(extent)
    ensures r["faceVertexCounts"] == IntArray([4, 4, 4, 4, 4, 4]) && r["faceVertexIndices"] == IntArray(FaceVertexIndices)
    ensures forall a :: a in old_attrs && a !in {"faceVertexCounts", "points", "extent", "faceVertexIndices"} ==> r[a] == old_attrs[a]
  {
    assert "points" != "faceVertexCounts" && "points" != "extent" && "points" != "faceVertexIndices";
    assert "extent" != "faceVertexCounts" && "extent" != "faceVertexIndices";
    assert "faceVertexCounts" != "faceVertexIndices";
    old_attrs["faceVertexCounts" := IntArray(FaceVertexCounts)]
             ["points" := Vec3Array(points)]
             ["extent" := Vec3Array(extent)]
             ["faceVertexIndices" := IntArray(FaceVertexIndices)]
  }

  /** Writing the four attributes again changes nothing. */
  lemma BoxAttrsIdempotent<C>(attrs: map<string, AttrValue<C>>, points: seq<Vec3<C>>, extent: seq<Vec3<C>>)
    ensures var r := BoxAttrs(attrs, points, extent); BoxAttrs(r, points, extent) == r
  {
  }

  /** The prims after the builder's eight steps, in the order it takes them:
      four prim definitions, then four attribute writes on the box. */
  function CubeMeshState<C>(m: Prims<C>, asset: string, points: seq<Vec3<C>>, extent: seq<Vec3<C>>): (r: Prims<C>)
    ensures m.Keys <= r.Keys
  {
    BuildSteps(m, asset, ModelPath(asset), GuidePath(asset), BoxPath(asset), points, extent)
  }

  /** The eight steps for given asset, model, guide and box paths: no prim
      is removed, the four paths are defined, and the last is a mesh holding
      the four written attributes. */
  function BuildSteps<C>(m: Prims<C>, asset: string, model: string, guide: string, box: string,
                         points: seq<Vec3<C>>, extent: seq<Vec3<C>>): (r: Prims<C>)
    ensures m.Keys + {asset, model, guide, box} <= r.Keys
    ensures r[box].kind == Mesh
    ensures {"faceVertexCounts", "points", "extent", "faceVertexIndices"} <= r[box].attrs.Keys
  {
    var m1 := Defined(m, asset, Xform);
    var m2 := Defined(m1, model, Xform);
    var m3 := Defined(m2, guide, Xform);
    var m4 := Defined(m3, box, Mesh);
    var m5 := WithAttribute(m4, box, "faceVertexCounts", IntArray(FaceVertexCounts));
    var m6 := WithAttribute(m5, box, "points", Vec3Array(points));
    var m7 := WithAttribute(m6, box, "extent", Vec3Array(extent));
    WithAttribute(m7, box, "faceVertexIndices", IntArray(FaceVertexIndices))
  }

  /** The four guide paths are prim paths, pairwise distinct, none of them an
      ancestor of the asset, and each one's ancestors are the asset's plus
      the guide paths above it. */
  lemma GuidePaths(asset: string)
    requires IsPrimPath(asset)
    ensures IsPrimPath(ModelPath(asset)) && IsPrimPath(GuidePath(asset)) && IsPrimPath(BoxPath(asset))
    ensures |asset| < |ModelPath(asset)| < |GuidePath(asset)| < |BoxPath(asset)|
    ensures forall a :: a in Ancestors(asset) ==> |a| < |asset|
    ensures Ancestors(ModelPath(asset)) == Ancestors(asset) + {asset}
    ensures Ancestors(GuidePath(asset)) == Ancestors(asset) + {asset, ModelPath(asset)}
    ensures Ancestors(BoxPath(asset)) == Ancestors(asset) + {asset, ModelPath(asset), GuidePath(asset)}
  {
    assert IsIdentifier("model") && IsIdentifier("guide") && IsIdentifier("box");
    ChildIsPrimPath(asset, "model");
    ChildIsPrimPath(ModelPath(asset), "guide");
    ChildIsPrimPath(GuidePath(asset), "box");
    AncestorsOfChild(asset, "model");
    AncestorsOfChild(ModelPath(asset), "guide");
    AncestorsOfChild(GuidePath(asset), "box");
  }

  /** Four upserts of distinct paths, path by path. */
  lemma NestedDefinitions<C>(m: Prims<C>, p1: string, p2: string, p3: string, p4: string)
    requires p1 != p2 && p1 != p3 && p1 != p4 && p2 != p3 && p2 != p4 && p3 != p4
    ensures var m4 := Defined(Defined(Defined(Defined(m, p1, Xform), p2, Xform), p3, Xform), p4, Mesh);
      forall a ::
           PrimAt(m4, a) == if a == p1 || a == p2 || a == p3 then Prim(Xform, AttrsAt(m, a))
                            else if a == p4 then Prim(Mesh, AttrsAt(m, a))
                            else PrimAt(m, a)
  {
    var m1 := Defined(m, p1, Xform);
    var m2 := Defined(m1, p2, Xform);
    var m3 := Defined(m2, p3, Xform);
    var m4 := Defined(m3, p4, Mesh);
    assert PrimAt(m4, p4) == Prim(Mesh, AttrsAt(m3, p4));
    assert PrimAt(m4, p3) == PrimAt(m3, p3) == Prim(Xform, AttrsAt(m2, p3));
    assert PrimAt(m4, p2) == PrimAt(m2, p2) == Prim(Xform, AttrsAt(m1, p2));
    assert PrimAt(m4, p1) == PrimAt(m1, p1) == Prim(Xform, AttrsAt(m, p1));
  }

  /** The paths present after four upserts. */
  lemma NestedKeys<C>(m: Prims<C>, p1: string, p2: string, p3: string, p4: string)
    ensures Defined(Defined(Defined(Defined(m, p1, Xform), p2, Xform), p3, Xform), p4, Mesh).Keys ==
            m.Keys + Ancestors(p1) + Ancestors(p2) + Ancestors(p3) + Ancestors(p4) + {p1, p2, p3, p4}
  {
    var m1 := Defined(m, p1, Xform);
    var m2 := Defined(m1, p2, Xform);
    var m3 := Defined(m2, p3, Xform);
    assert m3.Keys == m.Keys + Ancestors(p1) + Ancestors(p2) + Ancestors(p3) + {p1, p2, p3};
  }

  lemma NestedUnion(keys: set<string>, a1: set<string>, a2: set<string>, a3: set<string>, a4: set<string>,
                    p1: string, p2: string, p3: string, p4: string)
    requires a2 == a1 + {p1} && a3 == a1 + {p1, p2} && a4 == a1 + {p1, p2, p3}
    ensures keys + a1 + a2 + a3 + a4 + {p1, p2, p3, p4} == keys + a1 + {p1, p2, p3, p4}
  {
  }

  /** The four attribute writes on the box, path by path. */
  lemma BoxWrites<C>(m4: Prims<C>, box: string, points: seq<Vec3<C>>, extent: seq<Vec3<C>>)
    requires box in m4
    ensures var m5 := WithAttribute(m4, box, "faceVertexCounts", IntArray(FaceVertexCounts));
      var m6 := WithAttribute(m5, box, "points", Vec3Array(points));
      var m7 := WithAttribute(m6, box, "extent", Vec3Array(extent));
      var m8 := WithAttribute(m7, box, "faceVertexIndices", IntArray(FaceVertexIndices));
      && m8.Keys == m4.Keys
      && m8[box] == Prim(m4[box].kind, BoxAttrs(m4[box].attrs, points, extent))
      && forall a :: a != box ==> PrimAt(m8, a) == PrimAt(m4, a)
  {
  }

  /** The prim the eight steps leave at path `a` of a stage that held `m`. */
  function StepsPrimAt<C>(m: Prims<C>, asset: string, model: string, guide: string, box: string,
                          points: seq<Vec3<C>>, extent: seq<Vec3<C>>, a: string): Prim<C>
  {
    if a == asset || a == model || a == guide then Prim(Xform, AttrsAt(m, a))
    else if a == box then Prim(Mesh, BoxAttrs(AttrsAt(m, a), points, extent))
    else PrimAt(m, a)
  }

  /** The eight steps, path by path, for any four distinct paths. */
  lemma BuildStepsAt<C>(m: Prims<C>, asset: string, model: string, guide: string, box: string,
                        points: seq<Vec3<C>>, extent: seq<Vec3<C>>)
    requires asset != model && asset != guide && asset != box && model != guide && model != box && guide != box
    ensures var r := BuildSteps(m, asset, model, guide, box, points, extent);
      && r.Keys == m.Keys + Ancestors(asset) + Ancestors(model) + Ancestors(guide) + Ancestors(box) + {asset, model, guide, box}
      && forall a :: PrimAt(r, a) == StepsPrimAt(m, asset, model, guide, box, points, extent, a)
  {
    NestedDefinitions(m, asset, model, guide, box);
    NestedKeys(m, asset, model, guide, box);
    var m4 := Defined(Defined(Defined(Defined(m, asset, Xform), model, Xform), guide, Xform), box, Mesh);
    assert m4[box] == PrimAt(m4, box);
    BoxWrites(m4, box, points, extent);
    StepsCompose(m, m4, BuildSteps(m, asset, model, guide, box, points, extent), asset, model, guide, box, points, extent);
  }

  /** The definitions followed by the writes, path by path. */
  lemma StepsCompose<C>(m: Prims<C>, m4: Prims<C>, r: Prims<C>, asset: string, model: string, guide: string, box: string,
                        points: seq<Vec3<C>>, extent: seq<Vec3<C>>)
    requires box != asset && box != model && box != guide
    requires forall a ::
               PrimAt(m4, a) == if a == asset || a == model || a == guide then Prim(Xform, AttrsAt(m, a))
                                else if a == box then Prim(Mesh, AttrsAt(m, a))
                                else PrimAt(m, a)
    requires box in m4 && box in r
    requires r[box] == Prim(m4[box].kind, BoxAttrs(m4[box].attrs, points, extent))
    requires forall a :: a != box ==> PrimAt(r, a) == PrimAt(m4, a)
    ensures forall a :: PrimAt(r, a) == StepsPrimAt(m, asset, model, guide, box, points, extent, a)
  {
    forall a
      ensures PrimAt(r, a) == StepsPrimAt(m, asset, model, guide, box, points, extent, a)
    {
      if a == box {
        assert m4[box] == PrimAt(m4, box);
        assert r[box] == PrimAt(r, box);
      }
    }
  }

  /** The whole effect of the builder, path by path: the guide paths and the
      asset's missing ancestors are added, nothing else is. */
  lemma CubeMeshStateAt<C>(m: Prims<C>, asset: string, points: seq<Vec3<C>>, extent: seq<Vec3<C>>)
    requires IsPrimPath(asset)
    ensures var r := CubeMeshState(m, asset, points, extent);
      && r.Keys == m.Keys + Ancestors(asset) + {asset, ModelPath(asset), GuidePath(asset), BoxPath(asset)}
      && forall a :: PrimAt(r, a) == StepsPrimAt(m, asset, ModelPath(asset), GuidePath(asset), BoxPath(asset), points, extent, a)
  {
    GuidePaths(asset);
    var model, guide, box := ModelPath(asset), GuidePath(asset), BoxPath(asset);
    BuildStepsAt(m, asset, model, guide, box, points, extent);
    NestedUnion(m.Keys, Ancestors(asset), Ancestors(model), Ancestors(guide), Ancestors(box), asset, model, guide, box);
  }

  /** The eight steps at the four paths they write. */
  lemma BuildStepsPrims<C>(m: Prims<C>, asset: string, model: string, guide: string, box: string,
                           points: seq<Vec3<C>>, extent: seq<Vec3<C>>)
    requires asset != model && asset != guide && asset != box && model != guide && model != box && guide != box
    ensures var r := BuildSteps(m, asset, model, guide, box, points, extent);
      && asset in r && model in r && guide in r && box in r
      && r[asset] == Prim(Xform, AttrsAt(m, asset))
      && r[model] == Prim(Xform, AttrsAt(m, model))
      && r[guide] == Prim(Xform, AttrsAt(m, guide))
      && r[box] == Prim(Mesh, BoxAttrs(AttrsAt(m, box), points, extent))
  {
    BuildStepsAt(m, asset, model, guide, box, points, extent);
    var r := BuildSteps(m, asset, model, guide, box, points, extent);
    assert r[asset] == PrimAt(r, asset);
    assert r[model] == PrimAt(r, model);
    assert r[guide] == PrimAt(r, guide);
    assert r[box] == PrimAt(r, box);
  }

  /** What the builder leaves at the four guide paths: three transforms and
      the box mesh, each keeping attributes it had; on the box, points and
      extent are the given values and the topology is the constant tables. */
  lemma CubeMeshPrims<C>(m: Prims<C>, asset: string, points: seq<Vec3<C>>, extent: seq<Vec3<C>>)
    requires IsPrimPath(asset)
    ensures var r := CubeMeshState(m, asset, points, extent);
      && r[asset] == Prim(Xform, AttrsAt(m, asset))
      && r[ModelPath(asset)] == Prim(Xform, AttrsAt(m, ModelPath(asset)))
      && r[GuidePath(asset)] == Prim(Xform, AttrsAt(m, GuidePath(asset)))
      && r[BoxPath(asset)].kind == Mesh
      && r[BoxPath(asset)].attrs.Keys == AttrsAt(m, BoxPath(asset)).Keys + {"faceVertexCounts", "points", "extent", "faceVertexIndices"}
      && r[BoxPath(asset)].attrs["points"] == Vec3Array(points)
      && r[BoxPath(asset)].attrs["extent"] == Vec3Array(extent)
      && r[BoxPath(asset)].attrs["faceVertexCounts"] == IntArray([4, 4, 4, 4, 4, 4])
      && r[BoxPath(asset)].attrs["faceVertexIndices"] == IntArray(FaceVertexIndices)
  {
    GuidePaths(asset);
    BuildStepsPrims(m, asset, ModelPath(asset), GuidePath(asset), BoxPath(asset), points, extent);
  }

  /** Nothing else changes: with the key set of CubeMeshStateAt, the
      asset's missing ancestors are added as typeless prims and every other
      prim is as it was. */
  lemma CubeMeshFrame<C>(m: Prims<C>, asset: string, points: seq<Vec3<C>>, extent: seq<Vec3<C>>)
    requires IsPrimPath(asset)
    ensures var r := CubeMeshState(m, asset, points, extent);
      && (forall a :: a in m && a !in {asset, ModelPath(asset), GuidePath(asset), BoxPath(asset)} ==> r[a] == m[a])
      && (forall a :: a in Ancestors(asset) && a !in m ==> r[a] == Prim(Typeless, map[]))
  {
    CubeMeshStateAt(m, asset, points, extent);
    GuidePaths(asset);
    StepsFrame(m, CubeMeshState(m, asset, points, extent), asset, ModelPath(asset), GuidePath(asset), BoxPath(asset),
               points, extent);
  }

  /** The paths the steps do not write keep their prims. */
  lemma StepsFrame<C>(m: Prims<C>, r: Prims<C>, asset: string, model: string, guide: string, box: string,
                      points: seq<Vec3<C>>, extent: seq<Vec3<C>>)
    requires |asset| < |model| < |guide| < |box|
    requires forall a :: a in Ancestors(asset) ==> |a| < |asset|
    requires forall a :: PrimAt(r, a) == StepsPrimAt(m, asset, model, guide, box, points, extent, a)
    requires r.Keys == m.Keys + Ancestors(asset) + {asset, model, guide, box}
    ensures forall a :: a in m && a !in {asset, model, guide, box} ==> r[a] == m[a]
    ensures forall a :: a in Ancestors(asset) && a !in m ==> r[a] == Prim(Typeless, map[])
  {
    forall a | a in m && a !in {asset, model, guide, box}
      ensures r[a] == m[a]
    {
      assert r[a] == PrimAt(r, a);
    }
    forall a | a in Ancestors(asset) && a !in m
      ensures r[a] == Prim(Typeless, map[])
    {
      assert r[a] == PrimAt(r, a);
    }
  }

  /** Running the builder twice with the same inputs leaves the same stage as
      running it once. */
  lemma CubeMeshIdempotent<C>(m: Prims<C>, asset: string, points: seq<Vec3<C>>, extent: seq<Vec3<C>>)
    requires IsPrimPath(asset)
    ensures CubeMeshState(CubeMeshState(m, asset, points, extent), asset, points, extent) ==
            CubeMeshState(m, asset, points, extent)
  {
    GuidePaths(asset);
    BuildStepsIdempotent(m, asset, ModelPath(asset), GuidePath(asset), BoxPath(asset), points, extent);
  }

  lemma BuildStepsIdempotent<C>(m: Prims<C>, asset: string, model: string, guide: string, box: string,
                                points: seq<Vec3<C>>, extent: seq<Vec3<C>>)
    requires asset != model && asset != guide && asset != box && model != guide && model != box && guide != box
    ensures var once := BuildSteps(m, asset, model, guide, box, points, extent);
      BuildSteps(once, asset, model, guide, box, points, extent) == once
  {
    var once := BuildSteps(m, asset, model, guide, box, points, extent);
    BuildStepsAt(m, asset, model, guide, box, points, extent);
    BuildStepsAt(once, asset, model, guide, box, points, extent);
    StepsSettled(m, once, BuildSteps(once, asset, model, guide, box, points, extent), asset, model, guide, box, points, extent);
  }

  /** A second pass of the steps over their own output changes no path. */
  lemma StepsSettled<C>(m: Prims<C>, once: Prims<C>, twice: Prims<C>, asset: string, model: string, guide: string, box: string,
                        points: seq<Vec3<C>>, extent: seq<Vec3<C>>)
    requires once.Keys == m.Keys + Ancestors(asset) + Ancestors(model) + Ancestors(guide) + Ancestors(box) + {asset, model, guide, box}
    requires twice.Keys == once.Keys + Ancestors(asset) + Ancestors(model) + Ancestors(guide) + Ancestors(box) + {asset, model, guide, box}
    requires forall a :: PrimAt(once, a) == StepsPrimAt(m, asset, model, guide, box, points, extent, a)
    requires forall a :: PrimAt(twice, a) == StepsPrimAt(once, asset, model, guide, box, points, extent, a)
    ensures twice == once
  {
    assert twice.Keys == once.Keys;
    forall a | a in once
      ensures twice[a] == once[a]
    {
      assert twice[a] == PrimAt(twice, a) && once[a] == PrimAt(once, a);
      if a == box {
        BoxAttrsIdempotent(AttrsAt(m, a), points, extent);
      }
    }
  }

  /** The `default_prim` argument of _create_cube_mesh: a Usd.Prim, known by
      its path, or a plain string, which the type hint also admits. */
  datatype AssetRef = PrimRef(path: string) | PathString(text: string)

  /** _create_cube_mesh. A plain string has no GetPath(), so that call fails
      at once; a prim whose path the stage refuses fails at its first
      definition. Either failure is reported as a mesh-creation failure and
      leaves the stage unchanged. Otherwise the result is the path of the box
      prim. */
  method CreateCubeMesh<C>(stage: Stage<C>, bboxExtent: seq<Vec3<C>>, vertexPoints: seq<Vec3<C>>, defaultPrim: AssetRef)
    returns (r: Result<string>)
    modifies stage
    ensures r.Success? <==> defaultPrim.PrimRef? && IsPrimPath(defaultPrim.path)
    ensures r.Success? ==>
              r.value == BoxPath(defaultPrim.path) &&
              stage.prims == CubeMeshState(old(stage.prims), defaultPrim.path, vertexPoints, bboxExtent)
    ensures defaultPrim.PathString? ==>
              r == Failure(CreatingCubeMesh(NoGetPath(defaultPrim.text))) && stage.prims == old(stage.prims)
    ensures defaultPrim.PrimRef? && !IsPrimPath(defaultPrim.path) ==>
              r == Failure(CreatingCubeMesh(InvalidPrimPath(defaultPrim.path))) && stage.prims == old(stage.prims)
  {
    if defaultPrim.PathString? {
      return Failure(CreatingCubeMesh(NoGetPath(defaultPrim.text)));
    }
    var asset := defaultPrim.path;
    var assetPrim := stage.DefinePrim(asset, Xform);
    if assetPrim.Failure? {
      return Failure(CreatingCubeMesh(assetPrim.error));
    }
    GuidePaths(asset);
    var modelPrim := stage.DefinePrim(ModelPath(asset), Xform);
    var guidePrim := stage.DefinePrim(GuidePath(asset), Xform);
    var cubeMesh := stage.DefinePrim(BoxPath(asset), Mesh);
    assert modelPrim.Success? && guidePrim.Success? && cubeMesh.Success?;

    stage.SetAttribute(cubeMesh.value, "faceVertexCounts", IntArray(FaceVertexCounts));
    stage.SetAttribute(cubeMesh.value, "points", Vec3Array(vertexPoints));
    stage.SetAttribute(cubeMesh.value, "extent", Vec3Array(bboxExtent));
    stage.SetAttribute(cubeMesh.value, "faceVertexIndices", IntArray(FaceVertexIndices));

    r := Success(cubeMesh.value);
  }

  /** From bound to guide: the extents _get_vertex_bbox returns are passed on
      unchanged, so the box's extent is [corrected min, corrected max] and its
      points are the eight corners of that box. */
  lemma GuideCarriesBound<C>(m: Prims<C>, asset: string, range: Range3<C>,
                             render: C -> string, parse: string -> Option<C>, lo: Vec3<C>, hi: Vec3<C>)
    requires IsPrimPath(asset)
    requires Corrects(range, render, parse, lo, hi)
    ensures GetVertexBbox(Success(range), render, parse).Success?
    ensures var vb := GetVertexBbox(Success(range), render, parse).value;
      var box := CubeMeshState(m, asset, vb.points, vb.extents)[BoxPath(asset)];
      && box.kind == Mesh
      && box.attrs["extent"] == Vec3Array([lo, hi])
      && box.attrs["points"] == Vec3Array(BoxCorners(lo, hi))
  {
    VertexBoxCorners(range, render, parse, lo, hi);
    var vb := GetVertexBbox(Success(range), render, parse).value;
    CubeMeshPrims(m, asset, vb.points, vb.extents);
  }
}
