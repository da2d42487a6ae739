/** The scene store the guide is written into: a stage holding prims by path,
    each with a kind (its type name) and named attribute values. Prim paths
    are strings such as "/asset/model". */
module Scene {
  import opened Errors
  import opened Geometry

  datatype Kind = Typeless | Xform | Mesh

  /** Attribute values: integer arrays and arrays of 3-vectors. */
  datatype AttrValue<C> = IntArray(ints: seq<int>) | Vec3Array(vecs: seq<Vec3<C>>)

  datatype Prim<C> = Prim(kind: Kind, attrs: map<string, AttrValue<C>>)

  type Prims<C> = map<string, Prim<C>>

  predicate IsIdentStart(c: char)
  {
    'a' <= c <= 'z' || 'A' <= c <= 'Z' || c == '_'
  }

  predicate IsIdentChar(c: char)
  {
    IsIdentStart(c) || '0' <= c <= '9'
  }

  /** A prim name: a letter or underscore, then letters, digits, underscores. */
  predicate IsIdentifier(name: string)
  {
    |name| > 0 && IsIdentStart(name[0]) && forall i :: 0 < i < |name| ==> IsIdentChar(name[i])
  }

  /** An absolute prim path: one or more identifiers, each after a '/'. The
      pseudo-root "/" and the empty path are not prim paths. */
  predicate IsPrimPath(p: string)
  {
    && |p| >= 2
    && p[0] == '/'
    && p[|p| - 1] != '/'
    && (forall i :: 0 <= i < |p| ==> p[i] == '/' || IsIdentChar(p[i]))
    && (forall i :: 0 <= i < |p| - 1 && p[i] == '/' ==> IsIdentStart(p[i + 1]))
  }

  /** The prim paths strictly above `p`. */
  function Ancestors(p: string): set<string>
  {
    set i | 0 < i < |p| && p[i] == '/' :: p[..i]
  }

  function Child(p: string, name: string): string
  {
    p + "/" + name
  }

  lemma ChildIsPrimPath(p: string, name: string)
    requires IsPrimPath(p) && IsIdentifier(name)
    ensures IsPrimPath(Child(p, name))
  {
    var c := Child(p, name);
    forall i | 0 <= i < |c|
      ensures c[i] == '/' || IsIdentChar(c[i])
    {
      if i < |p| {
        assert c[i] == p[i];
      } else if i > |p| {
        assert c[i] == name[i - |p| - 1];
      }
    }
    forall i | 0 <= i < |c| - 1 && c[i] == '/'
      ensures IsIdentStart(c[i + 1])
    {
      if i < |p| - 1 {
        assert c[i] == p[i] && c[i + 1] == p[i + 1];
      } else if i == |p| {
        assert c[i + 1] == name[0];
      }
    }
    assert c[|c| - 1] == name[|name| - 1];
  }

  /** The ancestors of a child path are the parent's ancestors and the
      parent itself. */
  lemma AncestorsOfChild(p: string, name: string)
    requires IsPrimPath(p) && IsIdentifier(name)
    ensures Ancestors(Child(p, name)) == Ancestors(p) + {p}
  {
    var c := Child(p, name);
    forall a | a in Ancestors(c)
      ensures a in Ancestors(p) + {p}
    {
      var i :| 0 < i < |c| && c[i] == '/' && a == c[..i];
      if i < |p| {
        assert c[i] == p[i] && c[..i] == p[..i];
      } else if i == |p| {
        assert c[..i] == p;
      }
    }
    forall a | a in Ancestors(p) + {p}
      ensures a in Ancestors(c)
    {
      if a == p {
        assert c[|p|] == '/' && c[..|p|] == p;
      } else {
        var i :| 0 < i < |p| && p[i] == '/' && a == p[..i];
        assert c[i] == p[i] && c[..i] == p[..i];
      }
    }
  }

  /** The prim at `path`, or, where there is none, the typeless prim without
      attributes that an upsert would put there. */
  function PrimAt<C>(m: Prims<C>, path: string): Prim<C>
  {
    if path in m then m[path] else Prim(Typeless, map[])
  }

  /** The attributes a prim at `path` already has, or none. */
  function AttrsAt<C>(m: Prims<C>, path: string): map<string, AttrValue<C>>
  {
    PrimAt(m, path).attrs
  }

  /** The prims after DefinePrim(path, kind): an upsert. The prim at `path`
      gets the kind and keeps its attributes; missing ancestors are added as
      typeless prims; every other prim is left as it was. */
  function Defined<C>(m: Prims<C>, path: string, kind: Kind): (r: Prims<C>)
    ensures r.Keys == m.Keys + Ancestors(path) + {path}
    ensures r[path] == Prim(kind, AttrsAt(m, path))
    ensures forall a :: a != path ==> PrimAt(r, a) == PrimAt(m, a)
  {
    var filled := map a | a in m.Keys + Ancestors(path) :: PrimAt(m, a);
    filled[path := Prim(kind, AttrsAt(m, path))]
  }

  /** The prims after an attribute write on the prim at `path`. */
  function WithAttribute<C>(m: Prims<C>, path: string, name: string, value: AttrValue<C>): (r: Prims<C>)
    requires path in m
    ensures r.Keys == m.Keys
    ensures r[path] == Prim(m[path].kind, m[path].attrs[name := value])
    ensures forall a :: a != path ==> PrimAt(r, a) == PrimAt(m, a)
  {
    m[path := Prim(m[path].kind, m[path].attrs[name := value])]
  }

  /** Defining the same prim twice is the same as defining it once. */
  lemma DefinedIdempotent<C>(m: Prims<C>, path: string, kind: Kind)
    ensures Defined(Defined(m, path, kind), path, kind) == Defined(m, path, kind)
  {
    var once := Defined(m, path, kind);
    var twice := Defined(once, path, kind);
    assert twice.Keys == once.Keys;
    forall a | a in once
      ensures twice[a] == once[a]
    {
    }
  }

  /** A Usd.Stage, as far as the guide builder uses it. */
  class Stage<C> {
    var prims: Prims<C>

    /** A new, empty stage (Usd.Stage.CreateNew). */
    constructor ()
      ensures prims == map[]
    {
      prims := map[];
    }

    /** Stage.DefinePrim: fails, changing nothing, on a path that is not a
      prim path; otherwise upserts the prim and returns its path. */
    method DefinePrim(path: string, kind: Kind) returns (r: Result<string>)
      modifies this
      ensures r.Success? <==> IsPrimPath(path)
      ensures r.Success? ==> r.value == path && prims == Defined(old(prims), path, kind)
      ensures r.Failure? ==> r.error == InvalidPrimPath(path) && prims == old(prims)
    {
      if IsPrimPath(path) {
        prims := Defined(prims, path, kind);
        r := Success(path);
      } else {
        r := Failure(InvalidPrimPath(path));
      }
    }

    /** Prim.CreateAttribute(name) followed by Attribute.Set(value) on the
      prim at `path`. */
    method SetAttribute(path: string, name: string, value: AttrValue<C>)
      requires path in prims
      modifies this
      ensures prims == WithAttribute(old(prims), path, name, value)
    {
      prims := WithAttribute(prims, path, name, value);
    }
  }
}
