/** The mesh of src/lib/Model.ts: attribute arrays plus triangles that cache
    the vertices their indices point at. */
module Models {
  import opened Wrappers
  import opened Vectors

  /** One triangle as the mesh JSON gives it: index lists only. */
  datatype JsonTriangle = JsonTriangle(vertexIndices: seq<int>, textureIndices: seq<int>, normalIndices: seq<int>)

  /** The mesh JSON: homogeneous vertices (x, y, z, w), texture coordinates
      (u, v), normals (x, y, z) and triangles. */
  datatype ModelJson = ModelJson(
    vertices: seq<(real, real, real, real)>,
    textureCoords: seq<(real, real)>,
    vertexNormals: seq<(real, real, real)>,
    triangles: seq<JsonTriangle>)

  /** A triangle of a model. `vertices` caches the vertex each entry of
      `vertexIndices` points at (`None` where the index is outside the vertex
      list, JavaScript's `undefined`). `index` and `material` are the fields
      the shaders read; the triangles this module builds set neither, so both
      are `None` (`undefined`) here. */
  datatype Triangle = Triangle(
    vertices: seq<Option<Vec3>>,
    vertexIndices: seq<int>,
    textureIndices: seq<int>,
    normalIndices: seq<int>,
    index: Option<nat>,
    material: Option<string>)

  /** `vertices[i]` in JavaScript: `undefined` outside the list. */
  function VertexAt(vertices: seq<Vec3>, i: int): (v: Option<Vec3>)
    ensures v.Some? <==> 0 <= i < |vertices|
  {
    if 0 <= i < |vertices| then Some(vertices[i]) else None
  }

  /** `vertexIndices.map((i) => vertices[i])`. */
  function Dereference(indices: seq<int>, vertices: seq<Vec3>): (r: seq<Option<Vec3>>)
    ensures |r| == |indices|
    ensures forall k :: 0 <= k < |r| ==> r[k] == VertexAt(vertices, indices[k])
  {
    seq(|indices|, k requires 0 <= k < |indices| => VertexAt(vertices, indices[k]))
  }

  /** The model's key invariant: every cached triangle vertex is the vertex
      its index points at. */
  predicate TrianglesCached(triangles: seq<Triangle>, vertices: seq<Vec3>) {
    forall t :: 0 <= t < |triangles| ==>
      |triangles[t].vertices| == |triangles[t].vertexIndices| &&
      forall k :: 0 <= k < |triangles[t].vertices| ==>
        triangles[t].vertices[k] == VertexAt(vertices, triangles[t].vertexIndices[k])
  }

  /** Each triangle with its vertex cache rebuilt from `vertices`. */
  function Recached(triangles: seq<Triangle>, vertices: seq<Vec3>): (r: seq<Triangle>)
    ensures |r| == |triangles|
    ensures TrianglesCached(r, vertices)
    ensures forall t :: 0 <= t < |r| ==> r[t] == triangles[t].(vertices := r[t].vertices)
  {
    seq(|triangles|, t requires 0 <= t < |triangles| =>
      triangles[t].(vertices := Dereference(triangles[t].vertexIndices, vertices)))
  }

  /** Every vertex moved by d. */
  function Translated(vertices: seq<Vec3>, d: Vec3): (r: seq<Vec3>)
    ensures |r| == |vertices|
    ensures forall i :: 0 <= i < |r| ==> r[i].Sub(d) == vertices[i]
  {
    seq(|vertices|, i requires 0 <= i < |vertices| => vertices[i].Add(d))
  }

  /** Every vertex scaled component-wise by s. */
  function Scaled(vertices: seq<Vec3>, s: Vec3): (r: seq<Vec3>)
    ensures |r| == |vertices|
    ensures forall i :: 0 <= i < |r| ==> r[i] == Vec3(vertices[i].x * s.x, vertices[i].y * s.y, vertices[i].z * s.z)
  {
    seq(|vertices|, i requires 0 <= i < |vertices| => vertices[i].Mul(s.x, s.y, s.z))
  }

  lemma {:induction false} TranslateByZero(vertices: seq<Vec3>)
    ensures Translated(vertices, Vec3(0.0, 0.0, 0.0)) == vertices
  {
    var r := Translated(vertices, Vec3(0.0, 0.0, 0.0));
    assert forall i :: 0 <= i < |r| ==> r[i] == vertices[i];
  }

  lemma {:induction false} TranslateComposes(vertices: seq<Vec3>, d: Vec3, e: Vec3)
    ensures Translated(Translated(vertices, d), e) == Translated(vertices, d.Add(e))
  {
    var lhs, rhs := Translated(Translated(vertices, d), e), Translated(vertices, d.Add(e));
    forall i | 0 <= i < |lhs| ensures lhs[i] == rhs[i] {
      assert lhs[i] == vertices[i].Add(d).Add(e);
      assert rhs[i] == vertices[i].Add(d.Add(e));
    }
  }

  lemma {:induction false} ScaleByOne(vertices: seq<Vec3>)
    ensures Scaled(vertices, Vec3(1.0, 1.0, 1.0)) == vertices
  {
    var r := Scaled(vertices, Vec3(1.0, 1.0, 1.0));
    assert forall i :: 0 <= i < |r| ==> r[i] == vertices[i];
  }

  lemma {:induction false} ScaleComposes(vertices: seq<Vec3>, s: Vec3, t: Vec3)
    ensures Scaled(Scaled(vertices, s), t) == Scaled(vertices, Vec3(s.x * t.x, s.y * t.y, s.z * t.z))
  {
    var lhs, rhs := Scaled(Scaled(vertices, s), t), Scaled(vertices, Vec3(s.x * t.x, s.y * t.y, s.z * t.z));
    forall i | 0 <= i < |lhs| ensures lhs[i] == rhs[i] {
      var v := vertices[i];
      assert lhs[i] == Vec3(v.x * s.x * t.x, v.y * s.y * t.y, v.z * s.z * t.z);
    }
  }

  /** After moving the vertices and re-caching, each cached vertex of each
      triangle is its old cached vertex moved by d. */
  lemma RecachedAfterTranslate(triangles: seq<Triangle>, vertices: seq<Vec3>, d: Vec3, t: int, k: int)
    requires TrianglesCached(triangles, vertices)
    requires 0 <= t < |triangles| && 0 <= k < |triangles[t].vertices|
    ensures var r := Recached(triangles, Translated(vertices, d));
      k < |r[t].vertices| &&
      r[t].vertices[k] == (if triangles[t].vertices[k].Some? then Some(triangles[t].vertices[k].value.Add(d)) else None)
  {
    var i := triangles[t].vertexIndices[k];
    if 0 <= i < |vertices| {
      assert Translated(vertices, d)[i] == vertices[i].Add(d);
    }
  }

  class Model {
    var vertices: seq<Vec3>
    var textureCoords: seq<Float2>
    var vertexNormals: seq<Vec3>
    var triangles: seq<Triangle>

    ghost predicate Valid()
      reads this
    {
      TrianglesCached(triangles, vertices)
    }

    /** Keeps x, y, z of each vertex (dropping w), copies texture
        coordinates and normals, and builds the triangles with their vertex
        caches. Each triangle keeps only its three index lists, so it has
        neither an index nor a material. */
    constructor (json: ModelJson)
      ensures Valid()
      ensures |vertices| == |json.vertices|
      ensures forall i :: 0 <= i < |vertices| ==>
        vertices[i] == Vec3(json.vertices[i].0, json.vertices[i].1, json.vertices[i].2)
      ensures |textureCoords| == |json.textureCoords|
      ensures forall i :: 0 <= i < |textureCoords| ==>
        textureCoords[i] == Float2(json.textureCoords[i].0, json.textureCoords[i].1)
      ensures |vertexNormals| == |json.vertexNormals|
      ensures forall i :: 0 <= i < |vertexNormals| ==>
        vertexNormals[i] == Vec3(json.vertexNormals[i].0, json.vertexNormals[i].1, json.vertexNormals[i].2)
      ensures |triangles| == |json.triangles|
      ensures forall t :: 0 <= t < |triangles| ==>
        && triangles[t].vertexIndices == json.triangles[t].vertexIndices
        && triangles[t].textureIndices == json.triangles[t].textureIndices
        && triangles[t].normalIndices == json.triangles[t].normalIndices
        && triangles[t].index == None
        && triangles[t].material == None
    {
      var vs := seq(|json.vertices|, i requires 0 <= i < |json.vertices| =>
        Vec3(json.vertices[i].0, json.vertices[i].1, json.vertices[i].2));
      vertices := vs;
      textureCoords := seq(|json.textureCoords|, i requires 0 <= i < |json.textureCoords| =>
        Float2(json.textureCoords[i].0, json.textureCoords[i].1));
      vertexNormals := seq(|json.vertexNormals|, i requires 0 <= i < |json.vertexNormals| =>
        Vec3(json.vertexNormals[i].0, json.vertexNormals[i].1, json.vertexNormals[i].2));
      triangles := seq(|json.triangles|, t requires 0 <= t < |json.triangles| =>
        Triangle(Dereference(json.triangles[t].vertexIndices, vs),
                 json.triangles[t].vertexIndices,
                 json.triangles[t].textureIndices,
                 json.triangles[t].normalIndices,
                 None, None));
    }

    /** Rebuilds every triangle's vertex cache from the current vertices. */
    method UpdateTriangles()
      modifies this
      ensures Valid()
      ensures triangles == Recached(old(triangles), vertices)
      ensures unchanged(this`vertices) && unchanged(this`textureCoords) && unchanged(this`vertexNormals)
    {
      triangles := Recached(triangles, vertices);
    }

    /** Moves every vertex by (x, y, z); each argument defaults to 0. */
    method Translate(x: real := 0.0, y: real := 0.0, z: real := 0.0)
      modifies this
      ensures Valid()
      ensures vertices == Translated(old(vertices), Vec3(x, y, z))
      ensures triangles == Recached(old(triangles), vertices)
      ensures unchanged(this`textureCoords) && unchanged(this`vertexNormals)
    {
      vertices := Translated(vertices, Vec3(x, y, z));
      UpdateTriangles();
    }

    /** Scales every vertex component-wise; y defaults to x and z to y. */
    method Scale(x: real, y: real := x, z: real := y)
      modifies this
      ensures Valid()
      ensures vertices == Scaled(old(vertices), Vec3(x, y, z))
      ensures triangles == Recached(old(triangles), vertices)
      ensures unchanged(this`textureCoords) && unchanged(this`vertexNormals)
    {
      vertices := Scaled(vertices, Vec3(x, y, z));
      UpdateTriangles();
    }
  }

  /** What a caller sees: `translate()` with no arguments changes no vertex,
      and `scale(s)` scales all three axes by s. */
  method TranslateAndScaleDefaults(m: Model, s: real)
    modifies m
    ensures m.vertices == Scaled(old(m.vertices), Vec3(s, s, s))
    ensures m.Valid()
  {
    m.Translate();
    TranslateByZero(old(m.vertices));
    m.Scale(s);
  }
}
