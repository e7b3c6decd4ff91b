/** `parseObj` of src/lib/wavefront.ts: the older Wavefront OBJ parser,
    which accepts triangles only and resolves each corner's vertex as it
    reads the face. */
module Wavefront {
  import opened Wrappers
  import opened ObjText

  /** A face: per corner the vertex it names (`undefined` when there is no
      such vertex yet), its vertex index, and its texture and normal
      indices (`NaN`, here None, when absent or 0). */
  datatype Triangle = Triangle(
    vertices: seq<Option<Coord3>>,
    vertexIndices: seq<int>,
    textureIndices: seq<Option<int>>,
    normalIndices: seq<Option<int>>)

  datatype WavefrontModel = WavefrontModel(
    vertices: seq<Coord3>,
    textureCoords: seq<Coord2>,
    vertexNormals: seq<Coord3>,
    triangles: seq<Triangle>)

  /** The error thrown for a face that is not a triangle, with its number
      of elements. */
  datatype ParseError = FaceSize(elements: nat)

  const Empty := WavefrontModel([], [], [], [])

  /** `vertices[i]`: undefined outside the list. */
  function Lookup(vertices: seq<Coord3>, i: int): (r: Option<Coord3>)
    ensures r.Some? <==> 0 <= i < |vertices|
    ensures r.Some? ==> r.value == vertices[i]
  {
    if 0 <= i < |vertices| then Some(vertices[i]) else None
  }

  /** `x ? x - 1 : NaN` for part k of a `v/t/n` element. */
  function Attribute(parts: seq<int>, k: nat): (r: Option<int>)
    ensures r.Some? <==> k < |parts| && parts[k] != 0
    ensures r.Some? ==> r.value == parts[k] - 1
  {
    var x := At(parts, k);
    if x.Some? && x.value != 0 then Some(x.value - 1) else None
  }

  /** The triangle after pushing the corner of one element. */
  function AddCorner(tri: Triangle, vertices: seq<Coord3>, element: string, toIndex: string -> int): Triangle {
    var parts := Parts(element, toIndex);
    var vertex := parts[0];
    Triangle(tri.vertices + [Lookup(vertices, vertex - 1)],
             tri.vertexIndices + [vertex - 1],
             tri.textureIndices + [Attribute(parts, 1)],
             tri.normalIndices + [Attribute(parts, 2)])
  }

  /** The triangle built from the elements, given the vertices read so far. */
  function TriangleOf(vertices: seq<Coord3>, elements: seq<string>, toIndex: string -> int): (tri: Triangle)
    ensures |tri.vertices| == |tri.vertexIndices| == |tri.textureIndices| == |tri.normalIndices| == |elements|
    ensures forall i :: 0 <= i < |elements| ==>
      var parts := Parts(elements[i], toIndex);
      tri.vertexIndices[i] == parts[0] - 1 && tri.vertices[i] == Lookup(vertices, parts[0] - 1)
      && tri.textureIndices[i] == Attribute(parts, 1) && tri.normalIndices[i] == Attribute(parts, 2)
    decreases |elements|
  {
    if |elements| == 0 then Triangle([], [], [], [])
    else AddCorner(TriangleOf(vertices, elements[..|elements| - 1], toIndex), vertices, elements[|elements| - 1], toIndex)
  }

  lemma TriangleOfNext(vertices: seq<Coord3>, elements: seq<string>, j: nat, toIndex: string -> int)
    requires j < |elements|
    ensures TriangleOf(vertices, elements[..j + 1], toIndex)
      == AddCorner(TriangleOf(vertices, elements[..j], toIndex), vertices, elements[j], toIndex)
  {
    assert elements[..j + 1][..j] == elements[..j];
  }

  /** The words after the command of a line, or none for a blank line. */
  function Args(line: string): seq<string> {
    var words := Words(StripComment(line));
    if |words| == 0 then [] else words[1..]
  }

  predicate IsFace(line: string) {
    var words := Words(StripComment(line));
    |words| > 0 && words[0] == "f"
  }

  /** A face line the parser rejects. */
  predicate BadFace(line: string) {
    IsFace(line) && |Args(line)| != 3
  }

  /** The effect of one line of the file. */
  function Step(m: WavefrontModel, line: string, toNumber: string -> real, toIndex: string -> int): (r: Result<WavefrontModel, ParseError>)
    ensures r.Failure? <==> BadFace(line)
    ensures r.Failure? ==> r.error == FaceSize(|Args(line)|)
  {
    var words := Words(StripComment(line));
    if |words| == 0 then Success(m)
    else
      var cmd, args := words[0], words[1..];
      if cmd == "v" then Success(m.(vertices := m.vertices + [Coord3Of(args, toNumber)]))
      else if cmd == "vt" then Success(m.(textureCoords := m.textureCoords + [Coord2Of(args, toNumber)]))
      else if cmd == "vn" then Success(m.(vertexNormals := m.vertexNormals + [Coord3Of(args, toNumber)]))
      else if cmd == "f" then
        if |args| != 3 then Failure(FaceSize(|args|))
        else Success(m.(triangles := m.triangles + [TriangleOf(m.vertices, args, toIndex)]))
      else Success(m)
  }

  /** The outcome after the given lines: the first error stops the parse. */
  function Run(lines: seq<string>, toNumber: string -> real, toIndex: string -> int): (r: Result<WavefrontModel, ParseError>)
    ensures r.Success? ==> forall l :: 0 <= l < |lines| ==> !BadFace(lines[l])
    decreases |lines|
  {
    if |lines| == 0 then Success(Empty)
    else
      var before := Run(lines[..|lines| - 1], toNumber, toIndex);
      if before.Failure? then before else Step(before.value, lines[|lines| - 1], toNumber, toIndex)
  }

  /** What `parseObj(raw)` returns or throws. */
  function ParseObjSpec(raw: string, toNumber: string -> real, toIndex: string -> int): Result<WavefrontModel, ParseError> {
    Run(Split(raw, '\n'), toNumber, toIndex)
  }

  lemma RunNext(lines: seq<string>, l: nat, toNumber: string -> real, toIndex: string -> int)
    requires l < |lines|
    ensures var before := Run(lines[..l], toNumber, toIndex);
      Run(lines[..l + 1], toNumber, toIndex)
        == if before.Failure? then before else Step(before.value, lines[l], toNumber, toIndex)
  {
    assert lines[..l + 1][..l] == lines[..l];
  }

  // ---- properties -------------------------------------------------------

  /** A file without non-triangular faces parses. */
  lemma {:induction false} NoBadFaceSucceeds(lines: seq<string>, toNumber: string -> real, toIndex: string -> int)
    requires forall l :: 0 <= l < |lines| ==> !BadFace(lines[l])
    ensures Run(lines, toNumber, toIndex).Success?
    decreases |lines|
  {
    if |lines| > 0 {
      NoBadFaceSucceeds(lines[..|lines| - 1], toNumber, toIndex);
    }
  }

  /** A file fails with the element count of its first non-triangular face. */
  lemma {:induction false} FirstBadFaceFails(lines: seq<string>, l: nat, toNumber: string -> real, toIndex: string -> int)
    requires l < |lines| && BadFace(lines[l])
    requires forall j :: 0 <= j < l ==> !BadFace(lines[j])
    ensures Run(lines, toNumber, toIndex) == Failure(FaceSize(|Args(lines[l])|))
    decreases |lines|
  {
    if l == |lines| - 1 {
      NoBadFaceSucceeds(lines[..l], toNumber, toIndex);
    } else {
      FirstBadFaceFails(lines[..|lines| - 1], l, toNumber, toIndex);
    }
  }

  /** And a failed parse always comes from some non-triangular face. */
  lemma {:induction false} FailureHasBadFace(lines: seq<string>, toNumber: string -> real, toIndex: string -> int)
    requires Run(lines, toNumber, toIndex).Failure?
    ensures exists l :: 0 <= l < |lines| && BadFace(lines[l])
    decreases |lines|
  {
    var p := lines[..|lines| - 1];
    if Run(p, toNumber, toIndex).Failure? {
      FailureHasBadFace(p, toNumber, toIndex);
      var l :| 0 <= l < |p| && BadFace(p[l]);
      assert lines[l] == p[l];
    } else {
      assert BadFace(lines[|lines| - 1]);
    }
  }

  /** The number of face lines. */
  function FaceCount(lines: seq<string>): nat
    decreases |lines|
  {
    if |lines| == 0 then 0
    else FaceCount(lines[..|lines| - 1]) + if IsFace(lines[|lines| - 1]) then 1 else 0
  }

  /** A successful parse holds one triangle per face line, each with three
      corners. */
  lemma {:induction false} OneTrianglePerFace(lines: seq<string>, toNumber: string -> real, toIndex: string -> int)
    requires Run(lines, toNumber, toIndex).Success?
    ensures var m := Run(lines, toNumber, toIndex).value;
      |m.triangles| == FaceCount(lines)
      && forall t :: 0 <= t < |m.triangles| ==>
           |m.triangles[t].vertices| == 3 && |m.triangles[t].vertexIndices| == 3
           && |m.triangles[t].textureIndices| == 3 && |m.triangles[t].normalIndices| == 3
    decreases |lines|
  {
    if |lines| > 0 {
      OneTrianglePerFace(lines[..|lines| - 1], toNumber, toIndex);
    }
  }

  /** A face only sees the vertices declared before it: a forward reference
      resolves to undefined. */
  lemma ForwardReferenceUnresolved(m: WavefrontModel, line: string, i: nat, toNumber: string -> real, toIndex: string -> int)
    requires IsFace(line) && |Args(line)| == 3 && i < 3
    requires Parts(Args(line)[i], toIndex)[0] > |m.vertices|
    ensures var r := Step(m, line, toNumber, toIndex);
      r.Success? && r.value.triangles[|r.value.triangles| - 1].vertices[i] == None
  {
  }

  // ---- the parser ---------------------------------------------------------

  method BuildTriangle(vertices: seq<Coord3>, elements: seq<string>, toIndex: string -> int) returns (tri: Triangle)
    ensures tri == TriangleOf(vertices, elements, toIndex)
  {
    tri := Triangle([], [], [], []);
    var j := 0;
    while j < |elements|
      invariant 0 <= j <= |elements|
      invariant tri == TriangleOf(vertices, elements[..j], toIndex)
    {
      TriangleOfNext(vertices, elements, j, toIndex);
      var parts := Parts(elements[j], toIndex);
      var vertex := parts[0];
      tri := tri.(vertexIndices := tri.vertexIndices + [vertex - 1]);
      tri := tri.(vertices := tri.vertices + [Lookup(vertices, vertex - 1)]);
      tri := tri.(textureIndices := tri.textureIndices + [Attribute(parts, 1)]);
      tri := tri.(normalIndices := tri.normalIndices + [Attribute(parts, 2)]);
      j := j + 1;
    }
    assert elements[..j] == elements;
  }

  /** `parseObj(raw)`: the model, or the error it throws. */
  method ParseObj(raw: string, toNumber: string -> real, toIndex: string -> int) returns (r: Result<WavefrontModel, ParseError>)
    ensures r == ParseObjSpec(raw, toNumber, toIndex)
  {
    var vertices: seq<Coord3> := [];
    var textureCoords: seq<Coord2> := [];
    var vertexNormals: seq<Coord3> := [];
    var triangles: seq<Triangle> := [];

    var lines := Split(raw, '\n');
    var l := 0;
    while l < |lines|
      invariant 0 <= l <= |lines|
      invariant Run(lines[..l], toNumber, toIndex) == Success(WavefrontModel(vertices, textureCoords, vertexNormals, triangles))
    {
      RunNext(lines, l, toNumber, toIndex);
      var words := Words(StripComment(lines[l]));
      if |words| > 0 {
        var cmd, args := words[0], words[1..];
        if cmd == "v" {
          vertices := vertices + [Coord3Of(args, toNumber)];
        } else if cmd == "vt" {
          textureCoords := textureCoords + [Coord2Of(args, toNumber)];
        } else if cmd == "vn" {
          vertexNormals := vertexNormals + [Coord3Of(args, toNumber)];
        } else if cmd == "f" {
          if |args| != 3 {
            r := Failure(FaceSize(|args|));
            FailureSticks(lines, l + 1, toNumber, toIndex);
            return;
          }
          var tri := BuildTriangle(vertices, args, toIndex);
          triangles := triangles + [tri];
        }
      }
      l := l + 1;
    }
    assert lines[..l] == lines;
    r := Success(WavefrontModel(vertices, textureCoords, vertexNormals, triangles));
  }

  /** Once a prefix of the file fails, the whole file fails the same way. */
  lemma {:induction false} FailureSticks(lines: seq<string>, l: nat, toNumber: string -> real, toIndex: string -> int)
    requires l <= |lines| && Run(lines[..l], toNumber, toIndex).Failure?
    ensures Run(lines, toNumber, toIndex) == Run(lines[..l], toNumber, toIndex)
    decreases |lines| - l
  {
    if l == |lines| {
      assert lines[..l] == lines;
    } else {
      RunNext(lines, l, toNumber, toIndex);
      FailureSticks(lines, l + 1, toNumber, toIndex);
    }
  }

  /** One line only appends: the vertices and triangles before it are kept,
      and a face line adds exactly the triangle its elements make with the
      vertices read so far. */
  lemma StepAppends(m: WavefrontModel, line: string, toNumber: string -> real, toIndex: string -> int)
    requires Step(m, line, toNumber, toIndex).Success?
    ensures var r := Step(m, line, toNumber, toIndex).value;
      m.vertices <= r.vertices
      && r.triangles == m.triangles + (if IsFace(line) then [TriangleOf(m.vertices, Args(line), toIndex)] else [])
  {
  }

  /** Lines only append triangles: after a successful parse, the parse of
      the first l lines succeeded too, and its triangles are a prefix of
      the final ones, so the triangles follow the face lines in file order. */
  lemma {:induction false} TrianglesKeepFileOrder(lines: seq<string>, l: nat, toNumber: string -> real, toIndex: string -> int)
    requires l <= |lines| && Run(lines, toNumber, toIndex).Success?
    ensures Run(lines[..l], toNumber, toIndex).Success?
    ensures Run(lines[..l], toNumber, toIndex).value.triangles <= Run(lines, toNumber, toIndex).value.triangles
    decreases |lines| - l
  {
    if l == |lines| {
      assert lines[..l] == lines;
    } else {
      TrianglesKeepFileOrder(lines, l + 1, toNumber, toIndex);
      if Run(lines[..l], toNumber, toIndex).Failure? {
        FailureSticks(lines, l, toNumber, toIndex);
      }
      RunNext(lines, l, toNumber, toIndex);
      StepAppends(Run(lines[..l], toNumber, toIndex).value, lines[l], toNumber, toIndex);
    }
  }

  /** The triangle of face line l is `TriangleOf` its elements and the
      vertices read before it, at the position after the triangles of the
      earlier face lines. */
  lemma FaceLineTriangle(lines: seq<string>, l: nat, toNumber: string -> real, toIndex: string -> int)
    requires l < |lines| && Run(lines, toNumber, toIndex).Success? && IsFace(lines[l])
    ensures Run(lines[..l], toNumber, toIndex).Success?
    ensures var m := Run(lines[..l], toNumber, toIndex).value;
      var final := Run(lines, toNumber, toIndex).value;
      |m.triangles| < |final.triangles|
      && final.triangles[|m.triangles|] == TriangleOf(m.vertices, Args(lines[l]), toIndex)
  {
    TrianglesKeepFileOrder(lines, l, toNumber, toIndex);
    TrianglesKeepFileOrder(lines, l + 1, toNumber, toIndex);
    RunNext(lines, l, toNumber, toIndex);
    var m := Run(lines[..l], toNumber, toIndex).value;
    StepAppends(m, lines[l], toNumber, toIndex);
    var next := Run(lines[..l + 1], toNumber, toIndex).value.triangles;
    assert next[|m.triangles|] == TriangleOf(m.vertices, Args(lines[l]), toIndex);
  }
}
