/** `parseObj` of scripts/ObjModule.mjs: the current Wavefront OBJ parser,
    which fan-triangulates faces of any size. */
module ObjModule {
  import opened Wrappers
  import opened ObjText

  /** A `v` line: x, y, z (each `undefined` when missing) and w, 1 by default. */
  datatype ObjVertex = ObjVertex(x: Option<real>, y: Option<real>, z: Option<real>, w: real)

  datatype ObjTriangle = ObjTriangle(
    material: Option<string>,
    vertexIndices: seq<int>,
    textureIndices: seq<int>,
    normalIndices: seq<int>)

  /** What the parser returns. */
  datatype ObjData = ObjData(
    materialFile: Option<string>,
    vertices: seq<ObjVertex>,
    textureCoords: seq<Coord2>,
    vertexNormals: seq<Coord3>,
    triangles: seq<ObjTriangle>)

  /** The parser's variables between two lines: the output so far and the
      current material. */
  datatype ParseState = ParseState(out: ObjData, material: Option<string>)

  const Initial := ParseState(ObjData(None, [], [], [], []), None)

  /** `const [x, y, z, w] = args.map(Number)` with `w ?? 1`. */
  function VertexOf(args: seq<string>, toNumber: string -> real): (v: ObjVertex)
    ensures |args| == 3 ==> v == ObjVertex(Some(toNumber(args[0])), Some(toNumber(args[1])), Some(toNumber(args[2])), 1.0)
    ensures |args| >= 4 ==> v == ObjVertex(Some(toNumber(args[0])), Some(toNumber(args[1])), Some(toNumber(args[2])), toNumber(args[3]))
  {
    var nums := Numbers(args, toNumber);
    ObjVertex(At(nums, 0), At(nums, 1), At(nums, 2), At(nums, 3).GetOr(1.0))
  }

  // ---- faces -------------------------------------------------------------

  /** The three lists a face builds. */
  datatype FaceList = VertexList | TextureList | NormalList

  /** What `add` pushes onto a list for a group: vertex - 1 always;
      texture - 1 and normal - 1 only when that number is present and not 0. */
  function Entry(list: FaceList, group: string, toIndex: string -> int): (e: Option<int>)
    ensures list == VertexList ==> e == Some(Parts(group, toIndex)[0] - 1)
    ensures list == TextureList ==> var parts := Parts(group, toIndex);
      (e.Some? <==> |parts| >= 2 && parts[1] != 0) && (e.Some? ==> e.value == parts[1] - 1)
    ensures list == NormalList ==> var parts := Parts(group, toIndex);
      (e.Some? <==> |parts| >= 3 && parts[2] != 0) && (e.Some? ==> e.value == parts[2] - 1)
  {
    var parts := Parts(group, toIndex);
    match list
    case VertexList => Some(parts[0] - 1)
    case TextureList =>
      var t := At(parts, 1);
      if t.Some? && t.value != 0 then Some(t.value - 1) else None
    case NormalList =>
      var n := At(parts, 2);
      if n.Some? && n.value != 0 then Some(n.value - 1) else None
  }

  /** `list.at(offset)`: a negative offset counts from the end. */
  function ListAt(list: seq<int>, offset: int): (r: Option<int>)
    ensures r.Some? <==> -|list| <= offset < |list|
    ensures 0 <= offset < |list| ==> r == Some(list[offset])
    ensures -|list| <= offset < 0 ==> r == Some(list[|list| + offset])
  {
    if 0 <= offset < |list| then Some(list[offset])
    else if -|list| <= offset < 0 then Some(list[|list| + offset])
    else None
  }

  /** `reuse(offset)` on one list: pushes the entry at offset when there is one. */
  function Reuse(list: seq<int>, offset: int): seq<int> {
    var e := ListAt(list, offset);
    if e.Some? then list + [e.value] else list
  }

  /** What processing group number i (0-based) does to one list: from the
      fourth group on, the first entry and the one-but-last are reused; then
      the group's own entry, if any, is pushed. */
  function Grow(list: seq<int>, i: nat, e: Option<int>): seq<int> {
    var reused := if i >= 3 then Reuse(Reuse(list, 0), -2) else list;
    if e.Some? then reused + [e.value] else reused
  }

  /** One of the face's three lists after the given groups. */
  function ListAfter(groups: seq<string>, list: FaceList, toIndex: string -> int): seq<int>
    decreases |groups|
  {
    if |groups| == 0 then []
    else Grow(ListAfter(groups[..|groups| - 1], list, toIndex), |groups| - 1, Entry(list, groups[|groups| - 1], toIndex))
  }

  lemma ListAfterNext(groups: seq<string>, i: nat, list: FaceList, toIndex: string -> int)
    requires i < |groups|
    ensures ListAfter(groups[..i + 1], list, toIndex)
      == Grow(ListAfter(groups[..i], list, toIndex), i, Entry(list, groups[i], toIndex))
  {
    assert groups[..i + 1][..i] == groups[..i];
  }

  /** `list.slice(from, to)` for 0 <= from. */
  function Slice(list: seq<int>, from: nat, to: nat): (r: seq<int>)
    ensures from <= to <= |list| ==> r == list[from..to]
    ensures |r| <= 3 || to > from + 3
  {
    var a := if from < |list| then from else |list|;
    var b := if to < |list| then to else |list|;
    if a < b then list[a..b] else []
  }

  /** The triangle pushed for the entries at positions from to from + 2. */
  function ChunkOf(vi: seq<int>, ti: seq<int>, ni: seq<int>, material: Option<string>, from: nat): ObjTriangle {
    ObjTriangle(material, Slice(vi, from, from + 3), Slice(ti, from, from + 3), Slice(ni, from, from + 3))
  }

  /** `f(from), f(from + 3), ...` for the positions below n: a loop that
      steps by three. */
  function Chunked<T>(n: nat, from: nat, f: nat -> T): seq<T>
    decreases n - from
  {
    if from >= n then [] else [f(from)] + Chunked(n, from + 3, f)
  }

  /** The triangles pushed for a face whose lists are built: one per three
      vertex entries, each taking the same slice of every list. */
  function Chunks(vi: seq<int>, ti: seq<int>, ni: seq<int>, material: Option<string>, from: nat): seq<ObjTriangle> {
    Chunked(|vi|, from, i => ChunkOf(vi, ti, ni, material, i))
  }

  function FaceTriangles(groups: seq<string>, material: Option<string>, toIndex: string -> int): seq<ObjTriangle> {
    Chunks(ListAfter(groups, VertexList, toIndex),
           ListAfter(groups, TextureList, toIndex),
           ListAfter(groups, NormalList, toIndex),
           material, 0)
  }

  // ---- lines -------------------------------------------------------------

  /** The effect of one line of the file. */
  function Step(st: ParseState, line: string, toNumber: string -> real, toIndex: string -> int): (r: ParseState)
    ensures Extends(st, r)
  {
    var words := Words(StripComment(line));
    if |words| == 0 then st
    else
      var cmd, args := words[0], words[1..];
      if cmd == "v" then st.(out := st.out.(vertices := st.out.vertices + [VertexOf(args, toNumber)]))
      else if cmd == "vt" then st.(out := st.out.(textureCoords := st.out.textureCoords + [Coord2Of(args, toNumber)]))
      else if cmd == "vn" then st.(out := st.out.(vertexNormals := st.out.vertexNormals + [Coord3Of(args, toNumber)]))
      else if cmd == "mtllib" then st.(out := st.out.(materialFile := Some(Join(args, '#'))))
      else if cmd == "usemtl" then st.(material := Some(Join(args, '#')))
      else if cmd == "f" then st.(out := st.out.(triangles := st.out.triangles + FaceTriangles(args, st.material, toIndex)))
      else st
  }

  /** The state after the given lines, in order. Its material is always
      the one of the latest `usemtl`. */
  function Run(lines: seq<string>, toNumber: string -> real, toIndex: string -> int): (st: ParseState)
    ensures st.material == LastMaterial(lines)
    decreases |lines|
  {
    if |lines| == 0 then Initial
    else Step(Run(lines[..|lines| - 1], toNumber, toIndex), lines[|lines| - 1], toNumber, toIndex)
  }

  /** What `parseObj(raw)` returns. */
  function ParseObjSpec(raw: string, toNumber: string -> real, toIndex: string -> int): ObjData {
    Run(Split(raw, '\n'), toNumber, toIndex).out
  }

  lemma RunNext(lines: seq<string>, l: nat, toNumber: string -> real, toIndex: string -> int)
    requires l < |lines|
    ensures Run(lines[..l + 1], toNumber, toIndex) == Step(Run(lines[..l], toNumber, toIndex), lines[l], toNumber, toIndex)
  {
    assert lines[..l + 1][..l] == lines[..l];
  }

  // ---- properties -------------------------------------------------------

  /** Text from the first `#` on plays no part. */
  lemma CommentIgnored(st: ParseState, line: string, toNumber: string -> real, toIndex: string -> int)
    ensures Step(st, line, toNumber, toIndex) == Step(st, StripComment(line), toNumber, toIndex)
  {
    StripCommentIdempotent(line);
  }

  /** A line that is blank once its comment is removed changes nothing. */
  lemma BlankLineIgnored(st: ParseState, line: string, toNumber: string -> real, toIndex: string -> int)
    requires forall i :: 0 <= i < |StripComment(line)| ==> IsSpace(StripComment(line)[i])
    ensures Step(st, line, toNumber, toIndex) == st
  {
    NoWordsIffBlank(StripComment(line));
  }

  /** A line whose command is none of v, vt, vn, mtllib, usemtl, f changes nothing. */
  lemma UnknownCommandIgnored(st: ParseState, line: string, toNumber: string -> real, toIndex: string -> int)
    requires var words := Words(StripComment(line));
      |words| > 0 && words[0] !in ["v", "vt", "vn", "mtllib", "usemtl", "f"]
    ensures Step(st, line, toNumber, toIndex) == st
  {
  }

  /** The material named by the last `usemtl` line (names of several words
      joined with `#`), or none. */
  function LastMaterial(lines: seq<string>): Option<string>
    decreases |lines|
  {
    if |lines| == 0 then None
    else
      var words := Words(StripComment(lines[|lines| - 1]));
      if |words| > 0 && words[0] == "usemtl" then Some(Join(words[1..], '#'))
      else LastMaterial(lines[..|lines| - 1])
  }

  /** Every triangle of a face carries the material it was given. */
  lemma ChunksCarryMaterial(vi: seq<int>, ti: seq<int>, ni: seq<int>, material: Option<string>, from: nat)
    ensures forall k :: 0 <= k < |Chunks(vi, ti, ni, material, from)| ==> Chunks(vi, ti, ni, material, from)[k].material == material
  {
    forall k | 0 <= k < |Chunks(vi, ti, ni, material, from)|
      ensures Chunks(vi, ti, ni, material, from)[k].material == material
    {
      ChunkedIndex(|vi|, from, i => ChunkOf(vi, ti, ni, material, i), k);
    }
  }

  /** So every triangle a face line adds carries the material of the latest
      `usemtl` before it. */
  lemma FaceTrianglesCarryLastMaterial(lines: seq<string>, l: nat, toNumber: string -> real, toIndex: string -> int)
    requires l < |lines|
    ensures var before := Run(lines[..l], toNumber, toIndex).out.triangles;
      var after := Run(lines[..l + 1], toNumber, toIndex).out.triangles;
      forall k :: |before| <= k < |after| ==> after[k].material == LastMaterial(lines[..l])
  {
    RunNext(lines, l, toNumber, toIndex);
    var st := Run(lines[..l], toNumber, toIndex);
    var words := Words(StripComment(lines[l]));
    if |words| > 0 && words[0] == "f" {
      var g := words[1..];
      ChunksCarryMaterial(ListAfter(g, VertexList, toIndex), ListAfter(g, TextureList, toIndex),
                          ListAfter(g, NormalList, toIndex), st.material, 0);
    }
  }

  /** The output lists of `st` are prefixes of those of `st'`. */
  predicate Extends(st: ParseState, st': ParseState) {
    && st.out.vertices <= st'.out.vertices && st.out.textureCoords <= st'.out.textureCoords
    && st.out.vertexNormals <= st'.out.vertexNormals && st.out.triangles <= st'.out.triangles
  }

  /** Lines only ever append to the output lists: what the first lines
      produced is a prefix of what the whole file produces. */
  lemma {:induction false} OutputKeepsFileOrder(lines: seq<string>, l: nat, toNumber: string -> real, toIndex: string -> int)
    requires l <= |lines|
    ensures var a, b := Run(lines[..l], toNumber, toIndex).out, Run(lines, toNumber, toIndex).out;
      a.vertices <= b.vertices && a.textureCoords <= b.textureCoords
      && a.vertexNormals <= b.vertexNormals && a.triangles <= b.triangles
    decreases |lines| - l
  {
    if l == |lines| {
      assert lines[..l] == lines;
    } else {
      OutputKeepsFileOrder(lines, l + 1, toNumber, toIndex);
      RunNext(lines, l, toNumber, toIndex);
    }
  }

  /** The reference fan around the first of the values vs: triangle k is
      (vs[0], vs[k + 1], vs[k + 2]), one triangle per value after the second. */
  function Fan(vs: seq<int>): (r: seq<int>)
    requires |vs| >= 3
    ensures |r| == 3 * (|vs| - 2)
    decreases |vs|
  {
    if |vs| == 3 then vs
    else Fan(vs[..|vs| - 1]) + [vs[0], vs[|vs| - 2], vs[|vs| - 1]]
  }

  /** Triangle k of the fan is (vs[0], vs[k + 1], vs[k + 2]). */
  lemma {:induction false} FanAt(vs: seq<int>, k: nat)
    requires |vs| >= 3 && k < |vs| - 2
    ensures Fan(vs)[3 * k..3 * k + 3] == [vs[0], vs[k + 1], vs[k + 2]]
    decreases |vs|
  {
    if k < |vs| - 3 {
      FanAt(vs[..|vs| - 1], k);
    }
  }

  /** The entries the groups push onto one list. */
  function Entries(groups: seq<string>, list: FaceList, toIndex: string -> int): (es: seq<Option<int>>)
    ensures |es| == |groups|
  {
    seq(|groups|, i requires 0 <= i < |groups| => Entry(list, groups[i], toIndex))
  }

  function Values(es: seq<Option<int>>): (vs: seq<int>)
    requires forall i :: 0 <= i < |es| ==> es[i].Some?
    ensures |vs| == |es|
  {
    seq(|es|, i requires 0 <= i < |es| && es[i].Some? => es[i].value)
  }

  /** A list built from its entries alone, group after group. */
  function Build(es: seq<Option<int>>): seq<int>
    decreases |es|
  {
    if |es| == 0 then [] else Grow(Build(es[..|es| - 1]), |es| - 1, es[|es| - 1])
  }

  lemma {:induction false} ListAfterIsBuild(groups: seq<string>, list: FaceList, toIndex: string -> int)
    ensures ListAfter(groups, list, toIndex) == Build(Entries(groups, list, toIndex))
    decreases |groups|
  {
    if |groups| > 0 {
      var p := groups[..|groups| - 1];
      ListAfterIsBuild(p, list, toIndex);
      assert Entries(p, list, toIndex) == Entries(groups, list, toIndex)[..|groups| - 1];
    }
  }

  lemma BuildThree(es: seq<Option<int>>)
    requires |es| == 3 && es[0].Some? && es[1].Some? && es[2].Some?
    ensures Build(es) == [es[0].value, es[1].value, es[2].value]
  {
    assert es[..2][..1] == es[..1];
    assert es[..1][..0] == [];
    assert Build(es[..1]) == [es[0].value];
    assert Build(es[..2]) == [es[0].value, es[1].value];
  }

  /** From the fourth group on, a list with entries gets its first and its
      last entry again before the new one. */
  lemma GrowReusesEnds(f: seq<int>, i: nat, e: int)
    requires |f| >= 1 && i >= 3
    ensures Grow(f, i, Some(e)) == f + [f[0], f[|f| - 1], e]
  {
  }

  lemma FanEnds(vs: seq<int>)
    requires |vs| >= 3
    ensures Fan(vs)[0] == vs[0] && Fan(vs)[|Fan(vs)| - 1] == vs[|vs| - 1]
  {
    var f := Fan(vs);
    FanAt(vs, 0);
    FanAt(vs, |vs| - 3);
    assert f[0] == f[0..3][0];
    assert f[|f| - 1] == f[3 * (|vs| - 3)..3 * (|vs| - 3) + 3][2];
  }

  /** When every entry is present, `add` and `reuse` build exactly the fan
      of the entries. */
  lemma BuildLast(es: seq<Option<int>>)
    requires |es| > 0
    ensures Build(es) == Grow(Build(es[..|es| - 1]), |es| - 1, es[|es| - 1])
  {
  }

  lemma FanLast(vs: seq<int>)
    requires |vs| > 3
    ensures Fan(vs) == Fan(vs[..|vs| - 1]) + [vs[..|vs| - 1][0], vs[..|vs| - 1][|vs| - 2], vs[|vs| - 1]]
  {
  }

  /** One more group keeps a list built from entries equal to the fan. */
  lemma BuildFanStep(es: seq<Option<int>>, vs: seq<int>)
    requires |es| == |vs| > 3 && es[|es| - 1] == Some(vs[|vs| - 1])
    requires Build(es[..|es| - 1]) == Fan(vs[..|vs| - 1])
    ensures Build(es) == Fan(vs)
  {
    var n := |es|;
    var q := vs[..n - 1];
    var f := Fan(q);
    FanEnds(q);
    calc {
      Build(es);
      { BuildLast(es); }
      Grow(f, n - 1, Some(vs[n - 1]));
      { GrowReusesEnds(f, n - 1, vs[n - 1]); }
      f + [q[0], q[n - 2], vs[n - 1]];
      { FanLast(vs); }
      Fan(vs);
    }
  }

  lemma {:induction false} BuildIsFan(es: seq<Option<int>>, vs: seq<int>)
    requires |es| == |vs| >= 3
    requires forall i :: 0 <= i < |es| ==> es[i] == Some(vs[i])
    ensures Build(es) == Fan(vs)
    decreases |es|
  {
    var n := |es|;
    if n == 3 {
      BuildThree(es);
      assert vs == [vs[0], vs[1], vs[2]];
    } else {
      var p, q := es[..n - 1], vs[..n - 1];
      assert forall i :: 0 <= i < |p| ==> p[i] == Some(q[i]);
      BuildIsFan(p, q);
      assert es[n - 1] == Some(vs[n - 1]);
      BuildFanStep(es, vs);
    }
  }

  /** When every group has an entry for a list, `add` and `reuse` build
      exactly the fan of those entries. */
  lemma ListAfterIsFan(groups: seq<string>, list: FaceList, toIndex: string -> int)
    requires |groups| >= 3
    requires forall i :: 0 <= i < |groups| ==> Entry(list, groups[i], toIndex).Some?
    ensures ListAfter(groups, list, toIndex) == Fan(Values(Entries(groups, list, toIndex)))
  {
    ListAfterIsBuild(groups, list, toIndex);
    var es := Entries(groups, list, toIndex);
    BuildIsFan(es, Values(es));
  }

  /** When no group has an entry for a list, the list stays empty. */
  lemma {:induction false} ListAfterEmpty(groups: seq<string>, list: FaceList, toIndex: string -> int)
    requires forall i :: 0 <= i < |groups| ==> Entry(list, groups[i], toIndex).None?
    ensures ListAfter(groups, list, toIndex) == []
    decreases |groups|
  {
    if |groups| > 0 {
      ListAfterEmpty(groups[..|groups| - 1], list, toIndex);
    }
  }

  lemma {:induction false} ChunkedCount<T>(n: nat, from: nat, f: nat -> T, c: nat)
    requires n == from + 3 * c
    ensures |Chunked(n, from, f)| == c
    decreases c
  {
    if c > 0 {
      ChunkedCount(n, from + 3, f, c - 1);
    }
  }

  lemma {:induction false} ChunkedAt<T>(n: nat, from: nat, f: nat -> T, k: nat)
    requires from + 3 * k < n
    ensures k < |Chunked(n, from, f)| && Chunked(n, from, f)[k] == f(from + 3 * k)
    decreases k
  {
    if k > 0 {
      ChunkedAt(n, from + 3, f, k - 1);
      assert (from + 3) + 3 * (k - 1) == from + 3 * k;
    }
  }

  /** Element k of a chunked sequence is f at position from + 3k. */
  lemma {:induction false} ChunkedIndex<T>(n: nat, from: nat, f: nat -> T, k: nat)
    requires k < |Chunked(n, from, f)|
    ensures from + 3 * k < n && Chunked(n, from, f)[k] == f(from + 3 * k)
    decreases k
  {
    if k > 0 {
      ChunkedIndex(n, from + 3, f, k - 1);
      assert (from + 3) + 3 * (k - 1) == from + 3 * k;
    }
  }

  /** A face whose vertex list holds 3c entries gives c triangles. */
  lemma ChunksCount(vi: seq<int>, ti: seq<int>, ni: seq<int>, material: Option<string>, from: nat, c: nat)
    requires |vi| == from + 3 * c
    ensures |Chunks(vi, ti, ni, material, from)| == c
  {
    ChunkedCount(|vi|, from, i => ChunkOf(vi, ti, ni, material, i), c);
  }

  /** Triangle k of a face holds positions 3k to 3k + 2 of every list. */
  lemma ChunkAt(vi: seq<int>, ti: seq<int>, ni: seq<int>, material: Option<string>, from: nat, k: nat)
    requires from + 3 * k < |vi|
    ensures k < |Chunks(vi, ti, ni, material, from)|
    ensures Chunks(vi, ti, ni, material, from)[k] == ChunkOf(vi, ti, ni, material, from + 3 * k)
  {
    var f := i => ChunkOf(vi, ti, ni, material, i);
    assert Chunks(vi, ti, ni, material, from) == Chunked(|vi|, from, f);
    ChunkedAt(|vi|, from, f, k);
  }

  /** The vertex number of a group (before the -1). */
  function VertexNumber(group: string, toIndex: string -> int): int {
    Parts(group, toIndex)[0]
  }

  /** The vertex entries of a face are its vertex numbers minus one. */
  lemma VertexValues(groups: seq<string>, toIndex: string -> int, i: nat)
    requires i < |groups|
    ensures Values(Entries(groups, VertexList, toIndex))[i] == VertexNumber(groups[i], toIndex) - 1
  {
  }

  /** Triangle k of a face is triangle k of the fan over its vertex entries. */
  lemma FaceTriangleIsFanTriangle(groups: seq<string>, material: Option<string>, toIndex: string -> int, k: nat)
    requires |groups| >= 3 && k < |groups| - 2
    ensures var ts := FaceTriangles(groups, material, toIndex);
      var vs := Values(Entries(groups, VertexList, toIndex));
      k < |ts| && ts[k].material == material && ts[k].vertexIndices == [vs[0], vs[k + 1], vs[k + 2]]
  {
    var vi := ListAfter(groups, VertexList, toIndex);
    var ti, ni := ListAfter(groups, TextureList, toIndex), ListAfter(groups, NormalList, toIndex);
    ListAfterIsFan(groups, VertexList, toIndex);
    var vs := Values(Entries(groups, VertexList, toIndex));
    assert |vs| == |groups|;
    FaceChunkAt(groups, material, toIndex, k);
    var c := ChunkOf(vi, ti, ni, material, 3 * k);
    assert c.vertexIndices == vi[3 * k..3 * k + 3];
    FanAt(vs, k);
  }

  lemma FaceTriangleAt(groups: seq<string>, material: Option<string>, toIndex: string -> int, k: nat)
    requires |groups| >= 3 && k < |groups| - 2
    ensures var ts := FaceTriangles(groups, material, toIndex);
      k < |ts| && ts[k].material == material &&
      ts[k].vertexIndices == [VertexNumber(groups[0], toIndex) - 1,
                              VertexNumber(groups[k + 1], toIndex) - 1,
                              VertexNumber(groups[k + 2], toIndex) - 1]
  {
    FaceTriangleIsFanTriangle(groups, material, toIndex, k);
    VertexValues(groups, toIndex, 0);
    VertexValues(groups, toIndex, k + 1);
    VertexValues(groups, toIndex, k + 2);
  }

  /** A face of n >= 3 groups becomes n - 2 triangles fanned around its
      first vertex: triangle k has vertex indices g0 - 1, g(k+1) - 1, g(k+2) - 1. */
  lemma FaceIsFan(groups: seq<string>, material: Option<string>, toIndex: string -> int)
    requires |groups| >= 3
    ensures var ts := FaceTriangles(groups, material, toIndex);
      |ts| == |groups| - 2 &&
      forall k :: 0 <= k < |ts| ==>
        ts[k].material == material &&
        ts[k].vertexIndices == [VertexNumber(groups[0], toIndex) - 1,
                                VertexNumber(groups[k + 1], toIndex) - 1,
                                VertexNumber(groups[k + 2], toIndex) - 1]
  {
    FaceTriangleCount(groups, material, toIndex);
    forall k | 0 <= k < |groups| - 2 {
      FaceTriangleAt(groups, material, toIndex, k);
    }
  }

  /** Triangle k of a face is the chunk of its lists at position 3k. */
  lemma FaceChunkAt(groups: seq<string>, material: Option<string>, toIndex: string -> int, k: nat)
    requires 3 * k < |ListAfter(groups, VertexList, toIndex)|
    ensures var vi := ListAfter(groups, VertexList, toIndex);
      var ti, ni := ListAfter(groups, TextureList, toIndex), ListAfter(groups, NormalList, toIndex);
      k < |FaceTriangles(groups, material, toIndex)| &&
      FaceTriangles(groups, material, toIndex)[k] == ChunkOf(vi, ti, ni, material, 3 * k)
  {
    var vi := ListAfter(groups, VertexList, toIndex);
    var ti, ni := ListAfter(groups, TextureList, toIndex), ListAfter(groups, NormalList, toIndex);
    ChunkAt(vi, ti, ni, material, 0, k);
  }

  /** The count of a face's triangles. */
  lemma FaceTriangleCount(groups: seq<string>, material: Option<string>, toIndex: string -> int)
    requires |groups| >= 3
    ensures |FaceTriangles(groups, material, toIndex)| == |groups| - 2
  {
    var vi := ListAfter(groups, VertexList, toIndex);
    var ti, ni := ListAfter(groups, TextureList, toIndex), ListAfter(groups, NormalList, toIndex);
    ListAfterIsFan(groups, VertexList, toIndex);
    ChunksCount(vi, ti, ni, material, 0, |groups| - 2);
  }

  /** Triangle k's texture indices are triangle k of the fan over the
      texture entries. */
  lemma FaceTextureAt(groups: seq<string>, material: Option<string>, toIndex: string -> int, k: nat)
    requires |groups| >= 3 && k < |groups| - 2
    requires forall i :: 0 <= i < |groups| ==> Entry(TextureList, groups[i], toIndex).Some?
    ensures var ts := FaceTriangles(groups, material, toIndex);
      var vs := Values(Entries(groups, TextureList, toIndex));
      k < |ts| && ts[k].textureIndices == [vs[0], vs[k + 1], vs[k + 2]]
  {
    var vi := ListAfter(groups, VertexList, toIndex);
    var ti, ni := ListAfter(groups, TextureList, toIndex), ListAfter(groups, NormalList, toIndex);
    ListAfterIsFan(groups, VertexList, toIndex);
    ListAfterIsFan(groups, TextureList, toIndex);
    var vs := Values(Entries(groups, TextureList, toIndex));
    assert |vs| == |groups|;
    assert ti == Fan(vs) && |ti| == 3 * (|groups| - 2);
    FaceChunkAt(groups, material, toIndex, k);
    var c := ChunkOf(vi, ti, ni, material, 3 * k);
    assert 3 * k + 3 <= |ti|;
    assert c.textureIndices == ti[3 * k..3 * k + 3];
    FanAt(vs, k);
  }

  /** When every group of a face has a non-zero texture number, the
      texture indices follow the same fan. */
  lemma FaceTexturesAreFan(groups: seq<string>, material: Option<string>, toIndex: string -> int)
    requires |groups| >= 3
    requires forall i :: 0 <= i < |groups| ==> Entry(TextureList, groups[i], toIndex).Some?
    ensures var ts := FaceTriangles(groups, material, toIndex);
      var vs := Values(Entries(groups, TextureList, toIndex));
      |ts| == |groups| - 2 &&
      forall k :: 0 <= k < |ts| ==> ts[k].textureIndices == [vs[0], vs[k + 1], vs[k + 2]]
  {
    FaceTriangleCount(groups, material, toIndex);
    forall k | 0 <= k < |groups| - 2 {
      FaceTextureAt(groups, material, toIndex, k);
    }
  }

  /** Triangle k's normal indices are triangle k of the fan over the
      normal entries. */
  lemma FaceNormalAt(groups: seq<string>, material: Option<string>, toIndex: string -> int, k: nat)
    requires |groups| >= 3 && k < |groups| - 2
    requires forall i :: 0 <= i < |groups| ==> Entry(NormalList, groups[i], toIndex).Some?
    ensures var ts := FaceTriangles(groups, material, toIndex);
      var vs := Values(Entries(groups, NormalList, toIndex));
      k < |ts| && ts[k].normalIndices == [vs[0], vs[k + 1], vs[k + 2]]
  {
    var vi := ListAfter(groups, VertexList, toIndex);
    var ti, ni := ListAfter(groups, TextureList, toIndex), ListAfter(groups, NormalList, toIndex);
    ListAfterIsFan(groups, VertexList, toIndex);
    ListAfterIsFan(groups, NormalList, toIndex);
    var vs := Values(Entries(groups, NormalList, toIndex));
    assert |vs| == |groups|;
    assert ni == Fan(vs) && |ni| == 3 * (|groups| - 2);
    FaceChunkAt(groups, material, toIndex, k);
    var c := ChunkOf(vi, ti, ni, material, 3 * k);
    assert 3 * k + 3 <= |ni|;
    assert c.normalIndices == ni[3 * k..3 * k + 3];
    FanAt(vs, k);
  }

  /** When every group of a face has a non-zero normal number, the normal
      indices follow the same fan. */
  lemma FaceNormalsAreFan(groups: seq<string>, material: Option<string>, toIndex: string -> int)
    requires |groups| >= 3
    requires forall i :: 0 <= i < |groups| ==> Entry(NormalList, groups[i], toIndex).Some?
    ensures var ts := FaceTriangles(groups, material, toIndex);
      var vs := Values(Entries(groups, NormalList, toIndex));
      |ts| == |groups| - 2 &&
      forall k :: 0 <= k < |ts| ==> ts[k].normalIndices == [vs[0], vs[k + 1], vs[k + 2]]
  {
    FaceTriangleCount(groups, material, toIndex);
    forall k | 0 <= k < |groups| - 2 {
      FaceNormalAt(groups, material, toIndex, k);
    }
  }

  /** Elements written `v//n`: `Number("")` is 0, so the empty texture
      number is skipped like an absent one. Such a face gives triangles
      with no texture indices and the normals fanned like the vertices. */
  lemma EmptyTextureNumberSkipped(groups: seq<string>, material: Option<string>, toIndex: string -> int)
    requires toIndex("") == 0
    requires |groups| >= 3
    requires forall i :: 0 <= i < |groups| ==>
      |Split(groups[i], '/')| == 3 && Split(groups[i], '/')[1] == "" && toIndex(Split(groups[i], '/')[2]) != 0
    ensures var ts := FaceTriangles(groups, material, toIndex);
      var ns := Values(Entries(groups, NormalList, toIndex));
      |ts| == |groups| - 2 &&
      forall k :: 0 <= k < |ts| ==> ts[k].textureIndices == [] && ts[k].normalIndices == [ns[0], ns[k + 1], ns[k + 2]]
  {
    forall i | 0 <= i < |groups|
      ensures Entry(TextureList, groups[i], toIndex).None? && Entry(NormalList, groups[i], toIndex).Some?
    {
      var parts := Parts(groups[i], toIndex);
      assert parts[1] == toIndex(Split(groups[i], '/')[1]) == 0;
      assert parts[2] == toIndex(Split(groups[i], '/')[2]);
    }
    ListAfterEmpty(groups, TextureList, toIndex);
    ListAfterIsFan(groups, VertexList, toIndex);
    FaceNormalsAreFan(groups, material, toIndex);
    var vi, ni := ListAfter(groups, VertexList, toIndex), ListAfter(groups, NormalList, toIndex);
    forall k | 0 <= k < |groups| - 2
      ensures FaceTriangles(groups, material, toIndex)[k].textureIndices == []
    {
      FaceChunkAt(groups, material, toIndex, k);
      assert ChunkOf(vi, [], ni, material, 3 * k).textureIndices == [];
    }
  }

  /** A face whose groups carry no texture and no normal numbers gives
      triangles with empty texture and normal index lists. */
  lemma FaceWithoutAttributes(groups: seq<string>, material: Option<string>, toIndex: string -> int)
    requires forall i :: 0 <= i < |groups| ==> |Parts(groups[i], toIndex)| == 1
    ensures var ts := FaceTriangles(groups, material, toIndex);
      forall k :: 0 <= k < |ts| ==> ts[k].textureIndices == [] && ts[k].normalIndices == []
  {
    ListAfterEmpty(groups, TextureList, toIndex);
    ListAfterEmpty(groups, NormalList, toIndex);
    var vi := ListAfter(groups, VertexList, toIndex);
    EmptyListsStayEmpty(vi, material, 0);
  }

  lemma EmptyListsStayEmpty(vi: seq<int>, material: Option<string>, from: nat)
    ensures forall k :: 0 <= k < |Chunks(vi, [], [], material, from)| ==>
      Chunks(vi, [], [], material, from)[k].textureIndices == [] && Chunks(vi, [], [], material, from)[k].normalIndices == []
  {
    forall k | 0 <= k < |Chunks(vi, [], [], material, from)|
      ensures Chunks(vi, [], [], material, from)[k].textureIndices == []
      ensures Chunks(vi, [], [], material, from)[k].normalIndices == []
    {
      ChunkedIndex(|vi|, from, i => ChunkOf(vi, [], [], material, i), k);
    }
  }

  // ---- the parser ----------------------------------------------------------

  /** `reuse(offset)`: pushes the vertex entry at offset, which the group
      loop only asks for once it exists, and the texture and normal entries
      at offset when there are any. */
  method ReuseEntries(vi: seq<int>, ti: seq<int>, ni: seq<int>, offset: int)
    returns (vi': seq<int>, ti': seq<int>, ni': seq<int>)
    requires -|vi| <= offset < |vi|
    ensures vi' == vi + [ListAt(vi, offset).value]
    ensures vi' == Reuse(vi, offset) && ti' == Reuse(ti, offset) && ni' == Reuse(ni, offset)
  {
    var vertex, texture, normal := ListAt(vi, offset), ListAt(ti, offset), ListAt(ni, offset);
    vi', ti', ni' := vi + [vertex.value], ti, ni;
    if texture.Some? { ti' := ti' + [texture.value]; }
    if normal.Some? { ni' := ni' + [normal.value]; }
  }

  /** `add(vertex, texture, normal)` for one group. */
  method AddEntries(vi: seq<int>, ti: seq<int>, ni: seq<int>, group: string, toIndex: string -> int)
    returns (vi': seq<int>, ti': seq<int>, ni': seq<int>)
    ensures vi' == vi + [Entry(VertexList, group, toIndex).value]
    ensures ti' == (var e := Entry(TextureList, group, toIndex); if e.Some? then ti + [e.value] else ti)
    ensures ni' == (var e := Entry(NormalList, group, toIndex); if e.Some? then ni + [e.value] else ni)
  {
    var parts := Parts(group, toIndex);
    var vertex, texture, normal := parts[0], At(parts, 1), At(parts, 2);
    vi', ti', ni' := vi + [vertex - 1], ti, ni;
    if texture.Some? && texture.value != 0 { ti' := ti' + [texture.value - 1]; }
    if normal.Some? && normal.value != 0 { ni' := ni' + [normal.value - 1]; }
  }

  /** The body of the group loop for group number i. */
  method GroupEntries(vi: seq<int>, ti: seq<int>, ni: seq<int>, i: nat, group: string, toIndex: string -> int)
    returns (vi': seq<int>, ti': seq<int>, ni': seq<int>)
    requires i >= 3 ==> |vi| >= 2
    ensures vi' == Grow(vi, i, Entry(VertexList, group, toIndex))
    ensures ti' == Grow(ti, i, Entry(TextureList, group, toIndex))
    ensures ni' == Grow(ni, i, Entry(NormalList, group, toIndex))
  {
    vi', ti', ni' := vi, ti, ni;
    if i >= 3 {
      vi', ti', ni' := ReuseEntries(vi', ti', ni', 0);
      vi', ti', ni' := ReuseEntries(vi', ti', ni', -2);
    }
    vi', ti', ni' := AddEntries(vi', ti', ni', group, toIndex);
  }

  /** Builds a face's three lists group by group with `reuse` and `add`. */
  method BuildFace(groups: seq<string>, toIndex: string -> int)
    returns (vertexIndices: seq<int>, textureIndices: seq<int>, normalIndices: seq<int>)
    ensures vertexIndices == ListAfter(groups, VertexList, toIndex)
    ensures textureIndices == ListAfter(groups, TextureList, toIndex)
    ensures normalIndices == ListAfter(groups, NormalList, toIndex)
  {
    vertexIndices, textureIndices, normalIndices := [], [], [];
    var i := 0;
    while i < |groups|
      invariant 0 <= i <= |groups|
      invariant vertexIndices == ListAfter(groups[..i], VertexList, toIndex)
      invariant textureIndices == ListAfter(groups[..i], TextureList, toIndex)
      invariant normalIndices == ListAfter(groups[..i], NormalList, toIndex)
      invariant |vertexIndices| >= i
    {
      vertexIndices, textureIndices, normalIndices := GroupEntries(vertexIndices, textureIndices, normalIndices, i, groups[i], toIndex);
      ListAfterNext(groups, i, VertexList, toIndex);
      ListAfterNext(groups, i, TextureList, toIndex);
      ListAfterNext(groups, i, NormalList, toIndex);
      i := i + 1;
    }
    assert groups[..i] == groups;
  }

  /** Pushes one triangle per three vertex entries of a built face. */
  method PushTriangles(triangles: seq<ObjTriangle>, vi: seq<int>, ti: seq<int>, ni: seq<int>, material: Option<string>)
    returns (triangles': seq<ObjTriangle>)
    ensures triangles' == triangles + Chunks(vi, ti, ni, material, 0)
  {
    triangles' := triangles;
    var i := 0;
    while i < |vi|
      invariant triangles' + Chunks(vi, ti, ni, material, i) == triangles + Chunks(vi, ti, ni, material, 0)
      decreases |vi| - i
    {
      triangles' := triangles' + [ObjTriangle(material, Slice(vi, i, i + 3), Slice(ti, i, i + 3), Slice(ni, i, i + 3))];
      i := i + 3;
    }
  }

  /** Parses OBJ text line by line. `toNumber` is JavaScript's `Number` on
      coordinate tokens and `toIndex` on the numbers of a face group. */
  method ParseObj(raw: string, toNumber: string -> real, toIndex: string -> int) returns (r: ObjData)
    ensures r == ParseObjSpec(raw, toNumber, toIndex)
  {
    var vertices: seq<ObjVertex> := [];
    var textureCoords: seq<Coord2> := [];
    var vertexNormals: seq<Coord3> := [];
    var triangles: seq<ObjTriangle> := [];
    var materialFile: Option<string> := None;
    var material: Option<string> := None;

    var lines := Split(raw, '\n');
    var l := 0;
    while l < |lines|
      invariant 0 <= l <= |lines|
      invariant Run(lines[..l], toNumber, toIndex)
        == ParseState(ObjData(materialFile, vertices, textureCoords, vertexNormals, triangles), material)
    {
      RunNext(lines, l, toNumber, toIndex);
      var words := Words(StripComment(lines[l]));
      if |words| > 0 {
        var cmd, args := words[0], words[1..];
        if cmd == "v" {
          vertices := vertices + [VertexOf(args, toNumber)];
        } else if cmd == "vt" {
          textureCoords := textureCoords + [Coord2Of(args, toNumber)];
        } else if cmd == "vn" {
          vertexNormals := vertexNormals + [Coord3Of(args, toNumber)];
        } else if cmd == "mtllib" {
          materialFile := Some(Join(args, '#'));
        } else if cmd == "usemtl" {
          material := Some(Join(args, '#'));
        } else if cmd == "f" {
          var vi, ti, ni := BuildFace(args, toIndex);
          triangles := PushTriangles(triangles, vi, ti, ni, material);
        }
      }
      l := l + 1;
    }
    assert lines[..l] == lines;
    r := ObjData(materialFile, vertices, textureCoords, vertexNormals, triangles);
  }
}
