/** The rasterisation skeleton of src/lib/Scene.ts: for every model, for
    every triangle, project the corners, skip the triangle when a corner is
    not in front of the camera, scan the bounding box clamped to the target
    and plot each pixel that is inside the triangle and that the target's
    depth test lets through.

    The target's `depthTest` and `plotAtDepth`, the models' transforms and
    shaders, the inside test with its weights and the depth interpolation
    are outside this model: they enter as the functions of `Stages` and
    the `rejects` decision of `DepthTarget`. */
module Scenes {
  import opened Wrappers
  import opened Vectors
  import opened Clamping
  import opened Models
  import RenderTargets

  // ---- the pure parts ----------------------------------------------------

  /** `renderTarget.size.div(2)`: the point half way across and down. */
  function Centre(size: Float2): (c: Float2)
    ensures c.Add(c) == size
  {
    Float2(size.x / 2.0, size.y / 2.0)
  }

  /** `vertexToScreen`: the screen point is the centre moved by the
      projected pixel offset, and the third component is the view-space
      depth, unchanged. */
  function VertexToScreen(centre: Float2, pixelOffset: Float2, view: Vec3): (s: Vec3)
    ensures s.z == view.z
    ensures XY(s).Sub(centre) == pixelOffset
  {
    var screen := centre.Add(pixelOffset);
    Vec3(screen.x, screen.y, view.z)
  }

  /** `v.xy`: the first two components. */
  function XY(v: Vec3): (p: Float2)
    ensures p.x == v.x && p.y == v.y
  {
    Float2(v.x, v.y)
  }

  /** `Math.ceil`. */
  function Ceil(r: real): (n: int)
    ensures r <= n as real < r + 1.0
  {
    -((-r).Floor)
  }

  /** `Math.min` of three. */
  function Min3(a: real, b: real, c: real): (m: real)
    ensures m <= a && m <= b && m <= c
    ensures m == a || m == b || m == c
  {
    if a <= b && a <= c then a else if b <= c then b else c
  }

  /** `Math.max` of three. */
  function Max3(a: real, b: real, c: real): (m: real)
    ensures m >= a && m >= b && m >= c
    ensures m == a || m == b || m == c
  {
    if a >= b && a >= c then a else if b >= c then b else c
  }

  /** The pixel range scanned for a triangle, bounds included. */
  datatype Window = Window(startX: int, startY: int, endX: int, endY: int)

  /** The bounding box of the projected corners, floored and ceiled, each
      bound clamped into the target. */
  function WindowOf(a: Vec3, b: Vec3, c: Vec3, width: int, height: int): (w: Window)
    ensures width >= 1 ==> 0 <= w.startX < width && 0 <= w.endX < width
    ensures height >= 1 ==> 0 <= w.startY < height && 0 <= w.endY < height
  {
    Window(Clamp(Min3(a.x, b.x, c.x).Floor, 0, width - 1),
           Clamp(Min3(a.y, b.y, c.y).Floor, 0, height - 1),
           Clamp(Ceil(Max3(a.x, b.x, c.x)), 0, width - 1),
           Clamp(Ceil(Max3(a.y, b.y, c.y)), 0, height - 1))
  }

  /** The window misses no pixel of the target that lies inside the
      bounding box of the corners. */
  lemma WindowCoversBoundingBox(a: Vec3, b: Vec3, c: Vec3, width: int, height: int, x: int, y: int)
    requires 0 <= x < width && 0 <= y < height
    requires Min3(a.x, b.x, c.x) <= x as real <= Max3(a.x, b.x, c.x)
    requires Min3(a.y, b.y, c.y) <= y as real <= Max3(a.y, b.y, c.y)
    ensures var w := WindowOf(a, b, c, width, height);
      w.startX <= x <= w.endX && w.startY <= y <= w.endY
  {
    assert Min3(a.x, b.x, c.x).Floor <= x;
    assert Min3(a.y, b.y, c.y).Floor <= y;
  }

  // ---- what the render loop sees ----------------------------------------

  /** A call the loop makes on the target. */
  datatype Event =
    | Tested(x: int, y: int, depth: real)
    | Plotted(x: int, y: int, depth: real, colour: Option<Vec3>)

  /** A model as the loop reads it: its transform and its shader, named by
      number, and its triangles. */
  datatype SceneModel = SceneModel(transform: nat, shader: nat, triangles: seq<Triangle>)

  /** The stages the loop calls: `toView` applies a transform and the
      camera, `pixelOffset` is the perspective projection of a view-space
      point relative to the centre, `inside` the inside test of a pixel
      against the projected corners, `depthAt` the depth interpolated at a
      pixel, `colour` a shader's colour for a triangle at a pixel given the
      projected corners, from which the texture coordinate and the normal
      at that pixel are interpolated. */
  datatype Stages = Stages(
    toView: (nat, Vec3) -> Vec3,
    pixelOffset: Vec3 -> Float2,
    inside: (Float2, Float2, Float2, Float2) -> bool,
    depthAt: (Vec3, Vec3, Vec3, Float2) -> real,
    colour: (nat, Triangle, Vec3, Vec3, Vec3, Float2) -> Option<Vec3>)

  /** Everything one render depends on: the target's size and depth-test
      decision, the scene's centre and the stages. */
  datatype Pass = Pass(
    width: int,
    height: int,
    rejects: (seq<Event>, int, int, real) -> bool,
    centre: Float2,
    stages: Stages)

  /** A triangle the projection does not throw on: the source projects
      every entry of `triangle.vertices`, so each must be defined, and reads
      the corners a, b and c from the first three results. */
  predicate Drawable(t: Triangle) {
    |t.vertices| >= 3 && forall k :: 0 <= k < |t.vertices| ==> t.vertices[k].Some?
  }

  predicate AllDrawable(models: seq<SceneModel>) {
    forall m, t :: 0 <= m < |models| && 0 <= t < |models[m].triangles| ==> Drawable(models[m].triangles[t])
  }

  function Screen(p: Pass, transform: nat, v: Vec3): Vec3 {
    var view := p.stages.toView(transform, v);
    VertexToScreen(p.centre, p.stages.pixelOffset(view), view)
  }

  /** `a.z <= 0 || b.z <= 0 || c.z <= 0`. */
  predicate NearPlaneRejects(a: Vec3, b: Vec3, c: Vec3) {
    a.z <= 0.0 || b.z <= 0.0 || c.z <= 0.0
  }

  function Pixel(x: int, y: int): Float2 {
    Float2(x as real, y as real)
  }

  /** The calls made for pixel (x, y): nothing outside the triangle;
      inside, a depth test, then a plot at the same depth unless the test
      rejects. */
  function PixelStep(p: Pass, ev: seq<Event>, shader: nat, t: Triangle, a: Vec3, b: Vec3, c: Vec3, x: int, y: int): (r: seq<Event>)
    ensures ev <= r && |r| <= |ev| + 2
    ensures |r| > |ev| <==> p.stages.inside(XY(a), XY(b), XY(c), Pixel(x, y))
    ensures |r| > |ev| ==> r[|ev|] == Tested(x, y, p.stages.depthAt(a, b, c, Pixel(x, y)))
    ensures |r| == |ev| + 2 <==>
      p.stages.inside(XY(a), XY(b), XY(c), Pixel(x, y)) && !p.rejects(ev, x, y, p.stages.depthAt(a, b, c, Pixel(x, y)))
  {
    if !p.stages.inside(XY(a), XY(b), XY(c), Pixel(x, y)) then ev
    else
      var depth := p.stages.depthAt(a, b, c, Pixel(x, y));
      var tested := ev + [Tested(x, y, depth)];
      if p.rejects(ev, x, y, depth) then tested
      else tested + [Plotted(x, y, depth, p.stages.colour(shader, t, a, b, c, Pixel(x, y)))]
  }

  /** The calls after row y from column x to endX, given those before. */
  function ScanRow(p: Pass, ev: seq<Event>, shader: nat, t: Triangle, a: Vec3, b: Vec3, c: Vec3, y: int, x: int, endX: int): (r: seq<Event>)
    ensures ev <= r
    decreases endX - x + 1
  {
    if x > endX then ev
    else ScanRow(p, PixelStep(p, ev, shader, t, a, b, c, x, y), shader, t, a, b, c, y, x + 1, endX)
  }

  /** The calls after rows y to w.endY of the window. */
  function ScanRows(p: Pass, ev: seq<Event>, shader: nat, t: Triangle, a: Vec3, b: Vec3, c: Vec3, w: Window, y: int): (r: seq<Event>)
    ensures ev <= r
    decreases w.endY - y + 1
  {
    if y > w.endY then ev
    else ScanRows(p, ScanRow(p, ev, shader, t, a, b, c, y, w.startX, w.endX), shader, t, a, b, c, w, y + 1)
  }

  /** The calls for one triangle. */
  function DrawTriangle(p: Pass, ev: seq<Event>, model: SceneModel, t: Triangle): (r: seq<Event>)
    requires Drawable(t)
    ensures ev <= r
  {
    var a := Screen(p, model.transform, t.vertices[0].value);
    var b := Screen(p, model.transform, t.vertices[1].value);
    var c := Screen(p, model.transform, t.vertices[2].value);
    if NearPlaneRejects(a, b, c) then ev
    else
      var w := WindowOf(a, b, c, p.width, p.height);
      ScanRows(p, ev, model.shader, t, a, b, c, w, w.startY)
  }

  /** The calls for the given triangles of a model, in list order. */
  function DrawTriangles(p: Pass, ev: seq<Event>, model: SceneModel, ts: seq<Triangle>): (r: seq<Event>)
    requires forall t :: 0 <= t < |ts| ==> Drawable(ts[t])
    ensures ev <= r
    decreases |ts|
  {
    if |ts| == 0 then ev
    else DrawTriangles(p, DrawTriangle(p, ev, model, ts[0]), model, ts[1..])
  }

  /** The calls for the given models, in list order. */
  function DrawModels(p: Pass, ev: seq<Event>, models: seq<SceneModel>): (r: seq<Event>)
    requires AllDrawable(models)
    ensures ev <= r
    decreases |models|
  {
    if |models| == 0 then ev
    else
      assert AllDrawable(models[1..]) by {
        forall m, t | 0 <= m < |models[1..]| && 0 <= t < |models[1..][m].triangles|
          ensures Drawable(models[1..][m].triangles[t])
        {
          assert models[1..][m] == models[m + 1];
        }
      }
      assert forall t :: 0 <= t < |models[0].triangles| ==> Drawable(models[0].triangles[t]) by {
        forall t | 0 <= t < |models[0].triangles| ensures Drawable(models[0].triangles[t]) {
        }
      }
      DrawModels(p, DrawTriangles(p, ev, models[0], models[0].triangles), models[1..])
  }

  // ---- properties -------------------------------------------------------

  /** What every call made since position `from` satisfies: its pixel lies
      in the target, and each plot directly follows a depth test of the same
      pixel at the same depth, which the target did not reject. */
  predicate Sound(p: Pass, ev: seq<Event>, from: nat)
    requires from <= |ev|
  {
    (forall i :: from <= i < |ev| ==> 0 <= ev[i].x < p.width && 0 <= ev[i].y < p.height)
    && (forall i :: from <= i < |ev| && ev[i].Plotted? ==>
          from < i && ev[i - 1] == Tested(ev[i].x, ev[i].y, ev[i].depth)
          && !p.rejects(ev[..i - 1], ev[i].x, ev[i].y, ev[i].depth))
  }

  lemma PixelStepSound(p: Pass, ev: seq<Event>, from: nat, shader: nat, t: Triangle, a: Vec3, b: Vec3, c: Vec3, x: int, y: int)
    requires from <= |ev| && Sound(p, ev, from)
    requires 0 <= x < p.width && 0 <= y < p.height
    ensures var r := PixelStep(p, ev, shader, t, a, b, c, x, y);
      ev <= r && Sound(p, r, from)
  {
    var r := PixelStep(p, ev, shader, t, a, b, c, x, y);
    if p.stages.inside(XY(a), XY(b), XY(c), Pixel(x, y)) {
      forall i | from <= i < |r| && r[i].Plotted?
        ensures from < i && r[i - 1] == Tested(r[i].x, r[i].y, r[i].depth)
        ensures !p.rejects(r[..i - 1], r[i].x, r[i].y, r[i].depth)
      {
        if i < |ev| {
          assert r[..i - 1] == ev[..i - 1];
        } else {
          assert r[..i - 1] == ev;
        }
      }
    }
  }

  lemma {:induction false} ScanRowSound(p: Pass, ev: seq<Event>, from: nat, shader: nat, t: Triangle, a: Vec3, b: Vec3, c: Vec3, y: int, x: int, endX: int)
    requires from <= |ev| && Sound(p, ev, from)
    requires 0 <= x && endX < p.width && 0 <= y < p.height
    ensures var r := ScanRow(p, ev, shader, t, a, b, c, y, x, endX);
      ev <= r && Sound(p, r, from)
    decreases endX - x + 1
  {
    if x <= endX {
      PixelStepSound(p, ev, from, shader, t, a, b, c, x, y);
      ScanRowSound(p, PixelStep(p, ev, shader, t, a, b, c, x, y), from, shader, t, a, b, c, y, x + 1, endX);
    }
  }

  lemma {:induction false} ScanRowsSound(p: Pass, ev: seq<Event>, from: nat, shader: nat, t: Triangle, a: Vec3, b: Vec3, c: Vec3, w: Window, y: int)
    requires from <= |ev| && Sound(p, ev, from)
    requires 0 <= w.startX && w.endX < p.width && 0 <= y && w.endY < p.height
    ensures var r := ScanRows(p, ev, shader, t, a, b, c, w, y);
      ev <= r && Sound(p, r, from)
    decreases w.endY - y + 1
  {
    if y <= w.endY {
      ScanRowSound(p, ev, from, shader, t, a, b, c, y, w.startX, w.endX);
      ScanRowsSound(p, ScanRow(p, ev, shader, t, a, b, c, y, w.startX, w.endX), from, shader, t, a, b, c, w, y + 1);
    }
  }

  lemma DrawTriangleSound(p: Pass, ev: seq<Event>, from: nat, model: SceneModel, t: Triangle)
    requires p.width >= 1 && p.height >= 1
    requires Drawable(t) && from <= |ev| && Sound(p, ev, from)
    ensures var r := DrawTriangle(p, ev, model, t);
      ev <= r && Sound(p, r, from)
  {
    var a := Screen(p, model.transform, t.vertices[0].value);
    var b := Screen(p, model.transform, t.vertices[1].value);
    var c := Screen(p, model.transform, t.vertices[2].value);
    if !NearPlaneRejects(a, b, c) {
      var w := WindowOf(a, b, c, p.width, p.height);
      ScanRowsSound(p, ev, from, model.shader, t, a, b, c, w, w.startY);
    }
  }

  lemma {:induction false} DrawTrianglesSound(p: Pass, ev: seq<Event>, from: nat, model: SceneModel, ts: seq<Triangle>)
    requires p.width >= 1 && p.height >= 1
    requires forall t :: 0 <= t < |ts| ==> Drawable(ts[t])
    requires from <= |ev| && Sound(p, ev, from)
    ensures var r := DrawTriangles(p, ev, model, ts);
      ev <= r && Sound(p, r, from)
    decreases |ts|
  {
    if |ts| > 0 {
      DrawTriangleSound(p, ev, from, model, ts[0]);
      DrawTrianglesSound(p, DrawTriangle(p, ev, model, ts[0]), from, model, ts[1..]);
    }
  }

  /** The render loop's contract with the target: on a target of at least
      one pixel, every call it makes is for a pixel of the target, and it
      plots a pixel only right after a depth test of that pixel at that
      depth which the target did not reject. */
  lemma {:induction false} DrawModelsSound(p: Pass, ev: seq<Event>, from: nat, models: seq<SceneModel>)
    requires p.width >= 1 && p.height >= 1
    requires AllDrawable(models)
    requires from <= |ev| && Sound(p, ev, from)
    ensures var r := DrawModels(p, ev, models);
      ev <= r && Sound(p, r, from)
    decreases |models|
  {
    if |models| > 0 {
      DrawTrianglesSound(p, ev, from, models[0], models[0].triangles);
      DrawModelsSound(p, DrawTriangles(p, ev, models[0], models[0].triangles), from, models[1..]);
    }
  }

  /** A triangle with a corner at or behind the camera's plane makes no
      call at all: no depth test and no plot. */
  lemma BehindCameraSkipped(p: Pass, ev: seq<Event>, model: SceneModel, t: Triangle, k: nat)
    requires Drawable(t) && k < 3
    requires p.stages.toView(model.transform, t.vertices[k].value).z <= 0.0
    ensures DrawTriangle(p, ev, model, t) == ev
  {
    var view := p.stages.toView(model.transform, t.vertices[k].value);
    assert Screen(p, model.transform, t.vertices[k].value).z == view.z;
  }

  /** What every call made for one triangle since position `from`
      satisfies: the pixel is in the window, the inside test holds there,
      and the depth is the one interpolated there. */
  predicate FromTriangle(p: Pass, ev: seq<Event>, from: nat, a: Vec3, b: Vec3, c: Vec3, w: Window)
    requires from <= |ev|
  {
    forall i :: from <= i < |ev| ==>
      w.startX <= ev[i].x <= w.endX && w.startY <= ev[i].y <= w.endY
      && p.stages.inside(XY(a), XY(b), XY(c), Pixel(ev[i].x, ev[i].y))
      && ev[i].depth == p.stages.depthAt(a, b, c, Pixel(ev[i].x, ev[i].y))
  }

  lemma {:induction false} ScanRowFromTriangle(p: Pass, ev: seq<Event>, from: nat, shader: nat, t: Triangle, a: Vec3, b: Vec3, c: Vec3, w: Window, y: int, x: int)
    requires from <= |ev| && FromTriangle(p, ev, from, a, b, c, w)
    requires w.startY <= y <= w.endY && w.startX <= x
    ensures var r := ScanRow(p, ev, shader, t, a, b, c, y, x, w.endX);
      ev <= r && FromTriangle(p, r, from, a, b, c, w)
    decreases w.endX - x + 1
  {
    if x <= w.endX {
      ScanRowFromTriangle(p, PixelStep(p, ev, shader, t, a, b, c, x, y), from, shader, t, a, b, c, w, y, x + 1);
    }
  }

  lemma {:induction false} ScanRowsFromTriangle(p: Pass, ev: seq<Event>, from: nat, shader: nat, t: Triangle, a: Vec3, b: Vec3, c: Vec3, w: Window, y: int)
    requires from <= |ev| && FromTriangle(p, ev, from, a, b, c, w)
    requires w.startY <= y
    ensures var r := ScanRows(p, ev, shader, t, a, b, c, w, y);
      ev <= r && FromTriangle(p, r, from, a, b, c, w)
    decreases w.endY - y + 1
  {
    if y <= w.endY {
      ScanRowFromTriangle(p, ev, from, shader, t, a, b, c, w, y, w.startX);
      ScanRowsFromTriangle(p, ScanRow(p, ev, shader, t, a, b, c, y, w.startX, w.endX), from, shader, t, a, b, c, w, y + 1);
    }
  }

  /** Every call made for a triangle is for a pixel of its clamped window
      that the inside test accepts, at the depth interpolated there. */
  lemma DrawTriangleStaysInside(p: Pass, ev: seq<Event>, model: SceneModel, t: Triangle)
    requires Drawable(t)
    ensures var a := Screen(p, model.transform, t.vertices[0].value);
      var b := Screen(p, model.transform, t.vertices[1].value);
      var c := Screen(p, model.transform, t.vertices[2].value);
      var r := DrawTriangle(p, ev, model, t);
      ev <= r && FromTriangle(p, r, |ev|, a, b, c, WindowOf(a, b, c, p.width, p.height))
  {
    var a := Screen(p, model.transform, t.vertices[0].value);
    var b := Screen(p, model.transform, t.vertices[1].value);
    var c := Screen(p, model.transform, t.vertices[2].value);
    var w := WindowOf(a, b, c, p.width, p.height);
    if !NearPlaneRejects(a, b, c) {
      ScanRowsFromTriangle(p, ev, |ev|, model.shader, t, a, b, c, w, w.startY);
    }
  }

  // ---- every pixel inside is tested, once, in order ----------------------

  datatype Point = Point(x: int, y: int)

  /** The pixels of the depth tests among the calls, in call order. */
  function TestedPixels(ev: seq<Event>): seq<Point>
    decreases |ev|
  {
    if |ev| == 0 then []
    else
      var last := ev[|ev| - 1];
      TestedPixels(ev[..|ev| - 1]) + if last.Tested? then [Point(last.x, last.y)] else []
  }

  lemma {:induction false} TestedPixelsAppend(ev: seq<Event>, more: seq<Event>)
    ensures TestedPixels(ev + more) == TestedPixels(ev) + TestedPixels(more)
    decreases |more|
  {
    if |more| == 0 {
      assert ev + more == ev;
    } else {
      var n := |more| - 1;
      assert (ev + more)[..|ev + more| - 1] == ev + more[..n];
      assert (ev + more)[|ev + more| - 1] == more[n];
      TestedPixelsAppend(ev, more[..n]);
    }
  }

  /** Whether the inside test accepts pixel q of the triangle. */
  predicate Accepted(p: Pass, a: Vec3, b: Vec3, c: Vec3, q: Point) {
    p.stages.inside(XY(a), XY(b), XY(c), Pixel(q.x, q.y))
  }

  /** The reference: the pixels of row y from column x to endX that the
      inside test accepts, left to right. */
  function RowInside(p: Pass, a: Vec3, b: Vec3, c: Vec3, y: int, x: int, endX: int): seq<Point>
    decreases endX - x + 1
  {
    if x > endX then []
    else (if Accepted(p, a, b, c, Point(x, y)) then [Point(x, y)] else []) + RowInside(p, a, b, c, y, x + 1, endX)
  }

  /** The same for rows y to w.endY of the window, top to bottom. */
  function WindowInside(p: Pass, a: Vec3, b: Vec3, c: Vec3, w: Window, y: int): seq<Point>
    decreases w.endY - y + 1
  {
    if y > w.endY then []
    else RowInside(p, a, b, c, y, w.startX, w.endX) + WindowInside(p, a, b, c, w, y + 1)
  }

  predicate RowMajorBefore(q: Point, r: Point) {
    q.y < r.y || (q.y == r.y && q.x < r.x)
  }

  /** r holds exactly the accepted pixels of columns x0..x1 and rows y0..y1,
      each once, in row-major order. */
  ghost predicate ExactlyAccepted(p: Pass, a: Vec3, b: Vec3, c: Vec3, x0: int, x1: int, y0: int, y1: int, r: seq<Point>) {
    && (forall i :: 0 <= i < |r| ==>
          (x0 <= r[i].x <= x1 && y0 <= r[i].y <= y1 && Accepted(p, a, b, c, r[i])))
    && (forall q: Point :: (x0 <= q.x <= x1 && y0 <= q.y <= y1 && Accepted(p, a, b, c, q)) ==> q in r)
    && (forall i, j :: 0 <= i < j < |r| ==> RowMajorBefore(r[i], r[j]))
  }

  /** The row reference holds exactly the accepted pixels of the row, each
      once, left to right. */
  lemma {:induction false} RowInsideExactly(p: Pass, a: Vec3, b: Vec3, c: Vec3, y: int, x: int, endX: int)
    ensures ExactlyAccepted(p, a, b, c, x, endX, y, y, RowInside(p, a, b, c, y, x, endX))
    decreases endX - x + 1
  {
    if x <= endX {
      var rest := RowInside(p, a, b, c, y, x + 1, endX);
      RowInsideExactly(p, a, b, c, y, x + 1, endX);
      var here := if Accepted(p, a, b, c, Point(x, y)) then [Point(x, y)] else [];
      var r := here + rest;
      assert r == RowInside(p, a, b, c, y, x, endX);
      forall q: Point | x <= q.x <= endX && y <= q.y <= y && Accepted(p, a, b, c, q)
        ensures q in r
      {
        if q.x == x {
          assert q == Point(x, y) && q in here;
        } else {
          assert q in rest;
        }
      }
      forall i, j | 0 <= i < j < |r| ensures RowMajorBefore(r[i], r[j]) {
        if |here| == 1 && i == 0 {
          assert r[j] == rest[j - 1];
        }
      }
    }
  }

  /** The window reference holds exactly the accepted pixels of the rows
      from y down, each once, in row-major order. */
  lemma {:induction false} WindowInsideExactly(p: Pass, a: Vec3, b: Vec3, c: Vec3, w: Window, y: int)
    ensures ExactlyAccepted(p, a, b, c, w.startX, w.endX, y, w.endY, WindowInside(p, a, b, c, w, y))
    decreases w.endY - y + 1
  {
    if y <= w.endY {
      RowInsideExactly(p, a, b, c, y, w.startX, w.endX);
      WindowInsideExactly(p, a, b, c, w, y + 1);
      RowThenRest(p, a, b, c, w.startX, w.endX, y, w.endY,
                  RowInside(p, a, b, c, y, w.startX, w.endX), WindowInside(p, a, b, c, w, y + 1));
    }
  }

  /** Row y followed by the rows below it holds exactly the accepted pixels
      of rows y to y1, in row-major order. */
  lemma RowThenRest(p: Pass, a: Vec3, b: Vec3, c: Vec3, x0: int, x1: int, y: int, y1: int, row: seq<Point>, rest: seq<Point>)
    requires y <= y1
    requires ExactlyAccepted(p, a, b, c, x0, x1, y, y, row)
    requires ExactlyAccepted(p, a, b, c, x0, x1, y + 1, y1, rest)
    ensures ExactlyAccepted(p, a, b, c, x0, x1, y, y1, row + rest)
  {
    var r := row + rest;
    forall q: Point | x0 <= q.x <= x1 && y <= q.y <= y1 && Accepted(p, a, b, c, q)
      ensures q in r
    {
      if q.y == y {
        assert q in row;
      } else {
        assert q in rest;
      }
    }
    forall i, j | 0 <= i < j < |r| ensures RowMajorBefore(r[i], r[j]) {
      if j < |row| {
        assert r[i] == row[i] && r[j] == row[j];
      } else if i >= |row| {
        assert r[i] == rest[i - |row|] && r[j] == rest[j - |row|];
      } else {
        assert r[i] == row[i] && r[j] == rest[j - |row|];
      }
    }
  }

  lemma PixelStepTests(p: Pass, ev: seq<Event>, shader: nat, t: Triangle, a: Vec3, b: Vec3, c: Vec3, x: int, y: int)
    ensures TestedPixels(PixelStep(p, ev, shader, t, a, b, c, x, y))
      == TestedPixels(ev) + if p.stages.inside(XY(a), XY(b), XY(c), Pixel(x, y)) then [Point(x, y)] else []
  {
    if p.stages.inside(XY(a), XY(b), XY(c), Pixel(x, y)) {
      var r := PixelStep(p, ev, shader, t, a, b, c, x, y);
      var more := r[|ev|..];
      assert r == ev + more;
      TestedPixelsAppend(ev, more);
      assert TestedPixels(more) == [Point(x, y)] by {
        if |more| == 2 {
          assert more[..1][..0] == [];
          assert more[..1] == [more[0]];
        }
      }
    }
  }

  /** A row's depth tests are exactly those of the row reference. */
  lemma {:induction false} ScanRowTestsInside(p: Pass, ev: seq<Event>, shader: nat, t: Triangle, a: Vec3, b: Vec3, c: Vec3, y: int, x: int, endX: int)
    ensures TestedPixels(ScanRow(p, ev, shader, t, a, b, c, y, x, endX))
      == TestedPixels(ev) + RowInside(p, a, b, c, y, x, endX)
    decreases endX - x + 1
  {
    if x <= endX {
      var ev' := PixelStep(p, ev, shader, t, a, b, c, x, y);
      var here := if Accepted(p, a, b, c, Point(x, y)) then [Point(x, y)] else [];
      PixelStepTests(p, ev, shader, t, a, b, c, x, y);
      ScanRowTestsInside(p, ev', shader, t, a, b, c, y, x + 1, endX);
      assert ScanRow(p, ev, shader, t, a, b, c, y, x, endX) == ScanRow(p, ev', shader, t, a, b, c, y, x + 1, endX);
      assert RowInside(p, a, b, c, y, x, endX) == here + RowInside(p, a, b, c, y, x + 1, endX);
      AppendInTwoSteps(TestedPixels(ev), here, RowInside(p, a, b, c, y, x + 1, endX),
                       TestedPixels(ev'), TestedPixels(ScanRow(p, ev', shader, t, a, b, c, y, x + 1, endX)));
    }
  }

  /** Appending `here` and then `rest` appends `here + rest`. */
  lemma AppendInTwoSteps<T>(before: seq<T>, here: seq<T>, rest: seq<T>, mid: seq<T>, after: seq<T>)
    requires mid == before + here && after == mid + rest
    ensures after == before + (here + rest)
  {
  }

  lemma {:induction false} ScanRowsTestsInside(p: Pass, ev: seq<Event>, shader: nat, t: Triangle, a: Vec3, b: Vec3, c: Vec3, w: Window, y: int)
    ensures TestedPixels(ScanRows(p, ev, shader, t, a, b, c, w, y))
      == TestedPixels(ev) + WindowInside(p, a, b, c, w, y)
    decreases w.endY - y + 1
  {
    if y <= w.endY {
      var ev' := ScanRow(p, ev, shader, t, a, b, c, y, w.startX, w.endX);
      ScanRowTestsInside(p, ev, shader, t, a, b, c, y, w.startX, w.endX);
      ScanRowsTestsInside(p, ev', shader, t, a, b, c, w, y + 1);
      assert ScanRows(p, ev, shader, t, a, b, c, w, y) == ScanRows(p, ev', shader, t, a, b, c, w, y + 1);
      assert WindowInside(p, a, b, c, w, y) == RowInside(p, a, b, c, y, w.startX, w.endX) + WindowInside(p, a, b, c, w, y + 1);
    }
  }

  /** Every depth test made since position `from` is followed at once by a
      plot of that pixel at that depth, in the shader's colour there,
      exactly when the target did not reject it. */
  predicate Answered(p: Pass, ev: seq<Event>, from: nat, shader: nat, t: Triangle, a: Vec3, b: Vec3, c: Vec3)
    requires from <= |ev|
  {
    forall i :: from <= i < |ev| && ev[i].Tested? ==>
      (!p.rejects(ev[..i], ev[i].x, ev[i].y, ev[i].depth) <==>
         i + 1 < |ev| && ev[i + 1] == Plotted(ev[i].x, ev[i].y, ev[i].depth,
                                              p.stages.colour(shader, t, a, b, c, Pixel(ev[i].x, ev[i].y))))
  }

  lemma PixelStepAnswers(p: Pass, ev: seq<Event>, from: nat, shader: nat, t: Triangle, a: Vec3, b: Vec3, c: Vec3, x: int, y: int)
    requires from <= |ev| && Answered(p, ev, from, shader, t, a, b, c)
    ensures Answered(p, PixelStep(p, ev, shader, t, a, b, c, x, y), from, shader, t, a, b, c)
  {
    var r := PixelStep(p, ev, shader, t, a, b, c, x, y);
    if |r| > |ev| {
      forall i | from <= i < |r| && r[i].Tested?
        ensures !p.rejects(r[..i], r[i].x, r[i].y, r[i].depth) <==>
          i + 1 < |r| && r[i + 1] == Plotted(r[i].x, r[i].y, r[i].depth,
                                             p.stages.colour(shader, t, a, b, c, Pixel(r[i].x, r[i].y)))
      {
        if i < |ev| {
          assert r[..i] == ev[..i] && r[i] == ev[i];
          if i + 1 < |ev| {
            assert r[i + 1] == ev[i + 1];
          } else {
            assert r[i + 1].Tested?;
            assert p.rejects(ev[..i], ev[i].x, ev[i].y, ev[i].depth);
          }
        } else {
          assert r[..i] == ev;
        }
      }
    }
  }

  lemma {:induction false} ScanRowAnswers(p: Pass, ev: seq<Event>, from: nat, shader: nat, t: Triangle, a: Vec3, b: Vec3, c: Vec3, y: int, x: int, endX: int)
    requires from <= |ev| && Answered(p, ev, from, shader, t, a, b, c)
    ensures Answered(p, ScanRow(p, ev, shader, t, a, b, c, y, x, endX), from, shader, t, a, b, c)
    decreases endX - x + 1
  {
    if x <= endX {
      PixelStepAnswers(p, ev, from, shader, t, a, b, c, x, y);
      ScanRowAnswers(p, PixelStep(p, ev, shader, t, a, b, c, x, y), from, shader, t, a, b, c, y, x + 1, endX);
    }
  }

  lemma {:induction false} ScanRowsAnswers(p: Pass, ev: seq<Event>, from: nat, shader: nat, t: Triangle, a: Vec3, b: Vec3, c: Vec3, w: Window, y: int)
    requires from <= |ev| && Answered(p, ev, from, shader, t, a, b, c)
    ensures Answered(p, ScanRows(p, ev, shader, t, a, b, c, w, y), from, shader, t, a, b, c)
    decreases w.endY - y + 1
  {
    if y <= w.endY {
      ScanRowAnswers(p, ev, from, shader, t, a, b, c, y, w.startX, w.endX);
      ScanRowsAnswers(p, ScanRow(p, ev, shader, t, a, b, c, y, w.startX, w.endX), from, shader, t, a, b, c, w, y + 1);
    }
  }

  /** The converse of soundness for one triangle in front of the camera:
      its depth tests are exactly the window pixels the inside test
      accepts, each once, in row-major order (see WindowInsideExactly), and
      each test is followed by its plot exactly when the target does not
      reject it. */
  lemma DrawTriangleTestsEveryInsidePixel(p: Pass, ev: seq<Event>, model: SceneModel, t: Triangle)
    requires Drawable(t)
    ensures var a := Screen(p, model.transform, t.vertices[0].value);
      var b := Screen(p, model.transform, t.vertices[1].value);
      var c := Screen(p, model.transform, t.vertices[2].value);
      var w := WindowOf(a, b, c, p.width, p.height);
      var r := DrawTriangle(p, ev, model, t);
      !NearPlaneRejects(a, b, c) ==>
        TestedPixels(r) == TestedPixels(ev) + WindowInside(p, a, b, c, w, w.startY)
        && Answered(p, r, |ev|, model.shader, t, a, b, c)
  {
    var a := Screen(p, model.transform, t.vertices[0].value);
    var b := Screen(p, model.transform, t.vertices[1].value);
    var c := Screen(p, model.transform, t.vertices[2].value);
    var w := WindowOf(a, b, c, p.width, p.height);
    if !NearPlaneRejects(a, b, c) {
      ScanRowsTestsInside(p, ev, model.shader, t, a, b, c, w, w.startY);
      ScanRowsAnswers(p, ev, |ev|, model.shader, t, a, b, c, w, w.startY);
    }
  }

  /** Models are drawn in list order: drawing two lists of models one after
      the other is drawing their concatenation. */
  lemma {:induction false} DrawModelsInOrder(p: Pass, ev: seq<Event>, first: seq<SceneModel>, second: seq<SceneModel>)
    requires AllDrawable(first) && AllDrawable(second) && AllDrawable(first + second)
    ensures DrawModels(p, ev, first + second) == DrawModels(p, DrawModels(p, ev, first), second)
    decreases |first|
  {
    if |first| > 0 {
      assert (first + second)[1..] == first[1..] + second;
      assert (first + second)[0] == first[0];
      DrawModelsInOrder(p, DrawTriangles(p, ev, first[0], first[0].triangles), first[1..], second);
    } else {
      assert first + second == second;
    }
  }

  /** Triangles of a model are drawn in list order. */
  lemma {:induction false} DrawTrianglesInOrder(p: Pass, ev: seq<Event>, model: SceneModel, first: seq<Triangle>, second: seq<Triangle>)
    requires forall t :: 0 <= t < |first| ==> Drawable(first[t])
    requires forall t :: 0 <= t < |second| ==> Drawable(second[t])
    ensures forall t :: 0 <= t < |first + second| ==> Drawable((first + second)[t])
    ensures DrawTriangles(p, ev, model, first + second) == DrawTriangles(p, DrawTriangles(p, ev, model, first), model, second)
    decreases |first|
  {
    if |first| > 0 {
      assert (first + second)[1..] == first[1..] + second;
      assert (first + second)[0] == first[0];
      DrawTrianglesInOrder(p, DrawTriangle(p, ev, model, first[0]), model, first[1..], second);
    } else {
      assert first + second == second;
    }
  }

  // ---- the target and the scene ------------------------------------------

  /** The part of the render target the loop uses. Its state is the list of
      calls made on it; `rejects` is its depth-test answer given that
      history, which this model leaves open. */
  class DepthTarget {
    const width: nat
    const height: nat
    const rejects: (seq<Event>, int, int, real) -> bool
    var events: seq<Event>

    constructor (width: nat, height: nat, rejects: (seq<Event>, int, int, real) -> bool)
      ensures this.width == width && this.height == height && this.rejects == rejects
      ensures events == []
    {
      this.width := width;
      this.height := height;
      this.rejects := rejects;
      events := [];
    }

    function Size(): (s: Float2)
      ensures s == RenderTargets.SizeOf(width, height)
    {
      RenderTargets.SizeOf(width, height)
    }

    /** `depthTest(x, y, depth)`: true when the pixel must be skipped. */
    method DepthTest(x: int, y: int, depth: real) returns (rejected: bool)
      modifies this
      ensures rejected == rejects(old(events), x, y, depth)
      ensures events == old(events) + [Tested(x, y, depth)]
    {
      rejected := rejects(events, x, y, depth);
      events := events + [Tested(x, y, depth)];
    }

    /** `plotAtDepth(x, y, depth, colour)`. */
    method PlotAtDepth(x: int, y: int, depth: real, colour: Option<Vec3>)
      modifies this
      ensures events == old(events) + [Plotted(x, y, depth, colour)]
    {
      events := events + [Plotted(x, y, depth, colour)];
    }
  }

  class Scene {
    const target: DepthTarget
    const models: seq<SceneModel>
    const centre: Float2

    constructor (target: DepthTarget, models: seq<SceneModel>)
      ensures this.target == target && this.models == models
      ensures centre == Centre(target.Size())
    {
      this.target := target;
      this.models := models;
      centre := Centre(target.Size());
    }

    function PassOf(stages: Stages): Pass
      reads this, target
    {
      Pass(target.width, target.height, target.rejects, centre, stages)
    }

    /** `render`: every model, every triangle, in order. */
    method Render(stages: Stages)
      requires AllDrawable(models)
      modifies target
      ensures target.events == DrawModels(PassOf(stages), old(target.events), models)
    {
      var p := PassOf(stages);
      var i := 0;
      while i < |models|
        invariant 0 <= i <= |models|
        invariant AllDrawable(models[i..])
        invariant DrawModels(p, target.events, models[i..]) == DrawModels(p, old(target.events), models)
      {
        assert models[i..][0] == models[i];
        assert models[i..][1..] == models[i + 1..];
        var model := models[i];
        ghost var before := target.events;
        var j := 0;
        while j < |model.triangles|
          invariant 0 <= j <= |model.triangles|
          invariant DrawTriangles(p, target.events, model, model.triangles[j..])
            == DrawTriangles(p, before, model, model.triangles)
          invariant DrawModels(p, before, models[i..]) == DrawModels(p, old(target.events), models)
        {
          assert model.triangles[j..][0] == model.triangles[j];
          assert model.triangles[j..][1..] == model.triangles[j + 1..];
          Draw(p, model, model.triangles[j]);
          j := j + 1;
        }
        i := i + 1;
      }
    }

    /** One triangle: project, reject, scan the clamped window. */
    method Draw(p: Pass, model: SceneModel, t: Triangle)
      requires Drawable(t)
      requires p.width == target.width && p.height == target.height && p.rejects == target.rejects
      modifies target
      ensures target.events == DrawTriangle(p, old(target.events), model, t)
    {
      var a := Screen(p, model.transform, t.vertices[0].value);
      var b := Screen(p, model.transform, t.vertices[1].value);
      var c := Screen(p, model.transform, t.vertices[2].value);
      if NearPlaneRejects(a, b, c) {
        return;
      }
      var w := WindowOf(a, b, c, target.width, target.height);
      var y := w.startY;
      while y <= w.endY
        invariant ScanRows(p, target.events, model.shader, t, a, b, c, w, y)
          == ScanRows(p, old(target.events), model.shader, t, a, b, c, w, w.startY)
        decreases w.endY - y + 1
      {
        ghost var before := target.events;
        var x := w.startX;
        while x <= w.endX
          invariant ScanRow(p, target.events, model.shader, t, a, b, c, y, x, w.endX)
            == ScanRow(p, before, model.shader, t, a, b, c, y, w.startX, w.endX)
          decreases w.endX - x + 1
        {
          var pixel := Pixel(x, y);
          if p.stages.inside(XY(a), XY(b), XY(c), pixel) {
            var depth := p.stages.depthAt(a, b, c, pixel);
            var rejected := target.DepthTest(x, y, depth);
            if !rejected {
              target.PlotAtDepth(x, y, depth, p.stages.colour(model.shader, t, a, b, c, pixel));
            }
          }
          x := x + 1;
        }
        y := y + 1;
      }
    }
  }
}
