/** Image grids of src/lib/helpers.ts. */
module Helpers {
  import opened Vectors
  import opened Maths

  /** How many times `for (let i = 0; i < n; i++)` runs. */
  function Count(n: int): nat {
    if n > 0 then n else 0
  }

  /** A grid of `height` rows of `width` pixels, pixel (x, y) being
      `shader(x, y)`; rows are indexed by y. */
  method CreateImage(width: int, height: int, shader: (int, int) -> Vec3) returns (image: seq<seq<Vec3>>)
    ensures |image| == Count(height)
    ensures forall y :: 0 <= y < |image| ==> |image[y]| == Count(width)
    ensures forall y, x :: 0 <= y < |image| && 0 <= x < |image[y]| ==> image[y][x] == shader(x, y)
  {
    image := [];
    var y := 0;
    while y < height
      invariant 0 <= y <= Count(height) && |image| == y
      invariant forall j :: 0 <= j < y ==> |image[j]| == Count(width)
      invariant forall j, i :: 0 <= j < y && 0 <= i < |image[j]| ==> image[j][i] == shader(i, j)
    {
      var row: seq<Vec3> := [];
      var x := 0;
      while x < width
        invariant 0 <= x <= Count(width) && |row| == x
        invariant forall i :: 0 <= i < x ==> row[i] == shader(i, y)
      {
        row := row + [shader(x, y)];
        x := x + 1;
      }
      image := image + [row];
      y := y + 1;
    }
  }

  const Blue := Vec3(0.0, 0.0, 1.0)
  const Black := Vec3(0.0, 0.0, 0.0)

  /** The triangle (a, b, c), given in unit coordinates and scaled to the
      image size, drawn blue on black. */
  method CreateTestImage02(width: int, height: int, a: Float2, b: Float2, c: Float2) returns (image: seq<seq<Vec3>>)
    ensures |image| == Count(height)
    ensures forall y :: 0 <= y < |image| ==> |image[y]| == Count(width)
    ensures forall y, x :: 0 <= y < |image| && 0 <= x < |image[y]| ==>
      var p := Float2(x as real, y as real);
      image[y][x] == if PointInTriangle(a.Mul(width as real, height as real), b.Mul(width as real, height as real),
                                        c.Mul(width as real, height as real), p) then Blue else Black
  {
    var sa, sb, sc := a.Mul(width as real, height as real), b.Mul(width as real, height as real), c.Mul(width as real, height as real);
    image := CreateImage(width, height, (x: int, y: int) =>
      if PointInTriangle(sa, sb, sc, Float2(x as real, y as real)) then Blue else Black);
  }
}
