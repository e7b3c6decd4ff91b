/** Nearest-texel lookup of src/lib/Texture.ts. */
module Textures {
  import opened Wrappers
  import opened Vectors
  import opened RenderTargets

  /** `Math.round`: the nearest integer, halves rounded up. */
  function Round(r: real): (n: int)
    ensures r - 0.5 < n as real <= r + 0.5
  {
    (r + 0.5).Floor
  }

  /** Browser image data: width * height RGBA pixels, row-major. */
  datatype ImageData = ImageData(width: nat, height: nat, data: seq<byte>) {
    predicate Valid() {
      width >= 1 && height >= 1 && |data| == width * height * 4
    }
  }

  datatype Texture = Texture(image: ImageData) {

    /** The texel column for a texture coordinate. */
    function Column(texCoord: Float2): (x: int)
      requires image.Valid()
      ensures 0 <= x <= image.width - 1
    {
      var u := texCoord.Saturate().x;
      ScaledUnitInRange(u, image.width - 1);
      Round(u * (image.width - 1) as real)
    }

    /** The texel row for a texture coordinate; v = 0 reads row 0 (no flip). */
    function Row(texCoord: Float2): (y: int)
      requires image.Valid()
      ensures 0 <= y <= image.height - 1
      ensures texCoord.y <= 0.0 ==> y == 0
      ensures texCoord.y >= 1.0 ==> y == image.height - 1
    {
      var v := texCoord.Saturate().y;
      ScaledUnitInRange(v, image.height - 1);
      Round(v * (image.height - 1) as real)
    }

    /** Byte offset of the sampled texel: the render target's row-major
        pixel offset, but with the height where the width belongs. */
    function Offset(texCoord: Float2): (o: int)
      requires image.Valid()
      ensures o == PixelOffset(image.height, Column(texCoord), Row(texCoord))
    {
      (Row(texCoord) * image.height + Column(texCoord)) * 4
    }

    /** The red, green and blue bytes at the texel, as intensities in [0, 1];
        alpha is ignored. `None` when the offset is past the end of the
        data, where the source reads `undefined` and gets NaN channels. */
    function Sample(texCoord: Float2): (c: Option<Vec3>)
      requires image.Valid()
      ensures c.Some? <==> Offset(texCoord) < |image.data|
      ensures c.Some? ==> 0.0 <= c.value.x <= 1.0 && 0.0 <= c.value.y <= 1.0 && 0.0 <= c.value.z <= 1.0
      ensures c.Some? ==> var i := Offset(texCoord);
        c.value == Vec3(image.data[i] as real / 255.0, image.data[i + 1] as real / 255.0, image.data[i + 2] as real / 255.0)
    {
      var i := Offset(texCoord);
      OffsetIsPixelAligned(this, texCoord);
      if i < |image.data| then
        Some(Vec3(image.data[i] as real / 255.0, image.data[i + 1] as real / 255.0, image.data[i + 2] as real / 255.0))
      else
        None
    }
  }

  /** u * n, for u in [0, 1], rounds to an integer in [0, n]. */
  lemma ScaledUnitInRange(u: real, n: int)
    requires 0.0 <= u <= 1.0 && n >= 0
    ensures 0 <= Round(u * n as real) <= n
    ensures u == 0.0 ==> Round(u * n as real) == 0
    ensures u == 1.0 ==> Round(u * n as real) == n
  {
    assert (1.0 - u) * n as real >= 0.0;
    assert 0.0 <= u * n as real <= n as real;
  }

  lemma OffsetIsPixelAligned(t: Texture, texCoord: Float2)
    requires t.image.Valid()
    ensures t.Offset(texCoord) >= 0 && t.Offset(texCoord) % 4 == 0
    ensures t.Offset(texCoord) < |t.image.data| ==> t.Offset(texCoord) + 3 < |t.image.data|
  {
    var n := t.Row(texCoord) * t.image.height + t.Column(texCoord);
    var w, h := t.image.width, t.image.height;
    assert n >= 0;
    assert |t.image.data| == (w * h) * 4;
    if n * 4 < (w * h) * 4 {
      assert n < w * h;
      assert n * 4 + 3 < (w * h) * 4;
    }
  }

  /** Texel number y * h + x of a w-by-h image with h <= w is below w * h. */
  lemma HeightStrideBelowArea(w: int, h: int, x: int, y: int)
    requires 1 <= h <= w && 0 <= x < w && 0 <= y < h
    ensures y * h + x < w * h
  {
    assert y * h <= (h - 1) * h by {
      assert (h - 1 - y) * h >= 0;
    }
    assert w * h - ((h - 1) * h + (w - 1)) == (h - 1) * (w - h) + 1;
    assert (h - 1) * (w - h) >= 0;
  }

  /** With a texture no taller than it is wide, every sample stays inside the data. */
  lemma SampleInBoundsWhenNotTall(t: Texture, texCoord: Float2)
    requires t.image.Valid() && t.image.height <= t.image.width
    ensures t.Sample(texCoord).Some?
  {
    HeightStrideBelowArea(t.image.width, t.image.height, t.Column(texCoord), t.Row(texCoord));
  }

  /** For a square texture the offset is the ordinary row-major offset of
      texel (column, row). */
  lemma SquareTextureIsRowMajor(t: Texture, texCoord: Float2)
    requires t.image.Valid() && t.image.width == t.image.height
    ensures t.Offset(texCoord) == PixelOffset(t.image.width, t.Column(texCoord), t.Row(texCoord))
  {
  }

  /** A 1-wide, 2-tall texture sampled at its bottom row reads past the
      end of its 8 bytes. */
  lemma TallTextureReadsPastEnd()
    ensures var t := Texture(ImageData(1, 2, [10, 20, 30, 255, 40, 50, 60, 255]));
      t.image.Valid() && t.Row(Float2(0.0, 1.0)) == 1 && t.Sample(Float2(0.0, 1.0)).None?
  {
    var t := Texture(ImageData(1, 2, [10, 20, 30, 255, 40, 50, 60, 255]));
    assert t.Column(Float2(0.0, 1.0)) == 0;
  }

  /** In a 3-wide, 2-tall texture the texel at column 0, row 1 is read from
      the bytes of column 2, row 0. */
  lemma WideTextureReadsWrongTexel()
    ensures var t := Texture(ImageData(3, 2, seq(24, i => 0)));
      t.image.Valid() && t.Column(Float2(0.0, 1.0)) == 0 && t.Row(Float2(0.0, 1.0)) == 1
      && t.Offset(Float2(0.0, 1.0)) == PixelOffset(3, 2, 0)
      && t.Offset(Float2(0.0, 1.0)) != PixelOffset(3, 0, 1)
  {
    var t := Texture(ImageData(3, 2, seq(24, i => 0)));
    assert t.Column(Float2(0.0, 1.0)) == 0;
    assert t.Row(Float2(0.0, 1.0)) == 1;
  }
}
