/** The colour buffer of src/lib/RenderTarget.ts: width * height RGBA pixels,
    four bytes each, row-major from the top-left corner. */
module RenderTargets {
  import opened Vectors

  newtype byte = b: int | 0 <= b < 256

  /** The value a Uint8ClampedArray stores when assigned v: clamped to
      0..255 and rounded to the nearest integer, ties to even. */
  function ToByte(v: real): (b: byte)
    ensures v <= 0.0 ==> b == 0
    ensures v >= 255.0 ==> b == 255
    ensures 0.0 <= v <= 255.0 ==> -0.5 <= b as real - v <= 0.5
  {
    if v <= 0.0 then 0
    else if v >= 255.0 then 255
    else
      var f := v.Floor;
      if f as real + 0.5 < v then (f + 1) as byte
      else if v < f as real + 0.5 then f as byte
      else if f % 2 == 0 then f as byte
      else (f + 1) as byte
  }

  /** Byte offset of the first channel of pixel (x, y). */
  function PixelOffset(width: int, x: int, y: int): int {
    (y * width + x) * 4
  }

  /** A pixel inside the target has all four of its bytes inside the buffer. */
  lemma PixelOffsetInBounds(width: int, height: int, x: int, y: int)
    requires 0 <= x < width && 0 <= y < height
    ensures 0 <= PixelOffset(width, x, y)
    ensures PixelOffset(width, x, y) + 3 < width * height * 4
  {
    assert y * width + x < (y + 1) * width by {
      assert (y + 1) * width == y * width + width;
    }
    assert (y + 1) * width <= height * width by {
      assert y + 1 <= height;
    }
  }

  /** Every pixel of a row comes before every pixel of a later row. */
  lemma EarlierRowFirst(width: int, x: int, y: int, y': int)
    requires 0 <= x < width && y < y'
    ensures y * width + x < y' * width
  {
    assert (y' - y - 1) * width >= 0;
    assert y' * width - y * width == (y' - y - 1) * width + width;
  }

  /** Distinct pixels inside the target never share a byte. */
  lemma PixelOffsetInjective(width: int, x: int, y: int, x': int, y': int)
    requires 0 <= x < width && 0 <= x' < width && 0 <= y && 0 <= y'
    requires PixelOffset(width, x, y) / 4 == PixelOffset(width, x', y') / 4
    ensures x == x' && y == y'
  {
    assert PixelOffset(width, x, y) / 4 == y * width + x;
    assert PixelOffset(width, x', y') / 4 == y' * width + x';
    if y < y' {
      EarlierRowFirst(width, x, y, y');
      assert false;
    } else if y' < y {
      EarlierRowFirst(width, x', y', y);
      assert false;
    }
  }

  /** The `size` of a target of width by height pixels, as a float2. */
  function SizeOf(width: nat, height: nat): (s: Float2)
    ensures s.x == width as real && s.y == height as real
  {
    Float2(width as real, height as real)
  }

  class RenderTarget {
    const width: nat
    const height: nat
    const buffer: array<byte>

    ghost predicate Valid()
      reads this
    {
      buffer.Length == width * height * 4
    }

    /** A fresh target: every byte is 0. */
    constructor (width: nat, height: nat)
      ensures Valid() && fresh(buffer)
      ensures this.width == width && this.height == height
      ensures forall j :: 0 <= j < buffer.Length ==> buffer[j] == 0
    {
      this.width, this.height := width, height;
      buffer := new byte[width * height * 4](_ => 0);
    }

    /** The target's dimensions as a float2. */
    function Size(): (s: Float2)
      ensures s == SizeOf(width, height)
    {
      SizeOf(width, height)
    }

    /** Sets every byte to 0. */
    method Clear()
      requires Valid()
      modifies buffer
      ensures forall j :: 0 <= j < buffer.Length ==> buffer[j] == 0
    {
      var j := 0;
      while j < buffer.Length
        invariant 0 <= j <= buffer.Length
        invariant forall k :: 0 <= k < j ==> buffer[k] == 0
      {
        buffer[j] := 0;
        j := j + 1;
      }
    }

    /** Stores one writable byte; like a typed array, ignores an index
        outside the buffer. */
    method Store(i: int, v: byte)
      modifies buffer
      ensures forall j :: 0 <= j < buffer.Length ==> buffer[j] == (if j == i then v else old(buffer[j]))
    {
      if 0 <= i < buffer.Length {
        buffer[i] := v;
      }
    }

    /** Writes pixel (x, y) with colour intensities c scaled to bytes and
        alpha 255; every other byte keeps its value. */
    method Plot(x: int, y: int, c: Vec3)
      requires Valid()
      modifies buffer
      ensures var i := PixelOffset(width, x, y);
        forall j :: 0 <= j < buffer.Length ==>
          buffer[j] == (if j == i then ToByte(c.x * 255.0)
                        else if j == i + 1 then ToByte(c.y * 255.0)
                        else if j == i + 2 then ToByte(c.z * 255.0)
                        else if j == i + 3 then 255
                        else old(buffer[j]))
    {
      var i := (y * width + x) * 4;
      Store(i, ToByte(c.x * 255.0));
      Store(i + 1, ToByte(c.y * 255.0));
      Store(i + 2, ToByte(c.z * 255.0));
      Store(i + 3, 255);
    }
  }
}
