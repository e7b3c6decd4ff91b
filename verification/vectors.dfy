/** float2 (src/lib/float2.ts) and float3 (src/lib/float3.ts).

    A float3 appears twice, for two uses the source makes of it: the value
    `Vec3` stands for a float3 that is only read (vertices, normals,
    colours), and the class `Float3` for the object itself, whose `r`, `g`
    and `b` setters change it in place. `Float3.Value()` ties the two. */
module Vectors {

  /** A float2: an immutable pair. Every operation returns a new value. */
  datatype Float2 = Float2(x: real, y: real) {

    /** The vector turned a quarter turn clockwise: (x, y) becomes (y, -x). */
    function Perpendicular(): (r: Float2)
      ensures r.x == y && r.y == -x
      ensures r.x * x + r.y * y == 0.0
    {
      Float2(y, -x)
    }

    function Add(other: Float2): (r: Float2)
      ensures r.Sub(other) == this
    {
      Float2(x + other.x, y + other.y)
    }

    function Sub(other: Float2): (r: Float2)
      ensures r.x + other.x == x && r.y + other.y == y
    {
      Float2(x - other.x, y - other.y)
    }

    /** Scales per axis; with one argument both axes use the same factor. */
    function Mul(sx: real, sy: real := sx): (r: Float2)
      ensures r.x == x * sx && r.y == y * sy
    {
      Float2(x * sx, y * sy)
    }

    /** Clamps both components into [0, 1]. */
    function Saturate(): (r: Float2)
      ensures 0.0 <= r.x <= 1.0 && 0.0 <= r.y <= 1.0
      ensures 0.0 <= x <= 1.0 ==> r.x == x
      ensures 0.0 <= y <= 1.0 ==> r.y == y
      ensures x < 0.0 ==> r.x == 0.0
      ensures x > 1.0 ==> r.x == 1.0
      ensures y < 0.0 ==> r.y == 0.0
      ensures y > 1.0 ==> r.y == 1.0
    {
      Float2(Unit(x), Unit(y))
    }
  }

  function Unit(v: real): real {
    if v < 0.0 then 0.0 else if v > 1.0 then 1.0 else v
  }

  lemma PerpendicularTwice(p: Float2)
    ensures p.Perpendicular().Perpendicular() == Float2(-p.x, -p.y)
  {
  }

  lemma PerpendicularFourTimes(p: Float2)
    ensures p.Perpendicular().Perpendicular().Perpendicular().Perpendicular() == p
  {
    PerpendicularTwice(p);
    PerpendicularTwice(Float2(-p.x, -p.y));
  }

  lemma SubThenAdd(p: Float2, q: Float2)
    ensures p.Sub(q).Add(q) == p
  {
  }

  lemma AddCommutes(p: Float2, q: Float2)
    ensures p.Add(q) == q.Add(p)
  {
  }

  lemma MulDefaultIsUniform(p: Float2, s: real)
    ensures p.Mul(s) == p.Mul(s, s)
    ensures p.Mul(s) == Float2(s * p.x, s * p.y)
  {
  }

  /** Scaling by non-zero factors is undone by scaling by their reciprocals. */
  lemma MulInverse(p: Float2, sx: real, sy: real)
    requires sx != 0.0 && sy != 0.0
    ensures p.Mul(sx, sy).Mul(1.0 / sx, 1.0 / sy) == p
  {
  }

  /** The value of a float3: three components. Colours use x, y, z as r, g, b. */
  datatype Vec3 = Vec3(x: real, y: real, z: real) {

    function Add(other: Vec3): (r: Vec3)
      ensures r.Sub(other) == this
    {
      Vec3(x + other.x, y + other.y, z + other.z)
    }

    function Sub(other: Vec3): (r: Vec3)
      ensures r.x + other.x == x && r.y + other.y == y && r.z + other.z == z
    {
      Vec3(x - other.x, y - other.y, z - other.z)
    }

    /** Component-wise scaling. */
    function Mul(sx: real, sy: real, sz: real): (r: Vec3)
      ensures r.x == x * sx && r.y == y * sy && r.z == z * sz
    {
      Vec3(x * sx, y * sy, z * sz)
    }
  }

  lemma Vec3MulInverse(v: Vec3, sx: real, sy: real, sz: real)
    requires sx != 0.0 && sy != 0.0 && sz != 0.0
    ensures v.Mul(sx, sy, sz).Mul(1.0 / sx, 1.0 / sy, 1.0 / sz) == v
  {
  }

  /** A float3 object. Its fields can be changed in place through the
      colour aliases r, g, b. */
  class Float3 {
    var x: real
    var y: real
    var z: real

    /** The current value of the object. */
    function Value(): Vec3
      reads this
    {
      Vec3(x, y, z)
    }

    constructor (x: real, y: real, z: real)
      ensures Value() == Vec3(x, y, z)
    {
      this.x, this.y, this.z := x, y, z;
    }

    function R(): (v: real)
      reads this
      ensures v == Value().x
    {
      x
    }

    function G(): (v: real)
      reads this
      ensures v == Value().y
    {
      y
    }

    function B(): (v: real)
      reads this
      ensures v == Value().z
    {
      z
    }

    method SetR(value: real)
      modifies this
      ensures Value() == old(Value()).(x := value)
    {
      x := value;
    }

    method SetG(value: real)
      modifies this
      ensures Value() == old(Value()).(y := value)
    {
      y := value;
    }

    method SetB(value: real)
      modifies this
      ensures Value() == old(Value()).(z := value)
    {
      z := value;
    }
  }
}
