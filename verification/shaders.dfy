/** The palette shader of src/lib/RandomShader.ts. */
module RandomShaders {
  import opened Wrappers
  import opened Vectors
  import opened Models

  /** Number of colours in the palette the shader builds when given none. */
  const DefaultPaletteSize := 75

  /** The default palette: colour i is made of the draws 3i, 3i + 1 and
      3i + 2 of the random source, each scaled by an upper bound of 1. */
  function DefaultPalette(random: nat -> real): (colours: seq<Vec3>)
    ensures |colours| == DefaultPaletteSize
    ensures (forall n: nat :: 0.0 <= random(n) < 1.0) ==>
      forall i :: 0 <= i < |colours| ==>
        0.0 <= colours[i].x < 1.0 && 0.0 <= colours[i].y < 1.0 && 0.0 <= colours[i].z < 1.0
  {
    seq(DefaultPaletteSize, i requires 0 <= i => Vec3(random(3 * i) * 1.0, random(3 * i + 1) * 1.0, random(3 * i + 2) * 1.0))
  }

  datatype RandomShader = RandomShader(colours: seq<Vec3>) {

    /** The palette entry at the triangle's index modulo the palette length.
        Without an index, or with an empty palette, the remainder is NaN and
        the lookup gives `None` (JavaScript's `undefined`). */
    function GetPixelColour(texCoord: Float2, normal: Vec3, depth: real, triangle: Triangle): (c: Option<Vec3>)
      ensures c.Some? <==> |colours| > 0 && triangle.index.Some?
      ensures c.Some? ==> c.value in colours
      ensures triangle.index.Some? && triangle.index.value < |colours| ==> c == Some(colours[triangle.index.value])
    {
      match triangle.index
      case None => None
      case Some(i) => if |colours| == 0 then None else Some(colours[i % |colours|])
    }

    /** The call the scene makes: three arguments, texCoord, normal and the
        triangle, against a method that takes four. The triangle lands in
        `depth`, `triangle` is `undefined`, and reading its `index` throws a
        TypeError, whatever the palette. */
    function CalledFromScene(texCoord: Float2, normal: Vec3, sceneTriangle: Triangle): (r: Result<Option<Vec3>, string>)
      ensures r == Failure("TypeError: cannot read property 'index' of undefined")
    {
      var triangle: Option<Triangle> := None;
      match triangle
      case None => Failure("TypeError: cannot read property 'index' of undefined")
      case Some(t) => Success(GetPixelColour(texCoord, normal, 0.0, t))
    }
  }

  /** The call as written never colours a pixel, while the four-argument
      call colours every triangle that carries an index from a non-empty
      palette. */
  lemma SceneCallNeverColours(s: RandomShader, texCoord: Float2, normal: Vec3, depth: real, triangle: Triangle)
    requires |s.colours| > 0 && triangle.index.Some?
    ensures s.CalledFromScene(texCoord, normal, triangle).Failure?
    ensures s.GetPixelColour(texCoord, normal, depth, triangle).Some?
  {
  }

  /** The colour depends on the triangle alone. */
  lemma IgnoresSurfaceAttributes(s: RandomShader, triangle: Triangle,
                                 texCoord: Float2, normal: Vec3, depth: real,
                                 texCoord': Float2, normal': Vec3, depth': real)
    ensures s.GetPixelColour(texCoord, normal, depth, triangle) == s.GetPixelColour(texCoord', normal', depth', triangle)
  {
  }

  /** Triangles whose indices are congruent modulo the palette length
      share a colour. */
  lemma CongruentIndicesShareColour(s: RandomShader, t: Triangle, u: Triangle,
                                    texCoord: Float2, normal: Vec3, depth: real)
    requires |s.colours| > 0 && t.index.Some? && u.index.Some?
    requires t.index.value % |s.colours| == u.index.value % |s.colours|
    ensures s.GetPixelColour(texCoord, normal, depth, t) == s.GetPixelColour(texCoord, normal, depth, u)
  {
  }

  /** With the default palette every triangle that carries an index gets a
      colour. */
  lemma DefaultPaletteAlwaysColours(random: nat -> real, texCoord: Float2, normal: Vec3, depth: real, triangle: Triangle)
    requires triangle.index.Some?
    ensures RandomShader(DefaultPalette(random)).GetPixelColour(texCoord, normal, depth, triangle).Some?
  {
  }

  /** A triangle built by the model carries no index, so even the default
      palette gives it no colour. */
  lemma ModelTrianglesGetNoColour(s: RandomShader, texCoord: Float2, normal: Vec3, depth: real, triangle: Triangle)
    requires triangle.index.None?
    ensures s.GetPixelColour(texCoord, normal, depth, triangle).None?
  {
  }
}

/** The per-material texture shader of src/lib/MaterialShader.ts. */
module MaterialShaders {
  import opened Wrappers
  import opened Vectors
  import opened Models
  import opened Textures

  /** The colour used when a material has no texture: magenta, written as
      (255, 0, 255) although colours are intensities in [0, 1]. */
  const Missing := Vec3(255.0, 0.0, 255.0)

  /** The texture table key of a triangle: its material, or "" without one. */
  function MaterialKey(triangle: Triangle): (key: string)
    ensures triangle.material.Some? ==> key == triangle.material.value
    ensures triangle.material.None? ==> key == ""
  {
    triangle.material.GetOr("")
  }

  datatype MaterialShader = MaterialShader(materials: map<string, Texture>) {

    predicate Valid() {
      forall key :: key in materials ==> materials[key].image.Valid()
    }

    /** The material's texture sampled at texCoord, or the missing colour
        when the table has no texture for the material. */
    function GetPixelColour(texCoord: Float2, normal: Vec3, triangle: Triangle): (c: Option<Vec3>)
      requires Valid()
      ensures MaterialKey(triangle) in materials ==> c == materials[MaterialKey(triangle)].Sample(texCoord)
      ensures MaterialKey(triangle) !in materials ==> c == Some(Missing)
    {
      var key := MaterialKey(triangle);
      if key in materials then materials[key].Sample(texCoord) else Some(Missing)
    }
  }

  /** The normal plays no part in the colour. */
  lemma IgnoresNormal(s: MaterialShader, texCoord: Float2, normal: Vec3, normal': Vec3, triangle: Triangle)
    requires s.Valid()
    ensures s.GetPixelColour(texCoord, normal, triangle) == s.GetPixelColour(texCoord, normal', triangle)
  {
  }

  /** A triangle without a material is shaded like one whose material is "". */
  lemma NoMaterialIsEmptyName(s: MaterialShader, texCoord: Float2, normal: Vec3, triangle: Triangle)
    requires s.Valid() && triangle.material.None?
    ensures s.GetPixelColour(texCoord, normal, triangle) == s.GetPixelColour(texCoord, normal, triangle.(material := Some("")))
  {
  }
}
