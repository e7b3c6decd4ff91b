# software-renderer, modelled in Dafny

This project models the core of a small CPU rasteriser written in TypeScript/JavaScript.
It covers:

- the two Wavefront OBJ parsers:
  - `parseObj` of `scripts/ObjModule.mjs`, the build-time parser. It fan-triangulates faces and tracks `usemtl`.
  - `parseObj` of `src/lib/wavefront.ts`, the older triangles-only parser.
- the `Model` mesh class, with its vertex-cached triangles and its `translate`/`scale`;
- the RGBA render target;
- the vector, clamp and edge-function maths;
- the image helpers;
- nearest-texel texture sampling;
- the palette and per-material shaders;
- the rasterisation skeleton of `Scene.render`.

Modules and files:

| file | module | source |
|---|---|---|
| `wrappers.dfy` | `Wrappers` | `Option` (JavaScript `undefined`) and `Result` (a thrown error) |
| `vectors.dfy` | `Vectors` | `float2` as the value `Float2`; `float3` as the value `Vec3` and the mutable object `Float3` |
| `clamp.dfy` | `Clamping` | `clamp` |
| `maths.dfy` | `Maths` | `dot`, `pointOnRightSideOfLine`, `pointInTriangle` |
| `render_target.dfy` | `RenderTargets` | the `RenderTarget` class over a byte `array` |
| `texture.dfy` | `Textures` | `Texture.sample` over browser `ImageData` |
| `model.dfy` | `Models` | the `Model` class |
| `shaders.dfy` | `RandomShaders`, `MaterialShaders` | the two shaders |
| `helpers.dfy` | `Helpers` | `createImage`, `createTestImage02` |
| `obj_text.dfy` | `ObjText` | line, comment and word handling shared by both parsers |
| `obj_module.dfy` | `ObjModule` | `parseObj` of `scripts/ObjModule.mjs` |
| `wavefront.dfy` | `Wavefront` | `parseObj` of `src/lib/wavefront.ts` |
| `scene.dfy` | `Scenes` | `Scene`: `centre`, `vertexToScreen`, `render` |

How the source's kinds of code are modelled:

- **Loops that update state are methods.** The parsers' line loops, the face-building loops, `createImage` and the four nested loops of `render` are methods with `while` loops.
  - Each method is proved equal to a specification function that folds one step over a prefix of the input, e.g. `ObjModule.Run`, `Wavefront.Run`, `Scenes.DrawModels`.
  - The properties are proved about those functions.
- **Objects updated in place are classes.** These are `Models.Model`, `RenderTargets.RenderTarget`, `Vectors.Float3`, `Scenes.DepthTarget` and `Scenes.Scene`.
- **Pure code is functions.** Vector maths, clamping, the inside test, sampling and the shaders are functions.

Numbers are mathematical reals. `Number(...)` on a token is a function parameter, `toNumber` for coordinates and `toIndex` for face numbers.

## Source quirks the model keeps

- **`Texture.sample`'s stride.** `RenderTarget` stores pixels row-major at `(y * width + x) * 4` (`src/lib/RenderTarget.ts:28`). `Texture.sample` reads at `(y * height + x) * 4`, with the height where the width belongs, and does no vertical flip (`src/lib/Texture.ts:13-16`). The model follows the code:
  - `Textures.Texture.Offset` is that offset;
  - `Textures.WideTextureReadsWrongTexel` shows a texel read from the wrong place;
  - `Textures.TallTextureReadsPastEnd` shows a read past the data;
  - `Textures.SampleInBoundsWhenNotTall` and `Textures.SquareTextureIsRowMajor` show where the code is right.
- **The shader signature.** The `Shader` interface declares three parameters, `(texCoord, normal, triangle)` (`src/lib/Shader.ts:7-11`).
  - `MaterialShader.getPixelColour` and the call in `Scene.render` (`src/lib/Scene.ts:90`) use those three.
  - `RandomShader.getPixelColour` takes four, `(texCoord, normal, depth, triangle)` (`src/lib/RandomShader.ts:16-21`). Called from the scene, its `triangle` is `undefined`; see "## Findings".
- **`RandomShader` reads `triangle.index`**, but no triangle carries one: `Model` keeps only the three index lists of each JSON triangle (`src/lib/Model.ts:34-40`). So `Models.Triangle.index` is `None` for every triangle a `Model` builds, and the shader then computes `undefined % n`, which is NaN, and gives `undefined` (`RandomShaders.ModelTrianglesGetNoColour`).
- **The "missing" colour of `MaterialShader`** is `(255, 0, 255)`, although colours elsewhere are intensities in [0, 1]. It is modelled as written.
- **`Scene.render` uses members the shown files do not define**: `renderTarget.depthTest` and `plotAtDepth`, `model.transform` and `model.shader`, a `pointInTriangle` that returns `[inside, weights]`, and the triangle fields `textureCoords` and `normals` (`src/lib/Scene.ts:58`, `src/lib/Scene.ts:81`), which the `Triangle` of `src/lib/Model.ts:15-20` does not have. Those two fields only feed the texture-coordinate and normal interpolation, which is left out below. (The `pointInTriangle` in `src/lib/maths.ts` returns a boolean.) These enter the model as the parameters of `Scenes.Stages` and the open `rejects` decision of `Scenes.DepthTarget`. The model gives them no meaning of its own.

## Findings

| source | as written | input that shows it | evidently intended | confidence | as-written member | corrected member |
|---|---|---|---|---|---|---|
| src/lib/Scene.ts:90 | `getPixelColour(texCoord, normal, triangle)` is called with three arguments, but `RandomShader.getPixelColour` takes `(texCoord, normal, depth, triangle)`, so the triangle lands in `depth` and `triangle.index` reads a property of `undefined` | any pixel a `RandomShader` model covers: the call throws a TypeError | the triangle reaches the `triangle` parameter and picks its palette colour | high, by reading; not executed | RandomShaders.RandomShader.CalledFromScene | RandomShaders.RandomShader.GetPixelColour |

## Model

| member | source | states |
|---|---|---|
| Vectors.Float2.Perpendicular | src/lib/float2.ts:13-15 | the result is (y, -x) and is orthogonal to the input (zero dot product) |
| Vectors.PerpendicularTwice | src/lib/float2.ts:13-15 | two quarter turns negate the vector |
| Vectors.PerpendicularFourTimes | src/lib/float2.ts:13-15 | four quarter turns give the vector back |
| Vectors.Float2.Add | src/lib/float2.ts:17-19 | subtracting `other` from the sum gives the vector back |
| Vectors.Float2.Sub | src/lib/float2.ts:21-23 | adding `other` back to the difference gives the vector |
| Vectors.Float2.Mul | src/lib/float2.ts:25-27 | each component scaled by its own factor |
| Vectors.SubThenAdd | src/lib/float2.ts:17-23 | `p.sub(q).add(q)` is p |
| Vectors.AddCommutes | src/lib/float2.ts:17-19 | addition is commutative |
| Vectors.MulDefaultIsUniform | src/lib/float2.ts:25-27 | `mul(s)` with y defaulting to x scales both axes by s |
| Vectors.MulInverse | src/lib/float2.ts:25-27 | scaling by non-zero factors is undone by their reciprocals |
| Vectors.Float2.Saturate | src/lib/Texture.ts:11 | both components end in [0, 1]; a component already in [0, 1] is unchanged, one below 0 becomes 0 and one above 1 becomes 1 |
| Vectors.Vec3.Add | src/lib/Model.ts:53 | subtracting `other` from the sum gives the vector back |
| Vectors.Vec3.Sub | src/lib/Model.ts:53 | the inverse of `add`: adding `other` back gives the vector (the shown `float3` has no `sub`; it states the contracts of `Add` and `Translated`) |
| Vectors.Vec3.Mul | src/lib/Model.ts:58 | each component scaled by its own factor |
| Vectors.Vec3MulInverse | src/lib/Model.ts:58 | per-axis scaling by non-zero factors is undone by their reciprocals |
| Vectors.Float3.constructor | src/lib/float3.ts:4-8 | the new object holds (x, y, z) |
| Vectors.Float3.R | src/lib/float3.ts:14-16 | the `r` getter reads x |
| Vectors.Float3.G | src/lib/float3.ts:21-23 | the `g` getter reads y |
| Vectors.Float3.B | src/lib/float3.ts:28-30 | the `b` getter reads z |
| Vectors.Float3.SetR | src/lib/float3.ts:17-19 | the `r` setter changes x and nothing else |
| Vectors.Float3.SetG | src/lib/float3.ts:24-26 | the `g` setter changes y and nothing else |
| Vectors.Float3.SetB | src/lib/float3.ts:31-33 | the `b` setter changes z and nothing else |
| Clamping.Clamp | src/tools/clamp.ts:1-3 | the result is in [min, max] when min <= max; an in-range value is unchanged; a value below the range gives min, above it gives max; an empty range (min > max) gives max |
| Clamping.ClampIdempotent | src/tools/clamp.ts:1-3 | clamping twice is clamping once |
| Maths.Dot | src/lib/maths.ts:3-5 | the dot product of a vector with itself is not negative |
| Maths.DotSymmetric | src/lib/maths.ts:3-5 | the dot product is symmetric |
| Maths.PointOnRightSideOfLine | src/lib/maths.ts:7-11 | true exactly when the edge function (p - a) x (b - a) is not negative |
| Maths.EndpointsOnRightSide | src/lib/maths.ts:7-11 | both ends of a line are on its right side |
| Maths.DegenerateLineAcceptsAll | src/lib/maths.ts:7-11 | a line from a point to itself accepts every point |
| Maths.EdgeFunctionAntisymmetric | src/lib/maths.ts:7-11 | swapping the ends of an edge negates its edge function |
| Maths.PointInTriangle | src/lib/maths.ts:13-18 | true exactly when all three edge functions are non-negative |
| Maths.PointInTriangleRotation | src/lib/maths.ts:13-18 | rotating the corners (a, b, c) to (b, c, a) does not change the answer |
| Maths.ReversedWindingRejects | src/lib/maths.ts:13-18 | a point strictly inside is rejected once the winding is reversed |
| Maths.DegenerateTriangleAcceptsAll | src/lib/maths.ts:13-18 | a triangle collapsed to one point accepts every point |
| Maths.CornerInsideIffNonNegativeArea | src/lib/maths.ts:13-18 | a corner is inside exactly when the triangle's signed area is not negative |
| RenderTargets.ToByte | src/lib/RenderTarget.ts:6 | a clamped byte store: values <= 0 give 0, values >= 255 give 255, and in-range values land within 0.5 of the value |
| RenderTargets.PixelOffsetInBounds | src/lib/RenderTarget.ts:28-32 | a pixel inside the target has all four of its bytes inside the `width*height*4` buffer |
| RenderTargets.PixelOffsetInjective | src/lib/RenderTarget.ts:28 | distinct pixels of a row-major target never share a byte |
| RenderTargets.RenderTarget.constructor | src/lib/RenderTarget.ts:8-13 | the buffer has `width*height*4` bytes, all 0 |
| RenderTargets.SizeOf | src/lib/RenderTarget.ts:15-17 | the size of a width by height target is (width, height) |
| RenderTargets.RenderTarget.Size | src/lib/RenderTarget.ts:15-17 | the size is `SizeOf(width, height)` |
| RenderTargets.RenderTarget.Clear | src/lib/RenderTarget.ts:23-25 | afterwards every byte is 0 |
| RenderTargets.RenderTarget.Store | src/lib/RenderTarget.ts:29-32 | one indexed byte write; an index outside the buffer writes nothing |
| RenderTargets.RenderTarget.Plot | src/lib/RenderTarget.ts:27-33 | the four bytes at `(y*width+x)*4` become r, g and b times 255 (clamped to a byte) and alpha 255; every other byte keeps its value |
| Textures.Round | src/lib/Texture.ts:13-14 | `round` gives the integer within half of the value, halves rounding up |
| Textures.ScaledUnitInRange | src/lib/Texture.ts:13-14 | u in [0, 1] times n rounds into [0, n]; 0 maps to 0 and 1 to n |
| Textures.Texture.Column | src/lib/Texture.ts:11-13 | the texel column is in [0, width - 1] |
| Textures.Texture.Row | src/lib/Texture.ts:11-14 | the texel row is in [0, height - 1]; v <= 0 reads row 0 and v >= 1 the last row (no flip) |
| Textures.Texture.Offset | src/lib/Texture.ts:16 | the byte offset is the render target's row-major pixel offset with the height in the width's place |
| Textures.OffsetIsPixelAligned | src/lib/Texture.ts:16 | the offset is a non-negative multiple of 4; if it is inside the data, so are its three channel bytes |
| Textures.Texture.Sample | src/lib/Texture.ts:9-18 | a colour exactly when the offset is inside the data; the channels are the texel's red, green and blue bytes divided by 255, so they lie in [0, 1] |
| Textures.SampleInBoundsWhenNotTall | src/lib/Texture.ts:16 | a texture no taller than it is wide is always sampled inside its data |
| Textures.SquareTextureIsRowMajor | src/lib/Texture.ts:16 | for a square texture the offset is the ordinary row-major offset |
| Textures.TallTextureReadsPastEnd | src/lib/Texture.ts:14-17 | a 1x2 texture sampled at its bottom row reads past its 8 bytes |
| Textures.WideTextureReadsWrongTexel | src/lib/Texture.ts:13-16 | in a 3x2 texture, texel (0, 1) is read from the bytes of texel (2, 0) |
| Models.VertexAt | src/lib/Model.ts:39 | `vertices[i]` is defined exactly for an index inside the list |
| Models.Dereference | src/lib/Model.ts:39-47 | one cached vertex per index, each the vertex that index points at |
| Models.Recached | src/lib/Model.ts:44-50 | every triangle's cache matches the vertices; every other triangle field is kept |
| Models.Translated | src/lib/Model.ts:52-53 | each vertex moved by d, so moving it back by d gives the original |
| Models.Scaled | src/lib/Model.ts:57-58 | each vertex scaled component-wise |
| Models.TranslateByZero | src/lib/Model.ts:52-53 | `translate()` with its default arguments moves nothing |
| Models.TranslateComposes | src/lib/Model.ts:52-53 | two translations are one translation by the sum |
| Models.ScaleByOne | src/lib/Model.ts:57-58 | scaling by 1 changes nothing |
| Models.ScaleComposes | src/lib/Model.ts:57-58 | two scalings are one scaling by the product |
| Models.RecachedAfterTranslate | src/lib/Model.ts:52-54 | after a translation each cached triangle vertex is its old cached vertex moved by the same offset |
| Models.Model.constructor | src/lib/Model.ts:28-42 | keeps x, y, z of each JSON vertex, copies the other lists, and builds triangles whose caches match the vertices, with no index and no material |
| Models.Model.UpdateTriangles | src/lib/Model.ts:44-50 | the caches are rebuilt from the current vertices; the attribute lists are unchanged |
| Models.Model.Translate | src/lib/Model.ts:52-55 | the vertices become the translated vertices; the caches stay consistent; textures and normals are unchanged |
| Models.Model.Scale | src/lib/Model.ts:57-60 | the vertices become the scaled vertices, with y defaulting to x and z to y; the caches stay consistent |
| Models.TranslateAndScaleDefaults | src/lib/Model.ts:52-60 | `translate()` then `scale(s)` scales every vertex by s on all axes |
| RandomShaders.DefaultPalette | src/lib/RandomShader.ts:10-14 | 75 colours, each channel in [0, 1) when the random draws are |
| RandomShaders.RandomShader.GetPixelColour | src/lib/RandomShader.ts:16-23 | a palette colour exactly when the palette is non-empty and the triangle has an index; an index below the palette length picks that entry |
| RandomShaders.RandomShader.CalledFromScene | src/lib/Scene.ts:90 | the scene's three-argument call leaves `triangle` undefined and always throws |
| RandomShaders.SceneCallNeverColours | src/lib/Scene.ts:90 | the call as written fails where the four-argument call colours the triangle |
| RandomShaders.ModelTrianglesGetNoColour | src/lib/RandomShader.ts:22 | a triangle without an index gets no colour, whatever the palette |
| RandomShaders.IgnoresSurfaceAttributes | src/lib/RandomShader.ts:16-23 | the colour depends on the triangle alone |
| RandomShaders.CongruentIndicesShareColour | src/lib/RandomShader.ts:22 | triangles with indices that agree modulo the palette length get the same colour |
| RandomShaders.DefaultPaletteAlwaysColours | src/lib/RandomShader.ts:10-22 | with the default palette every triangle that has an index gets a colour |
| MaterialShaders.MaterialKey | src/lib/MaterialShader.ts:14 | the key is the material, or "" without one |
| MaterialShaders.MaterialShader.GetPixelColour | src/lib/MaterialShader.ts:13-16 | with a texture for the key, the texture's sample; without one, the missing colour (255, 0, 255) |
| MaterialShaders.IgnoresNormal | src/lib/MaterialShader.ts:13-16 | the normal plays no part |
| MaterialShaders.NoMaterialIsEmptyName | src/lib/MaterialShader.ts:14 | no material shades like the material "" |
| Helpers.CreateImage | src/lib/helpers.ts:6-21 | `height` rows (none if height <= 0) of `width` pixels; pixel (x, y) is `shader(x, y)` |
| Helpers.CreateTestImage02 | src/lib/helpers.ts:33-44 | pixel (x, y) is blue exactly when it is inside the triangle scaled to the image size, else black |
| ObjText.Split | scripts/ObjModule.mjs:17 | at least one piece, none containing the separator |
| ObjText.JoinSplit | scripts/ObjModule.mjs:42 | joining the pieces with the separator gives the text back |
| ObjText.StripComment | scripts/ObjModule.mjs:18 | a prefix of the line without `#`: the whole line, or the text before its first `#` |
| ObjText.StripCommentIdempotent | scripts/ObjModule.mjs:18 | stripping twice is stripping once |
| ObjText.Words | scripts/ObjModule.mjs:19-21 | the whitespace-separated words: non-empty, without whitespace |
| ObjText.Pieces | scripts/ObjModule.mjs:21 | splitting on every whitespace character gives at least one piece |
| ObjText.WordsArePieces | scripts/ObjModule.mjs:21 | the words are exactly the non-empty pieces between whitespace characters, in order |
| ObjText.NoWordsIffBlank | scripts/ObjModule.mjs:19 | a line has no words exactly when it is all whitespace |
| ObjText.At | scripts/ObjModule.mjs:24 | destructuring `[x, y, z] = args` gives element i when there is one, else `undefined` |
| ObjText.Numbers | scripts/ObjModule.mjs:24 | `args.map(Number)`, element by element |
| ObjText.Parts | scripts/ObjModule.mjs:73 | one number per `/`-separated piece of a face element: number i is `toIndex` of piece i |
| ObjText.Coord3Of | scripts/ObjModule.mjs:35-38 | with three numbers, the normal (x, y, z); each component past the end of a short line is undefined |
| ObjText.Coord2Of | scripts/ObjModule.mjs:29-32 | a texture coordinate; v is 0 when only u is given, and u is undefined on a line with no numbers |
| ObjModule.VertexOf | scripts/ObjModule.mjs:23-26 | with three numbers, w is 1; with four, w is the fourth |
| ObjModule.Entry | scripts/ObjModule.mjs:56-60 | a group always adds its vertex number minus 1; its texture (normal) entry is the second (third) number minus 1 exactly when that number is present and not 0, else nothing |
| ObjModule.ListAt | scripts/ObjModule.mjs:63-65 | `at(offset)` is defined exactly for offsets in [-length, length): element offset when it is not negative, element length + offset when it is |
| ObjModule.Slice | scripts/ObjModule.mjs:84-86 | `slice(i, i + 3)` inside the list is the sub-list |
| ObjModule.CommentIgnored | scripts/ObjModule.mjs:18 | text from the first `#` on has no effect |
| ObjModule.BlankLineIgnored | scripts/ObjModule.mjs:18-19 | a blank or comment-only line changes nothing |
| ObjModule.UnknownCommandIgnored | scripts/ObjModule.mjs:22-90 | a line whose command is not v, vt, vn, mtllib, usemtl or f changes nothing |
| ObjModule.Step | scripts/ObjModule.mjs:18-90 | one line of the loop; it only appends to the output lists |
| ObjModule.Run | scripts/ObjModule.mjs:17-47 | the loop over the lines; the current material is the one of the latest `usemtl` line (its words joined with `#`), or none |
| ObjModule.ChunksCarryMaterial | scripts/ObjModule.mjs:81-88 | every triangle of a face carries the material it was given |
| ObjModule.FaceTrianglesCarryLastMaterial | scripts/ObjModule.mjs:82-83 | the triangles a face line adds carry the material of the latest `usemtl` before it |
| ObjModule.OutputKeepsFileOrder | scripts/ObjModule.mjs:17-91 | lines only append: the output after the first lines is a prefix of the final output, list by list |
| ObjModule.Fan | scripts/ObjModule.mjs:72-79 | the reference fan: 3(n - 2) entries |
| ObjModule.FanAt | scripts/ObjModule.mjs:72-79 | triangle k of the fan is (v0, v(k+1), v(k+2)) |
| ObjModule.GrowReusesEnds | scripts/ObjModule.mjs:62-78 | from the fourth group on, a list gets its first entry, its last entry and then the new one |
| ObjModule.BuildIsFan | scripts/ObjModule.mjs:56-79 | when every group has an entry, `add` and `reuse` build exactly the fan |
| ObjModule.ListAfterIsFan | scripts/ObjModule.mjs:56-79 | the same for a face's vertex, texture or normal list |
| ObjModule.ListAfterEmpty | scripts/ObjModule.mjs:58-69 | a list no group adds to stays empty, since `reuse` pushes nothing from an empty list |
| ObjModule.ChunksCount | scripts/ObjModule.mjs:81 | 3c vertex entries give c triangles |
| ObjModule.ChunkAt | scripts/ObjModule.mjs:81-88 | triangle k holds positions 3k to 3k + 2 of each list |
| ObjModule.FaceTriangleAt | scripts/ObjModule.mjs:49-88 | triangle k of a face has vertex indices g0 - 1, g(k+1) - 1, g(k+2) - 1 and the current material |
| ObjModule.FaceTriangleCount | scripts/ObjModule.mjs:72-88 | a face of n >= 3 groups gives n - 2 triangles |
| ObjModule.FaceIsFan | scripts/ObjModule.mjs:49-88 | a face of n >= 3 groups becomes n - 2 triangles fanned around its first vertex |
| ObjModule.FaceTextureAt | scripts/ObjModule.mjs:58-88 | when every group has a non-zero texture number, triangle k's texture indices are t0 - 1, t(k+1) - 1, t(k+2) - 1 |
| ObjModule.FaceTexturesAreFan | scripts/ObjModule.mjs:58-88 | when every group has a non-zero texture number, the texture indices follow the same fan |
| ObjModule.FaceNormalAt | scripts/ObjModule.mjs:59-88 | when every group has a non-zero normal number, triangle k's normal indices are n0 - 1, n(k+1) - 1, n(k+2) - 1 |
| ObjModule.FaceNormalsAreFan | scripts/ObjModule.mjs:59-88 | when every group has a non-zero normal number, the normal indices follow the same fan |
| ObjModule.EmptyTextureNumberSkipped | scripts/ObjModule.mjs:58-59 | with `Number("")` = 0, a face of `v//n` elements gives triangles with no texture indices and the normal fan |
| ObjModule.FaceWithoutAttributes | scripts/ObjModule.mjs:58-86 | a face of bare vertex numbers gives triangles with empty texture and normal index lists |
| ObjModule.ReuseEntries | scripts/ObjModule.mjs:62-70 | `reuse(offset)` on the three lists: the vertex entry at the offset is always pushed, the texture and normal ones only when defined |
| ObjModule.AddEntries | scripts/ObjModule.mjs:56-60 | `add(vertex, texture, normal)` on the three lists |
| ObjModule.GroupEntries | scripts/ObjModule.mjs:73-78 | one pass of the group loop: from the fourth group on, reuse the first and the one-but-last entries, then add the group's own |
| ObjModule.BuildFace | scripts/ObjModule.mjs:72-79 | the group loop builds the three lists `ListAfter` specifies |
| ObjModule.PushTriangles | scripts/ObjModule.mjs:81-88 | the chunk loop appends exactly the face's triangles |
| ObjModule.ParseObj | scripts/ObjModule.mjs:9-94 | the parser returns `ParseObjSpec(raw)`, the line-by-line fold the lemmas above are about |
| Wavefront.Lookup | src/lib/wavefront.ts:65 | `vertices[vertex - 1]` is defined exactly for an index among the vertices read so far |
| Wavefront.Attribute | src/lib/wavefront.ts:66-67 | `texture ? texture - 1 : NaN`: defined exactly when the number is present and not 0 |
| Wavefront.TriangleOf | src/lib/wavefront.ts:55-68 | one corner per element, each with its vertex index, resolved vertex, texture index and normal index |
| Wavefront.Step | src/lib/wavefront.ts:29-71 | a line fails exactly when it is a face without 3 elements, with that count as the error |
| Wavefront.Run | src/lib/wavefront.ts:25-53 | the loop over the lines; a successful parse has no non-triangular face |
| Wavefront.NoBadFaceSucceeds | src/lib/wavefront.ts:49-53 | a file whose faces are all triangles parses |
| Wavefront.FirstBadFaceFails | src/lib/wavefront.ts:25-53 | a file fails with the element count of its first non-triangular face |
| Wavefront.FailureHasBadFace | src/lib/wavefront.ts:49-53 | a failed parse has a non-triangular face |
| Wavefront.OneTrianglePerFace | src/lib/wavefront.ts:49-70 | a successful parse has one triangle per face line, each with 3 corners in every list |
| Wavefront.ForwardReferenceUnresolved | src/lib/wavefront.ts:62-65 | a corner naming a vertex not yet read resolves to `undefined` |
| Wavefront.FailureSticks | src/lib/wavefront.ts:25-53 | once the parse of a prefix throws, the whole parse throws the same error |
| Wavefront.StepAppends | src/lib/wavefront.ts:29-70 | one line keeps the vertices and triangles read so far; a face line appends exactly `TriangleOf` its elements and those vertices |
| Wavefront.TrianglesKeepFileOrder | src/lib/wavefront.ts:25-71 | after a successful parse, every prefix of the lines parsed, and its triangles are a prefix of the final triangles |
| Wavefront.FaceLineTriangle | src/lib/wavefront.ts:49-70 | the triangle of face line l sits right after those of the earlier lines and is `TriangleOf` its elements and the vertices read before it |
| Wavefront.BuildTriangle | src/lib/wavefront.ts:62-68 | the element loop builds `TriangleOf` |
| Wavefront.ParseObj | src/lib/wavefront.ts:19-76 | the parser returns or throws `ParseObjSpec(raw)` |
| Scenes.Centre | src/lib/Scene.ts:18 | the centre is half the size: centre + centre = size |
| Scenes.VertexToScreen | src/lib/Scene.ts:108-110 | the third component is the view-space z unchanged; the screen point is the centre plus the pixel offset |
| Scenes.XY | src/lib/Scene.ts:47-49 | `v.xy` keeps x and y |
| Scenes.Ceil | src/lib/Scene.ts:41-42 | `ceil` gives the least integer not below the value |
| Scenes.Min3 | src/lib/Scene.ts:34-35 | the least of three values |
| Scenes.Max3 | src/lib/Scene.ts:36-37 | the greatest of three values |
| Scenes.WindowOf | src/lib/Scene.ts:39-42 | on a target of at least one pixel, startX and endX lie in [0, width - 1] and startY and endY in [0, height - 1] |
| Scenes.WindowCoversBoundingBox | src/lib/Scene.ts:34-45 | every target pixel inside the corners' bounding box is in the scanned window |
| Scenes.PixelStep | src/lib/Scene.ts:46-91 | one pixel: it appends calls exactly when the inside test accepts the pixel, first a depth test of that pixel at `depthAt`, then a plot exactly when the target does not reject that test |
| Scenes.ScanRow | src/lib/Scene.ts:45-92 | one row: the calls only extend the history |
| Scenes.ScanRows | src/lib/Scene.ts:44-93 | the rows of the window: the calls only extend the history |
| Scenes.DrawTriangle | src/lib/Scene.ts:29-93 | one triangle: the calls only extend the history |
| Scenes.DrawTriangles | src/lib/Scene.ts:28-94 | a model's triangles: the calls only extend the history |
| Scenes.DrawModels | src/lib/Scene.ts:25-95 | the models: the calls only extend the history |
| Scenes.PixelStepSound | src/lib/Scene.ts:46-91 | one pixel: the calls stay in the target, and a plot follows a passed depth test at the same depth |
| Scenes.ScanRowSound | src/lib/Scene.ts:45-92 | the same for one row of the window |
| Scenes.ScanRowsSound | src/lib/Scene.ts:44-93 | the same for all rows of the window |
| Scenes.DrawTriangleSound | src/lib/Scene.ts:29-93 | the same for a triangle |
| Scenes.DrawTrianglesSound | src/lib/Scene.ts:28-94 | the same for a model's triangles |
| Scenes.DrawModelsSound | src/lib/Scene.ts:21-96 | on a target of at least one pixel, a render only appends calls for pixels of the target, and plots a pixel only right after a depth test of that pixel, at that depth, which the target did not reject |
| Scenes.BehindCameraSkipped | src/lib/Scene.ts:29-32 | a triangle with a corner whose view-space z is <= 0 makes no call at all, neither a depth test nor a plot |
| Scenes.ScanRowFromTriangle | src/lib/Scene.ts:45-55 | each call for a row is for a window pixel the inside test accepts, at the depth interpolated there |
| Scenes.ScanRowsFromTriangle | src/lib/Scene.ts:44-55 | the same for all rows |
| Scenes.DrawTriangleStaysInside | src/lib/Scene.ts:29-55 | every call for a triangle is for a pixel of its clamped window that the inside test accepts, at the depth interpolated there |
| Scenes.RowInsideExactly | src/lib/Scene.ts:45-52 | the row reference holds exactly the accepted pixels of the row, each once, left to right |
| Scenes.WindowInsideExactly | src/lib/Scene.ts:44-52 | the window reference holds exactly the accepted window pixels, each once, in row-major order |
| Scenes.ScanRowTestsInside | src/lib/Scene.ts:45-55 | a row's depth tests are exactly the row reference's pixels, in order |
| Scenes.ScanRowsTestsInside | src/lib/Scene.ts:44-55 | the window's depth tests are exactly the window reference's pixels, in order |
| Scenes.ScanRowAnswers | src/lib/Scene.ts:55-91 | each depth test of a row is followed at once by its plot, in the shader's colour, exactly when the target does not reject it |
| Scenes.ScanRowsAnswers | src/lib/Scene.ts:55-91 | the same for all rows |
| Scenes.DrawTriangleTestsEveryInsidePixel | src/lib/Scene.ts:29-91 | for a triangle in front of the camera, every accepted window pixel is depth-tested exactly once, in row-major order, and plotted right after unless rejected |
| Scenes.DrawModelsInOrder | src/lib/Scene.ts:25 | models are drawn in list order: drawing a concatenation is drawing one list, then the other |
| Scenes.DrawTrianglesInOrder | src/lib/Scene.ts:28 | triangles are drawn in list order |
| Scenes.DepthTarget.DepthTest | src/lib/Scene.ts:55 | the answer is the target's decision given its history; the test is recorded |
| Scenes.DepthTarget.PlotAtDepth | src/lib/Scene.ts:86-91 | the plot is recorded with its pixel, depth and colour |
| Scenes.DepthTarget.constructor | src/lib/RenderTarget.ts:8-13 | a target of the given size with an empty history |
| Scenes.DepthTarget.Size | src/lib/RenderTarget.ts:15-17 | the size is `SizeOf(width, height)`, as for the render target |
| Scenes.Scene.constructor | src/lib/Scene.ts:13-19 | the centre is half the target's size |
| Scenes.Scene.Render | src/lib/Scene.ts:21-96 | the calls made on the target are exactly `DrawModels`, the fold the lemmas above are about |
| Scenes.Scene.Draw | src/lib/Scene.ts:29-93 | one triangle: the near-plane skip, then the scan of the clamped window, exactly as `DrawTriangle` |

## Left out

- The esbuild plugin around the build-time parser (`scripts/ObjModule.mjs:96-121`), file reading, `debug(model.toString())` in `render`, and `RenderTarget.data` (a DOM `ImageData`). These are I/O.
- `Number(...)` is not modelled. Coordinate tokens go through a parameter `toNumber` and face numbers through `toIndex`. NaN (for example a face element that is not a number) is therefore not represented. In `wavefront.ts`, the NaN written for a missing texture or normal index is `None`. `Number("")` is 0; `ObjModule.EmptyTextureNumberSkipped` assumes this of `toIndex` to show that the empty texture number of a `v//n` element is skipped.
- Words: its own contract states only that the words are non-empty and hold no whitespace; `ObjText.WordsArePieces` states their contents and order, kept apart so the parser proofs do not unfold it.
- Whitespace: `trim` and `\s` are modelled for the ASCII whitespace characters only. Unicode spaces are not.
- `float2.random`, `float3.random` and the random source. `RandomShaders.DefaultPalette` takes the random draws as a parameter.
- Floating point. Every number is an exact real. Rounding error, infinities and NaN are not modelled.
- The perspective projection in `vertexToScreen` (`src/lib/Scene.ts:101-108`): the camera transform, `tan`, and the division by view z. These are the parameters `toView` and `pixelOffset`. Only the third component and the centre offset are modelled.
- The depth, texture-coordinate and normal interpolation in `render` (`src/lib/Scene.ts:53-84`). They rely on `reciprocal`, `float3.dot`, `div`, `abs` and `zero`, which are not in the shown files. The depth is the parameter `depthAt`, and the shader colour at a pixel is the parameter `colour`. Both receive the projected corners, so they can depend on the model's transform as the interpolated values do.
- What `depthTest` and `plotAtDepth` do to the target's depth and colour buffers. The target's state is the history of calls made on it. Its depth-test answer is an open function of that history.
- Scenes.Scene.Render: requires every triangle to have at least three vertices, every vertex of every triangle defined (`Scenes.AllDrawable`). The source projects each entry of `triangle.vertices`, so an undefined one anywhere in the list, or a missing third corner, throws while projecting, and that path is not modelled.
- Scenes.Scene.Draw: requires the same of its one triangle (`Scenes.Drawable`: at least three vertices, every vertex defined), for the same reason.
- Scenes.DrawModelsSound: is stated for targets of at least one pixel. On a zero-width or zero-height target the clamps in `src/lib/Scene.ts:39-42` give -1, and the scan visits pixel -1.
- `round`, `floor`, `ceil`, `min`, `max` and `tan` are imported from `./maths` (`src/lib/Scene.ts:5`, `src/lib/Texture.ts:4`), but the shown `src/lib/maths.ts` does not define them. Nor do the shown files define `saturate`, `float2.div` (`src/lib/Scene.ts:18`), `float3.xy` (`src/lib/Scene.ts:47`), `float3.add` or `float3.mul`. All are modelled by their usual meaning (`tan` only as part of the projection parameter).
- Helpers.CreateImage: takes integer sizes. In the source a fractional size still runs the loop up to the next integer.
- `createImage` pushes each row before filling it. Since the model builds values, the resulting image is the same.
- `MaterialShader` indexes a plain JavaScript object, so inherited property names (e.g. `constructor`) would also find a value. The model's table is a map holding only its own entries.
- The other shaders (`LitShader`, `TextureShader`, `LitTextureShader`), `Camera`, `Transform` and `createTestImage01` are not part of this model.
