# The rotating "V" logo with lightning

A model of the WebGL logo demo: a small column-major 4x4 matrix library, a
lightning bolt produced by recursive midpoint displacement, the extruded "V"
mesh with per-face normals, and the per-frame `animate` loop that turns the
logo, recomputes its normal matrix and runs the lightning's idle/active state
machine.

The Dafny modules follow the source files:

- `Mat4` (mat4.dfy) models js/utils.js. A matrix is a `seq<real>` of 16
  entries with entry `4 * col + row` at (row, col), as in the source's
  `Float32Array`. Each operation is a pure function on those sequences. The
  class `Buffer` is the `Float32Array` the methods overwrite entry by entry,
  and each method is proved to leave exactly the function's result.
  `invert` is specified by the adjugate divided by the determinant. It is
  proved to be a two-sided inverse whenever the determinant is not zero, and
  to return `null` exactly when the determinant is zero.
- `Lightning` (lightning.dfy) models js/lightning.js. `GenerateSegments` is
  the recursion of `generateSegments`. `CreateLightningGeometry` is the
  push loop over its points.
- `Logo` (logo.dfy) models `createVVertices` of js/main.js. The class
  `VertexList` is the `vertices` array that the inner `addTriangle` pushes
  onto.
- `Animation` (animation.dfy) models the `animate` closure of js/main.js.
  `Frame` is one frame on the closure's state and `Trace` is a run of frames.
  The class `Scene` holds the closure's variables and matrix buffers, and its
  `Step` method is proved to do what `Frame` says.
- `Geometry` (geometry.dfy) holds the `[x, y, z]` vectors both files use.

Floating-point numbers are modelled as mathematical reals. `Math.random()` is
replaced by the sequence of numbers a computation draws, in the order the
source draws them. `Math.sqrt`, `Math.cos`, `Math.sin` and `Math.tan` are
parameters, each with the one property the proofs need.

## Model

| member | source | states |
|---|---|---|
| Mat4.Buffer.constructor | js/utils.js:2-4 | a new buffer of n entries holds n zeros |
| Mat4.CreateMatrix4 | js/utils.js:2-4 | returns a fresh 16-entry buffer whose entries are all zero |
| Mat4.Identity | js/utils.js:6-12 | afterwards the buffer holds the identity matrix |
| Mat4.MulIdentity | js/utils.js:6-12 | the identity is neutral for the matrix product on both sides |
| Mat4.Perspective | js/utils.js:14-36 | afterwards the buffer holds the perspective projection for f = 1/tan(fovy/2), aspect, near and far |
| Mat4.PerspectiveDepthRange | js/utils.js:14-36 | the projection maps a point on the near plane to clip depth -w and one on the far plane to +w, with w the point's distance |
| Mat4.Translate | js/utils.js:38-44 | only the fourth column changes: it gains x, y and z times the first three columns |
| Mat4.TranslateIsPostMultiply | js/utils.js:38-44 | `translate` is right-multiplication by the translation matrix |
| Mat4.TranslateIdentity | js/utils.js:38-44 | on the identity, `translate` leaves (x, y, z, 1) in entries 12-15 |
| Mat4.RotateY | js/utils.js:46-62 | columns 0 and 2 are replaced by their rotation by the given cosine and sine; columns 1 and 3 are unchanged |
| Mat4.RotateYIsPostMultiply | js/utils.js:46-62 | `rotateY` is right-multiplication by the rotation about the Y axis |
| Mat4.RotateYIdentity | js/utils.js:46-62 | on the identity, `rotateY` leaves c, s, -s, c in entries 0, 2, 8, 10; half a turn gives -1, 0, 0, -1 |
| Mat4.Invert | js/utils.js:64-108 | returns null, leaving `out` untouched, exactly when the determinant is zero; otherwise returns `out` holding the inverse of the old `a`, even when `out` is `a` |
| Mat4.AdjugateTimes | js/utils.js:64-107 | the cofactor matrix `invert` builds, times the input, is the determinant times the identity |
| Mat4.TimesAdjugate | js/utils.js:64-107 | the input times the cofactor matrix is the determinant times the identity |
| Mat4.InverseIsInverse | js/utils.js:64-108 | when the determinant is not zero, the result of `invert` is a two-sided inverse of the input |
| Mat4.InverseIdentity | js/utils.js:64-108 | the identity has determinant 1 and is its own inverse |
| Mat4.RotationYInverse | js/utils.js:64-108 | a Y rotation has determinant c² + s²; when that is 1, its inverse is its transpose and its normal matrix is itself |
| Mat4.Transpose | js/utils.js:110-135 | `out` holds the transpose of the old `a`, whether or not `out` and `a` are the same buffer |
| Mat4.TransposeInPlace | js/utils.js:111-127 | the in-place branch, where `out` is `a`, leaves the transpose of the old entries in the same buffer |
| Mat4.TransposeInto | js/utils.js:128-133 | the copying branch writes the transpose of `a` into a different buffer |
| Mat4.TransposeInvolutive | js/utils.js:110-135 | transposing twice gives back the matrix |
| Lightning.GenerateSegments | js/lightning.js:4-27 | n levels of subdivision give 2^n + 1 points, starting at `start` and ending at `end` |
| Lightning.NoIterations | js/lightning.js:5-7 | zero levels of subdivision give exactly [start, end] |
| Lightning.DrawsClosedForm | js/lightning.js:4-27 | n levels of subdivision draw 2^(n+1) - 2 random numbers, two per midpoint |
| Lightning.MidpointNear | js/lightning.js:9-21 | with draws in [0, 1), the new point is within displacement/2 of the true midpoint in x and z, and its y is the midpoint's |
| Lightning.SplitAtMidpoint | js/lightning.js:21-26 | the points are the left half's points, then the right half's points without their first, joined at the displaced midpoint |
| Lightning.HeightInterpolates | js/lightning.js:4-27 | point i's height is start.y + (end.y - start.y) · i / 2^n: heights are never displaced |
| Lightning.HeightBetweenEnds | js/lightning.js:4-27 | every point's height lies between the heights of the two ends |
| Lightning.SpreadBounded | js/lightning.js:13-26 | with draws in [0, 1), every point lies within the initial displacement of the ends' bounding box in x and z |
| Lightning.Flatten | js/lightning.js:33-36 | three numbers per point: entries 3i, 3i + 1 and 3i + 2 are point i's x, y and z |
| Lightning.FixedDepth | js/lightning.js:30 | five levels take 62 draws and give 33 points |
| Lightning.CreateLightningGeometry | js/lightning.js:29-39 | returns 99 numbers, the coordinates of the five-level bolt with initial displacement 2.0 |
| Lightning.PushCoordinates | js/lightning.js:33-36 | the loop pushes every point's x, y and z in order |
| Logo.Mesh | js/main.js:63-85 | each triangle adds 18 numbers to the vertex list |
| Logo.RecordLayout | js/main.js:79-84 | a triangle's 18 numbers are p1, n, p2, n, p3, n, with the same normal on all three vertices |
| Logo.MeshLayout | js/main.js:79-84 | triangle k's numbers are entries 18k to 18k + 17 of the mesh; later pushes do not disturb them |
| Logo.UnitNormalProperties | js/main.js:67-77 | for a non-degenerate triangle the stored normal has length 1, is orthogonal to both edges from p1, and points the way the winding's cross product does |
| Logo.Normalised | js/main.js:75-77 | dividing a non-zero vector by its length gives a unit vector in the same direction that stays orthogonal to the same vectors |
| Logo.LogoTriangles | js/main.js:96-191 | the logo is sixteen triangles |
| Logo.LogoVerticesOnOutline | js/main.js:87-191 | every vertex is one of the six outline points, on the front face (z = depth/2) or the back face (z = -depth/2) |
| Logo.LogoNormalsOutward | js/main.js:96-191 | every triangle's winding gives a normal that points out of the arm of the V it bounds, as back-face culling needs |
| Logo.LogoNonDegenerate | js/main.js:96-191 | no logo triangle is degenerate, so `len` is never zero |
| Logo.LogoNormalisable | js/main.js:96-191 | every logo triangle has a well-defined unit normal |
| Logo.LogoMesh | js/main.js:59-194 | the logo's vertex data is 288 numbers, 16 triangles of 18 |
| Logo.VertexList.constructor | js/main.js:63 | the vertex list starts empty |
| Logo.VertexList.AddTriangle | js/main.js:66-85 | appends the triangle's three vertices, each followed by the triangle's unit normal, and changes nothing already in the list |
| Logo.AddCapFaces | js/main.js:96-118 | the front and back faces add the first four triangles to the empty list |
| Logo.AddSideFaces | js/main.js:120-191 | the six side faces add the remaining twelve triangles in order |
| Logo.CreateVVertices | js/main.js:59-194 | returns the mesh of the sixteen logo triangles in the source's order |
| Animation.Trace | js/main.js:289-394 | a run of frames starts from the given state, and each state is the one the previous frame leaves |
| Animation.RotationAdvances | js/main.js:289-291 | after i frames the rotation has grown by 0.02 · i |
| Animation.RotationAt | js/main.js:289-291 | the state i frames into a run has rotation `start + 0.02 · i` |
| Animation.TriggerExactly | js/main.js:338-340 | a bolt is generated exactly when the lightning is idle and the trigger draw is below 0.02; that frame already draws it and leaves the timer at 0.95 and the vertex count at 33 |
| Animation.IdleFrame | js/main.js:338-391 | an idle frame that does not trigger only turns the logo: nothing is drawn and the lightning state is unchanged |
| Animation.NoBoltWhileActive | js/main.js:338-364 | while a bolt is active no new bolt is generated, and the active bolt is drawn |
| Animation.BoltEnds | js/main.js:343-361 | with draws in [0, 1), a bolt starts at height 5 with x in [-5, 5) and z in (-10, -5], ends at height -2 with x in [-5, 5) and z in (-7, -2], and the explosion is at a tenth of the end's x and z |
| Animation.BoltShape | js/main.js:351-352 | a bolt's line strip has 33 points (99 numbers) and runs from the bolt's start to its end |
| Animation.CountdownStep | js/main.js:387-390 | an active frame with j ≥ 1 timer steps left draws the bolt, generates none, leaves j - 1 steps, and stays active exactly when steps remain |
| Animation.Countdown | js/main.js:387-390 | a bolt with timer 0.05 · j stays active and is drawn for j frames, then the lightning is idle |
| Animation.BoltLastsTwentyFrames | js/main.js:338-391 | a triggered bolt is drawn on that frame and the next 19, no other bolt is generated meanwhile, and the lightning is idle after frame 20 |
| Animation.FirstBoltHaltsLoop | js/main.js:361 | as written, a frame stops at `triggerExplosion` exactly when it would have generated a bolt, leaving the timer at 1.0 and no further frame; otherwise it does what `Frame` does |
| Animation.FirstBoltExample | js/main.js:264 | from the initial state, a frame whose draws are all 0 stops as written, where the intended frame would draw the bolt in magenta |
| Animation.NormalMatrixIsModelMatrix | js/main.js:305-310 | the model matrix of a rotation has determinant 1, so `invert` never returns null, and its inverse-transpose is the rotation itself |
| Animation.UpdateNormalMatrix | js/main.js:305-310 | leaves the Y rotation in the model matrix, its inverse in the temporary and the rotation itself in the normal matrix |
| Animation.Scene.constructor | js/main.js:259-289 | the closure starts with rotation 0, the lightning idle, timer 0 and vertex count 0, and three fresh, distinct 16-entry matrix buffers |
| Animation.Scene.Step | js/main.js:290-391 | one call of `animate` changes the state and returns what it draws exactly as `Frame` says; the normal matrix is the rotation, and the model matrix is the identity when a bolt is drawn and the rotation otherwise |
| Animation.Scene.AdvanceLightning | js/main.js:338-391 | the lightning part of a frame changes the state and returns what `LightningFrame` says, leaving the rotation alone; the model matrix is reset to the identity exactly when a bolt is drawn |
| Animation.GenerateBolt | js/main.js:343-352 | the bolt's end points come from the four draws after the trigger draw, and its geometry has 33 points |
| Animation.LaunchBolt | js/main.js:342-352 | returns the bolt of the draws and the vertex count 33 (99 numbers / 3) |

## Left out

- Floating point: every number is a mathematical real. The model does not
  cover `Float32Array` rounding, `NaN` or `Infinity`, nor the double rounding
  of the timer. In doubles, too, the timer reaches `<= 0` on the 20th
  decrement.
- `Math.sqrt`, `Math.cos`, `Math.sin` and `Math.tan` are parameters. The
  model uses them only through `sqrt(x)² = x` and `cos² + sin² = 1`.
  `perspective` takes f = 1/tan(fovy/2) directly.
- Mat4.Perspective: requires aspect ≠ 0 and near ≠ far, because JavaScript
  would divide by zero there and produce `Infinity`, which reals cannot
  represent.
- Lightning.CreateLightningGeometry: returns the numbers as a `seq<real>`
  instead of a `Float32Array`.
- `Math.random()` is the sequence of numbers drawn. Properties that need
  draws in [0, 1) state that as `UnitDraws`.
- WebGL, the DOM and the shaders are not part of this model. This covers
  program and buffer set-up, `gl.bufferData`, uniforms and draw calls, and
  the shader sources in js/lightning.js and js/main.js. The colour draw
  decides Cyan or Magenta in `Frame`, but its `uniform3f` effect is not
  modelled.
- Animation.Scene.Step: the bolt's vertex data goes to a GL buffer in the
  source, so `Scene` keeps only its vertex count. The vertices are
  `BoltVertices` of the frame's bolt.
- The projection matrix set every frame (js/main.js:298-299) depends on the
  canvas size and is not held in `Scene`. `Perspective` models what it
  computes.
- The view matrix set-up (js/main.js:274-275) is covered only by the
  `Translate` lemmas.
- `requestAnimationFrame` scheduling and frame timing are not modelled. A
  run of frames is `Trace` over a list of per-frame draws.
- js/background.js is not part of this model beyond the fact that
  `createCyberGridBackground` (js/background.js:3-126) returns nothing.
- Logo.VertexList.AddTriangle: requires `len ≠ 0`. The source would store
  `NaN` normals for a degenerate triangle. `LogoNonDegenerate` proves that
  no logo triangle is degenerate.
- `createShader` and `createProgram` (js/utils.js:138-163) are WebGL calls
  and are not modelled.

## Findings

| source | as written | input that shows it | evidently intended | confidence | as-written member | corrected member |
|---|---|---|---|---|---|---|
| js/main.js:361 | `bgController` is the return value of `createCyberGridBackground()` (js/main.js:264), which returns nothing (js/background.js:3-126). So `bgController.triggerExplosion(...)` throws on the first bolt. The throw comes before `requestAnimationFrame(animate)` at js/main.js:393, so the animation stops with the lightning active and its timer at 1.0 | the initial state, with a frame whose draws are all 0 (the trigger draw 0 < 0.02) | the explosion position is handed to the background, the bolt is drawn and counted down for 20 frames, and the loop goes on | high, not executed | Animation.FirstBoltExample | Animation.BoltLastsTwentyFrames |
