# Simple3DEngine shapes core in Dafny

A model of the geometry core of a small renderer that draws a rotating solid
through a virtual camera, with proofs about its discrete logic. Sines, cosines
and vector normalisation are not computed: they arrive as a `MathLib` value
(`pi`, `sin`, `cos`, `normalize`), so every proof holds for any such functions.
Coordinates are real triples.

- `vectors.dfy` (module `VectorMath`): `Vec3`, `Vec2`, the vector operations the
  shapes use and the `MathLib` value.
- `camera.dfy` (module `CameraView`): the `Camera` class. It holds an azimuth
  and an elevation in degrees, an origin, and a cached frame (camera vector and
  two view-plane axes). Points are projected onto the view plane by two dot
  products. The azimuth wraps with C#'s truncating `%` (`CsRem360`). The
  elevation mutators silently ignore out-of-range requests. `ModifyElevation`
  changes the elevation but leaves the cached frame as it was, and the
  constructor never computes the frame at all.
- `polygon.dfy` (module `PolygonFace`): the `Polygon` class, a triangle with a
  unit surface vector whose sign is chosen to point away from the solid's
  origin. `NewPolygon` is the throwing constructor: it returns a `Failure`
  where the source throws `ArgumentException`.
- `cuboid.dfy` (module `CuboidShape`): the `Cuboid` class. It has an integer
  phase that wraps with C#'s `%`. A vertex dictionary (a `map`) is cleared and
  refilled with keys 1..8, key k + 4 directly below key k. Twelve triangles are
  built from the fixed table of six four-key walls.
- `fpscounter.dfy` (module `FrameCounter`): the `FpsCounter` class. It is a
  first-in first-out queue of one-second deadlines in clock ticks, held as a
  `seq<int>` whose index 0 is the front. The two clock readings of `Update` are
  parameters.

The azimuth wrap keeps the sign of its input, so the azimuth lies in
(-360, 360) rather than [0, 360). Of the mutators, only the two azimuth
setters and `SetElevation` recompute the frame; `GetCameraVector` recomputes it
too. `ModifyElevation` does not.

## Model

| member | source | states |
|---|---|---|
| CameraView.CsRem360 | shapes/Camera.cs:36 | the truncated remainder `a % 360` lies strictly between -360 and 360 and has the sign of `a` |
| CameraView.CsRem360Unique | shapes/Camera.cs:36 | `a % 360` is the only value differing from `a` by a whole number of turns, with magnitude under 360 and the sign of `a` |
| CameraView.CsRem360Congruent | shapes/Camera.cs:36 | `a - a % 360` is a whole number of turns |
| CameraView.CsRem360KeepsSmall | shapes/Camera.cs:40-44 | an azimuth already in (-360, 360) is not changed by the wrap |
| CameraView.TurnRightFromStart | shapes/Camera.cs:40-44 | from azimuth 0, adding -2.5 gives -2.5 and not 357.5 |
| CameraView.FrameFromTrig | shapes/Camera.cs:61-77 | the frame FrameOf computes sees the azimuth only through its sine and cosine |
| CameraView.WholeTurns | shapes/Camera.cs:61-77 | with sine and cosine of period 2π, whole turns added to an angle change neither |
| CameraView.RadiansOfTurns | shapes/Camera.cs:46-49 | n whole turns in degrees are n full turns of 2π in radians |
| CameraView.WrapKeepsFrame | shapes/Camera.cs:36-37 | with sine and cosine of period 2π, the frame of `a % 360` is the frame of `a`: the wrap never turns the view |
| CameraView.Axis1IgnoresElevation | shapes/Camera.cs:67-71 | the horizontal view axis depends on the azimuth alone |
| CameraView.Project | shapes/Camera.cs:95-98 | each view coordinate is the point's component along the axis minus the origin's |
| CameraView.Camera.CastToLocal | shapes/Camera.cs:92-99 | the projection onto the camera's two axes through its origin, whatever the camera vector; the origin itself maps to (0, 0) |
| CameraView.ProjectTranslationInvariant | shapes/Camera.cs:92-99 | moving the camera origin and the point by the same offset leaves the projection unchanged |
| CameraView.ProjectOriginIsCentre | shapes/Camera.cs:92-99 | the camera origin projects to (0, 0) |
| CameraView.ProjectIgnoresCameraVector | shapes/Camera.cs:94-98 | the projection does not depend on the camera vector (the discarded `s`) |
| CameraView.Camera.constructor | shapes/Camera.cs:18-26 | a new camera has azimuth 0, elevation 90, zero origin and camera vector, and zero axes because no frame is computed |
| CameraView.Camera.SetAzimuth | shapes/Camera.cs:34-38 | azimuth becomes `a % 360`, the frame is recomputed from the angles, elevation and origin are untouched, and the range invariant is kept |
| CameraView.Camera.AddToAzimuth | shapes/Camera.cs:40-44 | azimuth becomes `(azimuth + d) % 360`, the frame is recomputed, and the range invariant is kept |
| CameraView.Camera.CalculateCameraVector | shapes/Camera.cs:59-78 | the cached frame becomes the frame of the current azimuth and elevation; nothing else changes |
| CameraView.Camera.GetCameraVector | shapes/Camera.cs:80-85 | recomputes the frame and returns its camera vector |
| CameraView.Camera.CastArrayToLocal | shapes/Camera.cs:107-119 | a fresh array of the same length whose entry i is the projection of point i minus the offset |
| CameraView.Camera.CastArrayToLocalNoOffset | shapes/Camera.cs:121-124 | a fresh array of the same length whose entry i is the projection of point i |
| CameraView.Camera.ModifyOrigin | shapes/Camera.cs:130-133 | the origin moves by the change and nothing else changes |
| CameraView.Camera.ModifyElevation | shapes/Camera.cs:139-145 | the change is applied exactly when the result lies in [0, 180], otherwise nothing changes; the frame is never recomputed; the range invariant is kept |
| CameraView.Camera.SetElevation | shapes/Camera.cs:150-157 | for 0..180 the elevation is set and the frame recomputed; otherwise the whole camera is unchanged; the range invariant is kept |
| PolygonFace.OrientedNormal | shapes/Polygon.cs:34-43 | the surface vector is the raw normal or its negation, never points toward the origin, and is the raw normal whenever that does not |
| PolygonFace.OrientationIgnoresWinding | shapes/Polygon.cs:34-43 | swapping the second and third vertices gives the same surface vector unless the first vertex lies in the plane through the origin orthogonal to the normal |
| PolygonFace.Polygon.constructor | shapes/Polygon.cs:25-26 | a three-vertex group is stored in order and its surface vector points away from the origin |
| PolygonFace.Polygon.CalculateSurfaceVector | shapes/Polygon.cs:32-44 | only the surface vector changes, and it is recomputed from the vertices alone, pointing away from the origin |
| PolygonFace.NewPolygon | shapes/Polygon.cs:18-27 | fails exactly when the group's size is not 3 (the failure carries the size, where the source's exception has a fixed message); otherwise a fresh polygon with the group as its vertices and the oriented normal |
| CuboidShape.CsIntRem | shapes/Cuboid.cs:61 | the truncated integer remainder lies strictly between -m and m and has the sign of the dividend |
| CuboidShape.CsIntRemCongruent | shapes/Cuboid.cs:61 | the truncated integer remainder differs from the dividend by a whole multiple of the divisor |
| CuboidShape.ZeroIncrementKeepsPhase | shapes/Cuboid.cs:61 | a zero increment leaves a phase in (-360, 360) unchanged |
| CuboidShape.FullTurnKeepsPhase | shapes/Cuboid.cs:61 | an increment of 360 restores a phase in [0, 360) |
| CuboidShape.PhaseStaysInRange | shapes/Cuboid.cs:61 | non-negative increments keep a phase in [0, 360) while the sum fits a 32-bit int |
| CuboidShape.VertexLayout | shapes/Cuboid.cs:64-81 | the vertex dictionary has exactly the keys 1..8 |
| CuboidShape.AddColumn | shapes/Cuboid.cs:69-80 | each loop round adds two keys not yet present, so Dictionary.Add never throws, and leaves keys 1..j and 5..j+4 with their layout vertices |
| CuboidShape.LayoutFromEntries | shapes/Cuboid.cs:64-81 | after the four rounds the dictionary is exactly the layout of the phase |
| CuboidShape.LayoutColumns | shapes/Cuboid.cs:69-79 | vertices k and k + 4 share their X and Y |
| CuboidShape.LayoutRings | shapes/Cuboid.cs:72-78 | keys 1..4 lie at height Origin.Z + Size·cos(π/4), keys 5..8 at Origin.Z + Size·cos(3π/4) |
| CuboidShape.WallsAreQuads | shapes/Cuboid.cs:23-31 | the table `VerticeGroups` has six walls of four distinct keys in 1..8 |
| CuboidShape.EveryVertexOnThreeWalls | shapes/Cuboid.cs:23-31 | every key 1..8 lies on exactly three walls of `VerticeGroups`, as the corners of a closed six-sided solid do |
| CuboidShape.FaceKeys | shapes/Cuboid.cs:98-101 | every face names three keys |
| CuboidShape.FaceKeysValid | shapes/Cuboid.cs:23-31 | every key of the wall table used by a face lies in 1..8, and the three keys of a face are distinct |
| CuboidShape.WallTrianglesShareEdge | shapes/Cuboid.cs:98-101 | the two triangles of a wall share the edge of its second and third keys |
| CuboidShape.FaceVertices | shapes/Cuboid.cs:101 | every face gets exactly three vertices, so the arity exception is unreachable |
| CuboidShape.FaceVerticesOfWall | shapes/Cuboid.cs:96-102 | face 2g + i holds the vertices of keys i, i + 1 and i + 2 of wall g, all present in the dictionary |
| CuboidShape.Cuboid.constructor | shapes/Cuboid.cs:44-54 | phase 0, rotation 0, the given origin and size, the layout of phase 0 and twelve fresh faces built from it |
| CuboidShape.Cuboid.RecreateVerticesBy | shapes/Cuboid.cs:59-82 | the phase becomes `(phase + inc) % 360`, the dictionary becomes the layout of the new phase, and the faces, origin, size and rotation are untouched |
| CuboidShape.Cuboid.RecreateVertices | shapes/Cuboid.cs:84-87 | the phase stays, the dictionary becomes the layout of the current origin (a public field a caller may have moved) and size, and a dictionary that already matched is left as it was |
| CuboidShape.Cuboid.InitializePolygons | shapes/Cuboid.cs:92-105 | exactly twelve fresh polygons, polygon 2g + i built from keys i, i + 1, i + 2 of wall g with the cuboid's origin as reference |
| FrameCounter.Expire | shapes/FpsCounter.cs:26-34 | at most the front entry is removed, and exactly when the queue is non-empty and the front deadline minus the snapshot is negative |
| FrameCounter.UpdateShape | shapes/FpsCounter.cs:24-44 | after an update the new deadline is at the back, the older entries keep their order less possibly the front, and the count grows by one or stays |
| FrameCounter.UpdateKeepsSorted | shapes/FpsCounter.cs:41-43 | a sorted queue stays sorted when the new deadline is no earlier than any queued one |
| FrameCounter.ReplayKeepsSorted | shapes/FpsCounter.cs:24-44 | from an empty counter, a clock that never goes backwards keeps the queue sorted with the latest deadline at the back and at most one entry per update |
| FrameCounter.FpsCounter.constructor | shapes/FpsCounter.cs:13-16 | a new counter has no frames and a frame count of 0 |
| FrameCounter.FpsCounter.FrameCount | shapes/FpsCounter.cs:18-22 | the frame count is the number of queued deadlines |
| FrameCounter.FpsCounter.Update | shapes/FpsCounter.cs:24-37 | the queue becomes the expired queue plus the new deadline, so the count is positive and grows by one or stays |
| FrameCounter.FpsCounter.AddFrame | shapes/FpsCounter.cs:39-44 | the deadline one second (10,000,000 ticks) after the reading is appended at the back |

## Left out

- Trigonometry, `Math.PI` and `Vector3.Normalize` are parameters (`MathLib`), not computed. The frame's orthonormality is not modelled because it rests on trigonometric identities.
- The `Math.Round(..., 15)`, `Math.Round(..., 5)` and `(float)` casts in the frame computation and the vertex positions are not modelled. All arithmetic is exact real arithmetic.
- Normalising a zero vector (a degenerate triangle) yields NaN in the source. The model keeps `normalize` abstract.
- The vertex loop counts over a `double` angle from π/4 in steps of π/2. The model counts j = 0..3 with angle π/4 + j·π/2.
- `DateTime.UtcNow` is replaced by the `snapshotTicks` and `nowTicks` parameters of `Update` and `AddFrame`.
- CuboidShape.Cuboid.RecreateVerticesBy: the 32-bit wrap-around of `Phase + phaseIncrement` is not modelled; the sum is an unbounded integer. The source only ever passes 0, so the sum stays inside (-360, 360).
- FrameCounter.FpsCounter.Update: `long` overflow in `Frames.Peek() - snapshot` and in the deadline sum is not modelled; ticks are unbounded integers.
- The constructors of `Camera`, `Polygon` and `Cuboid` take the `MathLib` value as an extra parameter.
- CameraView.Camera.constructor: the closing `ModifyOrigin(0, 0, 0)` is written as the assignment of the zero origin it amounts to.
- CuboidShape.Cuboid.RecreateVerticesBy is the private `RecreateVertices(int)`, renamed because Dafny has no overloading. CameraView.Camera.CastArrayToLocalNoOffset likewise is the one-argument `CastArrayToLocal`.
- PolygonFace.Polygon.CalculateSurfaceVector requires three stored vertices. The source's public `List<Vector3>` could be shortened by a caller, and the method would then throw an index exception, or lengthened, and the source would then compute from the first three vertices; neither path is modelled.
- The discarded camera-vector component `s` in `CastToLocal` and the unused `Rotation` field are not used by anything; `Rotation` is kept as a field set to 0.
- `SKPoint` and `Vector2` are both the pair `Vec2`.
- shapes/Form1.cs (window, timer, key handling, drawing and shading) is not part of this model. It only calls the camera, cuboid and counter operations modelled here.
