# Terrain tessellation core, modelled in Dafny

This project models the part of the terrain renderer that does arithmetic rather than call OpenGL or GLFW:

- the start-up loop in `src/main.cpp` that fills the vertex buffer with a `rez × rez` grid of quad patches;
- the tessellation-control shader, which picks per-patch outer and inner tessellation levels from the corners' eye-space depth;
- the tessellation-evaluation shader, which interpolates a generated point across its patch and displaces it by the heightmap;
- the mouse and scroll callbacks of `src/main.cpp` and the global camera state they change;
- the `Camera` record of `camera/camera.cpp` and its input handlers.

The code fixes `rez` at 20; the model takes any `rez >= 1`. Floats are exact `real`s throughout. Each shader is a set of pure functions. The buffer builder is a method with nested loops. The callbacks and the camera handlers are classes whose methods change fields in place.

Modules, one per concern:

- `Geometry` (`geometry.dfy`): vectors and the GLSL built-ins `abs`, `min`, `max`, `clamp`, `mix` and `cross`.
- `PatchGrid` (`patch_grid.dfy`): the patch lattice and the buffer builder `BuildPatchGrid`. The buffer layout is 5 floats (x, y, z, u, v) per control point and 4 control points per patch. The lemmas prove that the patches tile the terrain rectangle exactly and that neighbouring patches share their corners.
- `TessControl` (`tess_control.dfy`): the level-of-detail computation and its crack-avoidance theorem. A shared edge gets the same outer level from both of its patches, for every view. This holds on the grid and on the buffer that the builder produces.
- `TessEval` (`tess_eval.dfy`): bilinear interpolation, the height remap `sample * 64 - 16`, and the displacement along the face normal. The lemmas cover grid patches: the normal is +y, a flat heightmap gives a plane, and neighbouring patches meet along their shared edge.
- `CameraState` (`camera.dfy`): `camera_create` and `camera_process_keyboard`, `_mouse` and `_scroll`.
- `WindowInput` (`window_input.dfy`): `mouse_callback`, `scroll_callback` and the globals they update.

Two things are parameters rather than code:

- The view transform is `eyeZ: Vec3 -> real`, the eye-space z of a model-space point.
- The heightmap is `green: Vec2 -> real`, the green channel sampled at a texture coordinate.

Facts about the code that the model keeps as written:

- **The nearer corner governs an edge.** The control shader takes `min` of the two normalised corner distances. So corners at depths 20 and 800 give their edge the maximum level 64, not the minimum (`TessControl.NearAndFarCornerLevel`).
- **The height remap is fixed.** The evaluation shader computes `green * 64 - 16` with literal constants; there is no configurable scale or shift.
- **Levels are reals.** The control shader writes real-valued levels and leaves the rounding to the hardware's `fractional_odd_spacing`.
- **No load-error path and no fallback mesh.** A failed heightmap load only prints a message. The grid is then built from the uninitialised `width` and `height`.
- **Corner order.** The builder pushes (i, j), (i+1, j), (i, j+1), (i+1, j+1). This is the order of the quad tessellation domain, not a loop around the quad.

The `Camera` of `camera/camera.cpp` is not used by `src/main.cpp`, which keeps its own camera globals. Both are modelled.

## Model

| member | source | states |
|---|---|---|
| Geometry.Abs | src/main.cpp:71 | the result is non-negative and is either x or -x |
| Geometry.Min | src/main.cpp:76-79 | the result is at most both arguments and equals one of them |
| Geometry.Max | src/main.cpp:86-87 | the result is at least both arguments and equals one of them |
| Geometry.Clamp | src/main.cpp:71-74 | the result is in [lo, hi]; it equals x inside the range, lo below it and hi above it |
| Geometry.Mix | src/main.cpp:76-79 | t = 0 gives a and t = 1 gives b; for t in [0,1] with b <= a the result lies between b and a |
| Geometry.MixAntitone | src/main.cpp:76-79 | mixing towards a smaller value never increases as the weight t grows |
| PatchGrid.LatticeX | src/main.cpp:412 | the x coordinate pushed for lattice column i: -W/2 + W*i/rez |
| PatchGrid.LatticeZ | src/main.cpp:414 | the z coordinate pushed for lattice row j: -H/2 + H*j/rez |
| PatchGrid.LatticePoint | src/main.cpp:412-416 | the five floats pushed for lattice node (i, j): position (x, 0, z) and texture coordinate (i/rez, j/rez) |
| PatchGrid.GridPatch | src/main.cpp:412-434 | the four nodes pushed for patch (i, j), in push order (i,j), (i+1,j), (i,j+1), (i+1,j+1) |
| PatchGrid.ControlPointAt | src/main.cpp:502-505 | control point c of the buffer: floats 5c..5c+4 read as position (3 floats) then texture coordinate (2 floats) |
| PatchGrid.PatchAt | src/main.cpp:555 | patch p of the buffer: control points 4p..4p+3, as a draw of GL_PATCHES with 4 vertices per patch groups them |
| PatchGrid.IsPatchGrid | src/main.cpp:405-436 | a buffer is the grid: 20*rez*rez floats, and patch i*rez+j read back is GridPatch(i, j) for every i, j < rez |
| PatchGrid.PatchIndex | src/main.cpp:408-411 | patch (i, j) has a buffer position below rez*rez; i and j are recovered from it by / and % (row-major order, i outer) |
| PatchGrid.BuildPatchGrid | src/main.cpp:405-436 | the buffer has exactly 20*rez*rez floats; patch (i, j), read back as the draw call groups control points, has corners (i,j), (i+1,j), (i,j+1), (i+1,j+1) with x = -W/2 + W*i/rez, y = 0, z = -H/2 + H*j/rez and texture coordinate (i/rez, j/rez) |
| PatchGrid.AdjacentPatchesShareEdges | src/main.cpp:412-434 | corners 1 and 3 of patch (i,j) are corners 0 and 2 of patch (i+1,j); corners 2 and 3 of patch (i,j) are corners 0 and 1 of patch (i,j+1) |
| PatchGrid.LatticeMonotone | src/main.cpp:412-414 | lattice lines run from -extent/2 at index 0 to extent/2 at index rez and are strictly increasing |
| PatchGrid.LatticePointBounds | src/main.cpp:412-434 | every corner lies in [-W/2, W/2] x {0} x [-H/2, H/2], and its texture coordinate in [0,1]^2 |
| PatchGrid.LatticeTexMatchesPosition | src/main.cpp:412-416 | a corner's texture coordinate is its position normalised to the terrain extent, so sampling is seamless across patches |
| PatchGrid.GridCoversTerrain | src/main.cpp:408-436 | every point of the terrain rectangle lies in some patch (i, j) with i, j < rez (no gaps) |
| PatchGrid.GridPatchInsideTerrain | src/main.cpp:408-436 | every point of a grid patch lies inside the terrain rectangle |
| PatchGrid.GridPatchesDisjoint | src/main.cpp:408-436 | two different grid patches have disjoint interiors (no overlaps) |
| TessControl.NormalizedDistance | src/main.cpp:71-74 | the scaled distance is in [0,1]: 0 when the depth magnitude is at most 20, 1 when it is at least 800, strictly between otherwise, and it maps back to the depth inside [20, 800] |
| TessControl.NormalizedDistanceMonotone | src/main.cpp:71-74 | a corner further from the eye never gets a smaller scaled distance |
| TessControl.EdgeLevel | src/main.cpp:76-79 | for distances in [0,1] the edge level is in [4, 64]; it is 64 exactly when either endpoint is at distance 0 and 4 exactly when both are at distance 1 |
| TessControl.EdgeLevelSymmetric | src/main.cpp:76-79 | an edge's level does not depend on the order of its two endpoints |
| TessControl.EdgeLevelAntitone | src/main.cpp:76-79 | the level is non-increasing in the smaller of the two endpoint distances |
| TessControl.CornerLevels | src/main.cpp:76-87 | outer0..3 belong to the edges (0,2), (0,1), (1,3), (2,3); inner0 is the larger of outer1 and outer3, inner1 the larger of outer0 and outer2; all six lie in [4, 64] for distances in [0,1] |
| TessControl.PatchLevels | src/main.cpp:65-87 | for any patch and any view all six levels lie in [4, 64]; each inner level is the maximum of its two opposite outer levels |
| TessControl.SharedEdgeSameLevel | src/main.cpp:76-79 | two patches whose edges have the same end positions give that edge the same outer level |
| TessControl.GridCrackFree | src/main.cpp:76-79 | for every view, outer2 of patch (i,j) equals outer0 of patch (i+1,j), and outer3 of patch (i,j) equals outer1 of patch (i,j+1) |
| TessControl.BufferCrackFree | src/main.cpp:65-79 | the same crack-avoidance equalities hold for the patches read from the buffer that the builder fills |
| TessControl.NearerCornerGoverns | src/main.cpp:76-79 | an edge with one corner within distance 20 of the eye gets the maximum level 64, however far the other corner is |
| TessControl.NearAndFarCornerLevel | src/main.cpp:71-79 | corners at depths -20 and -800 give their edge level 64 |
| TessControl.MidwayCornersLevel | src/main.cpp:71-79 | two corners at depth -410 have scaled distance 0.5 and give their edge level 34 |
| TessEval.Bilerp2 | src/main.cpp:115-117 | texture interpolation returns the corner's texture coordinate exactly at (u, v) in {0,1}^2 |
| TessEval.Bilerp3 | src/main.cpp:130-132 | position interpolation returns the corner's position exactly at (u, v) in {0,1}^2 |
| TessEval.SampleHeight | src/main.cpp:119 | a sample in [0,1] gives a height in [-16, 48]; the remap is invertible, (h + 16) / 64 is the sample |
| TessEval.EvaluatePoint | src/main.cpp:107-132 | the height is the remapped green sample at the interpolated texture coordinate; at a corner of the parameter square the point is that corner displaced along the unit normal by the height |
| TessEval.FaceDirection | src/main.cpp:126-128 | the un-normalised face normal cross(vVec, uVec), with uVec = p1 - p0 and vVec = p2 - p0 |
| TessEval.IsNormalized | src/main.cpp:128 | n is normalize(d): a unit vector parallel to d (zero cross product) pointing the same way (positive dot product) |
| TessEval.NormalizedAlongY | src/main.cpp:126-128 | the only unit vector pointing along (0, a, 0) with a > 0 is (0, 1, 0) |
| TessEval.GridFaceNormal | src/main.cpp:126-128 | the normalised cross(vVec, uVec) of every grid patch is exactly +y |
| TessEval.GridTexInterpolation | src/main.cpp:110-117 | on grid patch (i, j) the interpolated texture coordinate is ((i + u)/rez, (j + v)/rez) |
| TessEval.GridPosInterpolation | src/main.cpp:121-131 | on grid patch (i, j) the interpolated position is the lattice point at i + u along x and j + v along z, with y = 0 |
| TessEval.GridTexCoordInRange | src/main.cpp:115-117 | for (u, v) in [0,1]^2 a grid patch samples the heightmap only inside [0,1]^2 |
| TessEval.FlatHeightmapIsPlanar | src/main.cpp:119-132 | with a constant sample c every generated point lies on the plane y = c*64 - 16 above its lattice position, for every (u, v) and so for every tessellation level |
| TessEval.GridSharedEdgesAgree | src/main.cpp:115-132 | points on the shared edge of two neighbouring patches (u = 1 against u = 0, v = 1 against v = 0) evaluate identically, so the displaced surface has no gap |
| CameraState.Moved | camera/camera.cpp:39-48 | the position after one key step: plus or minus Front (forward, backward) or Right (right, left) times the velocity |
| CameraState.OppositeMovesCancel | camera/camera.cpp:37-49 | a forward step then a backward step of the same length restores the position, and likewise left then right |
| CameraState.Camera.Create | camera/camera.cpp:11-30 | Position, WorldUp, Yaw and Pitch are the arguments; MovementSpeed is 2.5, MouseSensitivity 0.1 and Zoom 45 |
| CameraState.Camera.UpdateVectors | camera/camera.cpp:74-84 | only Front, Right and Up change |
| CameraState.Camera.ProcessKeyboard | camera/camera.cpp:37-49 | Position moves by ±Front or ±Right times MovementSpeed*deltaTime; every other field is unchanged |
| CameraState.Camera.ProcessMouse | camera/camera.cpp:51-65 | Yaw grows by xoffset*MouseSensitivity; Pitch grows by yoffset*MouseSensitivity, clamped to [-89, 89] only when constrainPitch holds (it defaults to true); position, settings and Zoom are unchanged |
| CameraState.Camera.ProcessScroll | camera/camera.cpp:67-72 | Zoom ends in [1, 45]; it is exactly old Zoom - yoffset when that is in range, else the nearer bound; nothing else changes |
| CameraState.TurnWithDefaultConstraint | camera/camera.cpp:51-65 | with constrainPitch left at its default (true), a mouse turn always leaves Pitch in [-89, 89] and does not move or zoom the camera |
| CameraState.ForwardThenBackward | camera/camera.cpp:37-49 | a forward key step then a backward key step with the same deltaTime leave the camera where it was |
| WindowInput.InputGlobals.constructor | src/main.cpp:28-44 | the globals start at yaw -90, pitch 0, cursor (800, 400), firstMouse set, fov 45, front (0, 0, -1) |
| WindowInput.InputGlobals.MouseCallback | src/main.cpp:237-265 | the latch is cleared and the cursor recorded; on the first event the offsets are 0; afterwards yaw grows by 0.1 times the x motion and pitch by 0.1 times the reversed y motion, clamped to [-89, 89]; fov is unchanged |
| WindowInput.InputGlobals.ScrollCallback | src/main.cpp:266-271 | fov ends in [1, 90]; it is exactly old fov - yoffset when that is in range, else the nearer bound; nothing else changes |
| WindowInput.FirstMouseEventDoesNotTurn | src/main.cpp:239-258 | in exact arithmetic, starting from valid state, the first mouse event leaves yaw and pitch unchanged and clears the latch |

## Left out

- Window, context and GL setup; shader compilation and linking; the render loop; buffer upload; the skybox; `loadCubemap` and `framebuffer_size_callback`. These are foreign API calls and I/O.
- `processInput` (src/main.cpp:221-236) is left out. It polls GLFW key state, and its sideways step uses `normalize(cross(...))`, which needs a square root that `real` does not have.
- The heightmap load with `stbi_load` and the texture's filtering, mipmapping and repeat wrapping are left out. The green-channel sample is the function parameter `green`.
- `glm::lookAt`, `glm::perspective`, the view/model matrices and `camera_get_view_matrix` are left out. The tessellation-control shader gets the eye-space depth through the parameter `eyeZ`. The evaluation shader's world and clip-space outputs (src/main.cpp:134-138) are also left out.
- The trigonometry of `camera_update_vectors` and of `mouse_callback` is left out, because `real` has no sin, cos or sqrt. Front, Right, Up and `cameraFront` become arbitrary vectors after those updates.
- Fragment shading (the water mask, smoothstep and cubemap refraction) and the skybox shaders are colour computations over textures. They are left out.
- The hardware's `fractional_odd_spacing` rounding of the levels and the generation of tessellation coordinates are fixed-function and left out. The levels stay real numbers.
- Single-precision rounding and the `double` to `float` casts of the callbacks are left out, because every float is an exact real.
- BuildPatchGrid: it does not model the 32-bit unsigned wrap-around of `width*i`, which needs `width*rez >= 2^32`.
- BuildPatchGrid: it requires `rez >= 1`. With `rez = 0` the unsigned bound `rez-1` wraps to its maximum value and the loops would not end.
- BuildPatchGrid: it requires `width > 0` and `height > 0`. When the heightmap fails to load, the code still uses the uninitialised `width` and `height`.
- EvaluatePoint: it takes the unit normal as an argument that must be `normalize(cross(vVec, uVec))` (predicate `IsNormalized`) instead of computing a square root. A patch whose cross product is zero, for which GLSL yields NaN, is outside the model.
- The wrapper files `shaders/*`, `textures/*` and `renderer/*` are thin layers over OpenGL, stb_image and file reading. They are not part of this model.
