# EarthSimulator: the box visibility test and the input state, in Dafny

EarthSimulator is an OpenGL scene (a flat earth, a sun and moon on an orbit,
a skybox, a bird and a knife inside a coloured box). Almost all of
`src/main.cpp` is calls into GLFW, GLAD, ImGui and OpenGL. The part that is
logic of its own is modelled here:

- `geometry.dfy` (module `Geometry`): `calculatePlane`, the plane through
  three points with normal `cross(b - a, c - a)`, not normalised, and
  `calculateValue`, the plane equation evaluated at a point. It also proves
  what these promise: the three points lie on their plane, the value is
  affine in the point, and collinear points give a zero normal.
- `visibility.dfy` (module `Visibility`): `isCameraInside`, the loop that
  reads the plane list two at a time and returns false as soon as one
  pair's two values have a negative product. It is proved equal to a
  conjunction over the pairs (`AllPairsHold`), with the properties that
  follow from that.
- `box.dfy` (module `Box`):
  - the 36-vertex cube table;
  - the box's model matrix `translate(2) * scale(1)`;
  - the six face planes built from three corners of each face;
  - the render-loop state that builds them once, guarded by `firstPass`
    (class `BoxBoundary`).

  The end-to-end result is that the six planes, tested pairwise, decide
  membership of the closed box the model matrix places the cube on. For
  the scene's matrix that box is [1.5, 2.5]^3, so the box and its props are
  drawn exactly when the camera is in it.
- `input.dfy` (module `Input`): the state that `processInput`,
  `key_callback` and `mouse_callback` update, as class `InputState`:
  - the exposure keys J and K;
  - the F1 (ImGui) and H (HDR) toggles;
  - the first-mouse / last-position bookkeeping of the cursor.

Numbers are exact reals. `glm::vec3` becomes `Vec3` and the float 4-tuple
becomes `Plane`. A model matrix built only from `glm::translate` and
`glm::scale` becomes the affine map `offset + factor * v`. GLFW's key and
action codes keep GLFW's values.

Calls into code outside the model become results of the methods that make
them:
- `glfwSetWindowShouldClose` becomes `closeWindow`;
- `Camera::ProcessKeyboard` becomes the list of movements;
- `Camera::ProcessMouseMovement` becomes the forwarded offsets;
- `glfwSetInputMode` becomes the cursor mode.

## Model

| member | source | states |
|---|---|---|
| `Geometry.CalculatePlane` | src/main.cpp:732-744 | The normal is `cross(b - a, c - a)`, not normalised, and the plane equation is zero at a, at b and at c. |
| `Geometry.PlaneValue` | src/main.cpp:732-748 | The value of `calculatePlane(a, b, c)` at p is the triple product `cross(b - a, c - a) . (p - a)`: its sign says on which side of the oriented triangle a, b, c the point lies. |
| `Geometry.ValueAffine` | src/main.cpp:746-748 | `calculateValue` is affine in the point: on the segment from p to q it interpolates linearly between the two end values. |
| `Geometry.DegeneratePlane` | src/main.cpp:732-744 | The normal is zero if and only if the three points are collinear; for collinear points the value is zero everywhere. |
| `Geometry.CyclicInvariance` | src/main.cpp:732-744 | Rotating the three input points gives the same four coefficients. |
| `Geometry.WindingFlip` | src/main.cpp:732-744 | Swapping two input points negates the value at every point. |
| `Visibility.IsCameraInside` | src/main.cpp:720-730 | The stepping loop with early return. Under the even-length precondition, the result equals `AllPairsHold`: every consecutive pair (0,1), (2,3), … passes. |
| `Visibility.AllPairsHoldIff` | src/main.cpp:720-730 | On an even list, the result is false exactly when some even i has `planes[i]` and `planes[i+1]` giving strictly opposite signs. The empty list gives true. |
| `Visibility.OppositeSignsProduct` | src/main.cpp:725 | The product test `first * second < 0` holds exactly when the two values have strictly opposite signs. |
| `Visibility.OnFacePasses` | src/main.cpp:723-727 | A point with value 0 against either plane of a pair never fails that pair. |
| `Visibility.Pairs` | src/main.cpp:722-724 | The loop's view of the list: pair k is planes 2k and 2k + 1, and there are half as many pairs as planes. |
| `Visibility.SwapWithinPairsSame` | src/main.cpp:722-727 | Which plane of a pair comes first does not matter: swapping the planes inside every pair leaves the result unchanged. |
| `Visibility.AllPairsHoldAppend` | src/main.cpp:722-729 | On a concatenation of two even lists, the test is the conjunction of the tests on the two parts. |
| `Visibility.AllPairsHoldPairs` | src/main.cpp:722-729 | The test holds exactly when every pair of the list passes. |
| `Visibility.ReorderPairs` | src/main.cpp:722-729 | Any permutation of whole pairs leaves the result unchanged. |
| `Box.BoxModel` | src/main.cpp:469-471 | The box's model matrix is translate (2,2,2), unit scale. It places the cube on [1.5, 2.5]^3. |
| `Box.MatrixSemantics` | src/main.cpp:469-471 | The identity fixes points. `translate(m, t)` moves a vertex by t before m acts. `scale(m, s)` stretches it by s before m acts. |
| `Box.FacePlane` | src/main.cpp:474-478 | The plane of one face passes through the face's first three corners, each mapped by the model matrix. |
| `Box.FacePlanes` | src/main.cpp:472-508 | The plane block pushes exactly six planes. |
| `Box.TableCorners` | src/main.cpp:154-198 | The table has 216 floats. The corners the plane block reads at float offsets 144, 180, 72, 108, 36 and 0 (+6, +12) are the listed corners of the unit cube. |
| `Box.BottomCorners` | src/main.cpp:185-187 | The first three bottom-face vertices of the table. |
| `Box.TopCorners` | src/main.cpp:192-194 | The first three top-face vertices of the table. |
| `Box.LeftCorners` | src/main.cpp:171-173 | The first three left-face vertices of the table. |
| `Box.RightCorners` | src/main.cpp:178-180 | The first three right-face vertices of the table. |
| `Box.FrontCorners` | src/main.cpp:164-166 | The first three front-face vertices of the table. |
| `Box.BackCorners` | src/main.cpp:157-159 | The first three back-face vertices of the table. |
| `Box.BottomFaceValue` | src/main.cpp:474-478 | Under any translate/scale matrix, the bottom plane's value at p is a positive-area factor times `p.y - low.y`. |
| `Box.TopFaceValue` | src/main.cpp:480-484 | Under any translate/scale matrix, the top plane's value at p is a positive-area factor times `high.y - p.y`. |
| `Box.LeftFaceValue` | src/main.cpp:486-490 | Under any translate/scale matrix, the left plane's value at p is a positive-area factor times `p.x - low.x`. |
| `Box.RightFaceValue` | src/main.cpp:492-496 | Under any translate/scale matrix, the right plane's value at p is a positive-area factor times `high.x - p.x`. |
| `Box.FrontFaceValue` | src/main.cpp:498-502 | Under any translate/scale matrix, the front plane's value at p is a positive-area factor times `high.z - p.z`. |
| `Box.BackFaceValue` | src/main.cpp:504-508 | Under any translate/scale matrix, the back plane's value at p is a positive-area factor times `p.z - low.z`. |
| `Box.UnitScalePlanes` | src/main.cpp:469-508 | With unit scale, the six pushed planes are, in order, y - low.y, high.y - y, x - low.x, high.x - x, high.z - z and z - low.z. For the scene these are y-1.5, 2.5-y, x-1.5, 2.5-x, 2.5-z and z-1.5. |
| `Box.SlabPair` | src/main.cpp:723-727 | Two values k1·(y - lo) and k2·(hi - y), with positive k1 and k2, pass the pair test, in either order, exactly when lo ≤ y ≤ hi. |
| `Box.BottomTopPair` | src/main.cpp:474-484 | The first pair (bottom, top) decides the y extent of the box. |
| `Box.LeftRightPair` | src/main.cpp:486-496 | The second pair (left, right) decides the x extent of the box. |
| `Box.FrontBackPair` | src/main.cpp:498-508 | The third pair (front, back) decides the z extent of the box. |
| `Box.ThreePairs` | src/main.cpp:720-730 | A six-plane list passes exactly when its three pairs pass. |
| `Box.BoxTest` | src/main.cpp:469-513 | For any translate/scale matrix with positive factors, a point passes `isCameraInside` on the six planes iff it is in the closed box the matrix places the cube on. |
| `Box.BoxDecided` | src/main.cpp:469-513 | The same, for all points at once. |
| `Box.SceneDecided` | src/main.cpp:469-513 | For the scene's matrix and table, the test passes exactly on [1.5, 2.5]^3. |
| `Box.SceneGate` | src/main.cpp:469-513 | For the box's model matrix the gate is concrete: inside the box means 1.5 <= x, y, z <= 2.5. |
| `Box.SceneSamples` | src/main.cpp:469-513 | The box's centre (2, 2, 2) passes the test; the origin does not. |
| `Box.BoxBoundary.constructor` | src/main.cpp:214-385 | The plane list starts empty with `firstPass` true, over the cube table and the box's model matrix. |
| `Box.BoxBoundary.BuildPlanes` | src/main.cpp:469-511 | On the first pass, the block appends the six face planes (bottom, top, left, right, front, back) under the given matrix and clears `firstPass`. On later passes it changes nothing. |
| `Box.BoxBoundary.Frame` | src/main.cpp:469-513 | One frame keeps the invariant: after the first frame the list is exactly the six face planes, and later frames leave it unchanged. The box and props are drawn exactly when the camera is in the box. |
| `Box.BoxBoundary.RenderLoop` | src/main.cpp:385-513 | Over any run of frames, the list never grows past the first frame's six planes. Every frame draws exactly when its camera position is in [low, high]. |
| `Input.Held` | src/main.cpp:592-593 | One polled key: its movement, once, exactly when the key is held. |
| `Input.MovementsHeld` | src/main.cpp:592-603 | A camera movement is issued exactly for each held key among W, S, A, D, Q and E. |
| `Input.MovementsInPollOrder` | src/main.cpp:592-603 | The movements come in the order W, S, A, D, Q, E are polled, so each at most once. |
| `Input.Darken` | src/main.cpp:605-610 | The J branch: a positive exposure drops by 0.03, zero or below is clamped to exactly 0, and the result is above -0.03. |
| `Input.Brighten` | src/main.cpp:611-613 | The K branch raises the exposure; a later J undoes it for any exposure above -0.03. |
| `Input.ExposureAfter` | src/main.cpp:605-613 | One frame, J applied before K: with neither key held nothing changes, and from above -0.03 the result stays above -0.03. |
| `Input.ExposureFloorForever` | src/main.cpp:605-613 | Over any run of frames from a start above -0.03, the exposure stays above -0.03. |
| `Input.BothKeys` | src/main.cpp:605-613 | With J and K held together, J runs first. A positive exposure is unchanged; zero or below ends at 0.03. The other order would give 0 from 0. |
| `Input.BrightenThenDarken` | src/main.cpp:605-613 | K then J undoes K above -0.03. J then K undoes J exactly for positive exposures. |
| `Input.DarkenSettles` | src/main.cpp:605-613 | An exposure of at most (n - 1)·0.03 is exactly zero after n frames in which J is held and K is not. |
| `Input.MouseOffset` | src/main.cpp:626-634 | The first event gives zero offsets. Every later event gives the move from the last position, with y reversed. |
| `Input.MouseOffsets` | src/main.cpp:626-637 | A run of events gives one offset per event. The first is the single-event offset from the last position; each later one is the move from the previous event, y reversed. |
| `Input.OffsetsTelescope` | src/main.cpp:626-637 | The offsets of a run add up to the whole move from the last position (or from the first event) to the final event, with y reversed. |
| `Input.InputState.constructor` | src/main.cpp:39-77 | The initial state: HDR on, exposure 0.4, ImGui closed, the camera following the mouse, the cursor at (400, 300), no event seen. |
| `Input.InputState.ProcessInput` | src/main.cpp:588-614 | Escape asks to close the window. The held movement keys give the movements, one per held key, in poll order. The exposure becomes J-then-K applied to the old value. Nothing else changes, and the invariant is kept. |
| `Input.InputState.KeyCallback` | src/main.cpp:673-686 | F1 pressed flips ImGui, sets camera-mouse to `!ImGui` and sets the matching cursor mode. H pressed flips HDR. Any other key or action changes none of these. |
| `Input.InputState.MouseCallback` | src/main.cpp:626-641 | The offsets go to the camera exactly when it follows the mouse. The event becomes the last position and `firstMouse` is cleared. |

## Left out

- GLFW, GLAD and ImGui setup, the callback registration, `DrawImGui` and the
  buffer, VAO, shader and model loading: library calls with no logic of
  their own.
- `loadCubemap`: file I/O and texture upload.
- The HDR framebuffer, the skybox and the tone-map passes. They are OpenGL
  state sequencing, and the tone curve lives in shaders.
- The sun and moon orbit and the spotlight directions: `sin`/`cos` of the
  wall clock.
- The `Camera` methods (learnopengl/camera.h is not part of this model). The
  keyboard movements and mouse offsets handed to the camera are results; what
  the camera does with them is not modelled.
- `scroll_callback` and `framebuffer_size_callback`: single forwarding calls
  into the camera and OpenGL.
- Visibility.IsCameraInside requires an even-length list. On an odd list the
  source reads `planes[i+1]` past the end (undefined behaviour), which the
  model does not describe; the program only calls it with the six planes.
- The timing globals (`deltaTime`, `lastFrame`): only handed to the camera.
- Float32 rounding: all values are exact reals. In particular 0.03 is exact
  here, and the `(float)` casts of the cursor position are identities.
- The model matrix is modelled as translate/scale only (an affine map). The
  rotations the scene applies to the bird and knife models are not part of
  the box test.
- The source assigns the box's model matrix to a local `model` every frame,
  always the same value. Here it is a constant field of `BoxBoundary`, set
  to `BoxModel()` at construction.
