# Player controller, object alignment and mesh reshaping of ComputerGraphicsProject

This project models, in Dafny, the sequential logic of a small OpenGL/GLUT
scene demo in which the player steers an avatar over a terrain:

- **The player and game-state controller** (`main.cpp`). The player record
  (`Object`/`Player`) and the global game state (key map, wireframe and
  free-camera flags, camera elevation, stored clock, window size) are
  immutable datatypes. The callbacks are pure step functions over them:
  keyboard and special-key handlers, mouse motion, window reshape,
  `restartGame` and the timer tick. The timer applies the movement rules in
  the fixed order forward, backward, right, left, up, down, and then calls
  `updateObjects`. An event runner dispatches the callbacks the program
  registers. Over it we prove that every world reachable from start-up keeps
  the speed, camera elevation, view angle and clock bounds.
- **The object frame builder** (`spline.cpp`). `isVectorNull` and
  `alignObject` build the column-major model matrix from a position, a front
  vector and an up vector, with the two null-vector fallbacks.
- **The data reshaping inside the model loaders** (`renderer.cpp`). This
  covers the mesh-count acceptance of `loadSingleMesh`, face-index
  flattening, texture-coordinate packing, material defaults and texture-path
  resolution. It also covers the geometry list that `loadMeshes` appends,
  with its texture-coordinate copy as written (see "Findings").

Scalars are `real`. Single-precision literals such as `0.2f` are read as the
decimal written in the literal (no single-precision rounding).

Three things the code uses are left uninterpreted:
- `cos`/`sin` after `glm::radians` are a caller-supplied `Motion.Trig` record.
- `glm::normalize` is a function parameter of `Spline.AlignObject`.
- The importer's scene is an input value (`MeshLoading.Scene`); a failed
  import is `None`.

The platform clock (`glutGet(GLUT_ELAPSED_TIME)`) is a parameter of the
events that read it.

Modules: `Wrappers` (Option), `CMath` (C truncation, integer halving,
`fmod` by 360), `Vectors`, `Config` (the constants of `data.h`), `Spline`,
`Motion`, `Controller` and `MeshLoading`.

The model follows the code as written:
- x and y are never clamped.
- Height has only a one-sided guard at `MAX_HEIGHT`. `MIN_HEIGHT` is never
  consulted.
- `restartGame` keeps the vertical speed and the wireframe flag.
- The timer integrates with the clock value stored by the last restart, so
  the player's current time never advances.
- Pointer motion reaches `mouseMotionCb` only in free-camera mode. The `'c'`
  key and the restart register and unregister the passive-motion handler
  together with that flag.
- `keyboardUpCb` is modelled but never dispatched, because the program does
  not register it. So a pressed space key stays pressed until a restart
  (`Controller.SpaceKeyLatches`).

## Model

| member | source | states |
|---|---|---|
| `CMath.FMod360` | ComputerGraphicsProject/main.cpp:352 | `fmod(x, 360)` lies strictly between -360 and 360 and has the sign of x. It is the identity inside that range and differs from x by a whole number of turns. |
| `CMath.IntegralSum` | ComputerGraphicsProject/main.cpp:352 | Two whole numbers of turns add up to a whole number of turns, which is what lets two successive `fmod` reductions compose. |
| `CMath.Half` | ComputerGraphicsProject/main.cpp:224 | C's `windowHeight / 2` truncates toward zero: the remainder is 0 or 1 for non-negative heights, and 0 or -1 for negative ones. |
| `Vectors.CrossIsOrthogonal` | ComputerGraphicsProject/spline.cpp:24 | The cross product is perpendicular to both factors, which makes the frame's y axis orthogonal to x and z. |
| `Spline.NullIsZeroVector` | ComputerGraphicsProject/spline.cpp:7-10 | A vector is null exactly when it is the zero vector, and negation keeps it null or non-null. |
| `Spline.FrameZ` | ComputerGraphicsProject/spline.cpp:14-17 | The local z axis is never null. It is either the reversed normalised front or the fallback (0,0,1). |
| `Spline.FrameX` | ComputerGraphicsProject/spline.cpp:19-22 | The local x axis is never null. It is (1,0,0) exactly when `normalize(cross(up, z))` is null, and that normalised cross product otherwise. |
| `Spline.AlignObject` | ComputerGraphicsProject/spline.cpp:12-34 | Column 3 is (position, 1) and columns 0-2 have w = 0. Columns 2, 0 and 1 are z, x and y = cross(z, x). y is orthogonal to x and z, and x and z are never null. |
| `Spline.FrameZFallback` | ComputerGraphicsProject/spline.cpp:14-17 | A null normalised front yields (0,0,1). Any other normalised front yields its negation. |
| `Spline.AlignObjectTranslates` | ComputerGraphicsProject/spline.cpp:26-31 | Moving the position changes only the last column. The axes depend only on front and up. |
| `Motion.Heading` | ComputerGraphicsProject/main.cpp:353-357 | The heading built from a view angle is horizontal (z = 0). |
| `Motion.MovePlayerForward` | ComputerGraphicsProject/main.cpp:337-342 | Speed grows by exactly `deltaSpeed` iff it is below `PLAYER_SPEED_MAX`; otherwise it is unchanged. No other field changes. |
| `Motion.MovePlayerBackward` | ComputerGraphicsProject/main.cpp:344-349 | Speed drops by exactly `deltaSpeed` iff it is above `PLAYER_SPEED_MIN`; otherwise it is unchanged. No other field changes. |
| `Motion.ForwardKeepsSpeedInBand` | ComputerGraphicsProject/main.cpp:337-342 | An acceleration step keeps the speed strictly inside (MIN - INCREMENT, MAX + INCREMENT). |
| `Motion.BackwardKeepsSpeedInBand` | ComputerGraphicsProject/main.cpp:344-349 | A deceleration step keeps the speed strictly inside (MIN - INCREMENT, MAX + INCREMENT). |
| `Motion.Turn` | ComputerGraphicsProject/main.cpp:352-358 | The reduced angle lies strictly within one turn, has the sign of the requested angle, and differs from it by whole turns, which is `fmod(angle, 360)`. The direction is the matching horizontal heading, and nothing else changes. |
| `Motion.MovePlayerLeft` | ComputerGraphicsProject/main.cpp:351-359 | The new view angle is `fmod(viewAngle + delta, 360)`, which lies within (-360, 360). The new direction has z = 0, and only the direction changes in the body. |
| `Motion.MovePlayerRight` | ComputerGraphicsProject/main.cpp:361-369 | The new view angle is `fmod(viewAngle - delta, 360)`, which lies within (-360, 360). The new direction has z = 0, and only the direction changes in the body. |
| `Motion.RightThenLeftKeepsHeading` | ComputerGraphicsProject/main.cpp:351-369 | A right turn then a left turn of the same size return the view angle to a value a whole number of turns from the start. |
| `Motion.TurnsCompose` | ComputerGraphicsProject/main.cpp:352-362 | A reduction of `a - delta` followed by a reduction of that result plus delta lands a whole number of turns from a. |
| `Motion.MovePlayerUp` | ComputerGraphicsProject/main.cpp:371-374 | The vertical speed rises by `deltaSpeed` and nothing else changes. |
| `Motion.MovePlayerDown` | ComputerGraphicsProject/main.cpp:376-379 | The vertical speed falls by `deltaSpeed` and nothing else changes. |
| `Motion.UpThenDownRestores` | ComputerGraphicsProject/main.cpp:371-379 | Up followed by down with the same amount gives back the same player. |
| `Motion.UpdateObjects` | ComputerGraphicsProject/main.cpp:185-196 | The current time becomes `elapsedTime`, and the position moves by `direction*speed*0.01` with no clamping. `verticalSpeed*0.01` is then added to z only if the moved z is below `MAX_HEIGHT`. |
| `Motion.HeightGuardIsOneSided` | ComputerGraphicsProject/main.cpp:191-193 | For a horizontal heading, below `MAX_HEIGHT` the vertical speed applies in full whatever its sign. At or above `MAX_HEIGHT` the height is frozen. |
| `Motion.HeightIsNotClamped` | ComputerGraphicsProject/main.cpp:191-193 | A climb from just below the guard ends above `MAX_HEIGHT`, and a fast descent ends below `MIN_HEIGHT`. |
| `Controller.RestartGame` | ComputerGraphicsProject/main.cpp:64-98 | The player ends at the origin with view angle 90, its heading, speed 0, not destroyed and size `PLAYER_SIZE`. Start and current time equal 0.01 times the clock. The terrain is placed, every key is released, free-camera is off and the elevation is 0. Vertical speed, wireframe flag and window size are kept. |
| `Controller.InitialWorld` | ComputerGraphicsProject/main.cpp:29-45 | Start-up restarts a freshly created, zeroed player, so the vertical speed starts at 0 and both flags start off. The resulting world satisfies the invariant. |
| `Controller.KeyboardCb` | ComputerGraphicsProject/main.cpp:236-272 | Escape, and only escape, exits. 'r' restarts, 'w' negates the wireframe flag, 'c' negates free-camera mode, and space presses `KEY_SPACE`. Every other key changes nothing. |
| `Controller.ToggleTwiceRestores` | ComputerGraphicsProject/main.cpp:246-264 | Pressing 'w' or 'c' twice gives back the original world. |
| `Controller.KeyboardUpCb` | ComputerGraphicsProject/main.cpp:274-283 | Releasing space releases `KEY_SPACE`. Every other key changes nothing. |
| `Controller.SpaceThenReleaseRestores` | ComputerGraphicsProject/main.cpp:262-283 | Pressing space through keyboardCb and releasing it through keyboardUpCb gives back the world, when space was not held before. |
| `Controller.SpecialKeySlot` | ComputerGraphicsProject/main.cpp:287-308 | The left arrow drives `KEY_LEFT_ARROW`, the right arrow `KEY_RIGHT_ARROW`, up `KEY_UP_ARROW`, down `KEY_DOWN_ARROW` and left shift `KEY_SHIFT_L`. Every other code has no slot, and no key drives the space or B slot. |
| `Controller.SpecialKeySlotInjective` | ComputerGraphicsProject/main.cpp:287-333 | Distinct mapped special keys drive distinct key-map slots. |
| `Controller.SetSpecialKey` | ComputerGraphicsProject/main.cpp:287-333 | Only the key's mapped slot is set. Every other slot and field is unchanged, and an unmapped key is a no-op. |
| `Controller.SpecialPressedKeyboardCb` | ComputerGraphicsProject/main.cpp:287-308 | After a press, each slot is pressed iff it is the key's slot or was pressed before. Nothing outside the key map changes. |
| `Controller.SpecialReleasedKeyboardUpCb` | ComputerGraphicsProject/main.cpp:312-333 | After a release, each slot is pressed iff it is not the key's slot and was pressed before. Nothing outside the key map changes. |
| `Controller.PressThenReleaseClears` | ComputerGraphicsProject/main.cpp:287-333 | Press then release of a mapped special key leaves its slot released. |
| `Controller.MouseMotionCb` | ComputerGraphicsProject/main.cpp:222-233 | The elevation delta (0.01 per pixel below the middle row) is applied only if the new angle's magnitude stays below `CAMERA_ELEVATION_MAX`. The bound is therefore preserved, and nothing else changes. |
| `Controller.CenteredPointerKeepsElevation` | ComputerGraphicsProject/main.cpp:224-227 | A pointer on the middle row leaves the world unchanged. |
| `Controller.ReshapeCb` | ComputerGraphicsProject/main.cpp:418-424 | The window size is recorded and nothing else changes. |
| `Controller.ReshapeKeepsLatest` | ComputerGraphicsProject/main.cpp:418-424 | A second resize supersedes the first: only the latest window size is kept. |
| `Controller.Throttle` | ComputerGraphicsProject/main.cpp:390-394 | The speed after the up and down arrows is the guarded acceleration followed by the guarded deceleration of its result. Nothing else changes. |
| `Controller.Steer` | ComputerGraphicsProject/main.cpp:396-400 | The right arrow sets the view angle to `fmod(angle - 2, 360)`, and then the left arrow sets it to `fmod(that + 2, 360)`. The result lies a whole number of turns from the angle plus the net turn. A turn key leaves a matching heading; without one the player is unchanged. Only the direction changes in the body. |
| `Controller.Lift` | ComputerGraphicsProject/main.cpp:402-406 | Space adds and left shift subtracts `PLAYER_UP_SPEED_INCREMENT` from the vertical speed, and nothing else changes. |
| `Controller.ApplyHeldKeys` | ComputerGraphicsProject/main.cpp:390-406 | The held keys, in the order forward, backward, right, left, up, down, set the speed, the fmod-reduced view angle, the heading and the vertical speed as above. Every other body field is unchanged. |
| `Controller.BothSpeedKeysAtTopSpeed` | ComputerGraphicsProject/main.cpp:390-394 | At top speed with both arrows held, forward is refused and backward then slows the player by one increment, so the rule order shows in the result. |
| `Controller.TimerCb` | ComputerGraphicsProject/main.cpp:388-414 | The game state and terrain are unchanged, and current time becomes the stored clock. The speed is the guarded forward step followed by the guarded backward step on its result. The view angle is `fmod(angle - 2, 360)` under right, followed by `fmod(... + 2, 360)` under left, and a turn key sets a matching heading. Vertical speed changes by +0.1 for space and -0.1 for left shift. The position then moves by direction times speed times 0.01 with the post-key values, and z takes the vertical step only below `MAX_HEIGHT`. No other player field changes. |
| `Controller.Step` | ComputerGraphicsProject/main.cpp:444-452 | Only the escape key ends the run. A key reaches keyboardCb, a special-key press or release reaches its handler, a reshape reaches reshapeCb and a tick reaches timerCb. Pointer motion reaches mouseMotionCb in free-camera mode and has no effect otherwise. |
| `Controller.Run` | ComputerGraphicsProject/main.cpp:444-452 | An empty event sequence, or one that starts with escape, leaves the world unchanged. A single other event is dispatched through `Step`. Together with `RunAppend` this fixes the run of every escape-free sequence. |
| `Controller.RunAppend` | ComputerGraphicsProject/main.cpp:444-452 | Events with no escape among them can be run first, and the remaining events continue from the world they leave. |
| `Controller.RunStopsAtExit` | ComputerGraphicsProject/main.cpp:239-241 | No event after an escape key has any effect. |
| `Controller.StepPreservesInvariant` | ComputerGraphicsProject/main.cpp:388-410 | Every dispatched event keeps the invariant: speed in band, elevation within limit, view angle within a turn, horizontal heading, frozen clock, and size and destroyed flag fixed. |
| `Controller.RunPreservesInvariant` | ComputerGraphicsProject/main.cpp:388-410 | Any sequence of events keeps the invariant. |
| `Controller.ReachableWorldsAreBounded` | ComputerGraphicsProject/main.cpp:390-394 | From start-up, after any events, speed lies strictly in (MIN - INCREMENT, MAX + INCREMENT). Elevation magnitude stays below 50, view angle magnitude below 360, the heading is horizontal and current time equals start time. |
| `Controller.SpaceKeyLatches` | ComputerGraphicsProject/main.cpp:447 | With the key-release handler unregistered, a pressed space key stays pressed through any events that include no restart. |
| `MeshLoading.FlattenFaces` | ComputerGraphicsProject/renderer.cpp:538-543 | The element buffer holds 3 times the face count indices, with entry 3f+k equal to index k of face f. |
| `MeshLoading.FlattenFacesAppend` | ComputerGraphicsProject/renderer.cpp:391-394 | Flattening face lists one after another equals flattening their concatenation. So per-face uploads at offset 3i build the same buffer. |
| `MeshLoading.PackTexCoords` | ComputerGraphicsProject/renderer.cpp:525-531 | The packed buffer has 2n entries, with u of vertex i at slot 2i and v at slot 2i+1. |
| `MeshLoading.PackIgnoresThirdComponent` | ComputerGraphicsProject/renderer.cpp:526-530 | Coordinates that agree on u and v pack identically, so the third component is dropped. |
| `MeshLoading.PackThenUnpack` | ComputerGraphicsProject/renderer.cpp:525-531 | Reading the packed buffer back two values per vertex gives exactly the (u, v) pair of every vertex, in order. |
| `MeshLoading.UnpackTexCoords` | ComputerGraphicsProject/renderer.cpp:459 | A shader attribute of two floats per vertex reads pair i from slots 2i and 2i+1, giving half as many pairs as floats. |
| `MeshLoading.TexCoordUVs` | ComputerGraphicsProject/renderer.cpp:528-530 | The (u, v) pairs of the texture coordinates, one per vertex and in order. |
| `MeshLoading.TexCoordRegion` | ComputerGraphicsProject/renderer.cpp:519-535 | The texture-coordinate region is determined exactly when the mesh has coordinates, and then it is the packed buffer. |
| `MeshLoading.ChannelMemory` | ComputerGraphicsProject/renderer.cpp:380 | The importer's channel is laid out as three floats per vertex. |
| `MeshLoading.RawTexCoordUpload` | ComputerGraphicsProject/renderer.cpp:379-382 | As written, loadMeshes uploads the first 2n floats of that three-per-vertex memory: float j is component j mod 3 of vertex j div 3. |
| `MeshLoading.RawUploadMisalignsTexCoords` | ComputerGraphicsProject/renderer.cpp:380 | With two or more vertices, slot 2 of the raw upload holds vertex 0's third component where vertex 1's u belongs. The two uploads then differ. |
| `MeshLoading.RawUploadExample` | ComputerGraphicsProject/renderer.cpp:380 | For (0.1,0.2,0) and (0.3,0.4,0) the raw upload is [0.1,0.2,0,0.3]; the packed one is [0.1,0.2,0.3,0.4]. |
| `MeshLoading.LastSeparator` | ComputerGraphicsProject/renderer.cpp:595 | Returns the position of a '/' or '\\' with no separator after it, or nothing when the name has no separator. |
| `MeshLoading.ResolveTexturePath` | ComputerGraphicsProject/renderer.cpp:593-600 | The result ends with the texture name. What precedes it is a prefix of the file name that is empty iff the file name has no separator, and otherwise ends at the file name's last separator. |
| `MeshLoading.ResolveTexturePathExamples` | ComputerGraphicsProject/renderer.cpp:595-600 | `data/m.obj` puts `m.png` in `data/`, a bare `m.obj` leaves the name unchanged, and either separator counts. |
| `MeshLoading.SingleMeshMaterialDefaults` | ComputerGraphicsProject/renderer.cpp:561-604 | A missing diffuse, ambient or specular colour becomes black, and each present colour keeps its red, green and blue but loses its alpha. A texture file is requested iff the material has a diffuse texture, and it is the first one resolved against the model file. |
| `MeshLoading.SingleMeshShininess` | ComputerGraphicsProject/renderer.cpp:574-582 | Shininess is shininess times strength when both are found. A factor that is not found counts as 1, so one found factor gives that factor and none gives 1. |
| `MeshLoading.ScaledShininess` | ComputerGraphicsProject/renderer.cpp:574-582 | The product of the two factors when both are found, a factor that is not found counting as 1. |
| `MeshLoading.ColourOrBlack` | ComputerGraphicsProject/renderer.cpp:561-571 | A colour that is not found is black; a found colour keeps its red, green and blue and drops alpha. |
| `MeshLoading.SingleMeshMaterial` | ComputerGraphicsProject/renderer.cpp:561-604 | The colours are found-or-black and a shininess is always set. The texture file is present iff there is a diffuse texture, and it is that texture's name resolved against the model file. |
| `MeshLoading.MeshesMaterial` | ComputerGraphicsProject/renderer.cpp:402-441 | The colours are found-or-black and the shininess is undetermined. The texture file is present iff there is a diffuse texture, and it is that texture's name unchanged. |
| `MeshLoading.LoadersAgreeOnColours` | ComputerGraphicsProject/renderer.cpp:403-441 | loadMeshes and loadSingleMesh pick the same colours. loadMeshes requests the texture name without the model's directory, which loadSingleMesh prefixes. |
| `MeshLoading.LoadSingleMesh` | ComputerGraphicsProject/renderer.cpp:491-635 | No geometry (false and NULL) exactly when the import failed or the mesh count is not 1. Otherwise `numTriangles` is the face count, the indices are the flattened faces, the texture region is packed, and the material uses the loadSingleMesh defaults. |
| `MeshLoading.LoadSingleMeshRejectsLineScene` | ComputerGraphicsProject/renderer.cpp:497-502 | A two-mesh scene whose second mesh holds a two-index face is not a well-formed scene, yet loadSingleMesh accepts it as input and turns it down by the mesh count alone. |
| `MeshLoading.LoadersAgreeOnIndices` | ComputerGraphicsProject/renderer.cpp:384-395 | For a scene of one mesh, loadSingleMesh succeeds and builds the same triangle count and element buffer as loadMeshes. |
| `MeshLoading.MeshGeometry` | ComputerGraphicsProject/renderer.cpp:359-470 | One mesh's loadMeshes geometry has `numTriangles` equal to the face count, the flattened face indices and the loadMeshes material. Its texture-coordinate region exists iff the mesh has coordinates, and it is then the first 2n floats of the three-per-vertex channel, as written. |
| `MeshLoading.MeshGeometryTexCoordsDiffer` | ComputerGraphicsProject/renderer.cpp:380 | When vertex 0's third component differs from vertex 1's u, loadMeshes' texture region differs from the packed one loadSingleMesh builds for the same mesh. |
| `MeshLoading.LoadMeshes` | ComputerGraphicsProject/renderer.cpp:349-474 | Failure, with the list untouched, exactly when the import failed. Otherwise one geometry per mesh is appended in scene order after the untouched prefix, each with `numTriangles = mNumFaces`, the flattened indices and the raw texture copy. |

## Left out

- GPU work: every OpenGL call, which covers shader loading, buffer and vertex-array creation, drawing, `drawScene`'s projection and view matrices, and cleanup. These are side effects on a graphics API. The model returns the data that would be uploaded instead.
- Windowing: GLUT callback registration, `glutWarpPointer`, `glutPostRedisplay`, timer re-scheduling, `glutLeaveMainLoop` and `main`. Escape is modelled as the `Exit` reaction.
- Console output: `printf` and stream logging have no effect on state.
- The clock: `glutGet(GLUT_ELAPSED_TIME)` is a parameter of the key event that reads it.
- Memory management: `drawScene` allocates a new floor every frame, and `cleanUpObjects` deletes the floor without resetting the pointer. Two restarts with no frame drawn between them would therefore delete it twice. The model has no heap, so neither the leak nor the double delete is represented.
- The unused `timeDelta` in `updateObjects`.
- Floating point: there is no single-precision rounding, and no claims about exact float sums.
- `Motion.Heading`: states only that the heading is horizontal. It does not state that it is the unit vector at that angle, because `cos`/`sin` are left uninterpreted.
- `Spline.AlignObject`: `glm::normalize` is uninterpreted, so the model does not claim that a zero front yields the (0,0,1) fallback. With IEEE floats that normalisation gives NaN, which the null test does not catch.
- The importer (Assimp) and `pgr::createTexture`: the scene is an input, and the model records the texture file name handed to the texture loader.
- `MeshLoading.MeshGeometry`: leaves loadMeshes' shininess undetermined (`None`). The code reads it through the importer's integer conversion into an unsigned variable that stays uninitialised when the property is missing.
- `MeshLoading.LoadSingleMesh`: the positions and normals copied into the vertex buffer, and the material name lookup, which is never used.
- Faces with fewer than three indices: loadMeshes reads three indices from every face of every mesh; loadSingleMesh reads them from the faces of its only mesh, after the mesh-count check. `Triangulated` is required only where the code reads faces (`MeshLoading.WellFormedScene` for loadMeshes, `MeshLoading.WellFormedMesh` of the only mesh for loadSingleMesh), because the code would read past the index array.

## Findings

| source | as written | input that shows it | evidently intended | confidence | as-written member | corrected member |
|---|---|---|---|---|---|---|
| ComputerGraphicsProject/renderer.cpp:380 | loadMeshes copies `2*n` floats straight from the texture-coordinate channel, which stores three floats per vertex | two vertices with coordinates (0.1,0.2,0) and (0.3,0.4,0) upload [0.1,0.2,0,0.3] | upload u and v of each vertex, [0.1,0.2,0.3,0.4], as loadSingleMesh does at lines 525-531; the model's loadMeshes keeps the as-written copy | high (not executed) | `MeshLoading.RawTexCoordUpload` | `MeshLoading.PackTexCoords` |
