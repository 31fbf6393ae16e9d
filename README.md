# Scene registries and view controller of a nursery-scene OpenGL viewer

This project models the two stateful parts of a small OpenGL coursework
renderer that draws a bassinet, a mobile toy and a couch, and proves
properties of the model in Dafny.

- **The scene manager's registries** (module `Scene`, `scene_manager.dfy`). A
  fixed array of 16 `(GL texture name, tag)` slots is filled from slot 0 up,
  counted by `loadedTextures`. A list of named materials sits beside it.
  There are first-match lookups by tag, the binding of slot *i* to texture
  unit *i*, and the shader uniforms published from the lookups. The scene
  manager is a class. The array stays an `array`, the counter a field, and the
  material vector a `seq` field. Lookups are `while` loops proved against the
  pure specification `FirstIndex`.
- **The view manager's input and camera-mode controller** (module `View`,
  `view_manager.dfy`). It covers scroll-driven movement speed, mouse offsets
  with first-event seeding, the O/P projection keys, Q/E vertical movement,
  frame timing and the choice of projection parameters. The source keeps
  this state in file-scope globals. Here those globals are fields of the
  single `ViewManager` instance, and the camera fields it touches are a
  `Camera` class. Each method is tied to a pure step function (`MouseStep`,
  `Tick`, `ModeAfterPoll`, `PoseAfterPoll`, `ProjectionFor`). The properties
  are lemmas about those functions.
- `vectors.dfy` (module `Vectors`) holds `glm::vec3` as a triple of reals.

Where the design description and the code disagree, the model follows the
code:
- The frame delta is not clamped. The code stores `now - lastFrame` as it
  is, so a clock that goes back gives a negative delta
  (`View.BackwardsClockGivesNegativeDelta`).
- The material lookup does not report a miss (see Findings).
- The texture registry never checks its capacity. The model makes a free slot
  a precondition of a successful load.

## Model

| member | source | states |
|---|---|---|
| `Scene.FirstIndex` | Source/SceneManager.cpp:204-222 | The first-match scan. The result lies in [-1, n). At a non-negative result the tag matches and no earlier entry does. The result is -1 exactly when no entry has the tag. |
| `Scene.FirstIndexAppend` | Source/SceneManager.cpp:210-219 | Appending a tag never moves an existing first match. The appended tag is found at the end only if it did not occur before. |
| `Scene.RegisterKeepsLookups` | Source/SceneManager.cpp:129-131 | After one more texture is registered, every tag already present is found where it was; later duplicate tags are unreachable. |
| `Scene.DuplicateTagUnreachable` | Source/SceneManager.cpp:184-193 | When two entries share a tag, the lookup stops at or before the earlier one. |
| `Scene.FindMaterialMissReportsFound` | Source/SceneManager.cpp:230-255 | Counterexample: with only "plastic" registered, "wood" matches nothing, yet the list is non-empty, so the lookup's flag is true. |
| `Scene.SceneManager.constructor` | Source/SceneManager.cpp:50-54 | A new scene manager has 16 empty texture slots, no registered texture and no material. |
| `Scene.SceneManager.CreateGLTexture` | Source/SceneManager.cpp:76-140 | Success happens exactly when the image decoded with 3 or 4 channels. On success the entry is written at slot `loadedTextures`, the count grows by one and every other slot is unchanged. On failure the array and count are unchanged. |
| `Scene.SceneManager.BindGLTextures` | Source/SceneManager.cpp:148-156 | One binding per registered slot, in order: unit *i* gets the GL name in slot *i*, for exactly 0 ≤ *i* < `loadedTextures` (at most 16 units). |
| `Scene.SceneManager.FindTextureSlot` | Source/SceneManager.cpp:204-222 | Returns the smallest registered slot with the tag, or -1 when there is none. The result is in [-1, `loadedTextures`). Nothing is modified. |
| `Scene.SceneManager.FindTextureID` | Source/SceneManager.cpp:178-196 | Returns -1 exactly when the slot lookup misses. Otherwise it returns the GL name stored in the first matching slot. Nothing is modified. |
| `Scene.SceneManager.DefineMaterial` | Source/SceneManager.cpp:391-396 | Appends one material to the end of the material list. |
| `Scene.SceneManager.FindMaterial` | Source/SceneManager.cpp:230-255 | The flag is false exactly when the material list is empty, whether or not a tag matches. The output takes the colours and shininess of the first matching material and keeps its own tag. It is untouched on a miss. Nothing is modified. |
| `Scene.SceneManager.FindMaterialExact` | Source/SceneManager.cpp:230-255 | Corrected lookup: the flag is true exactly when some material has the tag. The output is as in `FindMaterial`. |
| `Scene.SceneManager.SetShaderTexture` | Source/SceneManager.cpp:328-339 | With a shader manager, publishes use-texture = 1 and then the slot index of the tag, not the GL name; the index may be -1. Without one, publishes nothing. |
| `Scene.SceneManager.SetShaderMaterial` | Source/SceneManager.cpp:361-377 | Publishes nothing for an empty material list. Otherwise publishes diffuse, specular and shininess of the first matching material. On a miss it publishes the uninitialised local instead. |
| `Scene.SceneManager.SetShaderMaterialExact` | Source/SceneManager.cpp:361-377 | Corrected publish: the first matching material's values, or nothing when no material has the tag. |
| `View.ClampSpeed` | Source/ViewManager.cpp:67-71 | The clamped speed lies in [1, 50]. It equals the input when the input is in range, and it is the point of [1, 50] nearest to the input. |
| `View.ScrollsKeepSpeedInRange` | Source/ViewManager.cpp:62-72 | After any non-empty run of scroll events, or from an in-range start, the movement speed is in [1, 50]. |
| `View.FirstPointerEventIsStill` | Source/ViewManager.cpp:161-166 | The first pointer event yields zero X and Y offsets and clears the first-event flag. |
| `View.PointerOffsetsTelescope` | Source/ViewManager.cpp:161-174 | Over any run of pointer events, the offsets sum to the net displacement from the starting point, with Y inverted. For a fresh tracker the starting point is the first event itself. The tracker ends at the last event with the flag cleared. |
| `View.FrameDeltasTelescope` | Source/ViewManager.cpp:260-262 | The frame deltas of a run of frames sum to the final timestamp minus the last frame before the run. |
| `View.BackwardsClockGivesNegativeDelta` | Source/ViewManager.cpp:260-262 | The delta is negative exactly when the clock went back. The new last frame is always the current time. |
| `View.OrthoSnapIgnoresPriorPose` | Source/ViewManager.cpp:200-209 | With O held, the flag becomes orthographic and the resulting pose does not depend on the prior pose. Front, up, yaw and pitch are (0,0,-1), (0,1,0), -90 and 0. With neither or both of Q/E held, the pose is exactly the canonical one at (0,0,10). |
| `View.PerspectiveKeepsPose` | Source/ViewManager.cpp:193-198 | P never changes the pose. Without O it clears the orthographic flag. |
| `View.ModeSwitchIdempotent` | Source/ViewManager.cpp:193-209 | Polling the same keys twice gives the same projection flag as polling them once. |
| `View.VerticalMoves` | Source/ViewManager.cpp:235-244 | Without O: Q alone adds up·speed·delta to the position and E alone subtracts it. With both or neither held, the pose is unchanged. The orientation never changes. |
| `View.ProjectionFor` | Source/ViewManager.cpp:271-297 | The orthographic box is centred, with half-height 10 and the window's 1000:800 aspect ratio. The perspective frustum uses the camera zoom as field of view, with the same aspect. Near is 0.1 and far is 100 in both. |
| `View.OrthographicBounds` | Source/ViewManager.cpp:274-287 | The orthographic bounds are ±12.5 by ±10, whatever the zoom. |
| `View.ViewManager.constructor` | Source/ViewManager.cpp:78-91 | The camera is created at (0.5, 5.5, 10), looking along (0, -0.5, -2), with up (0, 1, 0), zoom 80 and speed 10. The last pointer position is the window centre (500, 400), the first-event flag is set, both timings are 0, and the view is perspective. |
| `View.ViewManager.ScrollCallback` | Source/ViewManager.cpp:62-72 | With a camera, the new speed is `ClampSpeed(old speed + yoffset)` and the pose and zoom are unchanged. Without a camera, nothing changes. |
| `View.ViewManager.MousePositionCallback` | Source/ViewManager.cpp:156-178 | The new tracker and the returned offsets are one `MouseStep`: the first event seeds the last position, `xOffset = x - lastX`, `yOffset = lastY - y`, and then the last position becomes (x, y). |
| `View.ViewManager.SwitchProjection` | Source/ViewManager.cpp:193-209 | The flag follows `ModeAfterPoll`. The pose snaps to the canonical pose when O is held, and is otherwise unchanged. |
| `View.ViewManager.MoveVertically` | Source/ViewManager.cpp:235-244 | The position moves by ±up·speed·delta for Q and E, in that order. Nothing else changes. |
| `View.ViewManager.ProcessKeyboardEvents` | Source/ViewManager.cpp:186-245 | The close request is true exactly when Escape is held. The flag follows `ModeAfterPoll` and the pose `PoseAfterPoll`. W/S/A/D become camera-handler calls in that order. Speed and zoom are unchanged. |
| `View.ViewManager.PrepareSceneView` | Source/ViewManager.cpp:254-297 | Sets delta = now − last frame and last frame = now, then polls the keys with the new delta. Finally it chooses the projection for the resulting mode. |

## Left out

- OpenGL and image decoding are not modelled. This covers `glGenTextures`, `glTexImage2D`, `glActiveTexture`, `glBindTexture`, the uniform setters and `stb_image`. The decoder is a `LoadOutcome` (failed, or decoded with *c* channels). The GL texture name is a parameter, and uniform writes and texture bindings are returned as sequences.
- Scene.SceneManager.CreateGLTexture: the GL texture and the decoded image that the source leaks on the unsupported-channel path are not modelled. The array bound is not checked in the source, so a free slot is a precondition of a successful load. The 16-slot capacity comes from the source's comment. An empty registry at construction is assumed, because the counter's initialiser is in a header that is not part of this model.
- Scene.SceneManager.FindTextureID: GL names are unbounded naturals. The source's conversion of an unsigned GL name to `int`, which would turn names of 2^31 and above negative, is not modelled.
- Scene.SceneManager.SetShaderMaterial: the source dereferences the shader manager without a null check, so a shader manager is a precondition when materials exist. The uninitialised local it publishes on a miss is a parameter.
- `DestroyGLTextures`, `SetTransformations`, `SetShaderColor`, `SetTextureUVScale`, `SetupSceneLights`, `PrepareScene`, `RenderScene` and the contents of `DefineObjectMaterials` are not modelled. They are GL calls, matrix and trigonometry arithmetic on floats, or fixed scene data with no behaviour beyond calling setters and drawing.
- The window is not modelled: GLFW window creation, callback registration, cursor capture and key polling. The keys held in one poll are a `set<Key>`. The time is a parameter of `PrepareSceneView`. Escape's `glfwSetWindowShouldClose` becomes a returned flag.
- View.ViewManager.ProcessKeyboardEvents: the W/S/A/D calls to the camera's own keyboard handler are returned in order but not applied. That handler lives in the camera header, which is not part of this model. So the pose stated is the pose apart from those moves.
- View.ViewManager.MousePositionCallback: the offsets are returned, not applied to yaw and pitch. The camera's mouse handler, and any pitch clamp and basis recomputation in it, is not part of this model. The design's pitch bound (−89°, 89°) is therefore not stated.
- The camera's default yaw and pitch come from the camera header, which is not part of this model. They are parameters of `View.ViewManager.constructor`.
- The view matrix, the `glm::ortho` and `glm::perspective` matrices, and the publishing of view, projection and viewer position are not modelled. Only the projection parameters are kept.
- All arithmetic is on reals. Single-precision rounding is not modelled, including the `float` casts of the scroll and pointer values and the inexact `0.1f` near plane.
- The source's globals shared by all callbacks are fields of one `ViewManager` instance.

## Findings

| source | as written | input that shows it | evidently intended | confidence | as-written member | corrected member |
|---|---|---|---|---|---|---|
| Source/SceneManager.cpp:230-255 | `FindMaterial` returns true whenever the material list is non-empty, even when no material has the tag. `SetShaderMaterial` then publishes the uninitialised local material. | Materials = [plastic], tag "wood": no tag matches, yet the flag is true (`Scene.FindMaterialMissReportsFound`). | The flag is true only when a material with the tag was found, so that an unresolved tag publishes nothing. | high; not executed | `Scene.SceneManager.FindMaterial` | `Scene.SceneManager.FindMaterialExact` |
