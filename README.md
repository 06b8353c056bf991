# solaris_1 camera, input and mesh texture naming, modelled in Dafny

This project models the parts of the solaris_1 OpenGL tutorial that carry their own logic.
The rest of that program hands work to GLFW, GLEW, glm, SOIL2 and assimp.

- **Camera** (`camera.dfy`, module `CameraModel`). A free-fly camera has a position, yaw and
  pitch in degrees, a basis (front, right, up) derived from them and a world-up vector, and
  constant options: speed 6, sensitivity 0.25 and zoom 45. Keyboard movement moves the
  position along front or right by `movementSpeed * deltaTime`. Mouse look adds the scaled
  offsets to yaw (no bound) and to pitch (clamped to [-89, 89] on request), then recomputes
  the basis. The basis computation itself (cos/sin, normalize, cross) belongs to glm. So the
  camera receives it at construction as a function `basisOf` from yaw, pitch and world-up to
  a basis. `Valid()` states that front, right and up are always `basisOf(yaw, pitch, worldUp)`
  and that the options keep their defaults. `GetPosition` returns the position.
- **Application input** (`app.dfy`, module `App`). The globals of `main.cpp` are gathered
  into one context, `AppState`:
  - the 1024-entry key table, an `array<bool>` that the key callback updates in place;
  - the first-mouse flag and the last cursor position;
  - the window's close-requested flag;
  - the camera.

  `KeyTableAfter` gives the table after one key event, and `HeldDirections` gives the
  directions one frame's `DoMovement` issues. `MoveAll` is the position after a list of
  moves. `DoMovement` is proved to move the camera by exactly `MoveAll` of `HeldDirections`.
  `MoveIfHeld` is one of its four tests: "either of two keys held, then `ProcessKeyboard`".
- **Mesh** (`mesh.dfy`, module `MeshModel`). The constructor stores the vertex, index and
  texture lists. `Draw` walks the textures and gives texture `i` texture unit `i` and
  sampler value `i`. Its uniform name is defined independently by `UniformName`:
  - `"texture_diffuse"` or `"texture_specular"`, followed by the texture's 1-based rank
    among the textures of its own type;
  - for any other type, the bare type string.

  The loop keeps two counters, and it is proved to agree with that definition.
- **Decimal text** (`decimal.dfy`, module `NumberFormat`). This is what
  `std::stringstream << GLuint` writes. It is proved to read back as the same number, so
  distinct counter values give distinct names.
- `vectors.dfy` (module `Vectors`) holds glm's `vec2`/`vec3` as triples of reals.

GLfloat and double are modelled as `real`, so there is no rounding. GLFW's key and action
codes take their standard GLFW values: PRESS 1, RELEASE 0, ESCAPE 256, W 87, S 83, A 65,
D 68, RIGHT 262, LEFT 263, DOWN 264, UP 265.

Points where the code does not do what one might expect:
- One might expect zero mouse offsets to change nothing. With the constraint on, an
  out-of-range pitch is pulled back to ±89 even then (solaris_1/Camera.h:92-100), so the
  model promises an unchanged orientation only when the pitch is already in range.
- The texture loop's condition at solaris_1/Mesh.h:49 is wrong. See "## Findings".

## Model

| member | source | states |
|---|---|---|
| CameraModel.Camera.constructor | solaris_1/Camera.h:22-43 | Every argument is optional. Defaults: position (0,0,0), world-up (0,1,0), yaw -90, pitch 0. Speed is 6, sensitivity 0.25, zoom 45. The basis is the one derived from yaw and pitch. |
| CameraModel.Camera.FromComponents | solaris_1/Camera.h:45-56 | The component constructor stores position and world-up from their components, yaw and pitch as given, the default options, and the derived basis. |
| CameraModel.Camera.UpdateCameraVectors | solaris_1/Camera.h:142-153 | Only front, right and up change. They become the basis computed from the current yaw, pitch and world-up. |
| CameraModel.Camera.ProcessKeyboard | solaris_1/Camera.h:63-82 | Only the position changes. It moves by `Moved`: FORWARD adds front·(speed·dt), BACKWARD subtracts it, RIGHT adds right·(speed·dt), LEFT subtracts it. The basis invariant is kept. |
| CameraModel.OppositeRestores | solaris_1/Camera.h:65-81 | Over the reals, a move and then the opposite move with the same velocity restore the position. |
| CameraModel.StepsAdd | solaris_1/Camera.h:65-81 | Movement is frame-rate independent. Steps of dt1 and dt2 land where one step of dt1 + dt2 does. |
| CameraModel.Camera.ProcessMouseMovement | solaris_1/Camera.h:84-103 | yaw becomes old yaw + xOffset·sensitivity, with no bound. Without the constraint, pitch becomes old + yOffset·sensitivity exactly. With it, pitch lies in [-89, 89]: it equals that sum when the sum is in range, and 89 or -89 when the sum is above or below. The basis is recomputed and the position is untouched. Zero offsets change nothing when the pitch is already in range. |
| CameraModel.Camera.GetPosition | solaris_1/Camera.h:115-118 | It returns the current position. ProcessMouseMovement and ProcessMouseScroll state that they leave what it returns unchanged; of the camera methods, only ProcessKeyboard changes it. |
| CameraModel.Camera.ProcessMouseScroll | solaris_1/Camera.h:105-108 | The scroll handler changes no state, so the zoom stays 45. |
| CameraModel.Camera.GetZoom | solaris_1/Camera.h:110-113 | The zoom returned is always the default 45. |
| CameraModel.Camera.GetFront | solaris_1/Camera.h:120-123 | The front returned is the front derived from the current yaw, pitch and world-up. |
| App.AppState.constructor | solaris_1/main.cpp:32-36 | Start-up state: camera at (0,0,3) with default orientation, every key released, first-mouse set. lastX and lastY are both WIDTH/2, as written. |
| App.KeyTableAfter | solaris_1/main.cpp:165-171 | For a key in [0, 1024): PRESS sets its entry, RELEASE clears it. Any other action, or a key out of range, leaves the whole table unchanged. No other entry changes. |
| App.AppState.KeyCallback | solaris_1/main.cpp:159-172 | The key array becomes `KeyTableAfter` of its old contents. The close flag is set exactly when ESCAPE is pressed, and the key is still recorded. |
| App.HeldDirections | solaris_1/main.cpp:140-157 | A direction is issued exactly when either of its two keys is held (W/Up, S/Down, A/Left, D/Right). Opposing directions are independent. Each is issued at most once, in the order Forward, Backward, Left, Right. |
| App.AppState.MoveIfHeld | solaris_1/main.cpp:142-144 | One test of DoMovement moves the camera by `ProcessKeyboard` in its direction exactly when one of its two keys is held. |
| App.AppState.DoMovement | solaris_1/main.cpp:140-157 | The camera position becomes `MoveAll` of the old position over `HeldDirections` of the key table, at velocity speed·dt. Nothing else in the camera changes. |
| App.HeldMovesCompose | solaris_1/main.cpp:142-156 | The four tests in their fixed order add up to exactly the moves `HeldDirections` lists. |
| App.MoveAllSnoc | solaris_1/main.cpp:142-156 | Making one more move after a list of moves is the same as moving along the longer list. |
| App.OpposingKeysCancel | solaris_1/main.cpp:142-156 | Opposing directions both fire. When, on each axis, both directions or neither are held (W/Up against S/Down, A/Left against D/Right), the frame's moves cancel and the position is unchanged over the reals. |
| App.AppState.MouseCallback | solaris_1/main.cpp:174-189 | The first event gives offsets (0, 0). Later events give xPos − lastX and lastY − yPos, so y is inverted. Afterwards first-mouse is cleared for good, and lastX, lastY are the new position. The camera's yaw becomes old yaw + xOffset·0.25. Its pitch becomes old pitch + yOffset·0.25 when that sum is in [-89, 89], and 89 or -89 when the sum is above or below. Its position is unchanged. |
| MeshModel.Mesh.constructor | solaris_1/Mesh.h:38-39 | The vertex, index and texture lists are stored exactly as given. |
| MeshModel.Mesh.Draw | solaris_1/Mesh.h:44-65 | There is one binding per texture, in list order. Texture i gets unit i, sampler value i, its own id, and the name `UniformName(textures, i)`. At the end, diffuseNr − 1 and specularNr − 1 are the numbers of diffuse and specular textures. |
| MeshModel.KthCountedName | solaris_1/Mesh.h:46-58 | The k-th diffuse texture in list order, counting from 1, is named "texture_diffuse" + decimal(k). The same holds for specular textures, with a counter of their own. |
| MeshModel.RankPositive | solaris_1/Mesh.h:46-47 | A counted texture's rank is at least 1, because the counters start at 1. |
| MeshModel.OtherTypeNamedByType | solaris_1/Mesh.h:53-63 | A texture whose type is neither diffuse nor specular is named by its type string, with an empty suffix. |
| MeshModel.CountedNamesDistinct | solaris_1/Mesh.h:53-63 | Two different diffuse textures never share a uniform name, and the same holds for two specular ones. |
| MeshModel.CountOfTypeMonotone | solaris_1/Mesh.h:55-58 | A counter never decreases as the loop goes on: the count of a type over a shorter prefix is at most its count over a longer one. |
| MeshModel.AsWrittenLoopReadsPastEnd | solaris_1/Mesh.h:49 | As written, the loop does not exit on a non-empty list. It goes on until it reads textures[textures.size()]. |
| MeshModel.AsWrittenLoopOneTexture | solaris_1/Mesh.h:49 | One diffuse texture is enough to make the loop as written read index 1 of a one-element list. |
| NumberFormat.Decimal | solaris_1/Mesh.h:56-61 | The text is non-empty and all digits. It starts with '0' only for 0, and has one digit exactly below 10. |
| NumberFormat.ParseDecimalOfDecimal | solaris_1/Mesh.h:56-61 | Reading the decimal text back gives the number. |
| NumberFormat.DecimalInjective | solaris_1/Mesh.h:56-58 | Different counter values give different suffixes. |

## Left out

- All GLFW, GLEW and OpenGL calls are left out, because they are foreign library calls. This covers window and context creation, the viewport, depth testing and blending, `SetupMesh`'s buffer upload, the `material.shinines` uniform, `glDrawElements`, and the texture unbind loop at solaris_1/Mesh.h:72-75. `Draw` reports the unit, uniform name, value and texture id it would pass to GL, as data.
- `Draw`'s `Shader` parameter is left out. It only supplies a program handle for `glGetUniformLocation`.
- The internals of `updateCameraVectors` (trigonometry, normalize, cross) are given to the camera as the function `basisOf` instead. Orthonormality of the basis and "the default camera looks along (0, 0, -1)" therefore cannot be stated.
- CameraModel.Camera.constructor: does not state that the default front is (0, 0, -1). That front comes from glm's trigonometry, which is not modelled.
- `GetViewMatrix` (`glm::lookAt`) is left out, because it is external floating-point matrix code.
- Floating-point rounding is not modelled: GLfloat and double are `real`. OppositeRestores and StepsAdd hold over the reals only. The `double` to `GLfloat` conversion in MouseCallback is not modelled.
- Frame timing is left out, because it is clock I/O: `glfwGetTime`, `deltaTime` and `lastFrame`. `DoMovement` takes `deltaTime` as a parameter.
- The render loop, the projection and model matrices and `lightPos` are left out, as are the loading of `Shader`, `Model` and SOIL2 assets. Shader.h and Model.h are not part of this model.
- The texture's `aiString path` field is left out, because the logic here never reads it.
- MeshModel.Mesh.Draw: `diffuseNr`, `specularNr` and `i` are unbounded naturals. The 32-bit GLuint wrap-around would need more than 4·10^9 textures.
- KeyCallback's `window` parameter is not modelled. `glfwSetWindowShouldClose(window, GL_TRUE)` becomes setting the flag `windowShouldClose`. `scan` and `mode` are taken and ignored, as in the source.

## Findings

| source | as written | input that shows it | evidently intended | confidence | as-written member | corrected member |
|---|---|---|---|---|---|---|
| solaris_1/Mesh.h:49 | The loop condition is `textures.size()`. It never becomes false for a non-empty list, so the body reads `textures[textures.size()]`. | one texture of type "texture_diffuse": the second iteration reads index 1 | `i < textures.size()`, as the unbind loop at solaris_1/Mesh.h:72 has it | not executed | MeshModel.AsWrittenLoopReadsPastEnd | MeshModel.Mesh.Draw |
