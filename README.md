# objview core in Dafny

objview is a small OpenGL viewer for 3D models. This project models the two
parts of it that hold logic:

- **Mesh loading** (`Mesh3D::Load`). Load checks that the file exists and
  turns a parse failure with a message into an exception. Otherwise it
  flattens the OBJ reader's indexed shapes into one vertex per face vertex,
  shape by shape and face by face. A running `offset` walks each shape's
  index list. The normal is read only when the normal index is
  non-negative, and every vertex is white. Finally the vertices are
  recentred by subtracting the mean position. (module `Mesh3D`,
  `mesh3d.dfy`)
- **Camera callbacks** (`keyCallback`, `positionCallback`, `resizeCallback`
  and `scrollCallback`), the camera position handed to the shader, and the
  initial camera state that `main` sets up. (module `ObjView`,
  `objview.dfy`)
  - The GLFWPointer record is the class `ObjView.Pointer`.
  - The class `ObjView.Window` carries the state outside that record which
    the callbacks change: the window's close flag, the open file dialog and
    the GL viewport.
  - `Window.Valid()` is the invariant the callbacks keep:
    - the stored size is positive;
    - the projection is the one for that size;
    - the view's translation column is the one lookAt gave it.

The glm fragment the viewer uses is in module `Glm` (`glm.dfy`):

- Vectors and column-major matrices over reals, with products and the
  mat3/mat4 conversions.
- `glm::rotate` as a right product with `mat4(R)`, and `glm::lookAt`.
- The routines that need square roots, trigonometry or a general inverse
  are given functions collected in `GlmOps`: radians, normalize, the
  rotation matrix, perspective and the mat3 inverse.

Load is split into methods, one per loop: `FlattenShapes` (shapes),
`AppendShape` (faces), `AppendFace` (face vertices), `ReadVertex` (the loop
body) and `RecenterPositions`. Each is proved against a specification
function:

- `Flattened` describes the result of the flatten loops;
- `SumPositions` describes the running `center`;
- `Recentered` describes the result of the recentring loop.

Load throws
`std::runtime_error` with the reader's message on a failed parse; the model
returns `Thrown` with that message. When parsing fails with an empty message, the code goes on
and flattens whatever the reader holds, and so does the model.

## Model

| member | source | states |
|---|---|---|
| Mesh3D.Load | src/mesh3D.cpp:6-57 | There are three outcomes. A missing file logs "File '<name>' does not exist." and returns the empty mesh. A failed parse with a non-empty error throws that error and logs nothing. Otherwise the result is the mesh "test" holding the recentred flattening, with one vertex per face vertex, every vertex white, and positions that sum to zero. |
| Mesh3D.FlattenShapes | src/mesh3D.cpp:30-48 | The shape loop builds exactly `Flattened(attrib, shapes)`, and `center` ends as the sum of its positions. |
| Mesh3D.AppendShape | src/mesh3D.cpp:31-47 | The face loop over one shape, with `offset` starting at 0 and advancing by each face's size, appends exactly that shape's vertices and keeps `center` equal to the sum of positions. |
| Mesh3D.AppendFace | src/mesh3D.cpp:32-45 | The face-vertex loop appends the vertices of face `j`, read from indices `offset .. offset + size - 1`, and adds their positions to `center`. |
| Mesh3D.ReadVertex | src/mesh3D.cpp:33-43 | A vertex's position comes from the vertex array at `3k..3k+2`. It has a normal exactly when the normal index is non-negative, and then the normal is the normal array's triple. Its color is white. |
| Mesh3D.RecenterPositions | src/mesh3D.cpp:51-53 | Given `center` as the sum of positions, the in-place loop turns the data into `Recentered(data)`. |
| Mesh3D.FlattenedLength | src/mesh3D.cpp:30-48 | The flattened list has exactly one vertex per face vertex over all shapes, with no deduplication. |
| Mesh3D.ShapeVerticesLength | src/mesh3D.cpp:31-47 | After the first `j` faces of a shape, the vertex count equals the running `offset`. |
| Mesh3D.ShapeVerticesAt | src/mesh3D.cpp:31-46 | Within a shape, vertex `v` of face `j` is at position `offset(j) + v` and is built from index `offset(j) + v`. |
| Mesh3D.FlattenedVertexAt | src/mesh3D.cpp:30-46 | Vertex `v` of face `j` of shape `i` sits at the shape's start plus `offset(j) + v` and is built from that index of shape `i`: the offset restarts for every shape. |
| Mesh3D.FlattenedAt | src/mesh3D.cpp:33-44 | At that place the position is read from the vertex array. The normal is present exactly when the normal index is non-negative, and then equals the normal array's triple. The color is white. |
| Mesh3D.SumPositionsSnoc | src/mesh3D.cpp:42 | `center = center + vertex.position` keeps `center` equal to the sum of the positions pushed so far. |
| Mesh3D.SumShifted | src/mesh3D.cpp:51-53 | Moving every position by `-c` moves the sum of positions by `-n*c`. |
| Mesh3D.RecenteredSumsToZero | src/mesh3D.cpp:50-53 | After recentring, the positions sum to the origin, so their mean is zero. This includes the empty list, where the loop never divides. |
| Mesh3D.RecenteredAt | src/mesh3D.cpp:51-53 | Recentring keeps the length, the normals and the colors, and moves each position by minus the mean. |
| Mesh3D.RecenteredIdempotent | src/mesh3D.cpp:50-53 | Recentring an already centred mesh changes nothing. |
| Mesh3D.ShapeVerticesWhite | src/mesh3D.cpp:31-47 | Every vertex appended for the first `j` faces of a shape has color white. |
| Mesh3D.FlattenedAllWhite | src/mesh3D.cpp:30-48 | Every vertex of the flattened list, whichever shape and face it came from, has color white. |
| Mesh3D.LoadedAllWhite | src/mesh3D.cpp:43-53 | Every vertex of a loaded mesh is white: recentring keeps the colors set at line 43. |
| Mesh3D.LoadedVertexAt | src/mesh3D.cpp:30-56 | In a loaded mesh, the vertex for each face vertex has the read position minus the mean of all positions read, the normal read for it, and color white. |
| ObjView.Pointer.constructor | objview.cpp:174-214 | GLFWPointer (its field defaults at objview.cpp lines 44-55, the size from the defines at lines 9-10) starts as `main` sets it up: with size 1024x576, 16 samples, GL 4.2 and title "Model View". The mouse is at (0,0). The light is ambient 0.4, diffuse 0.2, specular 0.4, shininess 4 at (1,1,1). The projection is perspective(radians(45), 1024/576, 0.01, 1000) and the view is lookAt((0,0,5), 0, +y). |
| ObjView.Window.constructor | objview.cpp:173-214 | The window starts open, with no dialog and no viewport set. Its pointer satisfies the camera invariant, holds the initial size, mouse and lookAt view, the default light, title "Model View", 16 samples and GL 4.2. |
| ObjView.KeyCallback | objview.cpp:106-117 | Only a press with exactly Ctrl held acts. Ctrl+O opens the "Import 3D Model" dialog for "Model Files{.obj,.stl},All Files{.*}" at ".". Ctrl+Q sets the close flag. Every other event changes nothing. |
| ObjView.PositionCallback | objview.cpp:119-128 | With the left button down and ImGui not capturing the mouse, the view is rotated. The first rotation is by 0.01 times the vertical motion about `inverse(mat3(view))*(1,0,0)`, and the second is by 0.01 times the horizontal motion about `inverse(mat3(view))*(0,1,0)`, both axes taken before the first rotation. Otherwise the view is kept. The cursor position is stored in every case, and the invariant is kept. |
| ObjView.ResizeCallback | objview.cpp:130-135 | A size with both dimensions positive sets the projection for it, the stored size and the viewport. Any other size changes nothing. The view, the mouse, the dialog and the close flag are untouched. |
| ObjView.ScrollCallback | objview.cpp:137-139 | The view is right-multiplied by `mat4(mat3(1 + 0.08*dy))`, the horizontal offset is ignored, and the invariant is kept. |
| ObjView.ScrollScalesBlock | objview.cpp:138 | A scroll scales the view's three rotation columns by `1 + 0.08*dy` and keeps the translation column. |
| ObjView.ScrollsCompose | objview.cpp:138 | Two scrolls compose multiplicatively: the block is scaled by the product of the two factors. |
| ObjView.ScrollsNotAdditive | objview.cpp:138 | Two scrolls of 1 differ from one scroll of 2 (1.1664 against 1.16). |
| ObjView.ScrollsAdditiveIff | objview.cpp:138 | For all offsets, the zoom factors of two scrolls multiply to the factor of one scroll by `d1 + d2` exactly when `d1 * d2 == 0`. |
| ObjView.ScrolledViewAdditiveIff | objview.cpp:138 | On a view whose 3x3 block is not all zero, two scrolls give the same view as one scroll by the summed offset exactly when one of the offsets is zero. |
| ObjView.ScrollZeroesBlock | objview.cpp:138 | A scroll by -12.5 has zoom factor 0 and zeroes the view's 3x3 block, so the previous row's hypothesis can fail in a reachable state. |
| ObjView.DragKeepsTranslation | objview.cpp:122-125 | A drag never moves the view's translation column. |
| ObjView.DragComposesRotations | objview.cpp:122-125 | A drag's 3x3 block is the old block times the vertical-motion rotation, then times the horizontal-motion rotation. |
| ObjView.DragAxesAreCameraAxes | objview.cpp:122-123 | When the inverse is a true inverse, the view maps the two drag axes to the camera's x and y axes. |
| ObjView.ZeroDragKeepsView | objview.cpp:119-128 | When a zero-angle rotation is the identity, a drag event that does not move the cursor leaves the view unchanged. |
| ObjView.CameraPositionMapsToOrigin | objview.cpp:142 | When the inverse is a true inverse, the view takes the `u_camera` position to the eye-space origin. |
| ObjView.InitialViewIsTranslation | objview.cpp:214 | With normalize exact on the two vectors lookAt normalizes here, the initial view is the translation by -5 along z. |
| ObjView.InitialCameraAtEye | objview.cpp:142 | With the same normalize facts and `inverse(I) == I`, the `u_camera` at start-up is the eye point (0,0,5). |
| Glm.MulMat4OfBlock | objview.cpp:124-125 | `m * mat4(r)` (the form of glm::rotate) multiplies the 3x3 block by `r` and keeps the translation column. |
| Glm.MulScalarBlock | objview.cpp:138 | `m * mat4(mat3(s))` scales the first three columns by `s`. |
| Glm.MulVec3Assoc | objview.cpp:142 | `a*(b*v) == (a*b)*v` for the mat3 products the camera position uses. |

## Left out

- OBJ text parsing (tinyobjloader) is not part of this model. Its result is
  an input: `ObjReader` carries the parse flag, the error text, the
  attribute arrays and the shapes. Texture coordinates are carried in
  `Index` but are unused, as in Load.
- Mesh3D.Load: requires that every index a face uses is in range
  (`ShapesValid`). The code indexes the arrays unchecked and relies on the
  reader to produce valid indices; out-of-range input is undefined
  behaviour in the source and is not modelled.
- Mesh3D.Load: the file-system check is the parameter `fileExists`, and
  what Load writes to `std::cerr` is the out-parameter `log`.
- The mesh's GPU buffer, its translate/rotate/scale matrices,
  `Mesh3D::render`, `Shader` and `Buffer` are left out. They are OpenGL
  calls, and `Mesh` keeps only the name and the vertex list.
- Floating point is modelled as exact reals. This covers the single-precision
  arithmetic, the `(float)` casts of cursor and scroll offsets, and the
  division `center / (float)data.size()`. Rounding is not captured.
- glm's radians, normalize, inverse (mat3), perspective and the rotation
  matrix of `glm::rotate` are given functions, not computed. Lemmas that
  need a property of them state it as a hypothesis:
  - DragAxesAreCameraAxes and CameraPositionMapsToOrigin assume the inverse
    is a true inverse;
  - ZeroDragKeepsView assumes a zero-angle rotation is the identity;
  - InitialViewIsTranslation and InitialCameraAtEye assume exact normalize
    results on two vectors, and `inverse(I) == I`.
- ObjView.PositionCallback: the left-button query and ImGui's
  `WantCaptureMouse` are parameters (`leftButton`, `wantCaptureMouse`), not
  calls.
- ObjView.KeyCallback: the ImGuiFileDialog singleton is the `dialog` field
  of `Window`, and opening it records the dialog's key, title, filters and
  path. The dialog's rendering and file choice (`Gui::render`) are left out.
- ObjView.ResizeCallback: `glViewport` is recorded as the `viewport` field.
- `main`'s argument parsing, GLFW and GLAD initialisation, the render loop
  and the `Gui` class are left out; they are I/O and library calls. The
  initial state `main` builds is modelled by the two constructors.
- The uniforms `set` passes besides `u_camera` are left out, because they
  copy the camera and light fields unchanged. The GLSL shaders are left out
  too.
