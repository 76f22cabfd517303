/** The viewer's input callbacks and the camera state they update.

    `Pointer` is the GLFWPointer record reached through the window's user
    pointer; `Window` stands for the GLFW window together with the outside
    state the callbacks change (its close flag, the file dialog, the GL
    viewport). What the callbacks only query (the left mouse button, ImGui's
    WantCaptureMouse) is passed in as parameters. */
module ObjView {
  import opened Glm

  /** Initial window size. */
  const Width := 1024
  const Height := 576

  /** GLFW's values for the constants the callbacks compare against. */
  const GlfwPress := 1
  const GlfwModControl := 0x0002
  const GlfwKeyO := 79
  const GlfwKeyQ := 81

  /** Projection: 45 degree vertical field of view, near and far planes. */
  const FieldOfView: real := 45.0
  const Near: real := 0.01
  const Far: real := 1000.0

  /** Radians of rotation per pixel of drag, and zoom per unit of scroll. */
  const DragSensitivity: real := 0.01
  const ZoomSensitivity: real := 0.08

  /** The camera's starting point: lookAt from (0, 0, 5) towards the origin,
      with +y up. */
  const Eye := Vec3(0.0, 0.0, 5.0)
  const Up := Vec3(0.0, 1.0, 0.0)

  /** The translation by -5 along z. */
  const StartView := Mat4(Vec4(1.0, 0.0, 0.0, 0.0), Vec4(0.0, 1.0, 0.0, 0.0),
                          Vec4(0.0, 0.0, 1.0, 0.0), Vec4(0.0, 0.0, -5.0, 1.0))

  datatype Light = Light(ambient: real, diffuse: real, specular: real, shininess: real, position: Vec3)

  const DefaultLight := Light(0.4, 0.2, 0.4, 4.0, Vec3(1.0, 1.0, 1.0))

  /** An open file dialog: its key, title, extension filters and start path. */
  datatype Dialog = Dialog(key: string, title: string, filters: string, path: string)

  const ImportDialog := Dialog("Import 3D Model", "Import 3D Model", "Model Files{.obj,.stl},All Files{.*}", ".")

  // -------------------------------------------------------- camera math

  function InitialView(ops: GlmOps): (r: Mat4)
  {
    LookAt(ops, Eye, Zero3, Up)
  }

  /** The projection for a window of the given size: aspect width / height. */
  function Projection(ops: GlmOps, width: int, height: int): (r: Mat4)
    requires height != 0
  {
    ops.perspective(ops.radians(FieldOfView), width as real / height as real, Near, Far)
  }

  /** The drag's first axis: inverse(mat3(view)) * (1, 0, 0). */
  function YAxis(ops: GlmOps, view: Mat4): (r: Vec3)
  {
    MulVec3(ops.inverse3(Mat3Of(view)), Vec3(1.0, 0.0, 0.0))
  }

  /** The drag's second axis: inverse(mat3(view)) * (0, 1, 0). */
  function XAxis(ops: GlmOps, view: Mat4): (r: Vec3)
  {
    MulVec3(ops.inverse3(Mat3Of(view)), Vec3(0.0, 1.0, 0.0))
  }

  /** The view after a drag from `mouse` to (x, y): both axes are taken from
      the view before the drag; the vertical rotation is applied first, the
      horizontal one to its result. */
  function DraggedView(ops: GlmOps, view: Mat4, mouse: Vec2, x: real, y: real): (r: Mat4)
  {
    var yaxis := YAxis(ops, view);
    var xaxis := XAxis(ops, view);
    var pitched := Rotate(ops, view, DragSensitivity * (y - mouse.y), yaxis);
    Rotate(ops, pitched, DragSensitivity * (x - mouse.x), xaxis)
  }

  function ZoomFactor(dy: real): (r: real)
  {
    1.0 + ZoomSensitivity * dy
  }

  /** view * mat4(mat3(1 + 0.08 * dy)). */
  function ScrolledView(view: Mat4, dy: real): (r: Mat4)
  {
    Mul4(view, Mat4Of(Scalar3(ZoomFactor(dy))))
  }

  /** The camera position passed to the shader as u_camera:
      -inverse(mat3(view)) * vec3(view[3]). */
  function CameraPosition(ops: GlmOps, view: Mat4): (r: Vec3)
  {
    MulVec3(NegMat3(ops.inverse3(Mat3Of(view))), Xyz(view.c3))
  }

  // ------------------------------------------------------------- state

  /** GLFWPointer: the window size, the last cursor position, the camera
      matrices and the (fixed) context hints and light. */
  class Pointer {
    var width: int
    var height: int
    const samples: int
    const major: int
    const minor: int
    const title: string
    var mouse: Vec2
    var view: Mat4
    var proj: Mat4
    const light: Light

    /** The record as `main` sets it up before the render loop. */
    constructor (ops: GlmOps)
      ensures width == Width && height == Height
      ensures samples == 16 && major == 4 && minor == 2 && title == "Model View"
      ensures mouse == Vec2(0.0, 0.0)
      ensures proj == Projection(ops, Width, Height)
      ensures view == InitialView(ops)
      ensures light == DefaultLight
    {
      width, height := Width, Height;
      samples, major, minor := 16, 4, 2;
      title := "Model View";
      mouse := Vec2(0.0, 0.0);
      light := DefaultLight;
      proj := ops.perspective(ops.radians(FieldOfView), Width as real / Height as real, Near, Far);
      view := LookAt(ops, Eye, Zero3, Up);
    }
  }

  class Window {
    const ops: GlmOps
    const pointer: Pointer
    var shouldClose: bool
    var dialog: Option<Dialog>
    /** Size last given to glViewport; None until a resize sets it. */
    var viewport: Option<(int, int)>

    /** The camera invariant: the window size is positive, the projection is
        the one for that size, and the view's translation column is the one
        lookAt gave it (drags and scrolls never move it). */
    ghost predicate Valid()
      reads this, pointer
    {
      pointer.width > 0 && pointer.height > 0 &&
      pointer.proj == Projection(ops, pointer.width, pointer.height) &&
      pointer.view.c3 == InitialView(ops).c3
    }

    constructor (ops: GlmOps)
      ensures Valid() && fresh(pointer)
      ensures this.ops == ops
      ensures pointer.width == Width && pointer.height == Height
      ensures pointer.mouse == Vec2(0.0, 0.0)
      ensures pointer.view == InitialView(ops)
      ensures !shouldClose && dialog == None && viewport == None
      ensures pointer.light == DefaultLight && pointer.title == "Model View"
      ensures pointer.samples == 16 && pointer.major == 4 && pointer.minor == 2
    {
      this.ops := ops;
      pointer := new Pointer(ops);
      shouldClose := false;
      dialog := None;
      viewport := None;
    }
  }

  // --------------------------------------------------------- callbacks

  /** keyCallback: acts only on a press with exactly Ctrl held. Ctrl+O opens
      the import dialog, Ctrl+Q sets the close flag; nothing else changes. */
  method KeyCallback(window: Window, key: int, scancode: int, action: int, mods: int)
    modifies window
    ensures action == GlfwPress && mods == GlfwModControl && key == GlfwKeyO ==>
      window.dialog == Some(ImportDialog) && window.shouldClose == old(window.shouldClose)
    ensures action == GlfwPress && mods == GlfwModControl && key == GlfwKeyQ ==>
      window.shouldClose && window.dialog == old(window.dialog)
    ensures !(action == GlfwPress && mods == GlfwModControl && (key == GlfwKeyO || key == GlfwKeyQ)) ==>
      window.shouldClose == old(window.shouldClose) && window.dialog == old(window.dialog)
    ensures window.viewport == old(window.viewport)
  {
    if action == GlfwPress {
      if mods == GlfwModControl && action == GlfwPress {
        if key == GlfwKeyO {
          window.dialog := Some(ImportDialog);
        } else if key == GlfwKeyQ {
          window.shouldClose := true;
        }
      }
    }
  }

  /** positionCallback: with the left button pressed and ImGui not capturing
      the mouse, the view is dragged; the cursor position is stored in every
      case. `leftButton` is glfwGetMouseButton's answer for the left button. */
  method PositionCallback(window: Window, x: real, y: real, leftButton: int, wantCaptureMouse: bool)
    requires window.Valid()
    modifies window.pointer
    ensures window.Valid()
    ensures window.pointer.mouse == Vec2(x, y)
    ensures window.pointer.view ==
      if leftButton == GlfwPress && !wantCaptureMouse
      then DraggedView(window.ops, old(window.pointer.view), old(window.pointer.mouse), x, y)
      else old(window.pointer.view)
    ensures window.pointer.proj == old(window.pointer.proj)
    ensures window.pointer.width == old(window.pointer.width) && window.pointer.height == old(window.pointer.height)
  {
    var pointer := window.pointer;
    if leftButton == GlfwPress && !wantCaptureMouse {
      DragKeepsTranslation(window.ops, pointer.view, pointer.mouse, x, y);
      var yaxis := MulVec3(window.ops.inverse3(Mat3Of(pointer.view)), Vec3(1.0, 0.0, 0.0));
      var xaxis := MulVec3(window.ops.inverse3(Mat3Of(pointer.view)), Vec3(0.0, 1.0, 0.0));
      pointer.view := Rotate(window.ops, pointer.view, DragSensitivity * (y - pointer.mouse.y), yaxis);
      pointer.view := Rotate(window.ops, pointer.view, DragSensitivity * (x - pointer.mouse.x), xaxis);
    }
    pointer.mouse := Vec2(x, y);
  }

  /** resizeCallback: a size with both dimensions positive sets the
      projection, the stored size and the viewport; any other size changes
      nothing. */
  method ResizeCallback(window: Window, width: int, height: int)
    requires window.Valid()
    modifies window, window.pointer
    ensures window.Valid()
    ensures width > 0 && height > 0 ==>
      && window.pointer.proj == Projection(window.ops, width, height)
      && window.pointer.width == width && window.pointer.height == height
      && window.viewport == Some((width, height))
    ensures !(width > 0 && height > 0) ==>
      && window.pointer.proj == old(window.pointer.proj)
      && window.pointer.width == old(window.pointer.width) && window.pointer.height == old(window.pointer.height)
      && window.viewport == old(window.viewport)
    ensures window.pointer.view == old(window.pointer.view) && window.pointer.mouse == old(window.pointer.mouse)
    ensures window.shouldClose == old(window.shouldClose) && window.dialog == old(window.dialog)
  {
    var pointer := window.pointer;
    if width > 0 && height > 0 {
      pointer.proj := window.ops.perspective(window.ops.radians(FieldOfView), width as real / height as real, Near, Far);
      pointer.width, pointer.height := width, height;
      window.viewport := Some((width, height));
    }
  }

  /** scrollCallback: right-multiplies the view by a uniform 3x3 scale of
      1 + 0.08 * dy; the horizontal offset is ignored. */
  method ScrollCallback(window: Window, dx: real, dy: real)
    requires window.Valid()
    modifies window.pointer
    ensures window.Valid()
    ensures window.pointer.view == ScrolledView(old(window.pointer.view), dy)
    ensures window.pointer.proj == old(window.pointer.proj) && window.pointer.mouse == old(window.pointer.mouse)
    ensures window.pointer.width == old(window.pointer.width) && window.pointer.height == old(window.pointer.height)
  {
    ScrollScalesBlock(window.pointer.view, dy);
    window.pointer.view := Mul4(window.pointer.view, Mat4Of(Scalar3(1.0 + ZoomSensitivity * dy)));
  }

  // -------------------------------------------------------- properties

  /** A scroll scales the rotational block of the view and keeps its
      translation column. */
  lemma ScrollScalesBlock(view: Mat4, dy: real)
    ensures ScrolledView(view, dy) == ScaleBlock(view, ZoomFactor(dy))
  {
    MulScalarBlock(view, ZoomFactor(dy));
  }

  /** Two scrolls compose multiplicatively. */
  lemma ScrollsCompose(view: Mat4, d1: real, d2: real)
    ensures ScrolledView(ScrolledView(view, d1), d2) == ScaleBlock(view, ZoomFactor(d1) * ZoomFactor(d2))
  {
    var a, b := ZoomFactor(d1), ZoomFactor(d2);
    ScrollScalesBlock(view, d1);
    ScrollScalesBlock(ScaleBlock(view, a), d2);
    Scale4Twice(view.c0, a, b);
    Scale4Twice(view.c1, a, b);
    Scale4Twice(view.c2, a, b);
    assert a * b == ZoomFactor(d1) * ZoomFactor(d2);
  }

  lemma Scale4Twice(v: Vec4, a: real, b: real)
    ensures Scale4(Scale4(v, a), b) == Scale4(v, a * b)
  {
    assert v.x * a * b == v.x * (a * b);
    assert v.y * a * b == v.y * (a * b);
    assert v.z * a * b == v.z * (a * b);
    assert v.w * a * b == v.w * (a * b);
  }

  /** ... and not additively: two scrolls of 1 are not one scroll of 2. */
  lemma ScrollsNotAdditive()
    ensures ScrolledView(ScrolledView(Identity4(), 1.0), 1.0) != ScrolledView(Identity4(), 2.0)
  {
    var once := ScrolledView(Identity4(), 1.0);
    assert once.c0.x == 1.08 by { ScrollScalesBlock(Identity4(), 1.0); }
    assert ScrolledView(once, 1.0).c0.x == 1.1664 by { ScrollScalesBlock(once, 1.0); }
    assert ScrolledView(Identity4(), 2.0).c0.x == 1.16 by { ScrollScalesBlock(Identity4(), 2.0); }
  }

  /** In general, two scrolls equal one scroll by the summed offset exactly
      when one of the two offsets is zero. */
  lemma ScrollsAdditiveIff(d1: real, d2: real)
    ensures ZoomFactor(d1) * ZoomFactor(d2) == ZoomFactor(d1 + d2) <==> d1 * d2 == 0.0
  {
  }

  /** The view's 3x3 block has a non-zero entry in some column (a scroll by
      -12.5 zeroes it, and from then on every scroll leaves the view as is). */
  predicate BlockNonZero(view: Mat4)
  {
    view.c0 != Vec4(0.0, 0.0, 0.0, 0.0) || view.c1 != Vec4(0.0, 0.0, 0.0, 0.0) || view.c2 != Vec4(0.0, 0.0, 0.0, 0.0)
  }

  /** On a view whose block is not zero, two scrolls equal one scroll by the
      summed offset exactly when one of the two offsets is zero. */
  lemma ScrolledViewAdditiveIff(view: Mat4, d1: real, d2: real)
    requires BlockNonZero(view)
    ensures ScrolledView(ScrolledView(view, d1), d2) == ScrolledView(view, d1 + d2) <==> d1 * d2 == 0.0
  {
    var a, b := ZoomFactor(d1) * ZoomFactor(d2), ZoomFactor(d1 + d2);
    ScrollsCompose(view, d1, d2);
    ScrollScalesBlock(view, d1 + d2);
    ScrollsAdditiveIff(d1, d2);
    if ScaleBlock(view, a) == ScaleBlock(view, b) {
      if view.c0 != Vec4(0.0, 0.0, 0.0, 0.0) {
        Scale4Cancel(view.c0, a, b);
      } else if view.c1 != Vec4(0.0, 0.0, 0.0, 0.0) {
        Scale4Cancel(view.c1, a, b);
      } else {
        Scale4Cancel(view.c2, a, b);
      }
    }
  }

  /** A scroll by -12.5 has factor 0 and zeroes the view's block. */
  lemma ScrollZeroesBlock(view: Mat4)
    ensures !BlockNonZero(ScrolledView(view, -12.5))
  {
    ScrollScalesBlock(view, -12.5);
  }

  /** Scaling a non-zero vector determines the factor. */
  lemma Scale4Cancel(v: Vec4, a: real, b: real)
    requires v != Vec4(0.0, 0.0, 0.0, 0.0) && Scale4(v, a) == Scale4(v, b)
    ensures a == b
  {
    if v.x != 0.0 {
      CancelFactor(v.x, a, b);
    } else if v.y != 0.0 {
      CancelFactor(v.y, a, b);
    } else if v.z != 0.0 {
      CancelFactor(v.z, a, b);
    } else {
      CancelFactor(v.w, a, b);
    }
  }

  lemma CancelFactor(e: real, a: real, b: real)
    requires e != 0.0 && e * a == e * b
    ensures a == b
  {
    assert e * (a - b) == 0.0;
  }

  /** A drag rotates the view's 3x3 block and never moves its translation
      column. */
  lemma DragKeepsTranslation(ops: GlmOps, view: Mat4, mouse: Vec2, x: real, y: real)
    ensures DraggedView(ops, view, mouse, x, y).c3 == view.c3
  {
    var pitched := Rotate(ops, view, DragSensitivity * (y - mouse.y), YAxis(ops, view));
    MulMat4OfBlock(view, ops.rotation(DragSensitivity * (y - mouse.y), YAxis(ops, view)));
    MulMat4OfBlock(pitched, ops.rotation(DragSensitivity * (x - mouse.x), XAxis(ops, view)));
  }

  /** The drag's block is the old block times the vertical rotation, then
      times the horizontal one, both about axes taken from the old view. */
  lemma DragComposesRotations(ops: GlmOps, view: Mat4, mouse: Vec2, x: real, y: real)
    ensures Mat3Of(DraggedView(ops, view, mouse, x, y)) ==
      Mul3(Mul3(Mat3Of(view), ops.rotation(DragSensitivity * (y - mouse.y), YAxis(ops, view))),
           ops.rotation(DragSensitivity * (x - mouse.x), XAxis(ops, view)))
  {
    var r1 := ops.rotation(DragSensitivity * (y - mouse.y), YAxis(ops, view));
    var r2 := ops.rotation(DragSensitivity * (x - mouse.x), XAxis(ops, view));
    MulMat4OfBlock(view, r1);
    MulMat4OfBlock(Mul4(view, Mat4Of(r1)), r2);
  }

  /** When glm's inverse is a true inverse, the drag axes are the world
      directions that the view maps to the camera's x and y axes. */
  lemma DragAxesAreCameraAxes(ops: GlmOps, view: Mat4)
    requires Mul3(Mat3Of(view), ops.inverse3(Mat3Of(view))) == Identity3()
    ensures MulVec3(Mat3Of(view), YAxis(ops, view)) == Vec3(1.0, 0.0, 0.0)
    ensures MulVec3(Mat3Of(view), XAxis(ops, view)) == Vec3(0.0, 1.0, 0.0)
  {
    var m := Mat3Of(view);
    var n := ops.inverse3(m);
    ColumnOfProduct(n);
    assert Mul3(m, n).c0 == MulVec3(m, n.c0) && Mul3(m, n).c1 == MulVec3(m, n.c1);
  }

  /** When a rotation by angle zero is the identity, a cursor event that does
      not move the cursor leaves the view as it was, even while dragging. */
  lemma ZeroDragKeepsView(ops: GlmOps, view: Mat4, mouse: Vec2)
    requires forall axis :: ops.rotation(0.0, axis) == Identity3()
    ensures DraggedView(ops, view, mouse, mouse.x, mouse.y) == view
  {
    assert Mat4Of(Identity3()) == Identity4();
    assert Mul4(view, Identity4()) == view;
  }

  /** When glm's inverse is a true inverse, the view takes the camera
      position to the origin of eye space. */
  lemma CameraPositionMapsToOrigin(ops: GlmOps, view: Mat4)
    requires Mul3(Mat3Of(view), ops.inverse3(Mat3Of(view))) == Identity3()
    ensures
      var p := CameraPosition(ops, view);
      Xyz(MulVec4(view, Vec4(p.x, p.y, p.z, 1.0))) == Zero3
  {
    var m := Mat3Of(view);
    var n := ops.inverse3(m);
    var t := Xyz(view.c3);
    MulVec3Assoc(m, NegMat3(n), t);
    assert Mul3(m, NegMat3(n)) == NegMat3(Mul3(m, n));
  }

  /** When glm's normalize returns the unit vectors it is given at the two
      points lookAt uses here, the initial view is the translation by -5
      along z. */
  lemma InitialViewIsTranslation(ops: GlmOps)
    requires ops.normalize(Vec3(0.0, 0.0, -5.0)) == Vec3(0.0, 0.0, -1.0)
    requires ops.normalize(Vec3(1.0, 0.0, 0.0)) == Vec3(1.0, 0.0, 0.0)
    ensures InitialView(ops) == StartView
  {
    assert Sub3(Zero3, Eye) == Vec3(0.0, 0.0, -5.0);
    assert Cross(Vec3(0.0, 0.0, -1.0), Up) == Vec3(1.0, 0.0, 0.0);
    LookAtIsFrame(ops, Eye, Zero3, Up, Vec3(0.0, 0.0, -1.0), Vec3(1.0, 0.0, 0.0));
    StartFrame();
  }

  lemma StartFrame()
    ensures LookAtFrame(Eye, Vec3(0.0, 0.0, -1.0), Vec3(1.0, 0.0, 0.0)) == StartView
  {
  }

  lemma CameraPositionFromInverse(ops: GlmOps, view: Mat4, inv: Mat3)
    requires ops.inverse3(Mat3Of(view)) == inv
    ensures CameraPosition(ops, view) == MulVec3(NegMat3(inv), Xyz(view.c3))
  {
  }

  /** ... so the camera position the shader receives at start-up is the eye
      point lookAt was given. */
  lemma InitialCameraAtEye(ops: GlmOps)
    requires ops.normalize(Vec3(0.0, 0.0, -5.0)) == Vec3(0.0, 0.0, -1.0)
    requires ops.normalize(Vec3(1.0, 0.0, 0.0)) == Vec3(1.0, 0.0, 0.0)
    requires ops.inverse3(Identity3()) == Identity3()
    ensures CameraPosition(ops, InitialView(ops)) == Eye
  {
    InitialViewIsTranslation(ops);
    StartCameraAtEye(ops);
  }

  lemma StartCameraAtEye(ops: GlmOps)
    requires ops.inverse3(Identity3()) == Identity3()
    ensures CameraPosition(ops, StartView) == Eye
  {
    assert Mat3Of(StartView) == Identity3();
    CameraPositionFromInverse(ops, StartView, Identity3());
    assert MulVec3(NegMat3(Identity3()), Xyz(StartView.c3)) == Eye;
  }
}
