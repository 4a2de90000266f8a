/** The Viewport class: the interaction state machine as the object the
    windowing layer holds. Every operation updates the fields step by step, as
    the class does, and is proved to perform the transition of the same name
    in module Interaction. */
module Viewports {
  import opened Geometry
  import opened Camera
  import opened Controllers
  import opened Transformation
  import opened Coordinates
  import opened Interaction

  /** The rendering calls the viewport issues, in the order it issues them. */
  datatype GlCommand =
      /** glViewport(x, y, w, h) */
    | GlViewport(x: int, y: int, w: int, h: int)
      /** camera.applyTransform(): the projection of a camera in this state */
    | GlApplyProjection(camera: seq<CameraCall>)
      /** glTranslated(0, 0, dollycontrol.dolly_value()) */
    | GlTranslateDolly(dolly: Controller)
      /** glMultMatrixd of a controller's live value() matrix */
    | GlMultLive(live: Controller)
      /** transform.apply(): the committed transformation */
    | GlApplyCommitted(transform: seq<Op>)

  class Viewport {
    var width: int
    var height: int
    var arcball: Controller
    var trcontrol: Controller
    var zoomcontrol: Controller
    var dollycontrol: Controller
    var transform: seq<Op>
    var currenttr: Mode
    var view: View
    var camera: seq<CameraCall>

    /** The fields as one value. */
    ghost function Snapshot(): State
      reads this
    {
      State(width, height, arcball, trcontrol, zoomcontrol, dollycontrol, transform, currenttr, view, camera)
    }

    ghost predicate Valid()
      reads this
    {
      Snapshot().Valid()
    }

    constructor (w: int, h: int)
      requires w > 0 && h > 0
      ensures Valid() && Snapshot() == Initial(w, h)
    {
      width, height := w, h;
      arcball, trcontrol, zoomcontrol := Fresh(Arcball), Fresh(TransControl), Fresh(ZoomControl);
      dollycontrol := Fresh(DollyControl(DollyScale));
      transform := [];
      currenttr, view := None, Persp;
      camera := [];
      new;
      SwitchTo(view);
    }

    method Current() returns (m: Mode)
      ensures m == currenttr
    {
      m := currenttr;
    }

    method SetPerspView(eye: Vector3, center: Vector3, up: Vector3)
      requires Valid()
      modifies this
      ensures Valid() && Snapshot() == SetPerspViewStep(old(Snapshot()), eye, center, up)
    {
      if view == Persp {
        var neweye := Sub(eye, center);
        transform := transform + [AssignLookAt(neweye, Origin, up)];
        transform := transform + [TranslateBy(Fixed(Neg(center)))];
        camera := camera + [SetEyeAtDistanceOf(neweye)];
      }
    }

    method SwitchTo(v: View)
      requires Valid()
      modifies this
      ensures Valid() && Snapshot() == SwitchToStep(old(Snapshot()), v)
    {
      view := v;
      camera := camera + [SetCenter(Origin), SetNearFar(1.0, 1000.0)];
      if view == Persp {
        camera := camera + [MakePerspective, SetPerspectiveViewVolume(60.0, Ratio(width, height))];
      } else {
        camera := camera + [MakeOrthographic, SetOrthographicViewVolume(2.0, 2.0, true)];
        transform := transform + [ResetToIdentity];
      }
      match view {
        case Persp =>
          SetPerspView(Vector3(50.0, 50.0, 50.0), Vector3(0.0, 0.0, 0.0), Vector3(0.0, 1.0, 0.0));
        case Front =>
          camera := camera + [SetEye(Vector3(0.0, 0.0, 100.0)), SetUpVector(Vector3(0.0, 1.0, 0.0))];
        case Right =>
          camera := camera + [SetEye(Vector3(100.0, 0.0, 0.0)), SetUpVector(Vector3(0.0, 1.0, 0.0))];
        case Top =>
          camera := camera + [SetEye(Vector3(0.0, 100.0, 0.0)), SetUpVector(Vector3(0.0, 0.0, -1.0))];
        case Back =>
          camera := camera + [SetEye(Vector3(0.0, 0.0, -100.0)), SetUpVector(Vector3(0.0, 1.0, 0.0))];
        case Left =>
          camera := camera + [SetEye(Vector3(-100.0, 0.0, 0.0)), SetUpVector(Vector3(0.0, 1.0, 0.0))];
        case Bottom =>
          camera := camera + [SetEye(Vector3(0.0, -100.0, 0.0)), SetUpVector(Vector3(0.0, 0.0, 1.0))];
      }
    }

    /** reshape: the pixel rectangle, then the camera's projection. */
    method Reshape() returns (cmds: seq<GlCommand>)
      ensures cmds == [GlViewport(0, 0, width, height), GlApplyProjection(camera)]
    {
      cmds := [GlViewport(0, 0, width, height)];
      cmds := cmds + [GlApplyProjection(camera)];
    }

    method Resize(w: int, h: int) returns (cmds: seq<GlCommand>)
      requires Valid() && w > 0 && h > 0
      modifies this
      ensures Valid() && Snapshot() == ResizeStep(old(Snapshot()), w, h)
      ensures cmds == [GlViewport(0, 0, w, h), GlApplyProjection(camera)]
    {
      width, height := w, h;
      camera := camera + [SetAspect(Ratio(width, height))];
      cmds := Reshape();
    }

    method HandleRotate(event: MouseEvent, px: int, py: int)
      requires Valid()
      modifies this
      ensures Valid() && Snapshot() == RotateStep(old(Snapshot()), event, px, py)
    {
      if currenttr != None && currenttr != Rotate {
        return;
      }
      currenttr := Rotate;
      if view == Persp {
        var x := NdcX(px, width);
        var y := NdcY(py, height);
        arcball := arcball.Then(Mouse(Planar(x, y)));
        arcball := arcball.Then(Update);
        if event == Push {
          arcball := arcball.Then(BeginDrag);
        } else if event == Release {
          arcball := arcball.Then(EndDrag);
          transform := transform + [RotateBy(arcball)];
          arcball := arcball.Then(Reset);
        }
      }
      if event == Release {
        currenttr := None;
      }
    }

    method HandlePan(event: MouseEvent, px: int, py: int)
      requires Valid()
      modifies this
      ensures Valid() && Snapshot() == PanStep(old(Snapshot()), event, px, py)
    {
      if currenttr != None && currenttr != Pan {
        return;
      }
      currenttr := Pan;
      var x := NdcX(px, width);
      var y := NdcY(py, height);
      trcontrol := trcontrol.Then(Mouse(Adjusted(x, y, camera)));
      trcontrol := trcontrol.Then(Update);
      if event == Push {
        trcontrol := trcontrol.Then(BeginDrag);
      } else if event == Release {
        trcontrol := trcontrol.Then(EndDrag);
        transform := transform + [TranslateBy(TransValue(trcontrol))];
        trcontrol := trcontrol.Then(Reset);
        currenttr := None;
      }
    }

    method HandleZoom(event: MouseEvent, px: int, py: int)
      requires Valid()
      modifies this
      ensures Valid() && Snapshot() == ZoomStep(old(Snapshot()), event, px)
    {
      if currenttr != None && currenttr != Zoom {
        return;
      }
      currenttr := Zoom;
      var z := NdcX(px, width);
      zoomcontrol := zoomcontrol.Then(Mouse(Depth(z)));
      zoomcontrol := zoomcontrol.Then(Update);
      if event == Push {
        zoomcontrol := zoomcontrol.Then(BeginDrag);
      } else if event == Release {
        zoomcontrol := zoomcontrol.Then(EndDrag);
        transform := transform + [ScaleBy(zoomcontrol)];
        zoomcontrol := zoomcontrol.Then(Reset);
        currenttr := None;
      }
    }

    method HandleDolly(event: MouseEvent, px: int, py: int)
      requires Valid()
      modifies this
      ensures Valid() && Snapshot() == DollyStep(old(Snapshot()), event, px)
    {
      if view != Persp {
        HandleZoom(event, px, py);
      } else {
        if currenttr != None && currenttr != Dolly {
          return;
        }
        currenttr := Dolly;
        var z := NdcX(px, width);
        dollycontrol := dollycontrol.Then(Mouse(Depth(z)));
        dollycontrol := dollycontrol.Then(Update);
        if event == Push {
          dollycontrol := dollycontrol.Then(BeginDrag);
        } else if event == Release {
          dollycontrol := dollycontrol.Then(EndDrag);
          currenttr := None;
        }
      }
    }

    method SendToCurrent(event: MouseEvent, px: int, py: int) returns (handled: bool)
      requires Valid()
      modifies this
      ensures Valid()
      ensures (handled, Snapshot()) == SendToCurrentStep(old(Snapshot()), event, px, py)
    {
      handled := true;
      match currenttr {
        case Pan => HandlePan(event, px, py);
        case Zoom => HandleZoom(event, px, py);
        case Rotate => HandleRotate(event, px, py);
        case Dolly => HandleDolly(event, px, py);
        case None => handled := false;
      }
    }

    /** apply_transform: the dolly offset first, then the live value of an
        active pan, zoom or rotation, then the committed transformation. */
    method ApplyTransform() returns (cmds: seq<GlCommand>)
      ensures |cmds| == (if currenttr in {Pan, Zoom, Rotate} then 3 else 2)
      ensures cmds[0] == GlTranslateDolly(dollycontrol)
      ensures cmds[|cmds| - 1] == GlApplyCommitted(transform)
      ensures currenttr == Pan ==> cmds[1] == GlMultLive(trcontrol)
      ensures currenttr == Zoom ==> cmds[1] == GlMultLive(zoomcontrol)
      ensures currenttr == Rotate ==> cmds[1] == GlMultLive(arcball)
    {
      cmds := [GlTranslateDolly(dollycontrol)];
      match currenttr {
        case Pan => cmds := cmds + [GlMultLive(trcontrol)];
        case Zoom => cmds := cmds + [GlMultLive(zoomcontrol)];
        case Rotate => cmds := cmds + [GlMultLive(arcball)];
        case _ =>
      }
      cmds := cmds + [GlApplyCommitted(transform)];
    }
  }
}
