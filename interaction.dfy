/** The viewport's interaction state machine as pure state transitions: one
    function per public operation, each taking the state before the call to
    the state after it. The class in module Viewports is proved to perform
    exactly these transitions. */
module Interaction {
  import opened Geometry
  import opened Camera
  import opened Controllers
  import opened Transformation
  import opened Coordinates

  /** The active gesture. */
  datatype Mode = None | Pan | Rotate | Zoom | Dolly

  /** The canonical views; each name is the side the scene is looked at from. */
  datatype View = Persp | Front | Right | Top | Back | Left | Bottom

  datatype MouseEvent = Unknown | Push | Release | Drag

  /** The scale factor the dolly controller is built with. */
  const DollyScale: real := 10.0

  /** Everything a viewport holds. */
  datatype State = State(
    width: int, height: int,
    arcball: Controller, trcontrol: Controller, zoomcontrol: Controller, dollycontrol: Controller,
    transform: seq<Op>,
    currenttr: Mode,
    view: View,
    camera: seq<CameraCall>)
  {
    /** The pixel size is positive and each controller field holds its own kind. */
    predicate Valid() {
      width > 0 && height > 0
      && arcball.kind == Arcball && trcontrol.kind == TransControl
      && zoomcontrol.kind == ZoomControl && dollycontrol.kind.DollyControl?
    }
  }

  /** A handler for gesture `m` acts only from the neutral state or from its own gesture. */
  predicate Admits(current: Mode, m: Mode) {
    current == None || current == m
  }

  /** The gesture a handler leaves behind: none after a release, its own otherwise. */
  function AfterEvent(e: MouseEvent, m: Mode): Mode {
    if e == Release then None else m
  }

  /** The calls a handler makes on its controller for one event: the sample,
      an update, and then beginDrag on a push or endDrag on a release. */
  function Drive(c: Controller, sample: Sample, e: MouseEvent): Controller {
    var sampled := c.Then(Mouse(sample)).Then(Update);
    if e == Push then sampled.Then(BeginDrag)
    else if e == Release then sampled.Then(EndDrag)
    else sampled
  }

  /** Drive, followed on a release by the reset that rotate, pan and zoom make
      once their value has been committed. */
  function DriveAndReset(c: Controller, sample: Sample, e: MouseEvent): Controller {
    if e == Release then Drive(c, sample, e).Then(Reset) else Drive(c, sample, e)
  }

  function PlanarSample(s: State, px: int, py: int): Sample
    requires s.Valid()
  {
    Planar(NdcX(px, s.width), NdcY(py, s.height))
  }

  function AdjustedSample(s: State, px: int, py: int): Sample
    requires s.Valid()
  {
    Adjusted(NdcX(px, s.width), NdcY(py, s.height), s.camera)
  }

  function DepthSample(s: State, px: int): Sample
    requires s.Valid()
  {
    Depth(NdcX(px, s.width))
  }

  /** handle_rotate */
  function RotateStep(s: State, e: MouseEvent, px: int, py: int): (r: State)
    requires s.Valid()
    ensures r.Valid()
    ensures !Admits(s.currenttr, Rotate) ==> r == s
    ensures Admits(s.currenttr, Rotate) ==> r.currenttr == AfterEvent(e, Rotate)
    ensures r.width == s.width && r.height == s.height && r.view == s.view && r.camera == s.camera
    ensures r.trcontrol == s.trcontrol && r.zoomcontrol == s.zoomcontrol && r.dollycontrol == s.dollycontrol
    // no rotation at all in an orthographic view
    ensures s.view != Persp ==> r.arcball == s.arcball && r.transform == s.transform
    // nothing is committed before the release
    ensures e != Release ==> r.transform == s.transform
    ensures Admits(s.currenttr, Rotate) && s.view == Persp ==>
      r.arcball == DriveAndReset(s.arcball, PlanarSample(s, px, py), e)
      && (e == Release ==>
            r.transform == s.transform + [RotateBy(Drive(s.arcball, PlanarSample(s, px, py), Release))])
  {
    if !Admits(s.currenttr, Rotate) then s
    else
      var turned :=
        if s.view != Persp then s
        else
          var a := Drive(s.arcball, PlanarSample(s, px, py), e);
          if e == Release then s.(arcball := a.Then(Reset), transform := s.transform + [RotateBy(a)])
          else s.(arcball := a);
      turned.(currenttr := AfterEvent(e, Rotate))
  }

  /** handle_pan */
  function PanStep(s: State, e: MouseEvent, px: int, py: int): (r: State)
    requires s.Valid()
    ensures r.Valid()
    ensures !Admits(s.currenttr, Pan) ==> r == s
    ensures Admits(s.currenttr, Pan) ==> r.currenttr == AfterEvent(e, Pan)
    ensures r.width == s.width && r.height == s.height && r.view == s.view && r.camera == s.camera
    ensures r.arcball == s.arcball && r.zoomcontrol == s.zoomcontrol && r.dollycontrol == s.dollycontrol
    ensures e != Release ==> r.transform == s.transform
    ensures Admits(s.currenttr, Pan) ==>
      r.trcontrol == DriveAndReset(s.trcontrol, AdjustedSample(s, px, py), e)
      && (e == Release ==>
            r.transform == s.transform + [TranslateBy(TransValue(Drive(s.trcontrol, AdjustedSample(s, px, py), Release)))])
  {
    if !Admits(s.currenttr, Pan) then s
    else
      var t := Drive(s.trcontrol, AdjustedSample(s, px, py), e);
      if e == Release then
        s.(trcontrol := t.Then(Reset), transform := s.transform + [TranslateBy(TransValue(t))], currenttr := None)
      else s.(trcontrol := t, currenttr := Pan)
  }

  /** handle_zoom: only the horizontal pointer position is used. */
  function ZoomStep(s: State, e: MouseEvent, px: int): (r: State)
    requires s.Valid()
    ensures r.Valid()
    ensures !Admits(s.currenttr, Zoom) ==> r == s
    ensures Admits(s.currenttr, Zoom) ==> r.currenttr == AfterEvent(e, Zoom)
    ensures r.width == s.width && r.height == s.height && r.view == s.view && r.camera == s.camera
    ensures r.arcball == s.arcball && r.trcontrol == s.trcontrol && r.dollycontrol == s.dollycontrol
    ensures e != Release ==> r.transform == s.transform
    ensures Admits(s.currenttr, Zoom) ==>
      r.zoomcontrol == DriveAndReset(s.zoomcontrol, DepthSample(s, px), e)
      && (e == Release ==>
            r.transform == s.transform + [ScaleBy(Drive(s.zoomcontrol, DepthSample(s, px), Release))])
  {
    if !Admits(s.currenttr, Zoom) then s
    else
      var z := Drive(s.zoomcontrol, DepthSample(s, px), e);
      if e == Release then
        s.(zoomcontrol := z.Then(Reset), transform := s.transform + [ScaleBy(z)], currenttr := None)
      else s.(zoomcontrol := z, currenttr := Zoom)
  }

  /** handle_dolly: a zoom in the orthographic views; in the perspective view
      its value is never committed to the transformation nor reset, since it
      is applied on its own every frame. */
  function DollyStep(s: State, e: MouseEvent, px: int): (r: State)
    requires s.Valid()
    ensures r.Valid()
    ensures s.view != Persp ==> r == ZoomStep(s, e, px)
    ensures s.view == Persp && !Admits(s.currenttr, Dolly) ==> r == s
    ensures s.view == Persp && Admits(s.currenttr, Dolly) ==>
      r.currenttr == AfterEvent(e, Dolly)
      && r.dollycontrol == Drive(s.dollycontrol, DepthSample(s, px), e)
    ensures s.view == Persp ==>
      r.transform == s.transform && r.width == s.width && r.height == s.height
      && r.view == s.view && r.camera == s.camera
      && r.arcball == s.arcball && r.trcontrol == s.trcontrol && r.zoomcontrol == s.zoomcontrol
  {
    if s.view != Persp then ZoomStep(s, e, px)
    else if !Admits(s.currenttr, Dolly) then s
    else s.(dollycontrol := Drive(s.dollycontrol, DepthSample(s, px), e), currenttr := AfterEvent(e, Dolly))
  }

  /** The handler for gesture `m`, independently of what is active. */
  function Handle(s: State, m: Mode, e: MouseEvent, px: int, py: int): (r: State)
    requires s.Valid() && m != None
    ensures r.Valid()
  {
    if m == Pan then PanStep(s, e, px, py)
    else if m == Rotate then RotateStep(s, e, px, py)
    else if m == Zoom then ZoomStep(s, e, px)
    else DollyStep(s, e, px)
  }

  /** send_to_current: the event goes to the handler of the active gesture;
      the result says whether there was one. */
  function SendToCurrentStep(s: State, e: MouseEvent, px: int, py: int): (r: (bool, State))
    requires s.Valid()
    ensures r.1.Valid()
    ensures r.0 <==> s.currenttr != None
    ensures !r.0 ==> r.1 == s
    ensures r.0 ==> r.1 == Handle(s, s.currenttr, e, px, py)
    // the routed handler takes the event, unless a dolly was left active in an orthographic view
    ensures r.0 && !(s.currenttr == Dolly && s.view != Persp) ==> r.1.currenttr == AfterEvent(e, s.currenttr)
    ensures s.currenttr == Dolly && s.view != Persp ==> r.1 == s
  {
    match s.currenttr
    case Pan => (true, PanStep(s, e, px, py))
    case Zoom => (true, ZoomStep(s, e, px))
    case Rotate => (true, RotateStep(s, e, px, py))
    case Dolly => (true, DollyStep(s, e, px))
    case None => (false, s)
  }

  /** The eye position of each orthographic view. */
  function OrthoEye(v: View): (eye: Vector3)
    requires v != Persp
    ensures OnPrincipalAxis(eye, 100.0)
  {
    if v == Front then Vector3(0.0, 0.0, 100.0)
    else if v == Right then Vector3(100.0, 0.0, 0.0)
    else if v == Top then Vector3(0.0, 100.0, 0.0)
    else if v == Back then Vector3(0.0, 0.0, -100.0)
    else if v == Left then Vector3(-100.0, 0.0, 0.0)
    else Vector3(0.0, -100.0, 0.0)
  }

  /** The up vector of each orthographic view. */
  function OrthoUp(v: View): (up: Vector3)
    requires v != Persp
    ensures OnPrincipalAxis(up, 1.0)
  {
    if v == Top then Vector3(0.0, 0.0, -1.0)
    else if v == Bottom then Vector3(0.0, 0.0, 1.0)
    else Vector3(0.0, 1.0, 0.0)
  }

  /** In each orthographic view the up vector is perpendicular to the line of sight. */
  lemma OrthoViewFrame(v: View)
    requires v != Persp
    ensures Dot(OrthoUp(v), OrthoEye(v)) == 0.0
  {
  }

  /** The arguments switchTo(VPPersp) passes to setPerspView. */
  const DefaultEye := Vector3(50.0, 50.0, 50.0)
  const DefaultUp := Vector3(0.0, 1.0, 0.0)

  function Aspect(s: State): real
    requires s.Valid()
  {
    Ratio(s.width, s.height)
  }

  /** The two operations setPerspView puts on the transformation. */
  function LookAtOps(eye: Vector3, center: Vector3, up: Vector3): seq<Op> {
    [AssignLookAt(Sub(eye, center), Origin, up), TranslateBy(Fixed(Neg(center)))]
  }

  /** setPerspView: in the perspective view the transformation is replaced by
      a look-at from the origin-relative eye, followed by a translation of the
      center to the origin, and the camera's eye is put on its own z axis at
      the eye-to-center distance; in any other view nothing happens. */
  function SetPerspViewStep(s: State, eye: Vector3, center: Vector3, up: Vector3): (r: State)
    requires s.Valid()
    ensures r.Valid()
    ensures s.view != Persp ==> r == s
    ensures s.view == Persp ==>
      r.transform == s.transform + LookAtOps(eye, center, up)
      && Effective(r.transform) == LookAtOps(eye, center, up)
      && r.camera == s.camera + [SetEyeAtDistanceOf(Sub(eye, center))]
    ensures r.width == s.width && r.height == s.height && r.view == s.view && r.currenttr == s.currenttr
    ensures r.arcball == s.arcball && r.trcontrol == s.trcontrol
    ensures r.zoomcontrol == s.zoomcontrol && r.dollycontrol == s.dollycontrol
  {
    if s.view == Persp then
      var t := s.transform + [AssignLookAt(Sub(eye, center), Origin, up)];
      assert Effective(t) == [AssignLookAt(Sub(eye, center), Origin, up)] by {
        assert t[|t| - 1] == AssignLookAt(Sub(eye, center), Origin, up);
      }
      EffectiveExtend(t, TranslateBy(Fixed(Neg(center))));
      s.(transform := t + [TranslateBy(Fixed(Neg(center)))],
         camera := s.camera + [SetEyeAtDistanceOf(Sub(eye, center))])
    else s
  }

  /** switchTo: the view changes and the camera is set up for it; an
      orthographic view resets the transformation to the identity and the
      perspective view seeds it with the default look-at. The active gesture
      is kept. */
  function SwitchToStep(s: State, v: View): (r: State)
    requires s.Valid()
    ensures r.Valid()
    ensures r.view == v && r.currenttr == s.currenttr && r.width == s.width && r.height == s.height
    ensures r.arcball == s.arcball && r.trcontrol == s.trcontrol
    ensures r.zoomcontrol == s.zoomcontrol && r.dollycontrol == s.dollycontrol
    ensures v != Persp ==>
      r.transform == s.transform + [ResetToIdentity] && IsIdentity(r.transform)
      && r.camera == s.camera + CameraReset + OrthographicFrustum + [SetEye(OrthoEye(v)), SetUpVector(OrthoUp(v))]
    ensures v == Persp ==>
      r.transform == s.transform + LookAtOps(DefaultEye, Origin, DefaultUp)
      && Effective(r.transform) == LookAtOps(DefaultEye, Origin, DefaultUp)
      && r.camera == s.camera + CameraReset + PerspectiveFrustum(Aspect(s)) + [SetEyeAtDistanceOf(DefaultEye)]
  {
    if v == Persp then PerspectiveSwitch(s) else OrthographicSwitch(s, v)
  }

  /** The camera calls every switchTo starts with: the center at the origin, fixed clipping planes. */
  const CameraReset := [SetCenter(Origin), SetNearFar(1.0, 1000.0)]

  /** A perspective frustum with a 60 degree field of view. */
  function PerspectiveFrustum(aspect: real): seq<CameraCall> {
    [MakePerspective, SetPerspectiveViewVolume(60.0, aspect)]
  }

  /** An orthographic 2 by 2 view volume that keeps the aspect ratio. */
  const OrthographicFrustum := [MakeOrthographic, SetOrthographicViewVolume(2.0, 2.0, true)]

  /** switchTo(VPPersp): a perspective frustum, then setPerspView with the default eye. */
  function PerspectiveSwitch(s: State): (r: State)
    requires s.Valid()
    ensures r.Valid()
    ensures r == s.(view := Persp,
                    transform := s.transform + LookAtOps(DefaultEye, Origin, DefaultUp),
                    camera := s.camera + CameraReset + PerspectiveFrustum(Aspect(s)) + [SetEyeAtDistanceOf(DefaultEye)])
    ensures Effective(r.transform) == LookAtOps(DefaultEye, Origin, DefaultUp)
  {
    var framed := s.(view := Persp, camera := s.camera + CameraReset + PerspectiveFrustum(Aspect(s)));
    assert Sub(DefaultEye, Origin) == DefaultEye;
    SetPerspViewStep(framed, DefaultEye, Origin, DefaultUp)
  }

  /** switchTo for an orthographic view: an orthographic frustum, a reset
      transformation and the view's fixed eye and up vector. */
  function OrthographicSwitch(s: State, v: View): (r: State)
    requires s.Valid() && v != Persp
    ensures r.Valid()
    ensures r == s.(view := v,
                    transform := s.transform + [ResetToIdentity],
                    camera := s.camera + CameraReset + OrthographicFrustum + [SetEye(OrthoEye(v)), SetUpVector(OrthoUp(v))])
    ensures IsIdentity(r.transform)
  {
    ResetIsIdentity(s.transform);
    s.(view := v,
       transform := s.transform + [ResetToIdentity],
       camera := s.camera + CameraReset + OrthographicFrustum + [SetEye(OrthoEye(v)), SetUpVector(OrthoUp(v))])
  }

  /** The viewport as allocated, before the constructor's switchTo. */
  function Allocated(w: int, h: int): State {
    State(w, h, Fresh(Arcball), Fresh(TransControl), Fresh(ZoomControl), Fresh(DollyControl(DollyScale)),
          [], None, Persp, [])
  }

  /** The constructor: no gesture, the perspective view, fresh controllers,
      and the default look-at as the transformation. */
  function Initial(w: int, h: int): (r: State)
    requires w > 0 && h > 0
    ensures r.Valid() && r.width == w && r.height == h
    ensures r.currenttr == None && r.view == Persp
    ensures r.arcball == Fresh(Arcball) && r.trcontrol == Fresh(TransControl)
    ensures r.zoomcontrol == Fresh(ZoomControl) && r.dollycontrol == Fresh(DollyControl(10.0))
    ensures r.transform == LookAtOps(DefaultEye, Origin, DefaultUp)
  {
    SwitchToStep(Allocated(w, h), Persp)
  }

  /** resize: only the pixel size and the camera's aspect ratio change. */
  function ResizeStep(s: State, w: int, h: int): (r: State)
    requires s.Valid() && w > 0 && h > 0
    ensures r.Valid() && r.width == w && r.height == h
    ensures r.camera == s.camera + [SetAspect(w as real / h as real)]
    ensures r.transform == s.transform && r.currenttr == s.currenttr && r.view == s.view
    ensures r.arcball == s.arcball && r.trcontrol == s.trcontrol
    ensures r.zoomcontrol == s.zoomcontrol && r.dollycontrol == s.dollycontrol
  {
    var sized := s.(width := w, height := h);
    sized.(camera := s.camera + [SetAspect(Aspect(sized))])
  }
}
