/** What whole event sequences do: mutual exclusion of gestures, one commit
    per completed gesture, and concrete sessions: an 800 by 600 rotation, a
    top-view lockout, two resizes. */
module Gestures {
  import opened Geometry
  import opened Controllers
  import opened Transformation
  import opened Coordinates
  import opened Interaction

  datatype Point = Point(x: int, y: int)

  /** The gesture the handler for `m` engages in view `v`: a dolly becomes a
      zoom in the orthographic views. */
  function Engaged(m: Mode, v: View): Mode {
    if m == Dolly && v != Persp then Zoom else m
  }

  /** An engaged gesture that commits into the transformation on release. */
  predicate Commits(m: Mode, v: View) {
    m == Pan || m == Zoom || (m == Rotate && v == Persp)
  }

  /** The operation a gesture commits has that gesture's shape. */
  predicate CommitOf(op: Op, m: Mode) {
    (m == Rotate ==> op.RotateBy?)
    && (m == Pan ==> op.TranslateBy? && op.offset.TransValue?)
    && (m == Zoom ==> op.ScaleBy?)
  }

  /** Drag events for gesture `m` at the given points, in order. */
  function Drags(s: State, m: Mode, pts: seq<Point>): (r: State)
    requires s.Valid() && m != None
    ensures r.Valid()
    decreases |pts|
  {
    if pts == [] then s else Drags(Handle(s, m, Drag, pts[0].x, pts[0].y), m, pts[1..])
  }

  /** A press, any number of drags and a release, all for gesture `m`. */
  function Gesture(s: State, m: Mode, press: Point, moves: seq<Point>, release: Point): (r: State)
    requires s.Valid() && m != None
    ensures r.Valid()
  {
    var pressed := Handle(s, m, Push, press.x, press.y);
    Handle(Drags(pressed, m, moves), m, Release, release.x, release.y)
  }

  /** A handler whose gesture is not the engaged one leaves everything as it
      is; the handler of the engaged gesture takes the event. */
  lemma MutualExclusion(s: State, m: Mode, e: MouseEvent, px: int, py: int)
    requires s.Valid() && m != None && s.currenttr != None
    ensures Engaged(m, s.view) != s.currenttr ==> Handle(s, m, e, px, py) == s
    ensures Engaged(m, s.view) == s.currenttr ==> Handle(s, m, e, px, py).currenttr == AfterEvent(e, s.currenttr)
  {
  }

  /** A dolly still active after a switch to an orthographic view is refused
      by every handler and by send_to_current; only a switch back to the
      perspective view lets it end. */
  lemma StrandedDolly(s: State, m: Mode, e: MouseEvent, px: int, py: int)
    requires s.Valid() && m != None && s.currenttr == Dolly && s.view != Persp
    ensures Handle(s, m, e, px, py) == s
    ensures SendToCurrentStep(s, e, px, py) == (true, s)
  {
    MutualExclusion(s, m, e, px, py);
  }

  /** Drags keep the engaged gesture and never touch the transformation. */
  lemma {:induction false} DragsHold(s: State, m: Mode, pts: seq<Point>)
    requires s.Valid() && m != None && s.currenttr == Engaged(m, s.view)
    ensures var r := Drags(s, m, pts);
      r.currenttr == s.currenttr && r.view == s.view && r.transform == s.transform
      && r.width == s.width && r.height == s.height
    decreases |pts|
  {
    if pts != [] {
      var next := Handle(s, m, Drag, pts[0].x, pts[0].y);
      MutualExclusion(s, m, Drag, pts[0].x, pts[0].y);
      DragsHold(next, m, pts[1..]);
    }
  }

  /** A complete gesture started from the neutral state ends in the neutral
      state with at most one operation committed: exactly one, of the
      gesture's own shape, for pan, zoom and a perspective rotation; none for
      a dolly in the perspective view or a rotation in an orthographic view.
      The committed operation composes onto the current matrix. */
  lemma {:induction false} GestureCommitsOnce(s: State, m: Mode, press: Point, moves: seq<Point>, release: Point)
    requires s.Valid() && m != None && s.currenttr == None
    ensures var r := Gesture(s, m, press, moves, release);
      r.currenttr == None && r.view == s.view
      && |r.transform| == |s.transform| + (if Commits(Engaged(m, s.view), s.view) then 1 else 0)
      && r.transform[..|s.transform|] == s.transform
      && (Commits(Engaged(m, s.view), s.view) ==> CommitOf(r.transform[|s.transform|], Engaged(m, s.view)))
      && Effective(r.transform) == Effective(s.transform) + r.transform[|s.transform|..]
  {
    var pressed := Handle(s, m, Push, press.x, press.y);
    assert pressed.currenttr == Engaged(m, s.view) && pressed.transform == s.transform && pressed.view == s.view;
    var dragged := Drags(pressed, m, moves);
    DragsHold(pressed, m, moves);
    var r := Handle(dragged, m, Release, release.x, release.y);
    assert r == Gesture(s, m, press, moves, release);
    if Commits(Engaged(m, s.view), s.view) {
      assert |r.transform| == |s.transform| + 1 && r.transform[..|s.transform|] == s.transform;
      var op := r.transform[|s.transform|];
      assert r.transform == s.transform + [op];
      assert op.Incremental();
      EffectiveExtend(s.transform, op);
    } else {
      assert r.transform == s.transform;
    }
  }

  /** A viewport of 800 by 600 pixels with no gesture active, in the
      perspective view and with an untouched arcball (as constructed): a
      rotation pressed at the center and dragged and released 50 pixels to
      the right feeds the arcball a purely horizontal motion, ends with no
      gesture active and adds exactly one rotation. */
  lemma CenteredRotationSession(s: State)
    requires s.Valid() && s.width == 800 && s.height == 600
    requires s.currenttr == None && s.view == Persp && s.arcball == Fresh(Arcball)
    ensures var r := Gesture(s, Rotate, Point(400, 300), [Point(450, 300)], Point(450, 300));
      r.currenttr == None
      && r.transform == s.transform + [RotateBy(Controller(Arcball, [
           Mouse(Planar(0.0, 0.0)), Update, BeginDrag,
           Mouse(Planar(0.125, 0.0)), Update,
           Mouse(Planar(0.125, 0.0)), Update, EndDrag]))]
  {
    assert NdcX(400, 800) == 0.0 && NdcY(300, 600) == 0.0 && NdcX(450, 800) == 0.125;
    var pressed := Handle(s, Rotate, Push, 400, 300);
    assert pressed.arcball == Controller(Arcball, [Mouse(Planar(0.0, 0.0)), Update, BeginDrag]);
    assert pressed.transform == s.transform && pressed.currenttr == Rotate && pressed.view == Persp;
    var dragged := Handle(pressed, Rotate, Drag, 450, 300);
    assert dragged.arcball == Controller(Arcball, [Mouse(Planar(0.0, 0.0)), Update, BeginDrag,
                                                   Mouse(Planar(0.125, 0.0)), Update]);
    assert dragged.transform == s.transform && dragged.currenttr == Rotate && dragged.view == Persp;
    assert Drags(pressed, Rotate, [Point(450, 300)]) == dragged by {
      assert [Point(450, 300)][1..] == [];
    }
    var r := Handle(dragged, Rotate, Release, 450, 300);
    assert PlanarSample(dragged, 450, 300) == Planar(0.125, 0.0);
    assert Drive(dragged.arcball, Planar(0.125, 0.0), Release) == Controller(Arcball, [
             Mouse(Planar(0.0, 0.0)), Update, BeginDrag,
             Mouse(Planar(0.125, 0.0)), Update,
             Mouse(Planar(0.125, 0.0)), Update, EndDrag]);
    assert r.currenttr == None;
  }

  /** After switching to the top view the transformation is the identity and
      a whole rotation gesture leaves it so. */
  lemma TopViewLocksRotation(s: State, press: Point, moves: seq<Point>, release: Point)
    requires s.Valid() && s.currenttr == None
    ensures var top := SwitchToStep(s, Top);
      var r := Gesture(top, Rotate, press, moves, release);
      IsIdentity(top.transform) && r.transform == top.transform && r.currenttr == None
  {
    GestureCommitsOnce(SwitchToStep(s, Top), Rotate, press, moves, release);
  }

  /** After a switch the current matrix depends only on the view: the
      orthographic views start from the identity and the perspective view from
      the default look-at, whatever was committed before. */
  lemma SwitchForgetsHistory(s: State, s': State, v: View)
    requires s.Valid() && s'.Valid()
    ensures Effective(SwitchToStep(s, v).transform) == Effective(SwitchToStep(s', v).transform)
  {
  }

  /** In an orthographic view setPerspView has no effect. */
  lemma OrthoViewIgnoresSetPerspView(s: State, v: View, eye: Vector3, center: Vector3, up: Vector3)
    requires s.Valid() && v != Persp
    ensures SetPerspViewStep(SwitchToStep(s, v), eye, center, up) == SwitchToStep(s, v)
  {
  }

  /** Resizing to 800 by 600 and then to 1600 by 600 leaves the camera with
      the aspect ratio 1600/600 and the transformation alone. */
  lemma ResizeSession(s: State)
    requires s.Valid()
    ensures var r := ResizeStep(ResizeStep(s, 800, 600), 1600, 600);
      r.camera[|r.camera| - 1] == Camera.SetAspect(1600.0 / 600.0)
      && r.transform == s.transform && r.width == 1600 && r.height == 600
  {
  }
}
