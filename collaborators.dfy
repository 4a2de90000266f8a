/** Three-component vectors over the reals: the Vector3d values the viewport
    passes to its camera and to its transformation. */
module Geometry {

  datatype Vector3 = Vector3(x: real, y: real, z: real)

  const Origin := Vector3(0.0, 0.0, 0.0)

  function Sub(a: Vector3, b: Vector3): Vector3 {
    Vector3(a.x - b.x, a.y - b.y, a.z - b.z)
  }

  function Neg(a: Vector3): Vector3 {
    Vector3(-a.x, -a.y, -a.z)
  }

  function Dot(a: Vector3, b: Vector3): real {
    a.x * b.x + a.y * b.y + a.z * b.z
  }

  /** `v` lies on one of the three coordinate axes, at distance `d` from the origin. */
  predicate OnPrincipalAxis(v: Vector3, d: real) {
    ((v.x == d || v.x == -d) && v.y == 0.0 && v.z == 0.0)
    || (v.x == 0.0 && (v.y == d || v.y == -d) && v.z == 0.0)
    || (v.x == 0.0 && v.y == 0.0 && (v.z == d || v.z == -d))
  }
}

/** The camera is an external collaborator whose internals are not part of
    this model: its state is the ordered log of the setter calls the viewport
    has made on it. */
module Camera {
  import opened Geometry

  datatype CameraCall =
    | SetCenter(center: Vector3)
    | SetNearFar(near: real, far: real)
    | MakePerspective
    | SetPerspectiveViewVolume(fovy: real, aspect: real)
    | MakeOrthographic
    | SetOrthographicViewVolume(w: real, h: real, keepAspect: bool)
    | SetEye(eye: Vector3)
      /** setEye(0, 0, norm(offset)): the eye on the camera's own z axis, at the length of `offset`. */
    | SetEyeAtDistanceOf(offset: Vector3)
    | SetUpVector(up: Vector3)
    | SetAspect(aspect: real)
}

/** The four mode controllers (arcball, translation, zoom, dolly) are external
    collaborators. Each is opaque: its state is the log of the calls made on
    it since construction, and every value it reports (a quaternion, a vector,
    a scale factor, a depth offset, a live matrix) is determined by that state.
    An operation that records "the value of controller c" therefore holds the
    Controller value c itself. */
module Controllers {
  import opened Camera

  /** Which controller; the dolly controller is built with a scale factor. */
  datatype Kind = Arcball | TransControl | ZoomControl | DollyControl(scale: real)

  /** The argument of a controller's mouse(...) intake. */
  datatype Sample =
      /** arcball.mouse(x, y) */
    | Planar(x: real, y: real)
      /** zoomcontrol.mouse(z) and dollycontrol.mouse(z) */
    | Depth(z: real)
      /** trcontrol.mouse(x, y, z) with the triple camera.adjust made of (x, y)
          for a camera whose call log is `camera` */
    | Adjusted(x: real, y: real, camera: seq<CameraCall>)

  datatype Call = Mouse(sample: Sample) | Update | BeginDrag | EndDrag | Reset

  datatype Controller = Controller(kind: Kind, calls: seq<Call>)
  {
    /** This controller after one more call. */
    function Then(c: Call): Controller {
      this.(calls := calls + [c])
    }
  }

  /** A controller as constructed. */
  function Fresh(k: Kind): Controller {
    Controller(k, [])
  }
}
