# Viewport interaction model

This project models the `Viewport` class of TopMod (`trunk/include/Viewport.hh`) in Dafny and proves properties of it. The class is the state machine behind mouse navigation in a 3D view:

- the four gesture handlers (rotate, pan, zoom, dolly) and the dispatcher `send_to_current`;
- the canonical views (`switchTo`, `setPerspView`);
- resizing and `reshape`;
- the order in which `apply_transform` composes the dolly offset, the live gesture value and the committed transformation.

The class's collaborators are kept abstract:

- **Controllers.** Each of `Arcball`, `TransControl`, `ZoomControl` and `DollyControl` is the log of calls the viewport makes on it (`mouse`, `update`, `beginDrag`, `endDrag`, `reset`). The value read from a controller is represented by the controller state it is read from.
- **Camera.** The camera is the log of its setter calls.
- **Transformation.** The transformation is the history of operations applied to it: reset, look-at assignment, rotate, translate, scale. `Transformation.Effective` gives the operations the current matrix is made of: those since the last reset, or since the last look-at assignment including that assignment.
- **Pixel mapping.** Pixel coordinates map to the range [-1, 1] over the reals.

Modules:

- `Geometry`, `Camera`, `Controllers` (collaborators.dfy): vectors and the collaborator call logs.
- `Transformation` (transformation.dfy): the operation history and its effective part.
- `Coordinates` (coordinates.dfy): the pixel-to-[-1, 1] mapping.
- `Interaction` (interaction.dfy): the viewport's state as a value, with one transition function per operation. These functions are the specification.
- `Viewports` (viewport.dfy): the class `Viewport`. Its fields are the class's fields. Each mutating method updates them step by step, as the C++ does, and is proved to perform the matching transition of `Interaction`.
- `Gestures` (gestures.dfy): lemmas about sequences of events and view changes.

## Model

| member | source | states |
|---|---|---|
| Coordinates.NdcX | trunk/include/Viewport.hh:178 | a pixel column lies in [0, width] iff its normalized x lies in [-1, 1]; the left edge maps to -1 and the right edge to 1; the pixel is recovered by `PixelOfNdcX` |
| Coordinates.NdcY | trunk/include/Viewport.hh:179 | a pixel row lies in [0, height] iff its normalized y lies in [-1, 1]; the top row maps to 1 and the bottom row to -1; the y axis is the x mapping flipped |
| Coordinates.NdcXMonotone | trunk/include/Viewport.hh:233 | moving the pointer right never decreases the normalized x, so zoom and dolly samples follow the pointer's direction |
| Transformation.Effective | trunk/include/Viewport.hh:62-64 | the operations defining the current matrix are a look-at assignment followed by incremental operations, or incremental operations alone |
| Transformation.EffectiveIsSuffix | trunk/include/Viewport.hh:41 | the effective operations are the most recent entries of the history |
| Transformation.ResetIsIdentity | trunk/include/Viewport.hh:93 | after `reset()` the transformation is the identity, whatever came before |
| Transformation.EffectiveExtend | trunk/include/Viewport.hh:187 | a rotate, translate or scale composes onto the current matrix |
| Transformation.EffectiveComposes | trunk/include/Viewport.hh:217 | a sequence of incremental operations composes onto the current matrix in order |
| Transformation.EffectiveIdempotent | trunk/include/Viewport.hh:41 | the effective operations are already a complete description of the matrix: taking them again changes nothing |
| Interaction.RotateStep | trunk/include/Viewport.hh:168-192 | refused (nothing changes) unless the active mode is none or rotate; afterwards the mode is rotate, or none after a release; in an orthographic view neither the arcball nor the transformation changes; the arcball gets the normalized sample, an update and begin/end drag; only a release appends, and appends exactly one rotation by the arcball's value, then resets the arcball; only the arcball, mode and transformation can change |
| Interaction.PanStep | trunk/include/Viewport.hh:195-220 | refused unless the mode is none or pan; the translation controller gets the camera-adjusted sample; only a release appends, and appends exactly one translation by the controller's value, then resets it and clears the mode; only the controller, mode and transformation can change |
| Interaction.ZoomStep | trunk/include/Viewport.hh:223-246 | refused unless the mode is none or zoom; only the horizontal position is sampled; only a release appends, and appends exactly one scale by the controller's value, then resets it and clears the mode |
| Interaction.DollyStep | trunk/include/Viewport.hh:249-276 | in an orthographic view it is exactly the zoom handler on the same arguments; in the perspective view it is refused unless the mode is none or dolly; it never touches the transformation; on a release it clears the mode and does not reset the dolly controller |
| Interaction.SendToCurrentStep | trunk/include/Viewport.hh:278-296 | handled iff a gesture is active; if none is active nothing changes; otherwise the effect is that of the handler of the active gesture, which takes the event, except that a dolly left active in an orthographic view is refused |
| Interaction.OrthoEye | trunk/include/Viewport.hh:103-120 | each orthographic view's eye lies on a coordinate axis at distance 100 |
| Interaction.OrthoUp | trunk/include/Viewport.hh:103-120 | each orthographic view's up vector is a unit vector along a coordinate axis |
| Interaction.OrthoViewFrame | trunk/include/Viewport.hh:103-120 | in every orthographic view the up vector is perpendicular to the line of sight |
| Interaction.SetPerspViewStep | trunk/include/Viewport.hh:56-67 | a no-op unless the view is perspective; otherwise the transformation becomes a look-at from the origin-relative eye followed by a translation of the center to the origin (that pair is then the whole effective transformation), and the camera eye is set at the eye-to-center distance; nothing else changes |
| Interaction.SwitchToStep | trunk/include/Viewport.hh:79-122 | the view becomes `v`; the mode, size and controllers are unchanged; the camera gets center and clipping planes, then a perspective frustum with the current aspect ratio or an orthographic 2 by 2 volume; an orthographic view resets the transformation to the identity and sets its fixed eye and up vector; the perspective view seeds the transformation with the default look-at |
| Interaction.PerspectiveSwitch | trunk/include/Viewport.hh:84-101 | the perspective branch of switchTo: a perspective frustum, then setPerspView with eye (50, 50, 50), center at the origin and up (0, 1, 0), whose look-at is then the effective transformation |
| Interaction.OrthographicSwitch | trunk/include/Viewport.hh:89-120 | the orthographic branch of switchTo: an orthographic frustum, a reset transformation (so the identity), and the view's eye and up vector |
| Interaction.Initial | trunk/include/Viewport.hh:124-130 | a new viewport has no active gesture, the perspective view, fresh controllers with the dolly scale 10, and the default look-at as its transformation |
| Interaction.ResizeStep | trunk/include/Viewport.hh:160-165 | the size becomes w by h and the camera's aspect ratio is set to w/h; transformation, mode, view and controllers are unchanged |
| Gestures.Drags | trunk/include/Viewport.hh:168-276 | a run of drag events for one gesture keeps the state well formed |
| Gestures.Gesture | trunk/include/Viewport.hh:168-276 | a press, drags and a release for one gesture keep the state well formed |
| Gestures.MutualExclusion | trunk/include/Viewport.hh:171 | while a gesture is active, the handler of any other gesture changes nothing, and the engaged gesture's handler leaves the mode that the event calls for |
| Gestures.StrandedDolly | trunk/include/Viewport.hh:252-256 | a dolly still active in an orthographic view is refused by every handler and by send_to_current, which nevertheless reports the event as handled |
| Gestures.DragsHold | trunk/include/Viewport.hh:183-184 | drags keep the engaged gesture, the view, the size and the transformation |
| Gestures.GestureCommitsOnce | trunk/include/Viewport.hh:183-273 | a complete gesture from the neutral state ends neutral and in the same view; it appends exactly one operation of its own shape for pan, zoom (including a dolly in an orthographic view) and a perspective rotation; it appends none for a perspective dolly or an orthographic rotation; the appended operation composes onto the current matrix |
| Gestures.CenteredRotationSession | trunk/include/Viewport.hh:178-188 | in an 800 by 600 viewport, a rotation pressed at the center and released 50 pixels to the right feeds the arcball (0, 0) and then (0.125, 0), and commits exactly that arcball's rotation |
| Gestures.TopViewLocksRotation | trunk/include/Viewport.hh:174 | after switching to the top view the transformation is the identity, and a whole rotation gesture leaves it so |
| Gestures.SwitchForgetsHistory | trunk/include/Viewport.hh:79-122 | after a switch, the current matrix depends only on the view and not on what was committed before |
| Gestures.OrthoViewIgnoresSetPerspView | trunk/include/Viewport.hh:58 | after switching to an orthographic view, setPerspView changes nothing |
| Gestures.ResizeSession | trunk/include/Viewport.hh:160-165 | two resizes leave the last aspect ratio in the camera and the transformation alone |
| Viewports.Viewport.constructor | trunk/include/Viewport.hh:124-130 | the new object's fields are the `Initial` state |
| Viewports.Viewport.Current | trunk/include/Viewport.hh:132-135 | returns the active gesture |
| Viewports.Viewport.SetPerspView | trunk/include/Viewport.hh:56-67 | performs `SetPerspViewStep` on the fields |
| Viewports.Viewport.SwitchTo | trunk/include/Viewport.hh:79-122 | performs `SwitchToStep` on the fields |
| Viewports.Viewport.Reshape | trunk/include/Viewport.hh:139-143 | issues the pixel rectangle of the whole viewport, then the camera's projection |
| Viewports.Viewport.Resize | trunk/include/Viewport.hh:160-165 | performs `ResizeStep` on the fields, then issues what reshape issues for the new size |
| Viewports.Viewport.HandleRotate | trunk/include/Viewport.hh:168-192 | performs `RotateStep` on the fields |
| Viewports.Viewport.HandlePan | trunk/include/Viewport.hh:195-220 | performs `PanStep` on the fields |
| Viewports.Viewport.HandleZoom | trunk/include/Viewport.hh:223-246 | performs `ZoomStep` on the fields |
| Viewports.Viewport.HandleDolly | trunk/include/Viewport.hh:249-276 | performs `DollyStep` on the fields |
| Viewports.Viewport.SendToCurrent | trunk/include/Viewport.hh:278-296 | returns and performs `SendToCurrentStep` |
| Viewports.Viewport.ApplyTransform | trunk/include/Viewport.hh:298-320 | the dolly translation comes first and the committed transformation last; between them comes the live value of the active controller, only when the mode is pan, zoom or rotate |

## Behaviour of the code worth noting

- `apply_transform` multiplies in a live controller value only for pan, zoom and rotate. An active dolly gets no live term: its value is already applied by the leading translation.
- A release accepted from the neutral state, with no preceding press, is handled like any other release:
  - pan, zoom and a perspective rotation sample the controller, commit its value, reset it and clear the mode;
  - a perspective dolly samples the controller, calls `endDrag` and clears the mode, and commits nothing;
  - an orthographic rotation neither samples nor commits, and the mode stays none.
- The `VPUnknown` event engages its gesture like a drag does.
- `switchTo` leaves `currenttr` alone. A dolly that is active when the view switches to an orthographic one can then never end: the dolly handler forwards to the zoom handler, which refuses it. Only switching back to the perspective view frees it (`Gestures.StrandedDolly`).

## Left out

- `mouseToViewport` (Viewport.hh:147-156): a floating-point 4x4 inverse and homogeneous divide in matrix code that is not part of this model. Only its pixel mapping is modelled: `Coordinates.NdcX`/`NdcY` use the same formula, on integer pixels rather than on a `double`. Its use of `camera.adjust` is not modelled.
- `Transformation::lookat`, `norm` and the matrix library: they are not part of this model. The look-at is kept as the operation `AssignLookAt`. The camera eye distance is kept as `SetEyeAtDistanceOf(offset)`, symbolic in the offset whose norm it is.
- OpenGL calls: `reshape` and `apply_transform` return the ordered list of rendering commands they would issue (`GlCommand`) instead of issuing them.
- Internals of `Arcball`, `TransControl`, `ZoomControl`, `DollyControl` and `Camera`: their headers are not part of this model. Each is the log of the calls made on it. `camera.adjust` is assumed not to change the camera, and the pan sample records the camera state it was adjusted against.
- `handle_pan` (Viewport.hh:202, :210) passes an uninitialised depth `z` to `camera.adjust` and then to `trcontrol.mouse`. The model assumes `adjust` does not read it, so the pan sample `Adjusted(x, y, camera)` depends only on x, y and the camera, and carries no depth.
- The default argument `event_y = 0` of `handle_zoom` and `handle_dolly` (Viewport.hh:223, :249) is dropped: `HandleZoom` and `HandleDolly` always take `py`, and their effect does not depend on it.
- Viewports.Viewport.HandleRotate and the other handlers do not model the 32-bit overflow of `event_x << 1`: the doubling is exact over the integers.
- Width and height are required to be positive. Samples divide by them, and a zero size has no meaningful behaviour in the C++.
- The nine-argument `setPerspView` overload (Viewport.hh:69-76) only packs its arguments into vectors. `SwitchTo` calls `SetPerspView` with the packed vectors directly.
- The `virtual` dispatch of the handlers: overriding subclasses are not part of this model.
- `trunk/include/DI.h` (debugger macros) and `trunk/include/Light.hh` (an abstract lighting base class) are not part of the viewport's behaviour.
