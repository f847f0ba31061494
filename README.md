# Panorama viewer: a Dafny model of its interaction and navigation state

The panorama viewer shows a 360° equirectangular image on the inside of a sphere.
The user looks around by dragging, zooms with the wheel, and steps the view with the arrow keys.
In multi-scene mode it shows one scene of a list. Each scene's hotspots lead to other scenes through a timed fade transition.

The model covers the discrete state behind all this. The 3D rendering is left out.

- `Scenes` holds the scene list, the scene with its optional initial view, and the hotspot.
  The stored scene index may be out of range. It is always read through the clamp `SafeIndex`.
- `Orientation` holds yaw (`lon`), pitch (`lat`) and field of view (`fov`).
  It also holds the input mappings: drag, wheel and keys.
  The stored pitch is unbounded. Only the pitch that aims the camera each frame is clamped to [-85, 85].
  The wheel clamps the field of view to [30, 100].
  Each defined field of a scene's initial view overwrites the orientation on a scene change.
- `Projection` holds the per-frame placement of a hotspot's overlay control.
  The control is hidden unless the hotspot faces the camera and its projected depth is within [-1, 1].
  Normalized device coordinates map affinely to pixels.
- `Transition` holds the transition state machine `Idle → FadingOut → Switched → FadingIn → Idle`.
  Each phase stands for the timer that is pending. The machine is pure, so lemmas can cover whole event sequences.
  Clicks are dropped while a transition runs.
  A transition started from rest ends at rest on the clicked target after its third timer.
  Any walk over the scene graph ends at rest on its last target, so cycles of any length can be travelled any number of times.
- `Viewer.ViewerState` is the class.
  Its fields are the component's mutable references, the camera's field of view, the stored scene index, the overlay state and the phase.
  Each event handler and each timer callback is a method. Its `ensures` ties the new state to the functions above.
- `Scenarios` holds the three-scene tour of the application page and client methods.
  The clients drive a `ViewerState` through end-to-end scenarios of the viewer using only the method contracts.

Arithmetic is exact (`real`). Wall-clock time becomes the order in which timers fire.

Two places where the code clamps only on reading:

- The stored scene index is written unclamped from the hotspot target (`index.tsx:251`). It is clamped only when read (`index.tsx:52`).
- Drags and keys add to the stored pitch unclamped (`index.tsx:181-186`, `index.tsx:200-206`). It is clamped only when a frame aims the camera (`index.tsx:107`).

## Model

| member | source | states |
|---|---|---|
| `Scenes.IsScenesMode` | components/PanoramaViewer/index.tsx:48 | multi-scene mode is on exactly when the scene list is non-empty; an absent list and an empty one behave alike |
| `Scenes.SafeIndex` | components/PanoramaViewer/index.tsx:52 | for a non-empty list the index used is in [0, count-1]; it equals the stored index when that is in range, 0 when negative, count-1 when too large |
| `Scenes.CurrentScene` | components/PanoramaViewer/index.tsx:48-54 | there is a current scene exactly in multi-scene mode; it is always an element of the list; it is the scene at the stored index when in range, else the first or last scene |
| `Orientation.Clamp` | components/PanoramaViewer/index.tsx:195 | the result is within [lo, hi]; it equals the input exactly when the input is within the bounds; it saturates at the bound that is crossed |
| `Orientation.LookPitch` | components/PanoramaViewer/index.tsx:107 | the pitch that aims the camera is within [-85, 85] whatever has accumulated; it equals the stored pitch exactly when that is within the bounds; otherwise it is the crossed bound |
| `Orientation.Zoom` | components/PanoramaViewer/index.tsx:194-198 | after a wheel event the field of view is within [30, 100]; it equals `fov + deltaY*0.05` exactly when that is within the bounds, else the crossed bound; yaw and pitch are unchanged |
| `Orientation.DragTo` | components/PanoramaViewer/index.tsx:181-186 | one pointer move lowers the yaw by 0.1° per pixel moved right and raises the pitch by 0.1° per pixel moved down, unclamped; the field of view is unchanged |
| `Orientation.DragAlongTelescopes` | components/PanoramaViewer/index.tsx:179-187 | after a press at (x0, y0) and any moves ending at (xn, yn), yaw has changed by exactly -0.1·(xn-x0) and pitch by +0.1·(yn-y0); the field of view is unchanged |
| `Orientation.KeyTurn` | components/PanoramaViewer/index.tsx:200-206 | ArrowLeft/ArrowRight change only yaw, by -1.5/+1.5; ArrowUp/ArrowDown change only pitch, by -1.5/+1.5; any other key changes nothing |
| `Orientation.KeyRepeatAccumulates` | components/PanoramaViewer/index.tsx:200-206 | n repeated events for one key move the view by n full steps (no debouncing) |
| `Orientation.ApplyInitialView` | components/PanoramaViewer/index.tsx:58-68 | on a scene change each defined initial-view field overwrites yaw, pitch or field of view; undefined fields keep their values; the field of view is taken unclamped |
| `Orientation.SceneChangeAsWritten` | components/PanoramaViewer/index.tsx:58-83 | as the component commits a scene change, yaw and pitch follow the initial view, but the field of view is always the component's `fov` property |
| `Orientation.SceneChangeAsWrittenLosesFov` | components/PanoramaViewer/index.tsx:64-83 | for a scene asking for 90° under the default 75°, and for a zoom to 40° before a change, the as-written field of view differs from the corrected one |
| `Projection.ToPixel` | components/PanoramaViewer/index.tsx:153-154 | device x = -1 and 1 map to the left and right edges; y = 1 and -1 map to the top and bottom edges |
| `Projection.ToPixelOnSurface` | components/PanoramaViewer/index.tsx:153-154 | device coordinates within [-1, 1] land within the drawing surface |
| `Projection.PixelRoundTrip` | components/PanoramaViewer/index.tsx:153-154 | for a surface of non-zero size the pixel mapping is invertible: device coordinates → pixels → device coordinates is the identity |
| `Projection.PixelRoundTripBack` | components/PanoramaViewer/index.tsx:153-154 | pixels → device coordinates → pixels is the identity too |
| `Projection.Place` | components/PanoramaViewer/index.tsx:140-156 | an overlay is shown exactly when the hotspot faces the camera (positive dot product) and its projected depth is within [-1, 1]; a shown overlay sits at the mapped pixel |
| `Transition.ClickHotspot` | components/PanoramaViewer/index.tsx:237-248 | a click changes nothing exactly when the viewer is not in scenes mode or a transition runs; otherwise it starts the fade-out towards the target and leaves the scene index alone |
| `Transition.Fire` | components/PanoramaViewer/index.tsx:250-261 | each timer consumes one pending step; only the first sets the scene index, to the clicked target unclamped; only the last ends the transition |
| `Transition.BusyIgnoresClicks` | components/PanoramaViewer/index.tsx:237-261 | while timers are pending, any interleaving of clicks and fewer timers than pending is the same as the timers alone: clicks are dropped |
| `Transition.InFlight` | components/PanoramaViewer/index.tsx:239-261 | after an accepted click and fewer than three timers the flag is still raised; the index is the old one before the first timer and the target after it |
| `Transition.TransitionCompletes` | components/PanoramaViewer/index.tsx:237-261 | a click from rest in scenes mode, then any events holding two timers, then a third timer, ends at rest on the clicked target |
| `Transition.RoundTripsEndAtRest` | components/PanoramaViewer/index.tsx:237-261 | any number of round trips over a two-scene cycle ends at rest on the last target |
| `Transition.VisitsEndAtRest` | components/PanoramaViewer/index.tsx:237-261 | uninterrupted visits to any non-empty sequence of targets, from rest, end at rest on the last target |
| `Viewer.ViewerState.FramePitch` | components/PanoramaViewer/index.tsx:106-107 | the pitch each frame uses is within [-85, 85] and equals the stored pitch exactly when that is within the bounds |
| `Viewer.ViewerState.constructor` | components/PanoramaViewer/index.tsx:25-68 | a session starts at yaw 0, pitch 0 with the given field of view (75 by default) and the given (unclamped) index (0 by default) at rest; in scenes mode the current scene's initial view is applied |
| `Viewer.ViewerState.PointerDown` | components/PanoramaViewer/index.tsx:172-177 | a press starts a drag at the press position; orientation and navigation unchanged |
| `Viewer.ViewerState.PointerMove` | components/PanoramaViewer/index.tsx:179-187 | a move while not dragging changes nothing; otherwise the view moves by the drag step from the last position seen, which becomes the new position |
| `Viewer.ViewerState.PointerUp` | components/PanoramaViewer/index.tsx:189-192 | release clears the drag flag and changes nothing else |
| `Viewer.ViewerState.Wheel` | components/PanoramaViewer/index.tsx:194-198 | the view becomes the clamped zoom of the old view; drag and navigation unchanged |
| `Viewer.ViewerState.KeyDown` | components/PanoramaViewer/index.tsx:200-206 | the view becomes the key turn of the old view; drag and navigation unchanged |
| `Viewer.ViewerState.HotspotClick` | components/PanoramaViewer/index.tsx:237-248 | outside scenes mode or mid-transition nothing changes; otherwise the flag goes up, the overlay turns opaque and the fade-out starts; the scene index and orientation are untouched |
| `Viewer.ViewerState.TickSwapScene` | components/PanoramaViewer/index.tsx:250-251 | allowed only while fading out; the scene index becomes the clicked target; the orientation resets to the new scene's initial view exactly when the clamped scene changes; still transitioning |
| `Viewer.ViewerState.TickClearOverlay` | components/PanoramaViewer/index.tsx:252-256 | allowed only after the swap; the overlay clears; still transitioning; index and view unchanged |
| `Viewer.ViewerState.TickEndTransition` | components/PanoramaViewer/index.tsx:257-259 | allowed only while fading in; the flag drops and the machine is at rest; index and view unchanged |
| `Scenarios.Tour` | app/panorama/page.tsx:7-35 | the application's tour has three scenes of two hotspots each; every target is in range; scene A leads to B and B back to A; A, B, C form a cycle back to A |
| `Scenarios.TourCycleEndsAtRest` | app/panorama/page.tsx:7-35 | travelling the tour's cycle A → B → C → A twice from rest ends at rest on scene A |

## Left out

- Three.js and WebGL: scene, camera object, renderer, sphere mesh, texture loading, disposal, the animation-frame loop and the resize handler. These are foreign library calls and GPU resources.
- Trigonometry: the look direction, the hotspot's 3D position, the camera's world direction and its projection. `Projection.Place` takes the dot product and the projected coordinates as inputs.
- Timing and styling: wall-clock time, the CSS opacity transition and the overlay's pointer-events toggle. The overlay is one boolean, and the timers are ordered steps.
- UI plumbing: pointer capture and release, DOM lookups of the hotspot buttons, style mutation, and React rendering.
- The shape of the `Viewer` methods: React `setState` and effect scheduling become direct field updates inside `TickSwapScene`.
- Scene identity: the orientation reset is modelled as happening when the clamped index changes. The component compares scene objects, so the model assumes the scenes in the list are distinct objects.
- Inert data: the scene `id` and `image` and the hotspot `id` and `label`.
- A missing `initialView` equals one whose three fields are all undefined. The component treats the two alike.
- Floating point: all arithmetic is exact `real`, not IEEE-754 doubles. The products `* 0.1` and `* 0.05` are not rounded.
- Session teardown: listener removal and timers firing after unmount are not modelled.
- `Viewer.ViewerState.constructor`: takes the corrected initial-view reset, so the field of view follows `initialView.fov` at mount. As written, the camera keeps the `fov` property (see Findings).
- `Viewer.ViewerState.TickSwapScene`: takes the corrected initial-view reset. As written, the camera is rebuilt with the `fov` property on every scene change (see Findings).

## Findings

| source | as written | input that shows it | evidently intended | confidence | as-written member | corrected member |
|---|---|---|---|---|---|---|
| components/PanoramaViewer/index.tsx:64-83 | The initial-view effect sets `fov` on the old camera, or on no camera at the first render. The renderer effect then runs after it and builds a new camera with the component's `fov` property. So the rendering camera never gets `initialView.fov`, and a wheel zoom is lost on every scene change. | A scene with `initialView.fov = 90` in a viewer with the default `fov = 75` renders at 75. A zoom to 40 followed by a change to a scene without `initialView.fov` renders at 75. | Each defined initial-view field, the field of view included and unclamped, sets the orientation of the scene being shown. Undefined fields keep the current values. | medium, not executed | `Orientation.SceneChangeAsWritten`, `Orientation.SceneChangeAsWrittenLosesFov` | `Orientation.ApplyInitialView` |
