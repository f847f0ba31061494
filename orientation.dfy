/**
  The camera orientation of the viewer and the input mappings that change it.

  `lon` (yaw) and `lat` (pitch) are stored unbounded; only the pitch that is used to
  aim the camera is clamped. `fov` is the vertical field of view of the camera.
  All arithmetic is exact (`real`), where the viewer computes in IEEE-754 doubles.
 */
module Orientation {
  import opened Scenes

  datatype View = View(lon: real, lat: real, fov: real)

  /** A pointer position in client pixels. */
  datatype Point = Point(x: real, y: real)

  const DRAG_DEGREES_PER_PIXEL: real := 0.1
  const WHEEL_DEGREES_PER_UNIT: real := 0.05
  const KEY_STEP: real := 1.5
  const MIN_PITCH: real := -85.0
  const MAX_PITCH: real := 85.0
  const MIN_FOV: real := 30.0
  const MAX_FOV: real := 100.0

  /** `max(lo, min(hi, x))`, the clamp the viewer uses for both pitch and field of view;
      `Scenes.SafeIndex` is the same shape on integers. */
  function Clamp(x: real, lo: real, hi: real): (r: real)
    requires lo <= hi
    ensures lo <= r <= hi
    ensures lo <= x <= hi <==> r == x
    ensures x < lo ==> r == lo
    ensures x > hi ==> r == hi
  {
    var m := if hi <= x then hi else x;
    if lo >= m then lo else m
  }

  /** The pitch a frame aims the camera with, whatever has accumulated in `lat`. */
  function LookPitch(lat: real): (r: real)
    ensures MIN_PITCH <= r <= MAX_PITCH
    ensures r == lat <==> MIN_PITCH <= lat <= MAX_PITCH
    ensures lat < MIN_PITCH ==> r == MIN_PITCH
    ensures lat > MAX_PITCH ==> r == MAX_PITCH
  {
    Clamp(lat, MIN_PITCH, MAX_PITCH)
  }

  /** A wheel event of `deltaY` scroll units: the field of view moves by 0.05 degrees
      per unit and is clamped to [30, 100]; the orientation is left alone. */
  function Zoom(v: View, deltaY: real): (r: View)
    ensures MIN_FOV <= r.fov <= MAX_FOV
    ensures r.fov == v.fov + deltaY * WHEEL_DEGREES_PER_UNIT
        <==> MIN_FOV <= v.fov + deltaY * WHEEL_DEGREES_PER_UNIT <= MAX_FOV
    ensures v.fov + deltaY * WHEEL_DEGREES_PER_UNIT < MIN_FOV ==> r.fov == MIN_FOV
    ensures v.fov + deltaY * WHEEL_DEGREES_PER_UNIT > MAX_FOV ==> r.fov == MAX_FOV
    ensures r.lon == v.lon && r.lat == v.lat
  {
    v.(fov := Clamp(v.fov + deltaY * WHEEL_DEGREES_PER_UNIT, MIN_FOV, MAX_FOV))
  }

  /** One pointer move from `from` to `to` during a drag: dragging right lowers the yaw,
      so the camera looks left; dragging down raises the pitch, so the camera looks up.
      The pitch is not clamped here. */
  function DragTo(v: View, from: Point, to: Point): (r: View)
    ensures r == v.(lon := v.lon - DRAG_DEGREES_PER_PIXEL * (to.x - from.x),
                    lat := v.lat + DRAG_DEGREES_PER_PIXEL * (to.y - from.y))
  {
    v.(lon := v.lon - (to.x - from.x) * DRAG_DEGREES_PER_PIXEL,
       lat := v.lat + (to.y - from.y) * DRAG_DEGREES_PER_PIXEL)
  }

  /** The moves of one drag that was pressed at `from` and then passed through `path`. */
  function DragAlong(v: View, from: Point, path: seq<Point>): View
    decreases |path|
  {
    if path == [] then v else DragAlong(DragTo(v, from, path[0]), path[0], path[1..])
  }

  /** However a drag wanders, only where it was pressed and where it ended matter:
      yaw changes by -0.1 degrees and pitch by +0.1 degrees per pixel of net movement. */
  lemma {:induction false} DragAlongTelescopes(v: View, from: Point, path: seq<Point>)
    requires path != []
    decreases |path|
    ensures DragAlong(v, from, path)
         == View(v.lon - DRAG_DEGREES_PER_PIXEL * (path[|path| - 1].x - from.x),
                 v.lat + DRAG_DEGREES_PER_PIXEL * (path[|path| - 1].y - from.y),
                 v.fov)
  {
    if |path| > 1 {
      var rest := path[1..];
      assert rest[|rest| - 1] == path[|path| - 1];
      DragAlongTelescopes(DragTo(v, from, path[0]), path[0], rest);
    }
  }

  /** The change of yaw a key event makes. */
  function YawStep(key: string): real
  {
    if key == "ArrowLeft" then -KEY_STEP else if key == "ArrowRight" then KEY_STEP else 0.0
  }

  /** The change of pitch a key event makes. */
  function PitchStep(key: string): real
  {
    if key == "ArrowUp" then -KEY_STEP else if key == "ArrowDown" then KEY_STEP else 0.0
  }

  /** A key event: the four arrow keys each step yaw or pitch by 1.5 degrees,
      any other key changes nothing. */
  function KeyTurn(v: View, key: string): (r: View)
    ensures key == "ArrowLeft" ==> r == v.(lon := v.lon - KEY_STEP)
    ensures key == "ArrowRight" ==> r == v.(lon := v.lon + KEY_STEP)
    ensures key == "ArrowUp" ==> r == v.(lat := v.lat - KEY_STEP)
    ensures key == "ArrowDown" ==> r == v.(lat := v.lat + KEY_STEP)
    ensures key != "ArrowLeft" && key != "ArrowRight" && key != "ArrowUp" && key != "ArrowDown"
        ==> r == v
    ensures r == View(v.lon + YawStep(key), v.lat + PitchStep(key), v.fov)
  {
    var left := if key == "ArrowLeft" then v.(lon := v.lon - KEY_STEP) else v;
    var right := if key == "ArrowRight" then left.(lon := left.lon + KEY_STEP) else left;
    var up := if key == "ArrowUp" then right.(lat := right.lat - KEY_STEP) else right;
    if key == "ArrowDown" then up.(lat := up.lat + KEY_STEP) else up
  }

  /** `n` key events for the same key, as an auto-repeating key delivers them. */
  function KeyRepeat(v: View, key: string, n: nat): View
  {
    if n == 0 then v else KeyTurn(KeyRepeat(v, key, n - 1), key)
  }

  /** There is no debouncing: each of `n` repeated events applies its full step. */
  lemma {:induction false} KeyRepeatAccumulates(v: View, key: string, n: nat)
    ensures KeyRepeat(v, key, n)
         == View(v.lon + (n as real) * YawStep(key), v.lat + (n as real) * PitchStep(key), v.fov)
  {
    if n > 0 {
      KeyRepeatAccumulates(v, key, n - 1);
      var dLon, dLat := YawStep(key), PitchStep(key);
      assert (n as real) * dLon == ((n - 1) as real) * dLon + dLon;
      assert (n as real) * dLat == ((n - 1) as real) * dLat + dLat;
    }
  }

  function ValueOr(o: Option<real>, default: real): real
  {
    if o.Some? then o.value else default
  }

  /** The orientation reset on a scene change: each defined field of the new scene's
      initial view overwrites its counterpart; undefined fields keep the previous value.
      The field of view taken from an initial view is not clamped. */
  function ApplyInitialView(v: View, iv: InitialView): (r: View)
    ensures iv.yaw.Some? ==> r.lon == iv.yaw.value
    ensures iv.yaw.None? ==> r.lon == v.lon
    ensures iv.pitch.Some? ==> r.lat == iv.pitch.value
    ensures iv.pitch.None? ==> r.lat == v.lat
    ensures iv.fov.Some? ==> r.fov == iv.fov.value
    ensures iv.fov.None? ==> r.fov == v.fov
  {
    View(ValueOr(iv.yaw, v.lon), ValueOr(iv.pitch, v.lat), ValueOr(iv.fov, v.fov))
  }

  /** The orientation after a scene change as the component actually commits it:
      the initial-view effect writes yaw and pitch and sets the field of view of the
      camera that is about to be discarded (or of no camera at all on the first
      render), and the renderer effect then builds a new camera with `propFov`,
      the field of view the component was given. */
  function SceneChangeAsWritten(v: View, iv: InitialView, propFov: real): (r: View)
    ensures r.lon == ApplyInitialView(v, iv).lon && r.lat == ApplyInitialView(v, iv).lat
    ensures r.fov == propFov
  {
    var discarded := ApplyInitialView(v, iv);
    View(discarded.lon, discarded.lat, propFov)
  }

  /** The discrepancy: a scene that asks for a 90 degree field of view, shown by a
      viewer given the default 75, is rendered at 75, and a zoom made before the
      change is lost as well. */
  lemma SceneChangeAsWrittenLosesFov()
    ensures SceneChangeAsWritten(View(0.0, 0.0, 75.0), InitialView(None, None, Some(90.0)), 75.0).fov
         != ApplyInitialView(View(0.0, 0.0, 75.0), InitialView(None, None, Some(90.0))).fov
    ensures SceneChangeAsWritten(View(0.0, 0.0, 40.0), InitialView(None, None, None), 75.0).fov
         != ApplyInitialView(View(0.0, 0.0, 40.0), InitialView(None, None, None)).fov
  {
  }
}
