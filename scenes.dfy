/**
  Scene data of a multi-scene panorama and the choice of the scene that is on show.

  A scene list is given once and never changes. The stored scene index may lie outside
  the list: it is only ever read through the clamp `SafeIndex`.
 */
module Scenes {

  datatype Option<+T> = None | Some(value: T)

  /** The orientation a scene asks for when it becomes active; each field may be
      left undefined. A scene without an initial view has all three fields `None`. */
  datatype InitialView = InitialView(yaw: Option<real>, pitch: Option<real>, fov: Option<real>)

  /** A clickable marker at a fixed angular position on the sphere, leading to the
      scene at index `target`. The target is not checked against the scene list. */
  datatype Hotspot = Hotspot(yaw: real, pitch: real, target: int)

  datatype Scene = Scene(initialView: InitialView, hotspots: seq<Hotspot>)

  /** Multi-scene mode is on exactly when a non-empty scene list is given
      (an absent list and an empty one behave alike). */
  predicate IsScenesMode(scenes: seq<Scene>): (b: bool)
    ensures b <==> scenes != []
  {
    |scenes| > 0
  }

  function Max(a: int, b: int): int { if a >= b then a else b }

  function Min(a: int, b: int): int { if a <= b then a else b }

  /** The index actually used to pick a scene out of `count`: `max(0, min(count - 1, index))`,
      the same clamp shape as `Orientation.Clamp`, on integers. */
  function SafeIndex(count: nat, index: int): (r: int)
    ensures count > 0 ==> 0 <= r < count
    ensures 0 <= index < count ==> r == index
    ensures index < 0 ==> r == 0
    ensures count > 0 && index >= count ==> r == count - 1
  {
    Max(0, Min(count - 1, index))
  }

  /** The scene on show: none outside multi-scene mode, otherwise the scene at the
      clamped index, so never an out-of-range access whatever the stored index is. */
  function CurrentScene(scenes: seq<Scene>, index: int): (r: Option<Scene>)
    ensures r.Some? <==> IsScenesMode(scenes)
    ensures r.Some? ==> r.value in scenes
    ensures 0 <= index < |scenes| ==> r == Some(scenes[index])
    ensures IsScenesMode(scenes) && index < 0 ==> r == Some(scenes[0])
    ensures IsScenesMode(scenes) && index >= |scenes| ==> r == Some(scenes[|scenes| - 1])
  {
    if IsScenesMode(scenes) then Some(scenes[SafeIndex(|scenes|, index)]) else None
  }
}
