/**
  The discrete state of one panorama viewer session and its event handlers.

  The fields are the mutable references of the component (orientation, drag state,
  transition flag), the camera's field of view and the stored scene index; the phase
  stands for whichever transition timer is pending. Each handler is a method, proved
  against the functions of the modules it imports.
 */
module Viewer {
  import opened Scenes
  import opened Orientation
  import opened Transition

  class ViewerState {
    const scenes: seq<Scene>
    var lon: real
    var lat: real
    var fov: real
    var isDragging: bool
    var pointerX: real
    var pointerY: real
    var currentSceneIndex: int
    var isTransitioning: bool
    var overlayOpaque: bool
    var phase: Phase

    /** The flag and the overlay follow the phase, and a transition only ever runs
        in multi-scene mode. */
    ghost predicate Valid()
      reads this
    {
      && isTransitioning == Transitioning(phase)
      && overlayOpaque == OverlayOpaque(phase)
      && (Transitioning(phase) ==> IsScenesMode(scenes))
    }

    function CurrentView(): View
      reads this
    {
      View(lon, lat, fov)
    }

    function Navigation(): Nav
      reads this
    {
      Nav(currentSceneIndex, phase)
    }

    /** The last pointer position seen during a drag. */
    function PointerAt(): Point
      reads this
    {
      Point(pointerX, pointerY)
    }

    /** The pitch the current frame aims the camera with: always within [-85, 85],
        and equal to the stored pitch exactly when that is within the bounds. */
    function FramePitch(): (r: real)
      reads this
      ensures MIN_PITCH <= r <= MAX_PITCH
      ensures r == lat <==> MIN_PITCH <= lat <= MAX_PITCH
    {
      LookPitch(lat)
    }

    /** A session starts looking at yaw 0, pitch 0 with the field of view given to the
        component (75 by default) and the given scene index (0 by default); in multi-scene
        mode the initial view of the first scene shown applies. */
    constructor (scenes: seq<Scene>, fov: real := 75.0, initialSceneIndex: int := 0)
      ensures Valid()
      ensures this.scenes == scenes && currentSceneIndex == initialSceneIndex && phase == Idle
      ensures !isDragging && PointerAt() == Point(0.0, 0.0)
      ensures CurrentView()
           == if IsScenesMode(scenes)
              then ApplyInitialView(View(0.0, 0.0, fov), CurrentScene(scenes, initialSceneIndex).value.initialView)
              else View(0.0, 0.0, fov)
    {
      this.scenes := scenes;
      var v := View(0.0, 0.0, fov);
      if IsScenesMode(scenes) {
        v := ApplyInitialView(v, CurrentScene(scenes, initialSceneIndex).value.initialView);
      }
      lon, lat, this.fov := v.lon, v.lat, v.fov;
      isDragging, pointerX, pointerY := false, 0.0, 0.0;
      currentSceneIndex := initialSceneIndex;
      isTransitioning, overlayOpaque, phase := false, false, Idle;
    }

    /** Pointer press: a drag starts at the press position. */
    method PointerDown(x: real, y: real)
      requires Valid()
      modifies this
      ensures Valid()
      ensures isDragging && PointerAt() == Point(x, y)
      ensures CurrentView() == old(CurrentView()) && Navigation() == old(Navigation())
    {
      isDragging := true;
      pointerX, pointerY := x, y;
    }

    /** Pointer move: ignored unless a drag is under way; otherwise the orientation
        follows the movement since the last position seen, which becomes the new one. */
    method PointerMove(x: real, y: real)
      requires Valid()
      modifies this
      ensures Valid()
      ensures !old(isDragging) ==> unchanged(this)
      ensures old(isDragging) ==> isDragging && PointerAt() == Point(x, y)
      ensures old(isDragging) ==> CurrentView() == DragTo(old(CurrentView()), old(PointerAt()), Point(x, y))
      ensures Navigation() == old(Navigation())
    {
      if !isDragging {
        return;
      }
      var movementX := x - pointerX;
      var movementY := y - pointerY;
      pointerX, pointerY := x, y;
      lon := lon - movementX * DRAG_DEGREES_PER_PIXEL;
      lat := lat + movementY * DRAG_DEGREES_PER_PIXEL;
    }

    /** Pointer release: the drag ends; nothing else changes. */
    method PointerUp()
      requires Valid()
      modifies this
      ensures Valid()
      ensures !isDragging && PointerAt() == old(PointerAt())
      ensures CurrentView() == old(CurrentView()) && Navigation() == old(Navigation())
    {
      isDragging := false;
    }

    /** Wheel: zoom by the scroll amount, clamped; the orientation does not move. */
    method Wheel(deltaY: real)
      requires Valid()
      modifies this
      ensures Valid()
      ensures CurrentView() == Zoom(old(CurrentView()), deltaY)
      ensures isDragging == old(isDragging) && PointerAt() == old(PointerAt())
      ensures Navigation() == old(Navigation())
    {
      fov := Clamp(fov + deltaY * WHEEL_DEGREES_PER_UNIT, MIN_FOV, MAX_FOV);
    }

    /** Key press: one fixed step per event for the arrow keys. */
    method KeyDown(key: string)
      requires Valid()
      modifies this
      ensures Valid()
      ensures CurrentView() == KeyTurn(old(CurrentView()), key)
      ensures isDragging == old(isDragging) && PointerAt() == old(PointerAt())
      ensures Navigation() == old(Navigation())
    {
      if key == "ArrowLeft" { lon := lon - KEY_STEP; }
      if key == "ArrowRight" { lon := lon + KEY_STEP; }
      if key == "ArrowUp" { lat := lat - KEY_STEP; }
      if key == "ArrowDown" { lat := lat + KEY_STEP; }
    }

    /** A click on a hotspot leading to `target`: ignored outside multi-scene mode or
        while a transition runs; otherwise the flag goes up, the overlay turns opaque
        and the 350 ms timer is scheduled. The scene index is not touched yet. */
    method HotspotClick(target: int)
      requires Valid()
      modifies this
      ensures Valid()
      ensures Navigation() == ClickHotspot(old(Navigation()), IsScenesMode(scenes), target)
      ensures !IsScenesMode(scenes) || old(isTransitioning) ==> unchanged(this)
      ensures IsScenesMode(scenes) && !old(isTransitioning)
          ==> isTransitioning && overlayOpaque && phase == FadingOut(target)
      ensures currentSceneIndex == old(currentSceneIndex)
      ensures CurrentView() == old(CurrentView())
      ensures isDragging == old(isDragging) && PointerAt() == old(PointerAt())
    {
      if !IsScenesMode(scenes) {
        return;
      }
      if isTransitioning {
        return;
      }
      isTransitioning := true;
      overlayOpaque := true;
      phase := FadingOut(target);
    }

    /** The 350 ms timer: the clicked target becomes the stored scene index, unclamped.
        If that changes the scene on show, its initial view resets the orientation. */
    method TickSwapScene()
      requires Valid() && phase.FadingOut?
      modifies this
      ensures Valid()
      ensures Navigation() == Fire(old(Navigation()))
      ensures currentSceneIndex == old(phase).target && phase == Switched
      ensures isTransitioning && overlayOpaque
      ensures CurrentView()
           == if SafeIndex(|scenes|, currentSceneIndex) == SafeIndex(|scenes|, old(currentSceneIndex))
              then old(CurrentView())
              else ApplyInitialView(old(CurrentView()), CurrentScene(scenes, currentSceneIndex).value.initialView)
      ensures isDragging == old(isDragging) && PointerAt() == old(PointerAt())
    {
      var before := SafeIndex(|scenes|, currentSceneIndex);
      currentSceneIndex := phase.target;
      phase := Switched;
      if SafeIndex(|scenes|, currentSceneIndex) != before {
        var v := ApplyInitialView(View(lon, lat, fov), CurrentScene(scenes, currentSceneIndex).value.initialView);
        lon, lat, fov := v.lon, v.lat, v.fov;
      }
    }

    /** The 50 ms settle timer: the overlay starts to fade back in. */
    method TickClearOverlay()
      requires Valid() && phase.Switched?
      modifies this
      ensures Valid()
      ensures Navigation() == Fire(old(Navigation()))
      ensures phase == FadingIn && isTransitioning && !overlayOpaque
      ensures currentSceneIndex == old(currentSceneIndex) && CurrentView() == old(CurrentView())
      ensures isDragging == old(isDragging) && PointerAt() == old(PointerAt())
    {
      overlayOpaque := false;
      phase := FadingIn;
    }

    /** The final 350 ms timer: the transition is over and clicks are accepted again. */
    method TickEndTransition()
      requires Valid() && phase.FadingIn?
      modifies this
      ensures Valid()
      ensures Navigation() == Fire(old(Navigation()))
      ensures phase == Idle && !isTransitioning && !overlayOpaque
      ensures currentSceneIndex == old(currentSceneIndex) && CurrentView() == old(CurrentView())
      ensures isDragging == old(isDragging) && PointerAt() == old(PointerAt())
    {
      isTransitioning := false;
      phase := Idle;
    }
  }
}
