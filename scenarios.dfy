/**
  The three-scene tour the application page hands to the viewer, and client code that
  drives a `ViewerState` through end-to-end scenarios of the viewer, using only the
  contracts of its methods.
 */
module Scenarios {
  import opened Scenes
  import opened Orientation
  import opened Transition
  import opened Viewer

  /** Scenes A, B and C; every hotspot leads to another scene of the tour, and the
      hotspots form cycles (A to B and back, and A to B to C and back to A). */
  function Tour(): (r: seq<Scene>)
    ensures |r| == 3 && forall i :: 0 <= i < |r| ==> |r[i].hotspots| == 2
    ensures forall i, j :: 0 <= i < |r| && 0 <= j < |r[i].hotspots| ==> 0 <= r[i].hotspots[j].target < |r|
    ensures r[0].hotspots[0].target == 1 && r[1].hotspots[0].target == 0
    ensures r[1].hotspots[1].target == 2 && r[2].hotspots[0].target == 0
  {
    var start := InitialView(Some(0.0), Some(0.0), Some(75.0));
    var turned := InitialView(Some(-30.0), Some(0.0), Some(75.0));
    [ Scene(start, [Hotspot(45.0, 0.0, 1), Hotspot(205.0, 0.0, 2)]),
      Scene(turned, [Hotspot(-135.0, 0.0, 0), Hotspot(0.0, 0.0, 2)]),
      Scene(turned, [Hotspot(-135.0, 0.0, 0), Hotspot(135.0, 0.0, 1)]) ]
  }

  /** Two scenes, the first with one hotspot leading to the second: after the click and
      the three timers the second scene is on show, with its initial yaw, and the viewer
      is at rest again. A second click during the fade-out is dropped. */
  method TwoSceneTransition()
  {
    var second := Scene(InitialView(Some(90.0), None, None), []);
    var first := Scene(InitialView(None, None, None), [Hotspot(0.0, 0.0, 1)]);
    var v := new ViewerState([first, second], 75.0, 0);
    assert v.CurrentView() == View(0.0, 0.0, 75.0);
    v.HotspotClick(first.hotspots[0].target);
    assert v.phase == FadingOut(1) && v.isTransitioning;
    v.HotspotClick(0);
    assert v.phase == FadingOut(1) && v.currentSceneIndex == 0;
    v.TickSwapScene();
    assert v.currentSceneIndex == 1 && v.isTransitioning;
    assert v.CurrentView() == View(90.0, 0.0, 75.0);
    v.TickClearOverlay();
    v.TickEndTransition();
    assert v.currentSceneIndex == 1 && v.phase == Idle && !v.isTransitioning;
    assert CurrentScene(v.scenes, v.currentSceneIndex) == Some(second);
  }

  /** Dragging 100 pixels to the right, in two moves, lowers the yaw by exactly 10 degrees. */
  method DragRight()
  {
    var v := new ViewerState([]);
    v.PointerDown(200.0, 50.0);
    v.PointerMove(260.0, 50.0);
    v.PointerMove(300.0, 50.0);
    v.PointerUp();
    assert v.lon == -10.0 && v.lat == 0.0;
    v.PointerMove(400.0, 80.0);
    assert v.lon == -10.0 && v.lat == 0.0;
  }

  /** A drag and then one up-arrow event carry the stored pitch past -85 degrees, while
      the pitch used for the camera stops at -85; zooming far out stops at 100. */
  method PitchAndZoomStayInBounds()
  {
    var v := new ViewerState([], 75.0, 0);
    v.PointerDown(0.0, 0.0);
    v.PointerMove(0.0, -840.0);
    v.PointerUp();
    assert v.lat == -84.0;
    v.KeyDown("ArrowUp");
    assert v.lat == -85.5;
    assert v.FramePitch() == -85.0;
    v.Wheel(1000.0);
    assert v.fov == 100.0 && v.lat == -85.5;
  }

  /** An out-of-range starting index is read as the last scene of the tour, and that
      scene's initial view is the starting orientation. */
  method TourStart()
  {
    var scenes := Tour();
    var v := new ViewerState(scenes, initialSceneIndex := 7);
    assert CurrentScene(v.scenes, v.currentSceneIndex) == Some(scenes[2]);
    assert v.CurrentView() == View(-30.0, 0.0, 75.0);
  }

  /** The tour's three-scene cycle A to B to C and back to A, travelled twice, ends at
      rest on scene A. */
  lemma TourCycleEndsAtRest(n: Nav)
    requires n.phase.Idle?
    ensures var t := Tour(); var cycle := [t[0].hotspots[0].target, t[1].hotspots[1].target, t[2].hotspots[0].target];
      Run(n, true, Visits(cycle + cycle)) == Nav(0, Idle)
  {
    var t := Tour();
    var cycle := [t[0].hotspots[0].target, t[1].hotspots[1].target, t[2].hotspots[0].target];
    VisitsEndAtRest(n, cycle + cycle);
  }
}
