/**
 * Concrete runs of the engine: the usage example at the end of the source,
 * with explicit timestamps in place of the browser's clock.
 */
module Demo {
  import opened Wrappers
  import opened Vectors
  import Easing
  import opened Cameras
  import opened Manager

  /** The value moveTo({5, 5, 5}, 1500) from {0, 10, 30} writes at 0 ms: the start. */
  lemma FirstFrameValue()
    ensures Sample(Vec3(0.0, 10.0, 30.0), Vec3(5.0, -5.0, -25.0),
                   Easing.EaseInOutQuad(NormalizedTime(0.0, 0.0, 1500.0))) == Vec3(0.0, 10.0, 30.0)
  {
  }

  /** The value the same animation writes at 750 ms: halfway. */
  lemma MiddleFrameValue()
    ensures Sample(Vec3(0.0, 10.0, 30.0), Vec3(5.0, -5.0, -25.0),
                   Easing.EaseInOutQuad(NormalizedTime(750.0, 0.0, 1500.0))) == Vec3(2.5, 7.5, 17.5)
  {
  }

  /**
   * The camera of the usage example, at {0, 10, 30}, with one listener
   * for `positionComplete`, starting moveTo({5, 5, 5}, 1500) at time 0.
   */
  method StartMoveTo() returns (camera: Camera, a: Animator)
    ensures fresh(camera) && fresh(camera.position) && fresh(a)
    ensures camera.Listeners(CompletionEvent(Position)) == [7]
    ensures a.Valid() && a.pending && a.camera == camera && a.property == Position
    ensures a.start == Vec3(0.0, 10.0, 30.0) && a.change == Vec3(5.0, -5.0, -25.0)
    ensures a.Destination() == Vec3(5.0, 5.0, 5.0)
    ensures a.startTime == 0.0 && a.duration == 1500.0 && a.easing == Easing.EaseInOutQuad
  {
    var start := new Vector3(Vec3(0.0, 10.0, 30.0));
    camera := new Camera(Some(start), None, true);
    camera.On("positionComplete", 7);
    a := camera.MoveTo(Vec3(5.0, 5.0, 5.0), 0.0, 1500.0);
    CompletionEventsDistinct(Position, Target);
  }

  /** The frame at 0 ms leaves the position where it was and asks for another frame. */
  method FirstFrameScenario() returns (again: bool, value: Vec3)
    ensures again && value == Vec3(0.0, 10.0, 30.0)
  {
    var camera, a := StartMoveTo();
    var invoked;
    again, invoked := a.Tick(0.0);
    FirstFrameValue();
    value := camera.position.Value();
  }

  /** A frame at 750 ms puts the position halfway and asks for another frame. */
  method MiddleFrameScenario() returns (again: bool, value: Vec3)
    ensures again && value == Vec3(2.5, 7.5, 17.5)
  {
    var camera, a := StartMoveTo();
    MiddleFrameValue();
    var invoked;
    again, invoked := a.Tick(750.0);
    value := camera.position.Value();
  }

  /**
   * A frame at 1500 ms lands exactly on the goal, asks for no further frame
   * and fires `positionComplete`, invoking its one listener.
   */
  method LastFrameScenario() returns (again: bool, value: Vec3, fired: seq<ListenerId>)
    ensures !again && value == Vec3(5.0, 5.0, 5.0)
    ensures fired == [7]
  {
    var camera, a := StartMoveTo();
    assert a.easing(1.0) == 1.0;
    again, fired := a.Tick(1500.0);
    value := camera.position.Value();
  }

  /**
   * Three steps of 1500, 1000 and 2000 ms added to an idle manager start one
   * per continuation, in the order they were added, and the manager then
   * goes idle.
   */
  method QueueScenario() returns (order: seq<ActionId>, durations: seq<real>, idle: bool)
    ensures order == [1, 2, 3]
    ensures durations == [1500.0, 1000.0, 2000.0]
    ensures idle
  {
    var camera := new Camera(None, None, false);
    var manager := new AnimationManager(camera);
    var s1 := manager.AddAnimation(1, 1500.0);
    var s2 := manager.AddAnimation(2, 1000.0);
    var s3 := manager.AddAnimation(3, 2000.0);
    assert s2 == None && s3 == None;
    var n2 := manager.NextAnimation();
    var n3 := manager.NextAnimation();
    var n4 := manager.NextAnimation();
    order := [s1.value.callback, n2.value.callback, n3.value.callback];
    durations := [s1.value.duration, n2.value.duration, n3.value.duration];
    idle := !manager.isAnimating && n4.None?;
  }

  /**
   * Resetting while the first step runs drops the other two: the running
   * step's continuation finds nothing waiting and the manager goes idle.
   */
  method ResetScenario() returns (order: seq<ActionId>, busyAfterReset: bool, idle: bool)
    ensures order == [1]
    ensures busyAfterReset && idle
  {
    var camera := new Camera(None, None, false);
    var manager := new AnimationManager(camera);
    var s1 := manager.AddAnimation(1);
    var s2 := manager.AddAnimation(2);
    var s3 := manager.AddAnimation(3);
    manager.ResetQueue();
    busyAfterReset := manager.isAnimating;
    var n := manager.NextAnimation();
    order := [s1.value.callback];
    idle := !manager.isAnimating && n.None?;
    assert manager.started == [s1.value];
  }

  /**
   * Two listeners registered for one event run in registration order, the
   * other event's list is not affected, and an unregistered event invokes
   * nothing.
   */
  method ListenerScenario() returns (position: seq<ListenerId>, target: seq<ListenerId>,
                                     unknown: seq<ListenerId>)
    ensures position == [1, 3]
    ensures target == [2]
    ensures unknown == []
  {
    var camera := new Camera(None, None, false);
    camera.On("positionComplete", 1);
    camera.On("targetComplete", 2);
    camera.On("positionComplete", 3);
    position := camera.TriggerEvent("positionComplete");
    target := camera.TriggerEvent("targetComplete");
    unknown := camera.TriggerEvent("zoomComplete");
  }
}
