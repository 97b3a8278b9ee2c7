/**
 * The camera: two vector properties animated in place, a registry of named
 * event listeners, and the per-frame interpolation step that drives one
 * property from a snapshot of its value towards a goal.
 *
 * The browser's clock and frame scheduler are not modelled: the clock reading
 * taken when an animation starts is a parameter, each frame's timestamp is the
 * argument of `Animator.Tick`, and a request for another frame is the flag
 * that `Tick` returns.
 */
module Cameras {
  import opened Wrappers
  import opened Vectors
  import Easing

  /** An opaque identity for a listener callback registered with `On`. */
  type ListenerId = nat

  /** The duration used when a caller gives none. */
  const DefaultDuration: real := 1000.0

  /** The two animated properties of a camera. */
  datatype Property = Position | Target

  function PropertyName(p: Property): string
  {
    match p
    case Position => "position"
    case Target => "target"
  }

  /** The name of the event fired when an animation of `p` completes. */
  function CompletionEvent(p: Property): string
  {
    PropertyName(p) + "Complete"
  }

  /** The two properties fire differently named completion events. */
  lemma CompletionEventsDistinct(p: Property, q: Property)
    ensures CompletionEvent(p) == CompletionEvent(q) <==> p == q
    ensures CompletionEvent(Position) == "positionComplete"
    ensures CompletionEvent(Target) == "targetComplete"
  {
  }

  /**
   * Elapsed time as a fraction of the duration, capped at 1 from above only:
   * a timestamp earlier than the start gives a negative fraction.
   */
  function NormalizedTime(now: real, startTime: real, duration: real): real
    requires duration != 0.0
  {
    var ratio := (now - startTime) / duration;
    if ratio < 1.0 then ratio else 1.0
  }

  /**
   * Normalised time never exceeds 1, is the plain ratio below 1, and, for a
   * positive duration, reaches 1 exactly once the duration has elapsed.
   */
  lemma NormalizedTimeFacts(now: real, startTime: real, duration: real)
    requires duration != 0.0
    ensures NormalizedTime(now, startTime, duration) <= 1.0
    ensures NormalizedTime(now, startTime, duration) < 1.0 ==>
              NormalizedTime(now, startTime, duration) == (now - startTime) / duration
    ensures duration > 0.0 ==>
              (NormalizedTime(now, startTime, duration) == 1.0 <==> now - startTime >= duration)
    ensures duration > 0.0 && startTime <= now ==> 0.0 <= NormalizedTime(now, startTime, duration)
  {
    if duration > 0.0 {
      var ratio := (now - startTime) / duration;
      assert ratio * duration == now - startTime;
      if ratio >= 1.0 {
        Easing.ProductNonnegative(ratio - 1.0, duration);
      } else {
        Easing.ProductNonnegative(1.0 - ratio, duration);
        assert (1.0 - ratio) * duration != 0.0;
      }
    }
  }

  /** The value written at a given progress: start + change · progress, component-wise. */
  function Sample(start: Vec3, change: Vec3, progress: real): Vec3
  {
    Vec3(start.x + change.x * progress, start.y + change.y * progress, start.z + change.z * progress)
  }

  /**
   * Progress 0 writes the start, progress 1 writes start + change, and in
   * general the displacement from the start is the change scaled by the progress.
   */
  lemma SampleInterpolates(start: Vec3, change: Vec3, progress: real)
    ensures progress == 0.0 ==> Sample(start, change, progress) == start
    ensures progress == 1.0 ==> Sample(start, change, progress) == Add(start, change)
    ensures Sub(Sample(start, change, progress), start) == Scale(change, progress)
  {
  }

  class Camera {
    const position: Vector3
    const target: Vector3
    const debug: bool
    /** For each event name, its listeners in registration order. */
    var listeners: map<string, seq<ListenerId>>

    /** The camera adopts the caller's vector objects when given, and fresh zero vectors otherwise. */
    constructor (position: Option<Vector3>, target: Option<Vector3>, debug: bool)
      ensures position.Some? ==> this.position == position.value
      ensures position.None? ==> fresh(this.position) && this.position.Value() == Vec3(0.0, 0.0, 0.0)
      ensures target.Some? ==> this.target == target.value
      ensures target.None? ==> fresh(this.target) && this.target.Value() == Vec3(0.0, 0.0, 0.0)
      ensures this.debug == debug
      ensures listeners == map[]
    {
      if position.Some? {
        this.position := position.value;
      } else {
        this.position := new Vector3(Vec3(0.0, 0.0, 0.0));
      }
      if target.Some? {
        this.target := target.value;
      } else {
        this.target := new Vector3(Vec3(0.0, 0.0, 0.0));
      }
      this.debug := debug;
      listeners := map[];
    }

    /** The object that holds property `p`. */
    function Vector(p: Property): Vector3
    {
      match p
      case Position => position
      case Target => target
    }

    /** The listeners registered for `event`, oldest first; none if it was never registered. */
    function Listeners(event: string): seq<ListenerId>
      reads this
    {
      if event in listeners then listeners[event] else []
    }

    /** Registers `callback` as the last listener of `event`, creating its list if absent. */
    method On(event: string, callback: ListenerId)
      modifies this
      ensures event in listeners
      ensures Listeners(event) == old(Listeners(event)) + [callback]
      ensures forall e :: e != event ==> Listeners(e) == old(Listeners(e))
      ensures listeners.Keys == old(listeners.Keys) + {event}
    {
      var registered := if event in listeners then listeners[event] else [];
      listeners := listeners[event := registered + [callback]];
    }

    /**
     * Invokes every listener of `event` in registration order, each with this
     * camera as its argument; returns the listeners invoked, in order.
     */
    method TriggerEvent(event: string) returns (invoked: seq<ListenerId>)
      ensures invoked == Listeners(event)
      ensures event !in listeners ==> invoked == []
    {
      invoked := [];
      if event in listeners {
        var callbacks := listeners[event];
        var i := 0;
        while i < |callbacks|
          invariant 0 <= i <= |callbacks|
          invariant invoked == callbacks[..i]
        {
          invoked := invoked + [callbacks[i]];
          i := i + 1;
        }
      }
    }

    /**
     * Starts animating property `p` from `start` by `change`; the first frame
     * is requested at once. `startTime` is the clock reading at the call.
     */
    method AnimateProperty(p: Property, start: Vec3, change: Vec3, duration: real,
                           easing: real -> real, startTime: real)
      returns (a: Animator)
      requires duration != 0.0
      ensures fresh(a) && a.Valid() && a.pending
      ensures a.camera == this && a.property == p
      ensures a.start == start && a.change == change
      ensures a.duration == duration && a.easing == easing && a.startTime == startTime
    {
      a := new Animator(this, p, start, change, duration, easing, startTime);
    }

    /** Animates `position` from its current value to `newPosition`. */
    method MoveTo(newPosition: Vec3, startTime: real, duration: real := DefaultDuration,
                  easing: real -> real := Easing.EaseInOutQuad)
      returns (a: Animator)
      requires duration != 0.0
      ensures fresh(a) && a.Valid() && a.pending
      ensures a.camera == this && a.property == Position
      ensures a.start == position.Value() && a.change == Sub(newPosition, a.start)
      ensures a.Destination() == newPosition
      ensures a.duration == duration && a.easing == easing && a.startTime == startTime
    {
      var start := position.Value();
      var change := Sub(newPosition, start);
      a := AnimateProperty(Position, start, change, duration, easing, startTime);
      AddSubCancels(start, newPosition);
    }

    /** Animates `target` from its current value to `newTarget`. */
    method LookAt(newTarget: Vec3, startTime: real, duration: real := DefaultDuration,
                  easing: real -> real := Easing.EaseInOutQuad)
      returns (a: Animator)
      requires duration != 0.0
      ensures fresh(a) && a.Valid() && a.pending
      ensures a.camera == this && a.property == Target
      ensures a.start == target.Value() && a.change == Sub(newTarget, a.start)
      ensures a.Destination() == newTarget
      ensures a.duration == duration && a.easing == easing && a.startTime == startTime
    {
      var start := target.Value();
      var change := Sub(newTarget, start);
      a := AnimateProperty(Target, start, change, duration, easing, startTime);
      AddSubCancels(start, newTarget);
    }
  }

  /**
   * One in-flight animation of one camera property: the frame callback the
   * source builds as a closure. `pending` is true while a frame request for
   * it is outstanding; `completions` counts the completion events it fired.
   */
  class Animator {
    const camera: Camera
    const property: Property
    /** A copy of the property's value when the animation started. */
    const start: Vec3
    const change: Vec3
    const duration: real
    const easing: real -> real
    const startTime: real
    var pending: bool
    ghost var completions: nat

    /** Running until the completion event fires, and then that event has fired exactly once. */
    ghost predicate Valid()
      reads this
    {
      && duration != 0.0
      && completions == (if pending then 0 else 1)
    }

    /** Where the last frame puts the property: start + change. */
    function Destination(): Vec3
    {
      Add(start, change)
    }

    constructor (camera: Camera, property: Property, start: Vec3, change: Vec3, duration: real,
                 easing: real -> real, startTime: real)
      requires duration != 0.0
      ensures Valid() && pending
      ensures this.camera == camera && this.property == property
      ensures this.start == start && this.change == change
      ensures this.duration == duration && this.easing == easing && this.startTime == startTime
    {
      this.camera := camera;
      this.property := property;
      this.start := start;
      this.change := change;
      this.duration := duration;
      this.easing := easing;
      this.startTime := startTime;
      pending := true;
      completions := 0;
    }

    /**
     * One frame at timestamp `now`: writes the eased value into the property,
     * then either requests another frame (`again`) or fires the completion
     * event, returning the listeners that event invoked.
     */
    method Tick(now: real) returns (again: bool, invoked: seq<ListenerId>)
      requires Valid() && pending
      modifies this, camera.Vector(property)
      ensures Valid()
      ensures again <==> NormalizedTime(now, startTime, duration) < 1.0
      ensures duration > 0.0 ==> (again <==> now - startTime < duration)
      ensures pending == again
      ensures completions == old(completions) + (if again then 0 else 1)
      ensures camera.Vector(property).Value()
              == Sample(start, change, easing(NormalizedTime(now, startTime, duration)))
      ensures !again ==> camera.Vector(property).Value() == Sample(start, change, easing(1.0))
      ensures !again && easing(1.0) == 1.0 ==> camera.Vector(property).Value() == Destination()
      ensures invoked == if again then [] else camera.Listeners(CompletionEvent(property))
      ensures unchanged(camera)
      ensures camera.position != camera.target ==>
                camera.Vector(Other(property)).Value() == old(camera.Vector(Other(property)).Value())
    {
      var time := NormalizedTime(now, startTime, duration);
      NormalizedTimeFacts(now, startTime, duration);
      SampleInterpolates(start, change, 1.0);
      var v := camera.Vector(property);
      v.x := start.x + change.x * easing(time);
      v.y := start.y + change.y * easing(time);
      v.z := start.z + change.z * easing(time);
      if time < 1.0 {
        again, invoked := true, [];
      } else {
        pending := false;
        completions := completions + 1;
        again := false;
        invoked := camera.TriggerEvent(CompletionEvent(property));
      }
    }
  }

  /** The property an animation of `p` leaves alone. */
  function Other(p: Property): (q: Property)
    ensures q != p
  {
    match p
    case Position => Target
    case Target => Position
  }
}
