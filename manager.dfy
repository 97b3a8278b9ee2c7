/**
 * The animation manager: a first-in first-out queue of animation steps run
 * one at a time. Each step's callback is opaque; invoking it is recorded as
 * the step returned by the operation that started it and appended to the
 * ghost trace `started`. The callback's `onComplete` continuation is the
 * caller's own later call of `NextAnimation`.
 */
module Manager {
  import opened Wrappers
  import Easing
  import Cameras

  /** An opaque identity for the callback of a queued step. */
  type ActionId = nat

  /** A queued step: the callback and the duration and easing it will be handed. */
  datatype Step = Step(callback: ActionId, duration: real, easing: real -> real)

  /** `s` can be obtained from `t` by deleting elements: it keeps their order. */
  ghost predicate Subsequence<T>(s: seq<T>, t: seq<T>)
    decreases |t|
  {
    if s == [] then true
    else if t == [] then false
    else (s[0] == t[0] && Subsequence(s[1..], t[1..])) || Subsequence(s, t[1..])
  }

  /** Appending the same element to both sides keeps a subsequence. */
  lemma {:induction false} SubsequenceAppend<T>(s: seq<T>, t: seq<T>, x: T)
    requires Subsequence(s, t)
    ensures Subsequence(s + [x], t + [x])
    decreases |t|
  {
    if t == [] {
      assert s == [];
      assert Subsequence([x][1..], [x][1..]);
    } else {
      assert (t + [x])[0] == t[0] && (t + [x])[1..] == t[1..] + [x];
      if s == [] {
        SubsequenceAppend(s, t[1..], x);
        assert Subsequence(s + [x], (t + [x])[1..]);
      } else {
        assert (s + [x])[0] == s[0] && (s + [x])[1..] == s[1..] + [x];
        if s[0] == t[0] && Subsequence(s[1..], t[1..]) {
          SubsequenceAppend(s[1..], t[1..], x);
        } else {
          SubsequenceAppend(s, t[1..], x);
        }
      }
    }
  }

  /** Dropping a suffix keeps a subsequence. */
  lemma {:induction false} SubsequencePrefix<T>(s: seq<T>, u: seq<T>, t: seq<T>)
    requires Subsequence(s + u, t)
    ensures Subsequence(s, t)
    decreases |t|
  {
    if s != [] {
      assert (s + u)[0] == s[0] && (s + u)[1..] == s[1..] + u;
      if s[0] == t[0] && Subsequence(s[1..] + u, t[1..]) {
        SubsequencePrefix(s[1..], u, t[1..]);
      } else {
        SubsequencePrefix(s, u, t[1..]);
      }
    }
  }

  class AnimationManager {
    const camera: Cameras.Camera
    /** The steps waiting to start, oldest first. */
    var queue: seq<Step>
    var isAnimating: bool
    /** Every step whose callback was invoked, in the order of invocation. */
    ghost var started: seq<Step>
    /** Every step ever added, in the order of addition. */
    ghost var enqueued: seq<Step>

    /** Steps start in the order they were added: started-then-waiting is an ordered selection of the additions. */
    ghost predicate Ordered()
      reads this
    {
      Subsequence(started + queue, enqueued)
    }

    /** The manager's invariant: an idle manager has nothing waiting, and order is kept. */
    ghost predicate Valid()
      reads this
    {
      && (!isAnimating ==> queue == [])
      && Ordered()
    }

    constructor (camera: Cameras.Camera)
      ensures Valid()
      ensures this.camera == camera
      ensures queue == [] && !isAnimating
      ensures started == [] && enqueued == []
    {
      this.camera := camera;
      queue := [];
      isAnimating := false;
      started := [];
      enqueued := [];
    }

    /**
     * Adds a step at the back of the queue; an idle manager starts it at once,
     * and then returns it as the step whose callback was invoked.
     */
    method AddAnimation(callback: ActionId, duration: real := Cameras.DefaultDuration,
                        easing: real -> real := Easing.EaseInOutQuad)
      returns (invoked: Option<Step>)
      requires Valid()
      modifies this
      ensures Valid() && isAnimating
      ensures enqueued == old(enqueued) + [Step(callback, duration, easing)]
      ensures old(isAnimating) ==>
                && queue == old(queue) + [Step(callback, duration, easing)]
                && invoked == None
                && started == old(started)
      ensures !old(isAnimating) ==>
                && queue == []
                && invoked == Some(Step(callback, duration, easing))
                && started == old(started) + [Step(callback, duration, easing)]
    {
      var step := Step(callback, duration, easing);
      SubsequenceAppend(started + queue, enqueued, step);
      assert started + queue + [step] == started + (queue + [step]);
      queue := queue + [step];
      enqueued := enqueued + [step];
      if !isAnimating {
        invoked := NextAnimation();
      } else {
        invoked := None;
      }
    }

    /**
     * Starts the step at the head of the queue and returns it, or, with
     * nothing waiting, goes idle and starts nothing.
     */
    method NextAnimation() returns (invoked: Option<Step>)
      requires Ordered()
      modifies this
      ensures Valid()
      ensures enqueued == old(enqueued)
      ensures old(queue) == [] ==>
                && !isAnimating && queue == []
                && invoked == None && started == old(started)
      ensures old(queue) != [] ==>
                && isAnimating && queue == old(queue)[1..]
                && invoked == Some(old(queue)[0])
                && started == old(started) + [old(queue)[0]]
    {
      if |queue| == 0 {
        isAnimating := false;
        invoked := None;
        return;
      }
      isAnimating := true;
      var step := queue[0];
      assert started + queue == (started + [step]) + queue[1..];
      queue := queue[1..];
      started := started + [step];
      invoked := Some(step);
    }

    /** Drops every waiting step; a step already started is not affected. */
    method ResetQueue()
      requires Valid()
      modifies this
      ensures Valid()
      ensures queue == []
      ensures isAnimating == old(isAnimating)
      ensures started == old(started) && enqueued == old(enqueued)
    {
      SubsequencePrefix(started, queue, enqueued);
      assert started + [] == started;
      queue := [];
    }
  }
}
