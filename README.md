# Camera animation engine with easing, events and a serial queue

This project models `cameaminwitheffects64.js` and proves properties of the model. The file is a small engine that animates a 3-D camera. It has four parts:

- **Easing library.** `easeInOutQuad`, `easeOutQuad`, `easeInQuad` and `linear` map normalised time to progress. They are pure functions over exact reals (module `Easing`).
- **Camera.** It holds two vectors, `position` and `target`, as objects whose `x`, `y` and `z` are overwritten in place (module `Vectors`).
  - `moveTo` and `lookAt` snapshot the current value, compute `change = goal − start`, and start an animation of that property.
  - The animation's frame callback is the class `Cameras.Animator`.
  - Each `Tick(now)` does three things. It computes `time = min(1, (now − startTime)/duration)`. It writes `start + change·easing(time)` into the property. Then it either asks for another frame or fires `<property>Complete`.
- **Listener registry.** `on` and `triggerEvent` keep a map from event name to an append-only list of listeners. Listeners are opaque identities, and triggering returns the identities it invokes, in order.
- **Animation manager** (module `Manager`). It holds a first-in first-out queue of steps and an `isAnimating` flag.
  - Starting a step, which is invoking its callback, is the step returned by the operation.
  - The ghost trace `started` records every step started.
  - The callback's `onComplete` continuation is the caller's own later call of `NextAnimation`.

The browser's clock and frame scheduler are replaced by explicit values:

- the clock reading when an animation starts is the `startTime` parameter;
- each frame's timestamp is the argument of `Tick`;
- a frame request is the boolean that `Tick` returns, mirrored by `Animator.pending`.

Module `Demo` replays the usage example at the end of the file with concrete timestamps.

## Model

| member | source | states |
|---|---|---|
| Easing.EaseInOutQuadRange | cameaminwitheffects64.js:67-69 | on [0, 1] ease-in-out stays in [0, 1]; it is at most t before the midpoint and at least t after it |
| Easing.EaseOutQuadRange | cameaminwitheffects64.js:71-73 | on [0, 1] ease-out stays in [0, 1] and is never below t |
| Easing.EaseInQuadRange | cameaminwitheffects64.js:75-77 | on [0, 1] ease-in stays in [0, 1] and is never above t |
| Easing.LibraryEasingsFixEnds | cameaminwitheffects64.js:67-81 | each of the four easings (ease-in-out, ease-out, ease-in and linear) maps 0 to 0 and 1 to 1, and maps [0, 1] into [0, 1] |
| Easing.EaseInOutQuadFormulationsAgree | cameaminwitheffects64.js:67-69 | the source's `-1 + (4 - 2t)·t` branch equals the textbook `1 - (2 - 2t)²/2` for every t, so the two definitions agree everywhere |
| Easing.EaseInOutQuadMidpoint | cameaminwitheffects64.js:68 | both branches of ease-in-out give 1/2 at t = 1/2, so the function is continuous there |
| Easing.EaseOutMirrorsEaseIn | cameaminwitheffects64.js:71-77 | ease-out at t equals 1 minus ease-in at 1 - t |
| Easing.EaseInOutQuadSymmetric | cameaminwitheffects64.js:67-69 | ease-in-out is point-symmetric about (1/2, 1/2) |
| Easing.EaseInOutQuadSplits | cameaminwitheffects64.js:67-77 | ease-in-out is ease-in on the first half and ease-out on the second half, each compressed into half the time and half the range |
| Easing.LibraryEasingsMonotonic | cameaminwitheffects64.js:67-81 | none of the four easings, linear included, decreases on [0, 1] |
| Vectors.AddSubCancels | cameaminwitheffects64.js:12-18 | start + (goal - start) equals goal component-wise (exact reals) |
| Vectors.Vector3.constructor | cameaminwitheffects64.js:5-6 | a fresh vector object holds the given components |
| Cameras.CompletionEventsDistinct | cameaminwitheffects64.js:44 | the completion events of position and target are "positionComplete" and "targetComplete", and they are different |
| Cameras.NormalizedTimeFacts | cameaminwitheffects64.js:34 | normalised time is at most 1 and below 1 equals the elapsed fraction; for a positive duration it is 1 exactly when the duration has elapsed, and it is non-negative for a timestamp not before the start |
| Cameras.SampleInterpolates | cameaminwitheffects64.js:35-37 | progress 0 writes the start and progress 1 writes start + change; in general the displacement is the change scaled by the progress |
| Cameras.Camera.constructor | cameaminwitheffects64.js:4-9 | the camera adopts the given position and target objects, or makes fresh zero vectors; it keeps the debug flag and starts with no listeners |
| Cameras.Camera.On | cameaminwitheffects64.js:50-53 | the callback is appended to the end of the event's list, which is created if absent; every other event's list is unchanged |
| Cameras.Camera.TriggerEvent | cameaminwitheffects64.js:55-59 | the listeners invoked are exactly the event's list in registration order; none for an event never registered |
| Cameras.Camera.AnimateProperty | cameaminwitheffects64.js:31-48 | a new animation of the property is running with a frame requested, keeping the given start, change, duration, easing and start time |
| Cameras.Camera.MoveTo | cameaminwitheffects64.js:11-19 | animates position from a copy of its current value, with change = goal - start, so the animation's destination is the requested position; duration defaults to 1000 and easing to ease-in-out |
| Cameras.Camera.LookAt | cameaminwitheffects64.js:21-29 | as MoveTo, for target |
| Cameras.Animator.constructor | cameaminwitheffects64.js:33 | a new frame callback is pending and has fired no completion |
| Cameras.Animator.Tick | cameaminwitheffects64.js:33-46 | the property holds start + change·easing(time); another frame is requested iff time < 1, which for a positive duration means iff the duration has not elapsed; otherwise the completion event's listeners are invoked and the animation is no longer pending, so completion fires at most once, after the last write; the final write is start + change·easing(1), which is the destination when easing(1) = 1; the other property and the listener registry are unchanged |
| Manager.SubsequenceAppend | cameaminwitheffects64.js:92 | appending the same step to both the started-then-waiting sequence and the additions keeps their order relation |
| Manager.SubsequencePrefix | cameaminwitheffects64.js:108 | dropping the waiting steps keeps the order relation |
| Manager.AnimationManager.constructor | cameaminwitheffects64.js:85-89 | a new manager is idle with an empty queue and satisfies the invariant |
| Manager.AnimationManager.AddAnimation | cameaminwitheffects64.js:91-94 | a busy manager only appends the step; an idle one starts it at once with its own duration and easing and leaves nothing waiting; the manager is busy afterwards and the invariant (idle implies empty queue, first-in first-out order) holds |
| Manager.AnimationManager.NextAnimation | cameaminwitheffects64.js:96-105 | on an empty queue, goes idle and starts nothing; otherwise starts the head step, removes it from the queue and stays busy; the invariant holds afterwards |
| Manager.AnimationManager.ResetQueue | cameaminwitheffects64.js:107-109 | empties the queue without changing isAnimating or the record of started steps |
| Demo.FirstFrameValue | cameaminwitheffects64.js:34-37 | moving from (0, 10, 30) to (5, 5, 5) over 1500 ms writes the start at 0 ms |
| Demo.MiddleFrameValue | cameaminwitheffects64.js:34-37 | the same animation writes (2.5, 7.5, 17.5) at 750 ms |
| Demo.StartMoveTo | cameaminwitheffects64.js:144-159 | the usage example's camera, with one positionComplete listener, starts moveTo((5, 5, 5), 1500) towards (5, 5, 5) |
| Demo.FirstFrameScenario | cameaminwitheffects64.js:33-42 | a frame at 0 ms leaves the position at the start and requests another frame |
| Demo.MiddleFrameScenario | cameaminwitheffects64.js:33-42 | a frame at 750 ms puts the position halfway and requests another frame |
| Demo.LastFrameScenario | cameaminwitheffects64.js:33-45 | a frame at 1500 ms puts the position on (5, 5, 5), requests nothing and invokes the positionComplete listener |
| Demo.QueueScenario | cameaminwitheffects64.js:156-171 | three steps of 1500, 1000 and 2000 ms start in the order added, one per continuation, and the manager then goes idle |
| Demo.ResetScenario | cameaminwitheffects64.js:91-109 | resetting while the first step runs drops the other two; the next continuation finds nothing waiting and the manager goes idle |
| Demo.ListenerScenario | cameaminwitheffects64.js:50-59 | two listeners of one event run in registration order, the other event's list is separate, and an unregistered event invokes nothing |

## Left out

- `DebugOverlay` (lines 113-141) is not modelled. It creates and styles DOM elements and formats text, which is UI.
- `logDebugInfo` and the `console.log` calls (lines 39, 61-63) are not modelled. They only write to the console. The `debug` flag is kept but has no effect.
- `requestAnimationFrame` and `performance.now()` are replaced by parameters. The start time is an argument, each frame's timestamp is the argument of `Tick`, and a frame request is the returned flag.
- Arithmetic is over exact reals, not IEEE-754 doubles. Hitting the goal exactly and the ease-in-out identities hold for reals only.
- A duration of 0 is excluded by `requires duration != 0.0`. In the source it divides by zero and yields an infinity or NaN, which reals do not have.
- Cameras.Animator.Tick: normalised time is not clamped from below, as in the source. For a timestamp before the start, or a negative duration, the written value is whatever the easing gives for a negative time.
- Callbacks are opaque identities, and invoking one has no side effects in the model. Re-entrancy is not modelled: a listener registering listeners while `triggerEvent` iterates, or a manager callback calling `nextAnimation` synchronously.
- Callbacks never throw in the model. In the source, a listener that throws stops `forEach`, so later listeners do not run (line 57). A queued callback that throws leaves `isAnimating` true with its step already shifted off the queue (lines 102-104).
- Cameras.Camera.TriggerEvent: the argument each listener receives, the camera itself (line 57), is not recorded. Only the identities invoked and their order are returned.
- Event names that collide with properties inherited from `Object.prototype` (such as `"toString"`) are not modelled. The registry is a plain map from names to lists.
- Cameras.Animator.Tick: the property `position` (or `target`) alone is written only when the camera's two vector objects are distinct. A caller who passes the same object for both aliases them, and the model then promises nothing about the other property.
- The camera's `position` and `target` fields are constants. The source never reassigns them, only their components.
- The module-level demo wiring (lines 143-171) is not modelled as global state. It appears only as the scenario methods in `Demo`. The listeners that pile up from repeated `on` calls (lines 158 and 170) follow from `On` appending and are not modelled separately.
