/**
 * The easing library: pure maps from normalised animation time to animation
 * progress. Arithmetic is over exact reals, not IEEE-754 doubles.
 */
module Easing {

  /** Ease-in-out: 2t² before the midpoint, -1 + (4 - 2t)·t from it on. */
  function EaseInOutQuad(t: real): real
  {
    if t < 0.5 then 2.0 * t * t else -1.0 + (4.0 - 2.0 * t) * t
  }

  /** Ease-out: t·(2 - t). */
  function EaseOutQuad(t: real): real
  {
    t * (2.0 - t)
  }

  /** Ease-in: t·t. */
  function EaseInQuad(t: real): real
  {
    t * t
  }

  /** Linear progress: the identity on normalised time. */
  function Linear(t: real): real
  {
    t
  }

  /** The textbook form of the second half of ease-in-out: 1 - (-2t + 2)²/2. */
  function EaseInOutQuadTextbook(t: real): real
  {
    if t < 0.5 then 2.0 * t * t else 1.0 - (-2.0 * t + 2.0) * (-2.0 * t + 2.0) / 2.0
  }

  /** The product of two non-negative reals is non-negative. */
  lemma ProductNonnegative(a: real, b: real)
    requires 0.0 <= a && 0.0 <= b
    ensures 0.0 <= a * b
  {
  }

  /** On [0, 1], ease-in-out stays in [0, 1], behind linear progress before the midpoint and ahead of it after. */
  lemma EaseInOutQuadRange(t: real)
    requires 0.0 <= t <= 1.0
    ensures 0.0 <= EaseInOutQuad(t) <= 1.0
    ensures t <= 0.5 ==> EaseInOutQuad(t) <= t
    ensures t >= 0.5 ==> EaseInOutQuad(t) >= t
  {
    if t < 0.5 {
      ProductNonnegative(t, 0.5 - t);
      ProductNonnegative(t, t);
    } else {
      ProductNonnegative(2.0 * t - 1.0, 1.0 - t);
      ProductNonnegative(1.0 - t, 1.0 - t);
    }
  }

  /** On [0, 1], ease-out stays in [0, 1] and never behind linear progress. */
  lemma EaseOutQuadRange(t: real)
    requires 0.0 <= t <= 1.0
    ensures t <= EaseOutQuad(t) <= 1.0
  {
    ProductNonnegative(t, 1.0 - t);
    ProductNonnegative(1.0 - t, 1.0 - t);
  }

  /** On [0, 1], ease-in stays in [0, 1] and never ahead of linear progress. */
  lemma EaseInQuadRange(t: real)
    requires 0.0 <= t <= 1.0
    ensures 0.0 <= EaseInQuad(t) <= t
  {
    ProductNonnegative(t, 1.0 - t);
    ProductNonnegative(t, t);
  }

  /** What every easing is expected to do: fix both ends and stay in [0, 1] between them. */
  ghost predicate IsEasing(f: real -> real)
  {
    && f(0.0) == 0.0
    && f(1.0) == 1.0
    && forall t :: 0.0 <= t <= 1.0 ==> 0.0 <= f(t) <= 1.0
  }

  /** An easing that never moves backwards on [0, 1]. */
  ghost predicate Monotonic(f: real -> real)
  {
    forall s, t :: 0.0 <= s <= t <= 1.0 ==> f(s) <= f(t)
  }

  /** All four library functions are easings in the sense of IsEasing. */
  lemma LibraryEasingsFixEnds()
    ensures IsEasing(EaseInOutQuad)
    ensures IsEasing(EaseOutQuad)
    ensures IsEasing(EaseInQuad)
    ensures IsEasing(Linear)
  {
    forall t | 0.0 <= t <= 1.0
      ensures 0.0 <= EaseInOutQuad(t) <= 1.0 && 0.0 <= EaseOutQuad(t) <= 1.0 && 0.0 <= EaseInQuad(t) <= 1.0
    {
      EaseInOutQuadRange(t);
      EaseOutQuadRange(t);
      EaseInQuadRange(t);
    }
  }

  /** The source's second-half polynomial is the textbook one for every t, so the two definitions agree everywhere. */
  lemma EaseInOutQuadFormulationsAgree(t: real)
    ensures -1.0 + (4.0 - 2.0 * t) * t == 1.0 - (2.0 - 2.0 * t) * (2.0 - 2.0 * t) / 2.0
    ensures EaseInOutQuad(t) == EaseInOutQuadTextbook(t)
  {
  }

  /** Both branches of ease-in-out meet at the midpoint with value 1/2. */
  lemma EaseInOutQuadMidpoint()
    ensures 2.0 * 0.5 * 0.5 == -1.0 + (4.0 - 2.0 * 0.5) * 0.5 == 0.5
    ensures EaseInOutQuad(0.5) == EaseInOutQuadTextbook(0.5) == 0.5
  {
  }

  /** Ease-out is ease-in played backwards: f(t) = 1 - g(1 - t). */
  lemma EaseOutMirrorsEaseIn(t: real)
    ensures EaseOutQuad(t) == 1.0 - EaseInQuad(1.0 - t)
  {
  }

  /** Ease-in-out is point-symmetric about (1/2, 1/2). */
  lemma EaseInOutQuadSymmetric(t: real)
    ensures EaseInOutQuad(1.0 - t) == 1.0 - EaseInOutQuad(t)
  {
  }

  /** Ease-in-out is ease-in on the first half and ease-out on the second, each squeezed to half the time. */
  lemma EaseInOutQuadSplits(t: real)
    ensures t < 0.5 ==> EaseInOutQuad(t) == EaseInQuad(2.0 * t) / 2.0
    ensures t >= 0.5 ==> EaseInOutQuad(t) == (1.0 + EaseOutQuad(2.0 * t - 1.0)) / 2.0
  {
  }

  /** For 0 <= s <= t, s·s <= t·t. */
  lemma SquareMonotonic(s: real, t: real)
    requires 0.0 <= s <= t
    ensures s * s <= t * t
  {
  }

  /** Every library easing is monotonic on [0, 1]. */
  lemma LibraryEasingsMonotonic()
    ensures Monotonic(EaseInOutQuad)
    ensures Monotonic(EaseOutQuad)
    ensures Monotonic(EaseInQuad)
    ensures Monotonic(Linear)
  {
    forall s, t | 0.0 <= s <= t <= 1.0
      ensures EaseInQuad(s) <= EaseInQuad(t)
      ensures EaseOutQuad(s) <= EaseOutQuad(t)
      ensures EaseInOutQuad(s) <= EaseInOutQuad(t)
    {
      SquareMonotonic(s, t);
      SquareMonotonic(1.0 - t, 1.0 - s);
      EaseOutMirrorsEaseIn(s);
      EaseOutMirrorsEaseIn(t);
      if t < 0.5 {
      } else if s >= 0.5 {
        EaseInOutQuadSymmetric(s);
        EaseInOutQuadSymmetric(t);
        assert EaseInOutQuad(1.0 - t) <= EaseInOutQuad(1.0 - s);
      } else {
        EaseInOutQuadRange(s);
        EaseInOutQuadRange(t);
      }
    }
  }
}
