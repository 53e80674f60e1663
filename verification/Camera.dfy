/**
  Camera smoothing in the render tick of src/main.js: each frame the camera's
  y moves a tenth of the way towards the negated scroll offset.
*/
module Camera {

  /** Linear interpolation from `a` towards `b` by the fraction `t`. */
  function Lerp(a: real, b: real, t: real): (r: real)
    ensures r - b == (a - b) * (1.0 - t)
  {
    a + (b - a) * t
  }

  /** The per-frame convergence fraction. */
  const Smoothing: real := 0.1

  function Abs(x: real): real
  {
    if x < 0.0 then -x else x
  }

  /** Where the camera is heading: scrolling down moves the world up. */
  function Target(scrollY: int): real
  {
    -(scrollY as real)
  }

  /**
    One tick: the distance to the target shrinks to nine tenths, and the new
    position lies between the old one and the target, on the same side of it.
  */
  function Step(y: real, scrollY: int): (r: real)
    ensures Abs(r - Target(scrollY)) == 0.9 * Abs(y - Target(scrollY))
    ensures y <= Target(scrollY) ==> y <= r <= Target(scrollY)
    ensures Target(scrollY) <= y ==> Target(scrollY) <= r <= y
  {
    Lerp(y, Target(scrollY), Smoothing)
  }

  /** `x^n` for a real base. */
  function Power(x: real, n: nat): real
  {
    if n == 0 then 1.0 else x * Power(x, n - 1)
  }

  /** `n` ticks with the page at rest at `scrollY`. */
  function Ticks(y: real, scrollY: int, n: nat): real
  {
    if n == 0 then y else Step(Ticks(y, scrollY, n - 1), scrollY)
  }

  /** With the scroll at rest the distance to the target decays geometrically, by 0.9 per tick. */
  lemma {:induction false} GeometricApproach(y: real, scrollY: int, n: nat)
    ensures Abs(Ticks(y, scrollY, n) - Target(scrollY)) == Power(0.9, n) * Abs(y - Target(scrollY))
  {
    if n > 0 {
      GeometricApproach(y, scrollY, n - 1);
    }
  }

  /** The target is the one resting point: a camera already there stays. */
  lemma TargetIsFixedPoint(y: real, scrollY: int)
    ensures Step(y, scrollY) == y <==> y == Target(scrollY)
  {
  }

  /** The camera never overshoots: after any number of ticks it is between its start and the target. */
  lemma {:induction false} NeverOvershoots(y: real, scrollY: int, n: nat)
    ensures y <= Target(scrollY) ==> y <= Ticks(y, scrollY, n) <= Target(scrollY)
    ensures Target(scrollY) <= y ==> Target(scrollY) <= Ticks(y, scrollY, n) <= y
  {
    if n > 0 {
      NeverOvershoots(y, scrollY, n - 1);
    }
  }
}
