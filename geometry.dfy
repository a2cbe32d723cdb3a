/** Values shared by every moving thing on the canvas. */
module Geometry {

  datatype Vec = Vec(x: real, y: real)

  /** The drawing surface's size in pixels. */
  datatype Canvas = Canvas(width: real, height: real)

  /** Math.PI, as the exact decimal the double prints as. */
  const Pi: real := 3.141592653589793

  /** A Math.random() result. */
  predicate IsRoll(r: real) {
    0.0 <= r < 1.0
  }

  /** A Math.cos or Math.sin result. */
  predicate IsUnit(c: real) {
    -1.0 <= c <= 1.0
  }

  /** `if (v < cap) v += step`: growth that stops once the cap is reached. */
  function Grow(v: real, cap: real, step: real): real {
    if v < cap then v + step else v
  }

  /** Capped growth never shrinks its value and never overshoots the cap by
      a full step. */
  lemma GrowBound(v: real, cap: real, step: real)
    requires step > 0.0 && v < cap + step
    ensures v <= Grow(v, cap, step) < cap + step
    ensures Grow(v, cap, step) == v <==> v >= cap
  {
  }

  lemma MulNonNegative(a: real, b: real)
    requires a >= 0.0 && b >= 0.0
    ensures a * b >= 0.0
  {
  }

  /** A roll scales a positive extent to a point inside it. */
  lemma ScaleBelow(r: real, w: real)
    requires IsRoll(r) && w > 0.0
    ensures 0.0 <= r * w < w
  {
    MulNonNegative(r, w);
    MulNonNegative(1.0 - r, w);
    assert (1.0 - r) * w == w - r * w;
    assert (1.0 - r) * w != 0.0;
  }

  /** life - k * decay: what k updates leave of a life. */
  function Faded(life: real, decay: real, k: nat): real {
    life - k as real * decay
  }

  lemma FadedStep(life: real, decay: real, k: nat)
    ensures Faded(life, decay, k + 1) == Faded(life, decay, k) - decay
  {
    assert (k + 1) as real * decay == k as real * decay + decay;
  }
}
