/** The arithmetic of one animation frame of the sketch: the pointer
    normalisation, the smoothing of the pointer, the group tilt it drives
    and the depth of each panel as a function of the oscillator. */
module Motion {
  import opened Geometry

  /** How much `time` advances per frame. */
  const TimeStep: real := 0.05

  /** The interpolation factor of `mouseTarget.lerp(mouse, 0.1)`. */
  const Smoothing: real := 0.1

  /** The factor from smoothed pointer offset to group rotation. */
  const TiltSensitivity: real := 0.3

  function Abs(v: real): real
  {
    if v < 0.0 then -v else v
  }

  /** A point of the square [-0.5, 0.5] x [-0.5, 0.5]. */
  predicate Centred(v: Vec2)
  {
    -0.5 <= v.x <= 0.5 && -0.5 <= v.y <= 0.5
  }

  /** The `move` handler: a pointer position in [0, 1] x [0, 1] moved so
      that the centre of the canvas is the origin. */
  function NormalizePointer(uv: Vec2): (m: Vec2)
    ensures m.x + 0.5 == uv.x && m.y + 0.5 == uv.y
    ensures 0.0 <= uv.x <= 1.0 && 0.0 <= uv.y <= 1.0 <==> Centred(m)
  {
    Vec2(uv.x - 0.5, uv.y - 0.5)
  }

  /** One axis of `Vector2.lerp(target, 0.1)`: `cur += (target - cur) * 0.1`.
      The distance to the target shrinks by the factor 0.9, keeps its
      sign (no overshoot) and strictly decreases unless it is already 0. */
  function Approach(cur: real, target: real): (r: real)
    ensures target - r == 0.9 * (target - cur)
    ensures cur <= target ==> cur <= r <= target
    ensures target <= cur ==> target <= r <= cur
    ensures cur != target ==> Abs(target - r) < Abs(target - cur)
    ensures cur == target ==> r == cur
  {
    cur + (target - cur) * Smoothing
  }

  /** `mouseTarget.lerp(mouse, 0.1)` on both axes. */
  function SmoothStep(cur: Vec2, target: Vec2): (r: Vec2)
    ensures r.x == Approach(cur.x, target.x) && r.y == Approach(cur.y, target.y)
    ensures Centred(cur) && Centred(target) ==> Centred(r)
  {
    Vec2(Approach(cur.x, target.x), Approach(cur.y, target.y))
  }

  /** One axis after `n` frames of smoothing toward a pointer at rest. */
  function ApproachSteps(cur: real, target: real, n: nat): real
    decreases n
  {
    if n == 0 then cur else ApproachSteps(Approach(cur, target), target, n - 1)
  }

  /** `n` frames of smoothing toward a pointer that does not move. */
  function SmoothSteps(cur: Vec2, target: Vec2, n: nat): (r: Vec2)
    ensures r.x == ApproachSteps(cur.x, target.x, n)
    ensures r.y == ApproachSteps(cur.y, target.y, n)
    decreases n
  {
    if n == 0 then cur else SmoothSteps(SmoothStep(cur, target), target, n - 1)
  }

  function Pow(b: real, n: nat): real
    decreases n
  {
    if n == 0 then 1.0 else b * Pow(b, n - 1)
  }

  /** The factor 0.9^n is positive, at most 1 and strictly shrinking in
      `n`: the remaining distance decays toward 0 without ever vanishing. */
  lemma {:induction false} PowShrinks(n: nat)
    ensures 0.0 < Pow(0.9, n + 1) < Pow(0.9, n) <= 1.0
    decreases n
  {
    if n > 0 {
      PowShrinks(n - 1);
    }
  }

  /** With the pointer at rest, after `n` frames the remaining distance is
      exactly 0.9^n times the initial one. */
  lemma {:induction false} ApproachStepsGeometric(cur: real, target: real, n: nat)
    ensures target - ApproachSteps(cur, target, n) == Pow(0.9, n) * (target - cur)
    decreases n
  {
    if n > 0 {
      var next := Approach(cur, target);
      ApproachStepsGeometric(next, target, n - 1);
      var p := Pow(0.9, n - 1);
      var d := target - cur;
      assert target - next == 0.9 * d;
      assert p * (0.9 * d) == (0.9 * p) * d;
    }
  }

  /** With the pointer at rest the smoothed value never overshoots: after
      any number of frames it lies between where it started and the pointer. */
  lemma {:induction false} ApproachStepsBetween(cur: real, target: real, n: nat)
    ensures cur <= target ==> cur <= ApproachSteps(cur, target, n) <= target
    ensures target <= cur ==> target <= ApproachSteps(cur, target, n) <= cur
    decreases n
  {
    if n > 0 {
      ApproachStepsBetween(Approach(cur, target), target, n - 1);
    }
  }

  /** Both axes of the smoothed pointer, after `n` frames at rest, have
      closed the distance to the pointer by the factor 0.9^n. */
  lemma SmoothStepsGeometric(cur: Vec2, target: Vec2, n: nat)
    ensures target.x - SmoothSteps(cur, target, n).x == Pow(0.9, n) * (target.x - cur.x)
    ensures target.y - SmoothSteps(cur, target, n).y == Pow(0.9, n) * (target.y - cur.y)
  {
    ApproachStepsGeometric(cur.x, target.x, n);
    ApproachStepsGeometric(cur.y, target.y, n);
  }

  /** The group rotation a smoothed pointer offset produces, `-v * 0.3`. */
  function Tilt(v: real): (r: real)
    ensures -0.5 <= v <= 0.5 ==> -0.15 <= r <= 0.15
    ensures 0.0 < v ==> r < 0.0
    ensures v < 0.0 ==> 0.0 < r
  {
    -v * TiltSensitivity
  }

  /** The depth of panel `i` in a frame whose oscillator is `osc`:
      `(i + 1) * 100 - osc * 200`. For an oscillator in [0, 1] the panel
      moves within a 200-deep window ending at `(i + 1) * 100`. */
  function LayerDepth(i: nat, osc: real): (z: real)
    ensures 0.0 <= osc <= 1.0 ==> (i + 1) as real * 100.0 - 200.0 <= z <= (i + 1) as real * 100.0
    ensures osc == 0.0 ==> z == (i + 1) as real * 100.0
  {
    (i + 1) as real * 100.0 - osc * 200.0
  }

  /** In every frame consecutive panels are exactly 100 apart in depth,
      whatever the oscillator, so the layers never cross. */
  lemma LayersKeepTheirSpacing(i: nat, osc: real)
    ensures LayerDepth(i + 1, osc) - LayerDepth(i, osc) == 100.0
  { }
}
