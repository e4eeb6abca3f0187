/** The band-wipe ("curtain") fragment shader: the x axis of the texture
    coordinate is cut into four bands and each band samples the input
    image shifted left by its own multiple of `uProgress`. */
module Curtain {
  import opened Geometry

  /** The initial value of the `uProgress` uniform. */
  const DefaultProgress: real := 0.0

  /** The band a horizontal coordinate falls in: the index of the first
      guard of the shader's if/else chain that holds. The four bands
      partition the whole real line. */
  function BandOf(x: real): (b: nat)
    ensures b < 4
    ensures b == 0 <==> x < 0.25
    ensures b == 1 <==> 0.25 <= x < 0.5
    ensures b == 2 <==> 0.5 <= x < 0.75
    ensures b == 3 <==> 0.75 <= x
  {
    if x < 0.25 then 0 else if x < 0.5 then 1 else if x < 0.75 then 2 else 3
  }

  /** How far (per unit of progress) band `b` moves its sampling point left. */
  function BandShift(b: nat): (k: real)
    requires b < 4
    ensures 0.0 <= k <= 0.65
    ensures b == 0 <==> k == 0.0
    ensures b == 3 <==> k == 0.65
  {
    [0.0, 0.25, 0.35, 0.65][b]
  }

  /** The coordinate remap of the fragment shader, written as the shader
      writes it: one if/else chain that rewrites only `p.x`. */
  function Remap(p: Vec2, progress: real): (q: Vec2)
    ensures q.y == p.y
    ensures q.x == p.x - BandShift(BandOf(p.x)) * progress
    ensures progress == 0.0 ==> q == p
    ensures p.x < 0.25 ==> q == p
    ensures 0.0 <= progress ==> p.x - 0.65 * progress <= q.x <= p.x
  {
    if p.x < 0.25 then p
    else if p.x < 0.5 then p.(x := p.x - 0.25 * progress)
    else if p.x < 0.75 then p.(x := p.x - 0.35 * progress)
    else p.(x := p.x - 0.65 * progress)
  }

  /** The output colour of one fragment: the input texture sampled, with
      no further change, at the remapped point. */
  function Fragment(tDiffuse: Sampler, vUv: Vec2, progress: real): (c: Rgba)
    ensures c == tDiffuse(Vec2(vUv.x - BandShift(BandOf(vUv.x)) * progress, vUv.y))
    ensures progress == 0.0 ==> c == tDiffuse(vUv)
    ensures vUv.x < 0.25 ==> c == tDiffuse(vUv)
  {
    tDiffuse(Remap(vUv, progress))
  }

  /** Band shifts grow with the band index, so for a non-negative progress
      a band never samples from further right than a band to its left. */
  lemma ShiftGrowsWithBand(b: nat, c: nat, progress: real)
    requires b <= c < 4 && 0.0 <= progress
    ensures BandShift(b) * progress <= BandShift(c) * progress
  {
    assert BandShift(b) <= BandShift(c) by {
      if b < c {
        assert BandShift(0) < BandShift(1) < BandShift(2) < BandShift(3);
      }
    }
  }

  /** At full progress no point is moved further than a point of the
      rightmost band, which moves by exactly 0.65. */
  lemma RightBandShiftsMost(p: Vec2, q: Vec2)
    requires BandOf(q.x) == 3
    ensures p.x - Remap(p, 1.0).x <= q.x - Remap(q, 1.0).x == 0.65
  { }

  /** With the uniform at its initial value every fragment is passed through. */
  lemma IdentityAtStartup(tDiffuse: Sampler, vUv: Vec2)
    ensures Fragment(tDiffuse, vUv, DefaultProgress) == tDiffuse(vUv)
  { }
}
