/** The channel-split fragment shader: red, green and blue are read from
    three points spread horizontally by `uProgress`, alpha is forced to 1. */
module ChannelSplit {
  import opened Geometry

  /** The initial value of the `uProgress` uniform. */
  const DefaultProgress: real := 0.0

  /** The horizontal offset per unit of progress, `vec2(0.1, 0.0)`. */
  const Offset: Vec2 := Vec2(0.1, 0.0)

  /** The three points the shader samples for one fragment. */
  datatype SamplePoints = SamplePoints(red: Vec2, green: Vec2, blue: Vec2)

  /** `p + uProgress * vec2(0.1, 0.0)`, `p` and `p - uProgress * vec2(0.1, 0.0)`. */
  function PointsFor(p: Vec2, progress: real): (s: SamplePoints)
    ensures s.green == p
    ensures s.red.y == p.y && s.blue.y == p.y
    ensures s.red.x - s.blue.x == 0.2 * progress
    ensures s.red.x - p.x == p.x - s.blue.x
    ensures progress == 0.0 ==> s.red == p && s.blue == p
    ensures 0.0 < progress ==> s.blue.x < p.x < s.red.x
  {
    SamplePoints(
      Vec2(p.x + progress * Offset.x, p.y + progress * Offset.y),
      p,
      Vec2(p.x - progress * Offset.x, p.y - progress * Offset.y))
  }

  /** `gl_FragColor = vec4(cr.r, cg.g, cb.b, 1.0)`. */
  function Fragment(tDiffuse: Sampler, vUv: Vec2, progress: real): (c: Rgba)
    ensures c.a == 1.0
    ensures c.r == tDiffuse(Vec2(vUv.x + 0.1 * progress, vUv.y)).r
    ensures c.g == tDiffuse(vUv).g
    ensures c.b == tDiffuse(Vec2(vUv.x - 0.1 * progress, vUv.y)).b
    ensures progress == 0.0 ==> SameRgb(c, tDiffuse(vUv))
  {
    var s := PointsFor(vUv, progress);
    Rgba(tDiffuse(s.red).r, tDiffuse(s.green).g, tDiffuse(s.blue).b, 1.0)
  }

  /** At full progress the red and blue sample points are exactly 0.2 apart. */
  lemma FullSplitWidth(p: Vec2)
    ensures PointsFor(p, 1.0).red.x - PointsFor(p, 1.0).blue.x == 0.2
  { }

  /** With the uniform at its initial value the colour channels are passed
      through and only alpha is replaced by 1. */
  lemma IdentityAtStartup(tDiffuse: Sampler, vUv: Vec2)
    ensures Fragment(tDiffuse, vUv, DefaultProgress)
         == tDiffuse(vUv).(a := 1.0)
  { }
}
