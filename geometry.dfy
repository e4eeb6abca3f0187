/** Value types shared by the two post-processing shaders and the scene:
    GLSL's vec2 / vec3 / vec4 over exact reals, and a texture seen as
    the function that `texture2D` computes for it. */
module Geometry {

  /** A 2-D point (GLSL vec2, THREE.Vector2). */
  datatype Vec2 = Vec2(x: real, y: real)

  /** A 3-D point (THREE.Vector3, used for the camera position). */
  datatype Vec3 = Vec3(x: real, y: real, z: real)

  /** One RGBA colour (GLSL vec4). */
  datatype Rgba = Rgba(r: real, g: real, b: real, a: real)

  /** `texture2D(tDiffuse, p)`: the colour a sampler returns at a texture
      coordinate. Filtering and the edge policy (clamp or wrap) belong to
      the sampler, so any function of a point will do. */
  type Sampler = Vec2 -> Rgba

  /** True when two colours agree on their red, green and blue channels. */
  predicate SameRgb(c: Rgba, d: Rgba)
  {
    c.r == d.r && c.g == d.g && c.b == d.b
  }
}
