/**
 * Engine value types used by both generators: Vector2/Vector3 as pairs and
 * triples of reals, the mesh buffers handed to MeshFilter/MeshCollider, and
 * the Mathf functions the generators call but the model does not define.
 */
module Geometry {
  datatype Vec2 = Vec2(x: real, y: real)
  datatype Vec3 = Vec3(x: real, y: real, z: real)

  const Zero2: Vec2 := Vec2(0.0, 0.0)
  const Zero3: Vec3 := Vec3(0.0, 0.0, 0.0)

  function Add(a: Vec3, b: Vec3): Vec3 {
    Vec3(a.x + b.x, a.y + b.y, a.z + b.z)
  }

  function Scale(a: Vec3, s: real): Vec3 {
    Vec3(a.x * s, a.y * s, a.z * s)
  }

  /** `(float)a / b` */
  function Fraction(a: int, b: int): real
    requires b != 0
  {
    a as real / b as real
  }

  /** Mathf.PI (the engine rounds it to single precision; reals do not). */
  const PI: real := 3.14159265358979

  /**
   * Mathf.PerlinNoise, Mathf.Cos and Mathf.Sin. They are deterministic
   * functions of their arguments and nothing more is assumed about them.
   */
  datatype Mathf = Mathf(perlinNoise: (real, real) -> real, cos: real -> real, sin: real -> real)

  /** What a generator uploads: positions, texture coordinates and triangle index triples. */
  datatype Mesh = Mesh(vertices: seq<Vec3>, uv: seq<Vec2>, triangles: seq<int>)

  /**
   * The consistency the engine checks between uploaded buffers: one UV per
   * vertex, whole triangles, and every triangle index naming a vertex. The
   * limit of the default 16-bit index format (65535 vertices) is not part
   * of it.
   */
  predicate WellFormed(m: Mesh) {
    |m.uv| == |m.vertices| &&
    |m.triangles| % 3 == 0 &&
    forall t :: 0 <= t < |m.triangles| ==> 0 <= m.triangles[t] < |m.vertices|
  }
}
