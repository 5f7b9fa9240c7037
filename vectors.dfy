/**
 * Vectors over the reals, standing in for System.Numerics.Vector3 and Vector2
 * and for SkiaSharp's SKPoint (a pair of coordinates), together with the
 * library mathematics the renderer calls (Math.PI, Math.Sin, Math.Cos and
 * Vector3.Normalize). Those library routines are not part of this model: they
 * are handed to the shapes as a `MathLib` value, so every proof holds for any
 * sine, cosine and normalisation.
 */
module VectorMath {

  datatype Vec3 = Vec3(x: real, y: real, z: real)

  /** A point of the view plane (Vector2 or SKPoint). */
  datatype Vec2 = Vec2(x: real, y: real)

  const Zero3: Vec3 := Vec3(0.0, 0.0, 0.0)
  const Zero2: Vec2 := Vec2(0.0, 0.0)

  function Add(a: Vec3, b: Vec3): Vec3 {
    Vec3(a.x + b.x, a.y + b.y, a.z + b.z)
  }

  function Sub(a: Vec3, b: Vec3): Vec3 {
    Vec3(a.x - b.x, a.y - b.y, a.z - b.z)
  }

  /** `v *= -1` */
  function Neg(a: Vec3): Vec3 {
    Vec3(-a.x, -a.y, -a.z)
  }

  function Dot(a: Vec3, b: Vec3): real {
    a.x * b.x + a.y * b.y + a.z * b.z
  }

  function Cross(a: Vec3, b: Vec3): Vec3 {
    Vec3(a.y * b.z - a.z * b.y, a.z * b.x - a.x * b.z, a.x * b.y - a.y * b.x)
  }

  function Sub2(a: Vec2, b: Vec2): Vec2 {
    Vec2(a.x - b.x, a.y - b.y)
  }

  /** The library routines the shapes call; their values are not modelled. */
  datatype MathLib = MathLib(pi: real, sin: real -> real, cos: real -> real, normalize: Vec3 -> Vec3)

  /** Normalisation commutes with negation, as scaling by 1/|v| does. */
  ghost predicate OddNormalize(lib: MathLib) {
    forall v: Vec3 {:trigger lib.normalize(Neg(v))} :: lib.normalize(Neg(v)) == Neg(lib.normalize(v))
  }

  lemma DotNeg(a: Vec3, b: Vec3)
    ensures Dot(a, Neg(b)) == -Dot(a, b)
  {
  }

  lemma CrossSwap(a: Vec3, b: Vec3)
    ensures Cross(b, a) == Neg(Cross(a, b))
  {
  }

  lemma SubShift(p: Vec3, o: Vec3, c: Vec3)
    ensures Sub(Add(p, c), Add(o, c)) == Sub(p, o)
  {
  }
}
