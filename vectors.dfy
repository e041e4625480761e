/** Plain 2-D vector arithmetic (System.Numerics.Vector2) over the reals, plus the
    library operations that need square roots or trigonometry, which stay uninterpreted. */
module Vectors {

  datatype Option<+T> = None | Some(value: T)

  datatype Vec2 = Vec2(x: real, y: real)

  const Zero: Vec2 := Vec2(0.0, 0.0)

  function Add(a: Vec2, b: Vec2): Vec2 { Vec2(a.x + b.x, a.y + b.y) }

  function Sub(a: Vec2, b: Vec2): Vec2 { Vec2(a.x - b.x, a.y - b.y) }

  function Scale(a: Vec2, k: real): Vec2 { Vec2(a.x * k, a.y * k) }

  function Dot(a: Vec2, b: Vec2): real { a.x * b.x + a.y * b.y }

  function Max(a: real, b: real): real { if a >= b then a else b }

  /** Vector2.Reflect: d mirrored off a surface with normal n, that is d - 2(d.n)n. */
  function Reflect(d: Vec2, n: Vec2): Vec2
  {
    Sub(d, Scale(n, 2.0 * Dot(d, n)))
  }

  /** Vector2.Distance, Vector2.Normalize and Angle.ToVec (radians to a direction vector).
      They need sqrt, sin and cos, so the model keeps them as parameters and takes
      nothing for granted about them unless a lemma says so in its requires. */
  datatype Geometry = Geometry(
    distance: (Vec2, Vec2) -> real,
    normalize: Vec2 -> Vec2,
    angleToVec: real -> Vec2)

  /** A distance is never negative. */
  ghost predicate NonNegativeDistance(geo: Geometry)
  {
    forall a, b :: geo.distance(a, b) >= 0.0
  }

  /** The law of reflection: the normal component of the direction changes sign. */
  lemma ReflectFlipsNormalComponent(d: Vec2, n: Vec2)
    requires Dot(n, n) == 1.0
    ensures Dot(Reflect(d, n), n) == -Dot(d, n)
  {
    var k := Dot(d, n);
    calc {
      Dot(Reflect(d, n), n);
      (d.x - n.x * (2.0 * k)) * n.x + (d.y - n.y * (2.0 * k)) * n.y;
      k - 2.0 * k * (n.x * n.x + n.y * n.y);
      k - 2.0 * k;
    }
  }

  /** Components orthogonal to the normal pass through a reflection unchanged. */
  lemma ReflectKeepsTangent(d: Vec2, n: Vec2, t: Vec2)
    requires Dot(t, n) == 0.0
    ensures Dot(Reflect(d, n), t) == Dot(d, t)
  {
    var k := Dot(d, n);
    calc {
      Dot(Reflect(d, n), t);
      (d.x - n.x * (2.0 * k)) * t.x + (d.y - n.y * (2.0 * k)) * t.y;
      Dot(d, t) - 2.0 * k * (n.x * t.x + n.y * t.y);
    }
  }

  /** Reflecting off a unit normal keeps the squared length of the direction. */
  lemma ReflectKeepsLength(d: Vec2, n: Vec2)
    requires Dot(n, n) == 1.0
    ensures Dot(Reflect(d, n), Reflect(d, n)) == Dot(d, d)
  {
    var k := Dot(d, n);
    var r := Reflect(d, n);
    calc {
      Dot(r, r);
      (d.x - 2.0 * k * n.x) * (d.x - 2.0 * k * n.x) + (d.y - 2.0 * k * n.y) * (d.y - 2.0 * k * n.y);
      Dot(d, d) - 4.0 * k * (d.x * n.x + d.y * n.y) + 4.0 * k * k * (n.x * n.x + n.y * n.y);
      Dot(d, d) - 4.0 * k * k + 4.0 * k * k;
    }
  }

  /** Reflecting twice off the same unit normal gives the original direction back. */
  lemma ReflectInvolution(d: Vec2, n: Vec2)
    requires Dot(n, n) == 1.0
    ensures Reflect(Reflect(d, n), n) == d
  {
    ReflectFlipsNormalComponent(d, n);
  }
}
