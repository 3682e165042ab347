/**
 * Stand-in for the `vec3` package the geometry engine imports: three-component
 * vectors over the reals with the operations the engine calls.
 *
 * Operations whose floating-point results have no exact counterpart over the
 * reals (normalisation, square root, arc cosine, Euclidean distance, division
 * by a possibly-zero divisor) and the constant pi are not interpreted: they are
 * fields of a `Numerics` record that every caller passes in.
 */
module Vectors {

  /** A 3-D vector, immutable (the source always clones before mutating). */
  datatype Vec3 = Vec3(x: real, y: real, z: real) {

    function Add(v: Vec3): Vec3 {
      Vec3(x + v.x, y + v.y, z + v.z)
    }

    function Subtract(v: Vec3): Vec3 {
      Vec3(x - v.x, y - v.y, z - v.z)
    }

    function Scale(s: real): Vec3 {
      Vec3(s * x, s * y, s * z)
    }

    function InnerProduct(v: Vec3): real {
      x * v.x + y * v.y + z * v.z
    }

    function Cross(v: Vec3): Vec3 {
      Vec3(y * v.z - z * v.y, z * v.x - x * v.z, x * v.y - y * v.x)
    }

    function DistanceSquared(v: Vec3): real {
      var d := Subtract(v);
      d.InnerProduct(d)
    }
  }

  /** A unit vector, as `normalize` returns for a non-zero argument. */
  predicate IsUnit(v: Vec3) {
    v.InnerProduct(v) == 1.0
  }

  /**
   * The floating-point operations the engine uses and the model leaves
   * uninterpreted. `divide` is JavaScript's `/`, which yields Infinity or NaN
   * for a zero divisor where real division is undefined.
   */
  datatype Numerics = Numerics(
    normalize: Vec3 -> Vec3,
    sqrt: real -> real,
    acos: real -> real,
    distanceTo: (Vec3, Vec3) -> real,
    divide: (real, real) -> real,
    pi: real)

  /** The squared distance from `p` to `p + v*d` is `d*d` times the squared norm of `v`. */
  lemma DisplacedDistance(p: Vec3, v: Vec3, d: real)
    ensures p.DistanceSquared(p.Add(v.Scale(d))) == d * d * v.InnerProduct(v)
  {
    var q := p.Add(v.Scale(d));
    assert p.Subtract(q) == Vec3(-(d * v.x), -(d * v.y), -(d * v.z));
  }

  /** Expansion of the squared norm of `h*a - v*b`. */
  lemma NormOfDifference(h: Vec3, v: Vec3, a: real, b: real)
    ensures h.Scale(a).Subtract(v.Scale(b)).InnerProduct(h.Scale(a).Subtract(v.Scale(b)))
         == a * a * h.InnerProduct(h) - 2.0 * a * b * h.InnerProduct(v) + b * b * v.InnerProduct(v)
  {
    var w := h.Scale(a).Subtract(v.Scale(b));
    assert w.x * w.x == a * a * (h.x * h.x) - 2.0 * a * b * (h.x * v.x) + b * b * (v.x * v.x);
    assert w.y * w.y == a * a * (h.y * h.y) - 2.0 * a * b * (h.y * v.y) + b * b * (v.y * v.y);
    assert w.z * w.z == a * a * (h.z * h.z) - 2.0 * a * b * (h.z * v.z) + b * b * (v.z * v.z);
  }

  /** The inner product is linear in its first argument. */
  lemma InnerProductOfScaledSum(u: Vec3, v: Vec3, k: real, w: Vec3)
    ensures u.Add(v).Scale(k).InnerProduct(w) == k * (u.InnerProduct(w) + v.InnerProduct(w))
  {
    var s := u.Add(v).Scale(k);
    assert s.x * w.x == k * (u.x * w.x) + k * (v.x * w.x);
    assert s.y * w.y == k * (u.y * w.y) + k * (v.y * w.y);
    assert s.z * w.z == k * (u.z * w.z) + k * (v.z * w.z);
  }

  lemma TranslationCancels(p: Vec3, a: Vec3, b: Vec3)
    ensures p.Add(a).Subtract(p.Add(b)) == a.Subtract(b)
  {
  }

  /** Distances are invariant under a common translation. */
  lemma OffsetDistance(p: Vec3, a: Vec3, b: Vec3)
    ensures p.Add(a).DistanceSquared(p.Add(b)) == a.Subtract(b).InnerProduct(a.Subtract(b))
  {
    TranslationCancels(p, a, b);
  }

  /** The squared norm of `h*t - v*(c*t)` for unit `h`, `v` with inner product `c`. */
  lemma OffsetNorm(h: Vec3, v: Vec3, t: real, c: real)
    requires IsUnit(h) && IsUnit(v) && h.InnerProduct(v) == c
    ensures var w := h.Scale(t).Subtract(v.Scale(c * t));
            w.InnerProduct(w) == t * t * (1.0 - c * c)
  {
    NormOfDifference(h, v, t, c * t);
    assert t * t * 1.0 - 2.0 * t * (c * t) * c + (c * t) * (c * t) * 1.0 == t * t * (1.0 - c * c);
  }

  /** A multiple of the sum of two unit vectors makes the same angle with both. */
  lemma BisectorAngles(u: Vec3, v: Vec3, k: real)
    requires IsUnit(u) && IsUnit(v)
    ensures u.Add(v).Scale(k).InnerProduct(u) == u.Add(v).Scale(k).InnerProduct(v)
  {
    InnerProductOfScaledSum(u, v, k, u);
    InnerProductOfScaledSum(u, v, k, v);
    assert v.InnerProduct(u) == u.InnerProduct(v);
  }

  /**
   * With `c` the cosine between the unit vectors `h` and `v`, `s` its sine and
   * `t * s == radius`, the point `t` along `h` is `radius` away from the point
   * `c * t` along `v`.
   */
  lemma TangentRadius(h: Vec3, v: Vec3, t: real, c: real, s: real, radius: real)
    requires IsUnit(h) && IsUnit(v) && h.InnerProduct(v) == c
    requires s * s == 1.0 - c * c && t * s == radius
    ensures var w := h.Scale(t).Subtract(v.Scale(c * t));
            w.InnerProduct(w) == radius * radius
  {
    OffsetNorm(h, v, t, c);
    calc {
      t * t * (1.0 - c * c);
      t * t * (s * s);
      (t * s) * (t * s);
      radius * radius;
    }
  }

  /** The inner product of `h*a - v*b` with `w`, expanded by linearity. */
  lemma InnerProductOfDifference(h: Vec3, v: Vec3, a: real, b: real, w: Vec3)
    ensures h.Scale(a).Subtract(v.Scale(b)).InnerProduct(w) == a * h.InnerProduct(w) - b * v.InnerProduct(w)
  {
    var d := h.Scale(a).Subtract(v.Scale(b));
    assert d.x * w.x == a * (h.x * w.x) - b * (v.x * w.x);
    assert d.y * w.y == a * (h.y * w.y) - b * (v.y * w.y);
    assert d.z * w.z == a * (h.z * w.z) - b * (v.z * w.z);
  }

  /**
   * For a unit `v` whose inner product with `h` is `c`, the offset from the
   * point `c * t` along `v` to the point `t` along `h` is perpendicular to `v`.
   */
  lemma OffsetPerpendicular(h: Vec3, v: Vec3, t: real, c: real)
    requires IsUnit(v) && h.InnerProduct(v) == c
    ensures h.Scale(t).Subtract(v.Scale(c * t)).InnerProduct(v) == 0.0
  {
    InnerProductOfDifference(h, v, t, c * t, v);
    assert t * c - c * t * 1.0 == 0.0;
  }
}
