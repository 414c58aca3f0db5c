/**
  Three-component real vectors, standing for the `mathutils.Vector` values the basis-change
  node works on. Only `+`, `-` and `*` are used, so every identity below holds exactly.
 */
module Vector3 {

  datatype Vec3 = Vec3(x: real, y: real, z: real)

  const Zero := Vec3(0.0, 0.0, 0.0)

  /** The standard basis. */
  const UnitX := Vec3(1.0, 0.0, 0.0)
  const UnitY := Vec3(0.0, 1.0, 0.0)
  const UnitZ := Vec3(0.0, 0.0, 1.0)

  function Neg(v: Vec3): Vec3
  {
    Vec3(-v.x, -v.y, -v.z)
  }

  function Add(a: Vec3, b: Vec3): Vec3
  {
    Vec3(a.x + b.x, a.y + b.y, a.z + b.z)
  }

  /** `v * k` */
  function Scale(v: Vec3, k: real): Vec3
  {
    Vec3(k * v.x, k * v.y, k * v.z)
  }

  /** Component-wise product. */
  function Hadamard(a: Vec3, b: Vec3): Vec3
  {
    Vec3(a.x * b.x, a.y * b.y, a.z * b.z)
  }

  function Dot(a: Vec3, b: Vec3): real
  {
    a.x * b.x + a.y * b.y + a.z * b.z
  }

  /** `a.cross(b)`, right-handed. */
  function Cross(a: Vec3, b: Vec3): Vec3
  {
    Vec3(a.y * b.z - a.z * b.y, a.z * b.x - a.x * b.z, a.x * b.y - a.y * b.x)
  }

  /** The scalar triple product a · (b × c), the determinant of the columns a, b, c. */
  function Triple(a: Vec3, b: Vec3, c: Vec3): real
  {
    Dot(a, Cross(b, c))
  }

  /** Two vectors are parallel when one is a real multiple of the other. */
  ghost predicate Parallel(a: Vec3, b: Vec3)
  {
    (exists k: real :: b == Scale(a, k)) || (exists k: real :: a == Scale(b, k))
  }

  lemma CrossOrthogonal(a: Vec3, b: Vec3)
    ensures Dot(a, Cross(a, b)) == 0.0
    ensures Dot(b, Cross(a, b)) == 0.0
  {
  }

  lemma CrossAntiCommutes(a: Vec3, b: Vec3)
    ensures Cross(b, a) == Neg(Cross(a, b))
  {
  }

  lemma CrossOfParallel(a: Vec3, k: real)
    ensures Cross(a, Scale(a, k)) == Zero
    ensures Cross(Scale(a, k), a) == Zero
  {
  }

  lemma CrossWithZero(a: Vec3)
    ensures Cross(a, Zero) == Zero && Cross(Zero, a) == Zero
  {
  }

  lemma ParallelCrossIsZero(a: Vec3, b: Vec3)
    requires Parallel(a, b)
    ensures Cross(a, b) == Zero
  {
    if k: real :| b == Scale(a, k) {
      CrossOfParallel(a, k);
    } else {
      var k: real :| a == Scale(b, k);
      CrossOfParallel(b, k);
      CrossAntiCommutes(b, a);
    }
  }

  /** The triple product is invariant under cyclic permutation of its arguments. */
  lemma TripleCyclic(a: Vec3, b: Vec3, c: Vec3)
    ensures Triple(a, b, c) == Triple(b, c, a)
    ensures Triple(a, b, c) == Triple(c, a, b)
  {
    var ax, ay, az, bx, bY, bz, cx, cy, cz := a.x, a.y, a.z, b.x, b.y, b.z, c.x, c.y, c.z;
    var det := ax * bY * cz - ax * bz * cy + ay * bz * cx - ay * bx * cz + az * bx * cy - az * bY * cx;
    assert Triple(a, b, c) == ax * (bY * cz - bz * cy) + ay * (bz * cx - bx * cz) + az * (bx * cy - bY * cx);
    assert Triple(a, b, c) == det;
    assert Triple(b, c, a) == bx * (cy * az - cz * ay) + bY * (cz * ax - cx * az) + bz * (cx * ay - cy * ax);
    assert Triple(b, c, a) == det;
    assert Triple(c, a, b) == cx * (ay * bz - az * bY) + cy * (az * bx - ax * bz) + cz * (ax * bY - ay * bx);
    assert Triple(c, a, b) == det;
  }

  /** X and Y of the standard basis are orthonormal and X × Y = Z. */
  lemma StandardBasis()
    ensures Dot(UnitX, UnitX) == 1.0 && Dot(UnitY, UnitY) == 1.0 && Dot(UnitX, UnitY) == 0.0
    ensures Cross(UnitX, UnitY) == UnitZ
  {
    UnitXLength();
    UnitYLength();
    UnitXYOrthogonal();
    UnitXCrossY();
  }

  // One literal fact per lemma keeps each proof obligation small.
  lemma UnitXLength() ensures Dot(UnitX, UnitX) == 1.0 {}
  lemma UnitYLength() ensures Dot(UnitY, UnitY) == 1.0 {}
  lemma UnitXYOrthogonal() ensures Dot(UnitX, UnitY) == 0.0 {}
  lemma UnitXCrossY() ensures Cross(UnitX, UnitY) == UnitZ {}

  lemma DotCommutes(a: Vec3, b: Vec3)
    ensures Dot(a, b) == Dot(b, a)
  {
  }

  /** (a × b) × c = b (a · c) − a (b · c). */
  lemma DoubleCross(a: Vec3, b: Vec3, c: Vec3)
    ensures Cross(Cross(a, b), c) == Add(Scale(b, Dot(a, c)), Scale(a, -Dot(b, c)))
  {
    var ac, bc := Dot(a, c), Dot(b, c);
    DoubleCrossComponent(a.x, a.y, a.z, b.x, b.y, b.z, c.x, c.y, c.z, ac, bc);
    DoubleCrossComponent(a.y, a.z, a.x, b.y, b.z, b.x, c.y, c.z, c.x, ac, bc);
    DoubleCrossComponent(a.z, a.x, a.y, b.z, b.x, b.y, c.z, c.x, c.y, ac, bc);
    LinearCombination(Cross(Cross(a, b), c), b, a, ac, -bc);
  }

  /** The first component of (p × q) × r on plain coordinates, d and e being p · r and q · r. */
  lemma DoubleCrossComponent(px: real, py: real, pz: real, qx: real, qy: real, qz: real,
                             rx: real, ry: real, rz: real, d: real, e: real)
    requires d == px * rx + py * ry + pz * rz && e == qx * rx + qy * ry + qz * rz
    ensures (pz * qx - px * qz) * rz - (px * qy - py * qx) * ry == d * qx + -e * px
  {
  }

  lemma LinearCombination(v: Vec3, a: Vec3, b: Vec3, k: real, l: real)
    requires v.x == k * a.x + l * b.x && v.y == k * a.y + l * b.y && v.z == k * a.z + l * b.z
    ensures v == Add(Scale(a, k), Scale(b, l))
  {
  }

  /** For a unit a perpendicular to b, crossing a × b with a gives back b. */
  lemma CrossBackOrthonormal(a: Vec3, b: Vec3)
    requires Dot(a, a) == 1.0 && Dot(a, b) == 0.0
    ensures Cross(Cross(a, b), a) == b
    ensures Cross(a, Cross(b, a)) == b
  {
    DoubleCross(a, b, a);
    DotCommutes(a, b);
    var da, db := Dot(a, a), Dot(b, a);
    assert Scale(b, da) == b;
    assert Scale(a, -db) == Zero;
    CrossAntiCommutes(a, b);
    CrossAntiCommutes(a, Cross(b, a));
    DoubleCross(b, a, a);
    assert Scale(a, Dot(b, a)) == Zero;
    assert Scale(b, -Dot(a, a)) == Neg(b);
  }

  /** A zero column makes the determinant vanish. */
  lemma TripleWithZero(a: Vec3, b: Vec3)
    ensures Triple(Zero, a, b) == 0.0 && Triple(a, Zero, b) == 0.0 && Triple(a, b, Zero) == 0.0
  {
  }

  /** Lagrange's identity: |a × b|² = |a|² |b|² − (a · b)². */
  lemma Lagrange(a: Vec3, b: Vec3)
    ensures Dot(Cross(a, b), Cross(a, b)) == Dot(a, a) * Dot(b, b) - Dot(a, b) * Dot(a, b)
  {
  }

  /** For orthogonal a and b, |a × b|² = |a|² |b|² whichever order they are crossed in. */
  lemma CrossNormOfOrthogonal(a: Vec3, b: Vec3)
    requires Dot(a, b) == 0.0
    ensures Dot(Cross(a, b), Cross(a, b)) == Dot(a, a) * Dot(b, b)
    ensures Dot(Cross(b, a), Cross(b, a)) == Dot(a, a) * Dot(b, b)
  {
    Lagrange(a, b);
    CrossAntiCommutes(a, b);
    NegDot(Cross(a, b));
  }

  lemma NegDot(v: Vec3)
    ensures Dot(Neg(v), Neg(v)) == Dot(v, v)
  {
  }

  /** The squared length |v|² = v · v is never negative. */
  lemma SquaredLengthNonNegative(v: Vec3)
    ensures Dot(v, v) >= 0.0
  {
    SquareSum(v.x, v.y, v.z);
  }

  lemma SquareSum(p: real, q: real, r: real)
    ensures p * p + q * q + r * r >= 0.0
  {
  }

  /** A non-zero vector has a positive squared length. */
  lemma DotPositive(v: Vec3)
    requires v != Zero
    ensures Dot(v, v) > 0.0
  {
    var p, q, r := v.x * v.x, v.y * v.y, v.z * v.z;
    SquareNonNegative(v.x, p);
    SquareNonNegative(v.y, q);
    SquareNonNegative(v.z, r);
    if v.x != 0.0 {
      SquarePositive(v.x, p);
    } else if v.y != 0.0 {
      SquarePositive(v.y, q);
    } else {
      assert v == Vec3(0.0, 0.0, v.z);
      SquarePositive(v.z, r);
    }
    assert Dot(v, v) == p + q + r;
  }

  lemma SquareNonNegative(x: real, p: real)
    requires p == x * x
    ensures p >= 0.0
  {
  }

  lemma SquarePositive(x: real, p: real)
    requires x != 0.0 && p == x * x
    ensures p > 0.0
  {
    if x > 0.0 {
      PositiveProduct(x, x, p);
    } else {
      var n := -x;
      NegSquare(x, n);
      PositiveProduct(n, n, p);
    }
  }

  lemma NegSquare(x: real, n: real)
    requires n == -x
    ensures n * n == x * x
  {
  }

  lemma PositiveProduct(a: real, b: real, c: real)
    requires a > 0.0 && b > 0.0 && c == a * b
    ensures c > 0.0
  {
  }

  lemma NonNegativeProduct(a: real, b: real)
    requires a >= 0.0 && b >= 0.0
    ensures a * b >= 0.0
  {
  }

  lemma ScaleDot(a: Vec3, k: real, b: Vec3, l: real)
    ensures Dot(Scale(a, k), Scale(b, l)) == k * l * Dot(a, b)
  {
  }

  lemma ScaleCross(a: Vec3, k: real, b: Vec3, l: real)
    ensures Cross(Scale(a, k), Scale(b, l)) == Scale(Cross(a, b), k * l)
  {
    var p := Cross(Scale(a, k), Scale(b, l));
    var q := Scale(Cross(a, b), k * l);
    assert p.x == q.x by { assert p.x == (k * a.y) * (l * b.z) - (k * a.z) * (l * b.y); }
    assert p.y == q.y by { assert p.y == (k * a.z) * (l * b.x) - (k * a.x) * (l * b.z); }
    assert p.z == q.z by { assert p.z == (k * a.x) * (l * b.y) - (k * a.y) * (l * b.x); }
  }

  lemma ScaleTwice(v: Vec3, k: real, l: real)
    ensures Scale(Scale(v, k), l) == Scale(v, k * l)
  {
    var a := Scale(Scale(v, k), l);
    assert a.x == l * (k * v.x);
    assert a.y == l * (k * v.y);
    assert a.z == l * (k * v.z);
  }

  /** Rescaled perpendicular vectors stay perpendicular. */
  lemma ScaleOrthogonal(a: Vec3, k: real, b: Vec3, l: real)
    requires Dot(a, b) == 0.0
    ensures Dot(Scale(a, k), Scale(b, l)) == 0.0
  {
    ScaleDot(a, k, b, l);
  }

  /** Scaling the three columns scales the determinant by the product of the factors. */
  lemma ScaleTriple(a: Vec3, k: real, b: Vec3, l: real, c: Vec3, m: real)
    ensures Triple(Scale(a, k), Scale(b, l), Scale(c, m)) == k * l * m * Triple(a, b, c)
  {
    var w := Cross(b, c);
    var kl := k * (l * m);
    ScaleCross(b, l, c, m);
    assert Triple(Scale(a, k), Scale(b, l), Scale(c, m)) == Dot(Scale(a, k), Scale(w, l * m));
    ScaleDot(a, k, w, l * m);
    assert Dot(Scale(a, k), Scale(w, l * m)) == kl * Dot(a, w);
    assert kl * Dot(a, w) == k * l * m * Dot(a, w);
  }

  /**
    Blender's in-place `normalize()`, with the reciprocal length 1/|v| supplied as a function:
    the vector is multiplied by a positive factor that brings a non-zero vector to unit length,
    and the zero vector stays zero.
   */
  ghost predicate IsReciprocalLength(invLength: Vec3 -> real)
  {
    (forall v :: PositiveFactorAt(invLength, v)) && (forall v :: UnitFactorAt(invLength, v))
  }

  /** The factor applied to v is positive. */
  predicate PositiveFactorAt(invLength: Vec3 -> real, v: Vec3)
  {
    invLength(v) > 0.0
  }

  /** The factor applied to a non-zero v brings it to unit length. */
  predicate UnitFactorAt(invLength: Vec3 -> real, v: Vec3)
  {
    v != Zero ==> invLength(v) * invLength(v) * Dot(v, v) == 1.0
  }

  function Normalized(v: Vec3, invLength: Vec3 -> real): Vec3
  {
    Scale(v, invLength(v))
  }

  /** A normalised non-zero vector has unit length; the zero vector stays zero. */
  lemma NormalizedLength(v: Vec3, invLength: Vec3 -> real)
    requires IsReciprocalLength(invLength)
    ensures v != Zero ==> Dot(Normalized(v, invLength), Normalized(v, invLength)) == 1.0
    ensures v == Zero ==> Normalized(v, invLength) == Zero
  {
    assert UnitFactorAt(invLength, v);
    var k := invLength(v);
    ScaleDot(v, k, v, k);
  }

  /** A unit vector is left as it is by normalisation. */
  lemma NormalizeUnit(v: Vec3, invLength: Vec3 -> real)
    requires IsReciprocalLength(invLength)
    requires Dot(v, v) == 1.0
    ensures Normalized(v, invLength) == v
  {
    assert PositiveFactorAt(invLength, v) && UnitFactorAt(invLength, v);
    var k := invLength(v);
    assert v != Zero;
    assert k * k * 1.0 == 1.0;
    UnitFactor(k);
  }

  /** Normalising twice is normalising once. */
  lemma NormalizeIdempotent(v: Vec3, invLength: Vec3 -> real)
    requires IsReciprocalLength(invLength)
    ensures Normalized(Normalized(v, invLength), invLength) == Normalized(v, invLength)
  {
    NormalizedLength(v, invLength);
    if v == Zero {
      assert Scale(Zero, invLength(Zero)) == Zero;
    } else {
      NormalizeUnit(Normalized(v, invLength), invLength);
    }
  }

  lemma UnitFactor(k: real)
    requires k > 0.0 && k * k == 1.0
    ensures k == 1.0
  {
  }
}
