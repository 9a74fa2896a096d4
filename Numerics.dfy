/**
 * The numeric helpers of the flocking simulator, over exact reals:
 * the "dog-leg" hypotenuse approximation used for every vector length,
 * the `|| 0` guard placed after each division by such a length, and the
 * two vector operations built from them (scaling a sum to a given weight,
 * and clamping a vector whose squared length exceeds a squared limit).
 */
module Numerics {

  datatype Vec = Vec(x: real, y: real)

  const Zero := Vec(0.0, 0.0)

  function Abs(a: real): real { if a < 0.0 then -a else a }

  function Min(a: real, b: real): real { if a <= b then a else b }

  function Max(a: real, b: real): real { if a >= b then a else b }

  /** Squared Euclidean length, the quantity every threshold is compared with. */
  function SquaredLength(v: Vec): real { v.x * v.x + v.y * v.y }

  /** The dog-leg formula on the smaller and the larger coordinate magnitude. */
  function DogLeg(lo: real, hi: real): real
  {
    hi + 3.0 * lo / 32.0 + Max(0.0, 2.0 * lo - hi) / 8.0 + Max(0.0, 4.0 * lo - hi) / 16.0
  }

  /**
   * The dog-leg approximation of the length of (a, b): with lo and hi the
   * smaller and larger of |a| and |b|,
   * hi + 3 lo / 32 + max(0, 2 lo - hi) / 8 + max(0, 4 lo - hi) / 16.
   */
  function Hypot(a: real, b: real): real
  {
    var a := Abs(a);
    var b := Abs(b);
    DogLeg(Min(a, b), Max(a, b))
  }

  /**
   * The approximation never falls below the larger coordinate magnitude and
   * never exceeds 45/32 of it, so it is zero exactly at the origin.
   */
  lemma HypotBounds(a: real, b: real)
    ensures Hypot(a, b) >= Abs(a) && Hypot(a, b) >= Abs(b)
    ensures Hypot(a, b) <= 45.0 / 32.0 * Max(Abs(a), Abs(b))
    ensures Hypot(a, b) == 0.0 <==> a == 0.0 && b == 0.0
  {
  }

  lemma HypotAtOrigin()
    ensures Hypot(0.0, 0.0) == 0.0
  {
  }

  /** On an axis the approximation is exact. */
  lemma HypotOnAxis(a: real)
    ensures Hypot(a, 0.0) == Abs(a) && Hypot(0.0, a) == Abs(a)
  {
  }

  /** The approximation only looks at |a| and |b|, and not at their order. */
  lemma HypotSymmetric(a: real, b: real)
    ensures Hypot(a, b) == Hypot(b, a)
    ensures Hypot(-a, b) == Hypot(a, b) && Hypot(a, -b) == Hypot(a, b)
  {
  }

  lemma AbsProduct(k: real, a: real)
    ensures Abs(k * a) == Abs(k) * Abs(a)
  {
    if k < 0.0 && a < 0.0 {
      assert k * a == (-k) * (-a);
    } else if k < 0.0 {
      assert -(k * a) == (-k) * a;
    } else if a < 0.0 {
      assert -(k * a) == k * (-a);
    }
  }

  lemma ScaleMinMax(c: real, x: real, y: real, x': real, y': real)
    requires c >= 0.0 && x' == c * x && y' == c * y
    ensures Min(x', y') == c * Min(x, y)
    ensures Max(x', y') == c * Max(x, y)
  {
    assert y' - x' == c * (y - x);
    if x <= y {
      assert c * (y - x) >= 0.0;
    } else {
      assert c * (x - y) >= 0.0;
    }
  }

  lemma ScaleMaxZero(c: real, u: real, u': real)
    requires c >= 0.0 && u' == c * u
    ensures Max(0.0, u') == c * Max(0.0, u)
  {
    if u <= 0.0 {
      assert u' == -(c * (-u));
      assert c * (-u) >= 0.0;
    }
  }

  lemma Distribute(c: real, p: real, q: real, r: real, s: real,
                   p': real, q': real, r': real, s': real)
    requires p' == c * p && q' == c * q && r' == c * r && s' == c * s
    ensures p' + 3.0 * q' / 32.0 + r' / 8.0 + s' / 16.0
         == c * (p + 3.0 * q / 32.0 + r / 8.0 + s / 16.0)
  {
  }

  lemma DogLegThrough(lo: real, hi: real, m1: real, m2: real)
    requires m1 == Max(0.0, 2.0 * lo - hi) && m2 == Max(0.0, 4.0 * lo - hi)
    ensures DogLeg(lo, hi) == hi + 3.0 * lo / 32.0 + m1 / 8.0 + m2 / 16.0
  {
  }

  lemma Difference(c: real, lo: real, hi: real, lo': real, hi': real, n: real)
    requires lo' == c * lo && hi' == c * hi
    ensures n * lo' - hi' == c * (n * lo - hi)
  {
  }

  lemma DogLegScale(c: real, lo: real, hi: real, lo': real, hi': real)
    requires c >= 0.0 && lo' == c * lo && hi' == c * hi
    ensures DogLeg(lo', hi') == c * DogLeg(lo, hi)
  {
    hide *;
    var m1, m2 := Max(0.0, 2.0 * lo - hi), Max(0.0, 4.0 * lo - hi);
    var m1', m2' := Max(0.0, 2.0 * lo' - hi'), Max(0.0, 4.0 * lo' - hi');
    Difference(c, lo, hi, lo', hi', 2.0);
    Difference(c, lo, hi, lo', hi', 4.0);
    ScaleMaxZero(c, 2.0 * lo - hi, 2.0 * lo' - hi');
    ScaleMaxZero(c, 4.0 * lo - hi, 4.0 * lo' - hi');
    DogLegThrough(lo, hi, m1, m2);
    DogLegThrough(lo', hi', m1', m2');
    Distribute(c, hi, lo, m1, m2, hi', lo', m1', m2');
  }

  /** Hypot expressed through given smaller and larger magnitudes. */
  lemma HypotThrough(a: real, b: real, lo: real, hi: real)
    requires lo == Min(Abs(a), Abs(b)) && hi == Max(Abs(a), Abs(b))
    ensures Hypot(a, b) == DogLeg(lo, hi)
  {
  }

  lemma AbsNonNegative(k: real)
    ensures Abs(k) >= 0.0
  {
  }

  lemma HypotScaleLeft(k: real, a: real, b: real)
    ensures Hypot(k * a, k * b) == Abs(k) * Hypot(a, b)
  {
    hide *;
    var c := Abs(k);
    var x, y := Abs(a), Abs(b);
    var x', y' := Abs(k * a), Abs(k * b);
    AbsNonNegative(k);
    AbsProduct(k, a);
    AbsProduct(k, b);
    ScaleMinMax(c, x, y, x', y');
    var lo, hi := Min(x, y), Max(x, y);
    var lo', hi' := Min(x', y'), Max(x', y');
    HypotThrough(a, b, lo, hi);
    HypotThrough(k * a, k * b, lo', hi');
    DogLegScale(c, lo, hi, lo', hi');
  }

  /**
   * Positive homogeneity: scaling a vector by k scales its approximate
   * length by |k|. This is what makes the clamps and the normalisations
   * land exactly on the intended length.
   */
  lemma HypotScale(k: real, a: real, b: real)
    ensures Hypot(a * k, b * k) == Abs(k) * Hypot(a, b)
  {
    assert a * k == k * a && b * k == k * b;
    HypotScaleLeft(k, a, b);
  }

  /**
   * The `(num / len) || 0` guard of the source: a division by a zero length
   * (which yields NaN there, and NaN || 0 is 0) contributes nothing.
   */
  function OrZero(num: real, len: real): real
  {
    if len == 0.0 then 0.0 else num / len
  }

  /** A guarded quotient times a non-zero length gives back the numerator; a zero length gives 0. */
  lemma OrZeroGuard(num: real, len: real)
    ensures len != 0.0 ==> OrZero(num, len) * len == num
    ensures len == 0.0 ==> OrZero(num, len) == 0.0
  {
  }

  /** v scaled by k, component by component. */
  function Scaled(k: real, v: Vec): Vec { Vec(v.x * k, v.y * k) }

  /** r is a positive multiple of v: it points the same way. */
  ghost predicate SameDirection(r: Vec, v: Vec)
  {
    exists k :: k > 0.0 && r == Scaled(k, v)
  }

  /** r is a negative multiple of v: it points the opposite way. */
  ghost predicate OppositeDirection(r: Vec, v: Vec)
  {
    exists k :: k < 0.0 && r == Scaled(k, v)
  }

  /** Negating a vector that points along v makes it point against v. */
  lemma NegatedOpposite(n: Vec, v: Vec)
    requires SameDirection(n, v)
    ensures OppositeDirection(Vec(-n.x, -n.y), v)
  {
    var k :| k > 0.0 && n == Scaled(k, v);
    assert Vec(-n.x, -n.y) == Scaled(-k, v);
  }

  /** Negating both arguments leaves the approximate length unchanged. */
  lemma HypotNegated(a: real, b: real)
    ensures Hypot(-a, -b) == Hypot(a, b)
  {
    HypotSymmetric(-a, b);
    HypotSymmetric(a, b);
  }

  /** A non-zero vector has a positive approximate length. */
  lemma LengthPositive(v: Vec)
    requires v != Zero
    ensures Hypot(v.x, v.y) > 0.0
  {
    HypotBounds(v.x, v.y);
  }

  lemma AbsRatio(w: real, len: real)
    requires len > 0.0
    ensures Abs(w / len) * len == Abs(w)
  {
    AbsProduct(w / len, len);
    assert (w / len) * len == w;
  }

  lemma RatioSign(w: real, len: real)
    requires len > 0.0
    ensures w > 0.0 ==> w / len > 0.0
    ensures w < 0.0 ==> w / len < 0.0
  {
  }

  /** The guarded quotient of a weighted coordinate is that coordinate times w / len. */
  lemma GuardedRatio(w: real, a: real, len: real, k: real)
    requires len > 0.0 && k == w / len
    ensures OrZero(w * a, len) == a * k
  {
    assert OrZero(w * a, len) == (w * a) / len;
  }

  lemma GuardedScale(w: real, v: Vec, len: real, k: real)
    requires len > 0.0 && k == w / len
    ensures Vec(OrZero(w * v.x, len), OrZero(w * v.y, len)) == Scaled(k, v)
  {
    GuardedRatio(w, v.x, len, k);
    GuardedRatio(w, v.y, len, k);
  }

  /**
   * Coordinates (a, b) of positive approximate length len, multiplied by
   * w / len, give coordinates (x, y) of approximate length |w|.
   */
  lemma ToLength(w: real, a: real, b: real, len: real, k: real, x: real, y: real)
    requires len == Hypot(a, b) && len > 0.0 && k == w / len && x == a * k && y == b * k
    ensures Hypot(x, y) == Abs(w)
  {
    hide Hypot;
    HypotScale(k, a, b);
    AbsRatio(w, len);
  }

  /**
   * What the normalisation and the clamp rely on: a vector of positive
   * approximate length len, scaled by w / len, has approximate length |w|
   * and points along the vector when w is positive, against it when w is
   * negative.
   */
  lemma Rescaled(w: real, v: Vec, len: real, k: real, r: Vec)
    requires len == Hypot(v.x, v.y) && len > 0.0 && k == w / len
    requires r == Scaled(k, v)
    ensures Hypot(r.x, r.y) == Abs(w)
    ensures w > 0.0 ==> SameDirection(r, v)
    ensures w < 0.0 ==> OppositeDirection(r, v)
  {
    RatioSign(w, len);
    ToLength(w, v.x, v.y, len, k, r.x, r.y);
  }

  /**
   * A sum vector divided by its own approximate length and multiplied by a
   * weight, each component guarded by OrZero. A zero sum contributes
   * nothing; any other sum yields a vector of approximate length exactly
   * |weight|, pointing along the sum when the weight is positive and
   * against it when the weight is negative.
   */
  function Normalized(v: Vec, weight: real): (r: Vec)
    ensures v == Zero ==> r == Zero
    ensures v != Zero ==> Hypot(r.x, r.y) == Abs(weight)
    ensures v != Zero && weight > 0.0 ==> SameDirection(r, v)
    ensures v != Zero && weight < 0.0 ==> OppositeDirection(r, v)
  {
    var len := Hypot(v.x, v.y);
    var n := Vec(OrZero(weight * v.x, len), OrZero(weight * v.y, len));
    if v == Zero then
      n
    else
      LengthPositive(v);
      var k := weight / len;
      GuardedScale(weight, v, len, k);
      Rescaled(weight, v, len, k, n);
      n
  }

  /** The components of a normalised sum, in the guarded form of the source. */
  lemma NormalizedComponents(v: Vec, weight: real)
    ensures Normalized(v, weight)
         == Vec(OrZero(weight * v.x, Hypot(v.x, v.y)), OrZero(weight * v.y, Hypot(v.x, v.y)))
  {
    hide Hypot, SameDirection, OppositeDirection;
  }

  /**
   * The limit clamp applied to acceleration and to velocity: when the squared
   * length exceeds the squared limit, the vector is multiplied by
   * root / Hypot(v), so that its approximate length becomes exactly |root|,
   * along the vector for a positive root and against it for a negative one;
   * otherwise it is left as it is. The division is safe because a vector
   * whose squared length exceeds a non-negative limit is not the zero vector.
   */
  function Clamp(v: Vec, limit: real, root: real): (r: Vec)
    requires limit >= 0.0
    ensures SquaredLength(v) > limit ==> Hypot(r.x, r.y) == Abs(root)
    ensures SquaredLength(v) > limit && root > 0.0 ==> SameDirection(r, v)
    ensures SquaredLength(v) > limit && root < 0.0 ==> OppositeDirection(r, v)
    ensures SquaredLength(v) <= limit ==> r == v
  {
    if SquaredLength(v) > limit then
      assert v != Zero;
      LengthPositive(v);
      var len := Hypot(v.x, v.y);
      var ratio := root / len;
      var r := Vec(v.x * ratio, v.y * ratio);
      assert r == Scaled(ratio, v);
      Rescaled(root, v, len, ratio, r);
      r
    else
      v
  }
}
