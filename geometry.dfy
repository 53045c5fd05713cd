/**
 * Vectors and orientations of the scene graph, as the flight update uses them.
 *
 * A `Vec3` stands for a three.js `Vector3` with real components. An
 * `Orientation` is the composition of the local-frame turns applied to the
 * cockpit since its model was placed in the scene (`rotateX` and `rotateZ`
 * post-multiply the node's quaternion), kept as the ordered list of those
 * turns. The quaternion arithmetic that turns a vector into the world frame
 * is not modelled: a caller supplies it as a map `(Orientation, Vec3) -> Vec3`
 * that is only required to be a rotation, that is, to keep lengths.
 */
module Geometry {

  datatype Vec3 = Vec3(x: real, y: real, z: real)

  const Zero: Vec3 := Vec3(0.0, 0.0, 0.0)

  function Add(u: Vec3, v: Vec3): Vec3 {
    Vec3(u.x + v.x, u.y + v.y, u.z + v.z)
  }

  function Scale(k: real, v: Vec3): Vec3 {
    Vec3(k * v.x, k * v.y, k * v.z)
  }

  /** The square of a real number. */
  function Sq(a: real): (r: real)
    ensures r >= 0.0
  {
    SquareNonNegative(a);
    a * a
  }

  lemma SquareNonNegative(a: real)
    ensures a * a >= 0.0
  {
    if a < 0.0 {
      var b := -a;
      MulPositive(b, b);
      assert a * a == b * b;
    } else if a > 0.0 {
      MulPositive(a, a);
    }
  }

  /** The squared length of a vector. */
  function Norm2(v: Vec3): (r: real)
    ensures r >= 0.0
  {
    Sq(v.x) + Sq(v.y) + Sq(v.z)
  }

  lemma MulPositive(a: real, b: real)
    requires a > 0.0 && b > 0.0
    ensures a * b > 0.0
  {
  }

  /** Multiplying by a non-negative factor keeps an inequality. */
  lemma MulMono(k: real, a: real, b: real)
    requires k >= 0.0 && a <= b
    ensures k * a <= k * b
  {
    if k > 0.0 && a < b {
      MulPositive(k, b - a);
      assert k * (b - a) == k * b - k * a;
    }
  }

  lemma MulNonNegative(a: real, b: real)
    requires a >= 0.0 && b >= 0.0
    ensures a * b >= 0.0
  {
    if a > 0.0 && b > 0.0 {
      MulPositive(a, b);
    }
  }

  /** A positive number times a factor below one is smaller than the number. */
  lemma MulBelow(k: real, factor: real)
    requires k > 0.0 && factor < 1.0
    ensures k * factor < k
  {
    MulPositive(k, 1.0 - factor);
    assert k * (1.0 - factor) == k - k * factor;
  }

  /** A positive number times a factor in `[0, 1)` stays in `[0, v)`. */
  lemma MulShrinksPositive(v: real, factor: real)
    requires v > 0.0 && 0.0 <= factor < 1.0
    ensures 0.0 <= v * factor < v
  {
    MulBelow(v, factor);
    MulNonNegative(v, factor);
  }

  /** A negative number times a factor in `[0, 1)` stays in `(v, 0]`. */
  lemma MulShrinksNegative(v: real, factor: real)
    requires v < 0.0 && 0.0 <= factor < 1.0
    ensures v < v * factor <= 0.0
  {
    MulShrinksPositive(-v, factor);
    assert (-v) * factor == -(v * factor);
  }

  /** The axis of a local turn: X for pitch, Z for roll. */
  datatype Axis = X | Z

  datatype Turn = Turn(axis: Axis, angle: real)

  /** The local turns applied so far, oldest first. */
  type Orientation = seq<Turn>

  /** `Object3D.rotateX`: a turn about the node's own X axis, after all earlier turns. */
  function RotateX(o: Orientation, angle: real): (r: Orientation)
    ensures |r| == |o| + 1 && r[..|o|] == o && r[|o|] == Turn(X, angle)
  {
    o + [Turn(X, angle)]
  }

  /** `Object3D.rotateZ`: a turn about the node's own Z axis, after all earlier turns. */
  function RotateZ(o: Orientation, angle: real): (r: Orientation)
    ensures |r| == |o| + 1 && r[..|o|] == o && r[|o|] == Turn(Z, angle)
  {
    o + [Turn(Z, angle)]
  }

  /**
   * What `applyQuaternion` with the node's (unit) quaternion promises: the
   * vector is turned, never stretched.
   */
  ghost predicate IsRotation(toWorld: (Orientation, Vec3) -> Vec3) {
    forall o, v :: Norm2(toWorld(o, v)) == Norm2(v)
  }

  /** Squaring is strictly increasing on the non-negative reals. */
  lemma SquareGrows(a: real, b: real)
    requires 0.0 <= a < b
    ensures Sq(a) < Sq(b)
  {
    MulStrict(a, b, a, b);
  }

  lemma MulStrict(a: real, b: real, c: real, d: real)
    requires 0.0 <= a < b && 0.0 <= c < d
    ensures a * c < b * d
  {
    MulMono(a, c, d);
    MulPositive(b - a, d);
    assert (b - a) * d == b * d - a * d;
  }

  function Abs(a: real): (r: real)
    ensures r >= 0.0 && (r == a || r == -a)
  {
    if a < 0.0 then -a else a
  }

  lemma SquareAbs(a: real)
    ensures Sq(Abs(a)) == Sq(a)
  {
    if a < 0.0 {
      assert (-a) * (-a) == a * a;
    }
  }

  /** A number whose square is at most `Sq(bound)` lies within `bound` of zero. */
  lemma WithinBound(a: real, bound: real)
    requires bound >= 0.0 && Sq(a) <= Sq(bound)
    ensures -bound <= a <= bound
  {
    if Abs(a) > bound {
      SquareGrows(bound, Abs(a));
      SquareAbs(a);
    }
  }

  /** No component of a vector is longer than the vector itself. */
  lemma ComponentBound(v: Vec3, bound: real)
    requires bound >= 0.0 && Norm2(v) <= Sq(bound)
    ensures -bound <= v.x <= bound && -bound <= v.y <= bound && -bound <= v.z <= bound
  {
    WithinBound(v.x, bound);
    WithinBound(v.y, bound);
    WithinBound(v.z, bound);
  }

}
