/**
 * Easing curves and the componentwise blends of the camera path.
 *
 * Both easings are piecewise polynomials on the two halves of [0, 1]:
 * `easeInOutCubic(t) = t < 0.5 ? 4t³ : 1 - (2 - 2t)³ / 2` and
 * `easeInOutQuad(t) = t < 0.5 ? 2t² : 1 - (2 - 2t)² / 2`. The blends use
 * three.js's `MathUtils.lerp(x, y, t) = (1 - t)·x + t·y`.
 */
module CameraInterpolation {
  import Interpolation

  /** A `[number, number, number]` triple: a position or Euler angles. */
  datatype Vec3 = Vec3(x: real, y: real, z: real)

  function Square(x: real): real { x * x }

  /** `Math.pow(x, 3)` */
  function Cube(x: real): real { x * x * x }

  /** `easeInOutCubic` */
  function EaseInOutCubic(t: real): real
  {
    if t < 0.5 then 4.0 * Cube(t) else 1.0 - Cube(-2.0 * t + 2.0) / 2.0
  }

  /** `easeInOutQuad` */
  function EaseInOutQuad(t: real): real
  {
    if t < 0.5 then 2.0 * Square(t) else 1.0 - Square(-2.0 * t + 2.0) / 2.0
  }

  lemma SquareMonotone(a: real, b: real)
    requires 0.0 <= a <= b
    ensures 0.0 <= Square(a) <= Square(b)
  {
    assert a * a <= a * b <= b * b;
  }

  lemma CubeMonotone(a: real, b: real)
    requires 0.0 <= a <= b
    ensures 0.0 <= Cube(a) <= Cube(b)
  {
    SquareMonotone(a, b);
    assert a * a * a <= b * b * a by {
      assert a * a <= b * b;
    }
    assert b * b * a <= b * b * b;
  }

  lemma CubicFixedPoints()
    ensures EaseInOutCubic(0.0) == 0.0
    ensures EaseInOutCubic(0.5) == 0.5
    ensures EaseInOutCubic(1.0) == 1.0
  {
    assert Cube(0.0) == 0.0;
    assert -2.0 * 0.5 + 2.0 == 1.0 && Cube(1.0) == 1.0;
    assert -2.0 * 1.0 + 2.0 == 0.0;
  }

  lemma QuadFixedPoints()
    ensures EaseInOutQuad(0.0) == 0.0
    ensures EaseInOutQuad(0.5) == 0.5
    ensures EaseInOutQuad(1.0) == 1.0
  {
  }

  /** On [0, 1] the cubic easing stays in [0, 1]; the first half ends below 0.5 and the second starts at it. */
  lemma CubicRange(t: real)
    requires 0.0 <= t <= 1.0
    ensures 0.0 <= EaseInOutCubic(t) <= 1.0
    ensures t < 0.5 ==> EaseInOutCubic(t) < 0.5
    ensures t >= 0.5 ==> EaseInOutCubic(t) >= 0.5
  {
    if t < 0.5 {
      CubeMonotone(0.0, t);
      StrictCube(t, 0.5);
      assert Cube(0.5) == 0.125;
    } else {
      CubeMonotone(-2.0 * t + 2.0, 1.0);
      assert Cube(1.0) == 1.0;
    }
  }

  lemma StrictSquare(a: real, b: real)
    requires 0.0 <= a < b
    ensures a * a < b * b
  {
    var x, y, z := a * a, a * b, b * b;
    assert x <= y by { assert a * (b - a) >= 0.0; }
    assert y < z by { assert (b - a) * b > 0.0; }
  }

  lemma StrictCube(a: real, b: real)
    requires 0.0 <= a < b
    ensures Cube(a) < Cube(b)
  {
    StrictSquare(a, b);
    var x, y, z := a * a * a, a * a * b, b * b * b;
    assert x <= y by { assert (a * a) * (b - a) >= 0.0; }
    assert y < z by { assert (b * b - a * a) * b > 0.0; }
  }

  /** On [0, 1] the quadratic easing stays in [0, 1]; the first half ends below 0.5 and the second starts at it. */
  lemma QuadRange(t: real)
    requires 0.0 <= t <= 1.0
    ensures 0.0 <= EaseInOutQuad(t) <= 1.0
    ensures t < 0.5 ==> EaseInOutQuad(t) < 0.5
    ensures t >= 0.5 ==> EaseInOutQuad(t) >= 0.5
  {
    if t < 0.5 {
      assert t * t < 0.5 * 0.5 by {
        assert t * t <= t * 0.5 < 0.5 * 0.5;
      }
    } else {
      SquareMonotone(-2.0 * t + 2.0, 1.0);
    }
  }

  /** The cubic easing never decreases on [0, 1]. */
  lemma CubicMonotone(a: real, b: real)
    requires 0.0 <= a <= b <= 1.0
    ensures EaseInOutCubic(a) <= EaseInOutCubic(b)
  {
    CubicRange(a);
    CubicRange(b);
    if b < 0.5 {
      CubeMonotone(a, b);
    } else if a >= 0.5 {
      CubeMonotone(-2.0 * b + 2.0, -2.0 * a + 2.0);
    }
  }

  /** The quadratic easing never decreases on [0, 1]. */
  lemma QuadMonotone(a: real, b: real)
    requires 0.0 <= a <= b <= 1.0
    ensures EaseInOutQuad(a) <= EaseInOutQuad(b)
  {
    QuadRange(a);
    QuadRange(b);
    if b < 0.5 {
      SquareMonotone(a, b);
    } else if a >= 0.5 {
      SquareMonotone(-2.0 * b + 2.0, -2.0 * a + 2.0);
    }
  }

  /** The cubic easing is point-symmetric about (0.5, 0.5). */
  lemma CubicSymmetric(t: real)
    ensures EaseInOutCubic(1.0 - t) == 1.0 - EaseInOutCubic(t)
  {
    if t < 0.5 {
      assert -2.0 * (1.0 - t) + 2.0 == 2.0 * t;
      assert Cube(2.0 * t) == 8.0 * Cube(t);
    } else if t > 0.5 {
      assert -2.0 * t + 2.0 == 2.0 * (1.0 - t);
      assert Cube(2.0 * (1.0 - t)) == 8.0 * Cube(1.0 - t);
    }
  }

  /** The quadratic easing is point-symmetric about (0.5, 0.5). */
  lemma QuadSymmetric(t: real)
    ensures EaseInOutQuad(1.0 - t) == 1.0 - EaseInOutQuad(t)
  {
    if t < 0.5 {
      assert -2.0 * (1.0 - t) + 2.0 == 2.0 * t;
      assert Square(2.0 * t) == 4.0 * Square(t);
    } else if t > 0.5 {
      assert -2.0 * t + 2.0 == 2.0 * (1.0 - t);
      assert Square(2.0 * (1.0 - t)) == 4.0 * Square(1.0 - t);
    }
  }

  /** `THREE.MathUtils.lerp(x, y, t)` */
  function ThreeLerp(x: real, y: real, t: real): (r: real)
    ensures r == Interpolation.Lerp(x, y, t)
  {
    (1.0 - t) * x + t * y
  }

  /** Componentwise `THREE.MathUtils.lerp` of two triples. */
  function LerpVec(a: Vec3, b: Vec3, t: real): (r: Vec3)
    ensures t == 0.0 ==> r == a
    ensures t == 1.0 ==> r == b
    ensures 0.0 <= t <= 1.0 ==>
      Interpolation.Between(r.x, a.x, b.x) && Interpolation.Between(r.y, a.y, b.y) && Interpolation.Between(r.z, a.z, b.z)
  {
    Vec3(ThreeLerp(a.x, b.x, t), ThreeLerp(a.y, b.y, t), ThreeLerp(a.z, b.z, t))
  }

  /** `lerpPosition(start, end, t)`: the eased componentwise blend. */
  function LerpPosition(start: Vec3, end: Vec3, t: real): (r: Vec3)
    ensures t == 0.0 ==> r == start
    ensures t == 1.0 ==> r == end
    ensures 0.0 <= t <= 1.0 ==>
      Interpolation.Between(r.x, start.x, end.x) && Interpolation.Between(r.y, start.y, end.y) && Interpolation.Between(r.z, start.z, end.z)
  {
    CubicFixedPoints();
    if 0.0 <= t <= 1.0 then CubicRange(t); LerpVec(start, end, EaseInOutCubic(t))
    else LerpVec(start, end, EaseInOutCubic(t))
  }

  /** `lerpFOV(start, end, t)` */
  function LerpFOV(start: real, end: real, t: real): (r: real)
    ensures t == 0.0 ==> r == start
    ensures t == 1.0 ==> r == end
    ensures t == 0.5 ==> r == (start + end) / 2.0
    ensures 0.0 <= t <= 1.0 ==> Interpolation.Between(r, start, end)
  {
    CubicFixedPoints();
    if 0.0 <= t <= 1.0 then CubicRange(t); ThreeLerp(start, end, EaseInOutCubic(t))
    else ThreeLerp(start, end, EaseInOutCubic(t))
  }
}
