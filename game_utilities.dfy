/**
 * Helpers from `GameUtilities`: the nearest of a list of targets, a point
 * on a parabolic arc, and in-out easing curves, over reals. Distances are
 * compared squared, which orders targets exactly as the Euclidean distance
 * does; the cosine that sine easing needs is an input.
 */
module Utilities {

  import opened Common

  datatype Vec2 = Vec2(x: real, y: real)

  datatype Vec3 = Vec3(x: real, y: real, z: real)

  /** The square of `Vector3.Distance(a, b)`. */
  function SqrDistance(a: Vec3, b: Vec3): (r: real)
    ensures r >= 0.0
  {
    (a.x - b.x) * (a.x - b.x) + (a.y - b.y) * (a.y - b.y) + (a.z - b.z) * (a.z - b.z)
  }

  /** A position nearest to `reference`, among the entries of `targets` below `n` that are there. */
  predicate NearestBelow(reference: Vec3, targets: seq<Option<Vec3>>, n: int, k: nat)
    requires 0 <= n <= |targets|
  {
    && k < n && targets[k].Some?
    && (forall j :: 0 <= j < n && targets[j].Some? ==>
          SqrDistance(reference, targets[k].value) <= SqrDistance(reference, targets[j].value))
    && (forall j :: 0 <= j < k && targets[j].Some? ==>
          SqrDistance(reference, targets[j].value) > SqrDistance(reference, targets[k].value))
  }

  /**
   * `FindClosest`: nothing for a missing or empty list, or one whose
   * entries are all missing; otherwise the index of an entry that is there
   * and nearest to `reference`, the earliest one on a tie (a later entry
   * must be strictly nearer to replace it).
   */
  method FindClosest(reference: Vec3, targets: Option<seq<Option<Vec3>>>) returns (closest: Option<nat>)
    ensures targets.None? || |targets.value| == 0 ==> closest.None?
    ensures targets.Some? ==>
              (closest.None? <==> forall j :: 0 <= j < |targets.value| ==> targets.value[j].None?)
    ensures closest.Some? ==> targets.Some? && NearestBelow(reference, targets.value, |targets.value|, closest.value)
  {
    if targets.None? || |targets.value| == 0 {
      return None;
    }
    var ts := targets.value;
    closest := None;
    var closestDistance: real := 0.0;
    var i := 0;
    while i < |ts|
      invariant 0 <= i <= |ts|
      invariant closest.None? <==> forall j :: 0 <= j < i ==> ts[j].None?
      invariant closest.Some? ==> NearestBelow(reference, ts, i, closest.value)
      invariant closest.Some? ==> closestDistance == SqrDistance(reference, ts[closest.value].value)
    {
      if ts[i].Some? {
        var distance := SqrDistance(reference, ts[i].value);
        if closest.None? || distance < closestDistance {
          closestDistance := distance;
          closest := Some(i);
        }
      }
      i := i + 1;
    }
  }

  /** `Mathf.Clamp01`. */
  function Clamp01(t: real): (r: real)
    ensures 0.0 <= r <= 1.0
    ensures 0.0 <= t <= 1.0 ==> r == t
  {
    Clamp(t, 0.0, 1.0)
  }

  /** `Vector2.Lerp`, whose parameter is clamped to [0, 1]. */
  function Lerp(a: Vec2, b: Vec2, t: real): (r: Vec2)
    ensures Clamp01(t) == 0.0 ==> r == a
    ensures Clamp01(t) == 1.0 ==> r == b
  {
    var u := Clamp01(t);
    Vec2(a.x + (b.x - a.x) * u, a.y + (b.y - a.y) * u)
  }

  /** The height the arc adds above the straight line at `t`; the parameter is not clamped. */
  function ParabolicOffset(height: real, t: real): real
  {
    4.0 * height * t * (1.0 - t)
  }

  /** `CalculateParabolicPoint`: the straight-line point lifted by the arc's offset. */
  function ParabolicPoint(start: Vec2, end: Vec2, height: real, t: real): (r: Vec2)
    ensures r.x == Lerp(start, end, t).x
    ensures r.y == Lerp(start, end, t).y + ParabolicOffset(height, t)
  {
    var p := Lerp(start, end, t);
    Vec2(p.x, p.y + ParabolicOffset(height, t))
  }

  /** The arc starts at the start point, ends at the end point, and peaks `height` above the midpoint. */
  lemma ArcEndsAndPeak(start: Vec2, end: Vec2, height: real)
    ensures ParabolicPoint(start, end, height, 0.0) == start
    ensures ParabolicPoint(start, end, height, 1.0) == end
    ensures ParabolicPoint(start, end, height, 0.5) ==
              Vec2((start.x + end.x) / 2.0, (start.y + end.y) / 2.0 + height)
  {
    assert ParabolicOffset(height, 0.5) == height;
  }

  /**
   * Past the end of the arc the straight-line part stays at the end point
   * but the offset does not: at `t = 2` the point is `8 * height` below it.
   */
  lemma ArcPastTheEnd(start: Vec2, end: Vec2, height: real)
    ensures ParabolicPoint(start, end, height, 2.0) == Vec2(end.x, end.y - 8.0 * height)
  {
    assert ParabolicOffset(height, 2.0) == -8.0 * height;
  }

  /** `EasingType`, with any other value the enum may hold. */
  datatype EasingType = Linear | Quadratic | Cubic | Sine | Other(code: int)

  function QuadraticEase(t: real): real
  {
    if t < 0.5 then 2.0 * t * t else 1.0 - (2.0 - 2.0 * t) * (2.0 - 2.0 * t) / 2.0
  }

  function CubicEase(t: real): real
  {
    if t < 0.5 then 4.0 * t * t * t else 1.0 - (2.0 - 2.0 * t) * (2.0 - 2.0 * t) * (2.0 - 2.0 * t) / 2.0
  }

  /**
   * `EaseInOut`: linear and unknown types leave `t` as it is; quadratic
   * and cubic ease in below 0.5 and out above; sine easing uses
   * `cosPiT`, the cosine of `PI * t`.
   */
  function EaseInOut(t: real, easing: EasingType, cosPiT: real): (r: real)
    ensures easing.Linear? || easing.Other? ==> r == t
    ensures easing.Quadratic? ==> r == QuadraticEase(t)
    ensures easing.Cubic? ==> r == CubicEase(t)
    ensures easing.Sine? ==> r == (1.0 - cosPiT) / 2.0
  {
    match easing
    case Linear => t
    case Quadratic => QuadraticEase(t)
    case Cubic => CubicEase(t)
    case Sine => -(cosPiT - 1.0) / 2.0
    case Other(_) => t
  }

  /** Quadratic and cubic easing go from 0 to 1 through 0.5 at the middle. */
  lemma EasingFixedPoints()
    ensures QuadraticEase(0.0) == 0.0 && QuadraticEase(0.5) == 0.5 && QuadraticEase(1.0) == 1.0
    ensures CubicEase(0.0) == 0.0 && CubicEase(0.5) == 0.5 && CubicEase(1.0) == 1.0
  {
  }

  /**
   * Comparing squared distances orders targets exactly as comparing the
   * distances themselves (the non-negative roots) would.
   */
  lemma SqrDistanceOrdersAsDistance(reference: Vec3, p: Vec3, q: Vec3, dp: real, dq: real)
    requires 0.0 <= dp && dp * dp == SqrDistance(reference, p)
    requires 0.0 <= dq && dq * dq == SqrDistance(reference, q)
    ensures dp <= dq <==> SqrDistance(reference, p) <= SqrDistance(reference, q)
    ensures dp < dq <==> SqrDistance(reference, p) < SqrDistance(reference, q)
  {
    if dp < dq {
      SquareStrict(dp, dq);
    } else if dq < dp {
      SquareStrict(dq, dp);
    }
  }

  lemma SquareStrict(a: real, b: real)
    requires 0.0 <= a < b
    ensures a * a < b * b
  {
    var d := b - a;
    assert b * b == (a + d) * (a + d) == a * a + 2.0 * a * d + d * d;
    assert d * d > 0.0;
    assert a * d >= 0.0;
  }

  lemma SquareMonotone(a: real, b: real)
    requires 0.0 <= a <= b
    ensures 0.0 <= a * a <= b * b
  {
    assert a * a <= a * b;
    assert a * b <= b * b;
  }

  /** Quadratic easing is symmetric about the middle and stays within [0, 1] on [0, 1]. */
  lemma QuadraticEaseSymmetric(t: real)
    requires 0.0 <= t <= 1.0
    ensures QuadraticEase(1.0 - t) == 1.0 - QuadraticEase(t)
    ensures 0.0 <= QuadraticEase(t) <= 1.0
  {
    if t < 0.5 {
      assert 2.0 - 2.0 * (1.0 - t) == 2.0 * t;
      SquareMonotone(t, 0.5);
    } else if t > 0.5 {
      assert 1.0 - t < 0.5;
      assert 2.0 * (1.0 - t) * (1.0 - t) == (2.0 - 2.0 * t) * (2.0 - 2.0 * t) / 2.0;
      SquareMonotone(2.0 - 2.0 * t, 1.0);
    }
  }

  /** Cubic easing is symmetric about the middle. */
  lemma CubicEaseSymmetric(t: real)
    requires 0.0 <= t <= 1.0
    ensures CubicEase(1.0 - t) == 1.0 - CubicEase(t)
  {
    if t < 0.5 {
      assert 2.0 - 2.0 * (1.0 - t) == 2.0 * t;
      assert (2.0 * t) * (2.0 * t) * (2.0 * t) / 2.0 == 4.0 * t * t * t;
    } else if t > 0.5 {
      var u := 1.0 - t;
      assert u < 0.5 && 2.0 - 2.0 * t == 2.0 * u;
      assert (2.0 * u) * (2.0 * u) * (2.0 * u) / 2.0 == 4.0 * u * u * u;
    }
  }
}
