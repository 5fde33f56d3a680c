/**
 * The `Garland` component's control points: a spiral of eight turns whose
 * height rises linearly and whose radius shrinks linearly as the parameter
 * `t = i / samples` runs over `i = 0 .. samples` inclusive.
 */
module Garland {
  import opened Host

  /** Number of segments (`samples`); the loop makes one more point. */
  const Samples: nat := 700

  /** Full turns of the spiral (`turns`). */
  const Turns: nat := 8

  /** The curve parameter of point `i`. */
  function T(i: nat): real {
    (i as real) / (Samples as real)
  }

  /** Angle of point `i` around the trunk. */
  function Angle(i: nat): real {
    T(i) * Pi * 2.0 * (Turns as real)
  }

  /** Height of point `i`. */
  function Height(i: nat): real {
    T(i) * 2.3 - 0.95
  }

  /** Distance of point `i` from the trunk. */
  function Radius(i: nat): real {
    (1.0 - T(i)) * 1.2 + 0.08
  }

  /** Control point `i` of the spiral. */
  function Point(m: Math, i: nat): Vec3 {
    Vec3(m.cos(Angle(i)) * Radius(i), Height(i), m.sin(Angle(i)) * Radius(i))
  }

  /** The parameter runs from exactly 0 at the first point to exactly 1 at the last. */
  lemma ParameterRange(i: nat)
    requires i <= Samples
    ensures 0.0 <= T(i) <= 1.0
    ensures T(0) == 0.0 && T(Samples) == 1.0
  {
  }

  /** Height strictly rises along the spiral, from -0.95 to 1.35. */
  lemma HeightIncreasing(i: nat, j: nat)
    requires i < j
    ensures Height(i) < Height(j)
    ensures Height(0) == -0.95 && Height(Samples) == 1.35
  {
  }

  /** Radius strictly shrinks along the spiral, from 1.28 to 0.08. */
  lemma RadiusDecreasing(i: nat, j: nat)
    requires i < j
    ensures Radius(i) > Radius(j)
    ensures Radius(0) == 1.28 && Radius(Samples) == 0.08
  {
  }

  /** Every control point lies on the circle of its radius at its height. */
  lemma OnCircle(m: Math, i: nat)
    requires Pythagorean(m)
    ensures var p := Point(m, i);
      p.x * p.x + p.z * p.z == Radius(i) * Radius(i) && p.y == Height(i)
  {
  }

  /**
   * The spiral starts at (1.28, -0.95, 0) and ends at (0.08, 1.35, 0): its
   * angle is 0 at the start and eight full turns at the end.
   */
  lemma Ends(m: Math)
    requires SpiralEnds(m)
    ensures Point(m, 0) == Vec3(1.28, -0.95, 0.0)
    ensures Point(m, Samples) == Vec3(0.08, 1.35, 0.0)
  {
  }

  /**
   * The loop of `Garland`: for `i = 0 .. Samples` inclusive, push control
   * point `i`, so that `Samples + 1` points come out in order.
   */
  method Points(m: Math) returns (pts: seq<Vec3>)
    ensures |pts| == Samples + 1
    ensures forall i :: 0 <= i < |pts| ==> pts[i] == Point(m, i)
    ensures SpiralEnds(m) ==> pts[0] == Vec3(1.28, -0.95, 0.0) && pts[Samples] == Vec3(0.08, 1.35, 0.0)
  {
    pts := [];
    var i := 0;
    while i <= Samples
      invariant 0 <= i <= Samples + 1
      invariant |pts| == i
      invariant forall k :: 0 <= k < i ==> pts[k] == Point(m, k)
    {
      var t := (i as real) / (Samples as real);
      var angle := t * Pi * 2.0 * (Turns as real);
      var h := t * 2.3 - 0.95;
      var r := (1.0 - t) * 1.2 + 0.08;
      pts := pts + [Vec3(m.cos(angle) * r, h, m.sin(angle) * r)];
      i := i + 1;
    }
    if SpiralEnds(m) {
      Ends(m);
    }
  }
}
