/**
 * The `Ornaments` component: 160 baubles scattered over a cone. Each
 * iteration draws a height, an angle and a scale, in that order, narrows the
 * radius as the height grows, and keeps a floor radius so that the apex
 * does not collapse to a point.
 */
module Ornaments {
  import opened Host

  /** Number of ornaments (`count`). */
  const Count: nat := 160

  /** Calls to `Math.random` per ornament: height, angle, scale. */
  const DrawsPerOrnament: nat := 3

  /** One pushed entry `[x, y, z, scale]`. */
  datatype Ornament = Ornament(x: real, y: real, z: real, scale: real)

  /** Cone falloff: the distance from the trunk at height draw `h`. */
  function Radius(m: Math, h: real): real {
    (1.0 - m.pow(h, 0.8)) * 1.3 + 0.05
  }

  /** The ornament that the draws `h`, `a` (angle) and `s` (scale) place. */
  function Place(m: Math, h: real, a: real, s: real): Ornament {
    var angle := a * Pi * 2.0;
    Ornament(m.cos(angle) * Radius(m, h), h * 2.4 - 1.0, m.sin(angle) * Radius(m, h), 0.03 + s * 0.03)
  }

  /** The ornament that entry `i` of the loop builds from `draws`. */
  function Entry(m: Math, draws: seq<real>, i: nat): Ornament
    requires DrawsPerOrnament * i + 2 < |draws|
  {
    Place(m, draws[DrawsPerOrnament * i], draws[DrawsPerOrnament * i + 1], draws[DrawsPerOrnament * i + 2])
  }

  /** The bounds every placed ornament keeps. */
  predicate InBounds(o: Ornament) {
    && -1.0 <= o.y < 1.4
    && 0.03 <= o.scale < 0.06
    && 0.05 * 0.05 <= o.x * o.x + o.z * o.z <= 1.35 * 1.35
  }

  /** For a height in [0, 1] the radius lies in [0.05, 1.35]. */
  lemma RadiusBounds(m: Math, h: real)
    requires PowLaws(m) && 0.0 <= h <= 1.0
    ensures 0.05 <= Radius(m, h) <= 1.35
  {
  }

  /** The radius never grows with the height: the silhouette is a cone. */
  lemma RadiusAntitone(m: Math, h1: real, h2: real)
    requires PowLaws(m) && 0.0 <= h1 <= h2 <= 1.0
    ensures Radius(m, h1) >= Radius(m, h2)
  {
  }

  /** The horizontal offset of an ornament lies on the circle of its radius. */
  lemma OnCircle(m: Math, h: real, a: real, s: real)
    requires Pythagorean(m)
    ensures var o := Place(m, h, a, s);
      o.x * o.x + o.z * o.z == Radius(m, h) * Radius(m, h)
  {
  }

  /** Draws in [0, 1) place an ornament within the bounds. */
  lemma PlaceInBounds(m: Math, h: real, a: real, s: real)
    requires Pythagorean(m) && PowLaws(m) && IsDraw(h) && IsDraw(a) && IsDraw(s)
    ensures InBounds(Place(m, h, a, s))
  {
    RadiusBounds(m, h);
    OnCircle(m, h, a, s);
    var r := Radius(m, h);
    assert 0.05 * 0.05 <= r * r <= 1.35 * 1.35 by {
      assert 0.05 * 0.05 <= 0.05 * r <= r * r;
      assert r * r <= 1.35 * r <= 1.35 * 1.35;
    }
  }

  /**
   * The loop of `Ornaments`: `Count` iterations, each consuming the next
   * three draws (height, angle, scale) and pushing one ornament.
   */
  method Positions(m: Math, draws: seq<real>) returns (pts: seq<Ornament>, used: nat)
    requires DrawsPerOrnament * Count <= |draws|
    ensures |pts| == Count && used == DrawsPerOrnament * Count
    ensures forall i :: 0 <= i < |pts| ==> pts[i] == Entry(m, draws, i)
    ensures Pythagorean(m) && PowLaws(m) && AllDraws(draws) ==> forall i :: 0 <= i < |pts| ==> InBounds(pts[i])
  {
    pts, used := [], 0;
    var i := 0;
    while i < Count
      invariant 0 <= i <= Count && used == DrawsPerOrnament * i
      invariant |pts| == i
      invariant forall k :: 0 <= k < i ==> pts[k] == Entry(m, draws, k)
    {
      var h := draws[used];
      used := used + 1;
      var radius := Radius(m, h);
      var angle := draws[used] * Pi * 2.0;
      used := used + 1;
      var x := m.cos(angle) * radius;
      var z := m.sin(angle) * radius;
      var y := h * 2.4 - 1.0;
      var scale := 0.03 + draws[used] * 0.03;
      used := used + 1;
      pts := pts + [Ornament(x, y, z, scale)];
      i := i + 1;
    }
    if Pythagorean(m) && PowLaws(m) && AllDraws(draws) {
      forall i | 0 <= i < |pts| ensures InBounds(pts[i]) {
        PlaceInBounds(m, draws[DrawsPerOrnament * i], draws[DrawsPerOrnament * i + 1], draws[DrawsPerOrnament * i + 2]);
      }
    }
  }
}
