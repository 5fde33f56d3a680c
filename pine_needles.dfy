/**
 * The `PineNeedles` component: 4000 instanced cones filling the tree's
 * volume. Each iteration draws a height, a radial jitter, an angle, a yaw
 * and a tilt, in that order. Unlike the ornaments, the radius has no floor
 * term, so it shrinks towards zero near the apex.
 */
module PineNeedles {
  import opened Host

  /** Number of needle instances (`instances`). */
  const Instances: nat := 4000

  /** Calls to `Math.random` per needle: height, jitter, angle, yaw, tilt. */
  const DrawsPerNeedle: nat := 5

  /** One pushed entry `[x, y, z, rx, ry]`. */
  datatype Needle = Needle(x: real, y: real, z: real, rx: real, ry: real)

  /** Multiplicative radial jitter made from the draw `j`. */
  function Jitter(j: real): real {
    0.95 + j * 0.1
  }

  /** Cone falloff at height draw `h`, scaled by the jitter draw `j`. */
  function Radius(m: Math, h: real, j: real): real {
    (1.0 - m.pow(h, 0.85)) * 1.3 * Jitter(j)
  }

  /** The needle placed by the draws height, jitter, angle, yaw, tilt. */
  function Place(m: Math, h: real, j: real, a: real, yaw: real, tilt: real): Needle {
    var angle := a * Pi * 2.0;
    Needle(m.cos(angle) * Radius(m, h, j), h * 2.5 - 1.1, m.sin(angle) * Radius(m, h, j),
           tilt * 0.6 - 0.3, yaw * Pi * 2.0)
  }

  /** The needle that entry `i` of the loop builds from `draws`. */
  function Entry(m: Math, draws: seq<real>, i: nat): Needle
    requires DrawsPerNeedle * i + 4 < |draws|
  {
    Place(m, draws[DrawsPerNeedle * i], draws[DrawsPerNeedle * i + 1], draws[DrawsPerNeedle * i + 2], draws[DrawsPerNeedle * i + 3], draws[DrawsPerNeedle * i + 4])
  }

  /** The bounds every placed needle keeps. */
  predicate InBounds(n: Needle) {
    && -1.1 <= n.y < 1.4
    && 0.0 <= n.ry < 2.0 * Pi
    && -0.3 <= n.rx < 0.3
    && n.x * n.x + n.z * n.z < (1.3 * 1.05) * (1.3 * 1.05)
  }

  /** The jitter factor of a draw lies in [0.95, 1.05). */
  lemma JitterBounds(j: real)
    requires IsDraw(j)
    ensures 0.95 <= Jitter(j) < 1.05
  {
  }

  /** For a height in [0, 1] and a draw jitter, 0 <= radius < 1.3 * 1.05. */
  lemma RadiusBounds(m: Math, h: real, j: real)
    requires PowLaws(m) && 0.0 <= h <= 1.0 && IsDraw(j)
    ensures 0.0 <= Radius(m, h, j) < 1.3 * 1.05
  {
    var f := 1.0 - m.pow(h, 0.85);
    assert 0.0 <= f <= 1.0;
    if f == 0.0 {
      assert Radius(m, h, j) == 0.0;
    } else {
      var g := f * 1.3;
      assert 0.0 < g <= 1.3 && Radius(m, h, j) == g * Jitter(j);
      assert 0.0 < g * Jitter(j) < g * 1.05 <= 1.3 * 1.05;
    }
  }

  /**
   * No floor term: the radius is zero exactly where the falloff power
   * reaches 1 (the apex), whereas an ornament's radius never drops below
   * 0.05 there.
   */
  lemma ZeroRadiusAtApex(m: Math, h: real, j: real)
    requires IsDraw(j)
    ensures Radius(m, h, j) == 0.0 <==> m.pow(h, 0.85) == 1.0
  {
    JitterBounds(j);
    var f, g := 1.0 - m.pow(h, 0.85), 1.3 * Jitter(j);
    assert Radius(m, h, j) == f * g;
    if f > 0.0 {
      assert f * g > 0.0;
    } else if f < 0.0 {
      assert f * g < 0.0;
    }
  }

  /** For equal jitter the radius never grows with the height. */
  lemma RadiusAntitone(m: Math, h1: real, h2: real, j: real)
    requires PowLaws(m) && 0.0 <= h1 <= h2 <= 1.0 && IsDraw(j)
    ensures Radius(m, h1, j) >= Radius(m, h2, j)
  {
    var p1, p2 := m.pow(h1, 0.85), m.pow(h2, 0.85);
    assert p1 <= p2;
    assert (1.0 - p1) * (1.3 * Jitter(j)) >= (1.0 - p2) * (1.3 * Jitter(j));
  }

  /** The horizontal offset of a needle lies on the circle of its radius. */
  lemma OnCircle(m: Math, h: real, j: real, a: real, yaw: real, tilt: real)
    requires Pythagorean(m)
    ensures var n := Place(m, h, j, a, yaw, tilt);
      n.x * n.x + n.z * n.z == Radius(m, h, j) * Radius(m, h, j)
  {
  }

  /** Draws in [0, 1) place a needle within the bounds. */
  lemma PlaceInBounds(m: Math, h: real, j: real, a: real, yaw: real, tilt: real)
    requires Pythagorean(m) && PowLaws(m) && IsDraw(h) && IsDraw(j) && IsDraw(a) && IsDraw(yaw) && IsDraw(tilt)
    ensures InBounds(Place(m, h, j, a, yaw, tilt))
  {
    RadiusBounds(m, h, j);
    OnCircle(m, h, j, a, yaw, tilt);
    var r := Radius(m, h, j);
    assert r * r < (1.3 * 1.05) * (1.3 * 1.05) by {
      assert r * r <= 1.3 * 1.05 * r;
      if r > 0.0 {
        assert 1.3 * 1.05 * r < (1.3 * 1.05) * (1.3 * 1.05);
      }
    }
  }

  /**
   * The loop of `PineNeedles`: `Instances` iterations, each consuming the
   * next five draws (height, jitter, angle, yaw, tilt) and pushing one needle.
   */
  method Positions(m: Math, draws: seq<real>) returns (data: seq<Needle>, used: nat)
    requires DrawsPerNeedle * Instances <= |draws|
    ensures |data| == Instances && used == DrawsPerNeedle * Instances
    ensures forall i :: 0 <= i < |data| ==> data[i] == Entry(m, draws, i)
    ensures Pythagorean(m) && PowLaws(m) && AllDraws(draws) ==> forall i :: 0 <= i < |data| ==> InBounds(data[i])
  {
    data, used := [], 0;
    var i := 0;
    while i < Instances
      invariant 0 <= i <= Instances && used == DrawsPerNeedle * i
      invariant |data| == i
      invariant forall k :: 0 <= k < i ==> data[k] == Entry(m, draws, k)
    {
      var h := draws[used];
      used := used + 1;
      var r := (1.0 - m.pow(h, 0.85)) * 1.3 * (0.95 + draws[used] * 0.1);
      used := used + 1;
      var angle := draws[used] * Pi * 2.0;
      used := used + 1;
      var x := m.cos(angle) * r;
      var z := m.sin(angle) * r;
      var y := h * 2.5 - 1.1;
      var ry := draws[used] * Pi * 2.0;
      used := used + 1;
      var rx := draws[used] * 0.6 - 0.3;
      used := used + 1;
      data := data + [Needle(x, y, z, rx, ry)];
      i := i + 1;
    }
    if Pythagorean(m) && PowLaws(m) && AllDraws(draws) {
      forall i | 0 <= i < |data| ensures InBounds(data[i]) {
        PlaceInBounds(m, draws[DrawsPerNeedle * i], draws[DrawsPerNeedle * i + 1], draws[DrawsPerNeedle * i + 2], draws[DrawsPerNeedle * i + 3], draws[DrawsPerNeedle * i + 4]);
      }
    }
  }
}
