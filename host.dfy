/**
 * What the tree generators take from their host: the JavaScript `Math`
 * functions they call (`cos`, `sin`, `pow`, `PI`), the random draws that
 * `Math.random` would have produced, and three.js's `Vector3` as a value.
 *
 * Doubles are modelled as exact reals. `cos`, `sin` and `pow` are not
 * defined here: a `Math` value carries whatever functions the host supplies,
 * and `Pythagorean`, `PowLaws` and `SpiralEnds` list the only facts about
 * them that the proofs rely on.
 */
module Host {

  /** `Math.PI`: a decimal that rounds to `Math.PI`, taken as an exact real. */
  const Pi: real := 3.141592653589793

  /** The host's `Math.cos`, `Math.sin` and `Math.pow`. */
  datatype Math = Math(cos: real -> real, sin: real -> real, pow: (real, real) -> real)

  /** The Pythagorean identity, which the true `cos` and `sin` satisfy. */
  ghost predicate Pythagorean(m: Math) {
    forall a :: m.cos(a) * m.cos(a) + m.sin(a) * m.sin(a) == 1.0
  }

  /**
   * A positive power of a height in [0, 1] stays in [0, 1] and grows with
   * the height, as the true `pow` does.
   */
  ghost predicate PowLaws(m: Math) {
    && (forall h, e :: 0.0 <= h <= 1.0 && 0.0 < e ==> 0.0 <= m.pow(h, e) <= 1.0)
    && (forall h1, h2, e :: 0.0 <= h1 <= h2 <= 1.0 && 0.0 < e ==> m.pow(h1, e) <= m.pow(h2, e))
  }

  /**
   * `cos` and `sin` at the garland's first angle, 0, and at its last angle,
   * eight full turns `16 * Pi`. The second pair holds of the true functions
   * only up to rounding, because `Pi` is a decimal and not pi itself.
   */
  ghost predicate SpiralEnds(m: Math) {
    && m.cos(0.0) == 1.0 && m.sin(0.0) == 0.0
    && m.cos(16.0 * Pi) == 1.0 && m.sin(16.0 * Pi) == 0.0
  }

  /** A host that satisfies all three groups of laws, so they are consistent. */
  function Degenerate(): (m: Math)
    ensures Pythagorean(m) && PowLaws(m) && SpiralEnds(m)
  {
    Math(_ => 1.0, _ => 0.0, (h, e) => h)
  }

  /** One value `Math.random()` can return: a real in [0, 1). */
  predicate IsDraw(r: real) {
    0.0 <= r < 1.0
  }

  /** Every draw of a random stream lies in [0, 1). */
  predicate AllDraws(draws: seq<real>) {
    forall k :: 0 <= k < |draws| ==> IsDraw(draws[k])
  }

  /** A `THREE.Vector3`, used here only as an immutable point. */
  datatype Vec3 = Vec3(x: real, y: real, z: real)

  /** Coordinate `c` of `v`: 0 is x, 1 is y, 2 is z. */
  function Coord(v: Vec3, c: nat): real
    requires c < 3
  {
    if c == 0 then v.x else if c == 1 then v.y else v.z
  }
}
