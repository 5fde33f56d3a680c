# Procedural tree geometry, modelled in Dafny

The tree scene in `components/TreeCanvas.tsx` has four loops that produce
geometry. Everything else in the scene is rendering. This project models
those four loops and proves what their outputs look like:

- `Ornaments` scatters 160 baubles over a cone. The cone's radius shrinks
  with height but never goes below 0.05.
- `PineNeedles` scatters 4000 needles with a jittered radius and a random
  yaw and tilt. Its radius has no floor.
- `Garland` builds the 701 control points of an eight-turn spiral. The
  spiral rises and narrows linearly.
- `PointsAlongCurve` flattens a list of points into a buffer of `3n`
  numbers.

Each loop is a Dafny `method` with a `while` loop that appends to a
sequence, or fills an array in the flattener's case. The three generators
are proved entry by entry against a function for one iteration (`Entry`,
`Point`). `Fill` is proved equal to the recursive buffer layout `Flatten`.
Lemmas about those functions give the bounds, the ordering and the round
trip.

Modelling choices:

- JavaScript numbers are exact `real`s.
- `Math.PI` is the constant `Host.Pi`.
- `Math.cos`, `Math.sin` and `Math.pow` are fields of a `Host.Math` value
  passed to every generator. Three predicates list the only facts the
  proofs use about them:
  - `Host.Pythagorean`: `cos² + sin² = 1`. The `OnCircle` lemmas rely on
    it, and so do the horizontal-distance bounds.
  - `Host.PowLaws`: for `h` in [0, 1] and `e > 0`, `pow(h, e)` lies in
    [0, 1] and does not decrease as `h` grows. The radius bounds and the
    radius ordering rely on it.
  - `Host.SpiralEnds`: `cos(0) = 1`, `sin(0) = 0`, `cos(16 * Pi) = 1` and
    `sin(16 * Pi) = 0`. Only the garland's end points rely on it.
- The true `cos`, `sin` and `pow` satisfy the first two groups, so every
  ornament and needle bound holds of them. The true functions satisfy the
  third group only up to rounding, because `Pi` is not exactly π.
- `Host.Degenerate` shows that some host satisfies all three groups, so
  they are consistent.
- `Math.random` becomes a sequence of draws. A loop reads the draws in
  source order through a cursor, and the method returns how many it used.
  The bounds hold when every draw lies in [0, 1), as `Math.random`
  guarantees.

The code fixes these choices:

- The counts and constants are literals (160, 4000, 700, eight turns).
- The needles use their own falloff: exponent 0.85, a multiplicative
  jitter `0.95 + r * 0.1` and no floor radius.
- Ornaments draw in the order height, angle, scale. Needles draw in the
  order height, jitter, angle, yaw, tilt.
- A needle's tilt is `r * 0.6 - 0.3`, so it lies in [-0.3, 0.3).

## Model

| member | source | states |
|---|---|---|
| Ornaments.Positions | components/TreeCanvas.tsx:11-25 | Exactly 160 ornaments. Three draws are used per ornament. Ornament `i` is made from draws `3i`, `3i+1`, `3i+2` (height, angle, scale). Under the Pythagorean and `pow` laws and with draws in [0, 1), every ornament has `y` in [-1.0, 1.4), scale in [0.03, 0.06), and `x² + z²` in [0.05², 1.35²]. |
| Ornaments.RadiusBounds | components/TreeCanvas.tsx:16 | For a height in [0, 1], the cone radius `(1 - h^0.8) * 1.3 + 0.05` lies in [0.05, 1.35]. |
| Ornaments.RadiusAntitone | components/TreeCanvas.tsx:16 | The ornament radius does not increase as the height grows. |
| Ornaments.OnCircle | components/TreeCanvas.tsx:16-19 | An ornament's horizontal offset satisfies `x² + z² = radius²`. |
| Ornaments.PlaceInBounds | components/TreeCanvas.tsx:15-21 | Draws in [0, 1) give `y = h*2.4 - 1.0` in [-1.0, 1.4), scale `0.03 + r*0.03` in [0.03, 0.06), and a horizontal distance in [0.05, 1.35]. |
| PineNeedles.Positions | components/TreeCanvas.tsx:110-124 | Exactly 4000 needles. Five draws are used per needle. Needle `i` is made from draws `5i .. 5i+4` (height, jitter, angle, yaw `ry`, tilt `rx`). Under the Pythagorean and `pow` laws and with draws in [0, 1), every needle has `y` in [-1.1, 1.4), `ry` in [0, 2π), `rx` in [-0.3, 0.3), and `x² + z² < (1.3*1.05)²`. |
| PineNeedles.JitterBounds | components/TreeCanvas.tsx:114 | The jitter factor `0.95 + r*0.1` of a draw lies in [0.95, 1.05). |
| PineNeedles.RadiusBounds | components/TreeCanvas.tsx:114 | For a height in [0, 1] and a drawn jitter, the needle radius is non-negative and below `1.3*1.05`. |
| PineNeedles.ZeroRadiusAtApex | components/TreeCanvas.tsx:114 | The radius has no floor term. It is zero exactly when `pow(h, 0.85) = 1`. |
| PineNeedles.RadiusAntitone | components/TreeCanvas.tsx:114 | With the same jitter, the needle radius does not increase as the height grows. |
| PineNeedles.OnCircle | components/TreeCanvas.tsx:114-117 | A needle's horizontal offset satisfies `x² + z² = radius²`. |
| PineNeedles.PlaceInBounds | components/TreeCanvas.tsx:113-121 | Draws in [0, 1) give a needle within the height, yaw, tilt and radius bounds above. |
| Garland.Points | components/TreeCanvas.tsx:49-61 | The inclusive loop makes exactly 701 points. Point `i` is the spiral point at `t = i/700`. Under the `SpiralEnds` laws, the first point is (1.28, -0.95, 0) and the last is (0.08, 1.35, 0). |
| Garland.ParameterRange | components/TreeCanvas.tsx:53-54 | `t` lies in [0, 1] over the loop. It is exactly 0 at the first point and exactly 1 at the last. |
| Garland.HeightIncreasing | components/TreeCanvas.tsx:56 | Height strictly increases with `i`, from -0.95 to 1.35. |
| Garland.RadiusDecreasing | components/TreeCanvas.tsx:57 | Radius strictly decreases with `i`, from 1.28 to 0.08. |
| Garland.OnCircle | components/TreeCanvas.tsx:55-58 | Each control point lies on the circle of its radius, at its height. |
| Garland.Ends | components/TreeCanvas.tsx:53-58 | Under the `SpiralEnds` laws (cos/sin at 0 and at 16 * Pi), the spiral starts at (1.28, -0.95, 0) and ends at (0.08, 1.35, 0). |
| PointsAlongCurve.Fill | components/TreeCanvas.tsx:76-86 | A fresh buffer of length `3n` is filled. Slot `k` holds coordinate `k % 3` of point `k / 3`. The buffer equals the flat layout, and un-flattening it gives back the points. Each slot is written exactly once. |
| PointsAlongCurve.FlattenAt | components/TreeCanvas.tsx:79-83 | The layout has length `3n`, and slot `3i + c` holds coordinate `c` of point `i`. |
| PointsAlongCurve.FlattenLength | components/TreeCanvas.tsx:78 | The layout has exactly three slots per point. |
| PointsAlongCurve.UnflattenFlatten | components/TreeCanvas.tsx:79-83 | Un-flattening the layout gives back the original points. |
| PointsAlongCurve.FlattenUnflatten | components/TreeCanvas.tsx:79-83 | Any buffer whose length is a multiple of three is the layout of its un-flattening, so the layout is a bijection. |

## Left out

- Rendering is not modelled: JSX, materials, lights, shadows, fog, stars, environment, orbit controls and the star topper. This includes the ornament colour cycle `colors[idx % colors.length]`, which picks a material colour and does not affect geometry.
- `THREE.CatmullRomCurve3`, `curve.getPoints(1500)` and the tube geometry are not modelled. Their interpolation is library code that is not part of this model. `PointsAlongCurve.Fill` accepts any sequence of points in place of `getPoints`' output.
- `BufferGeometry.setAttribute`, `Object3D` matrix composition and `useMemo` caching are not modelled. They are three.js and React internals.
- IEEE-754 doubles and `Float32Array` rounding are not modelled. Numbers are exact reals, and the buffer holds the coordinates exactly.
- The true `cos`, `sin` and `pow` are not modelled. They are only constrained by `Host.Pythagorean`, `Host.PowLaws` and `Host.SpiralEnds`. The first two hold of the true functions. `SpiralEnds` is a law of the model that the true functions meet only up to rounding, because `16 * Math.PI` only approximates 16π; only `Garland.Ends` and the end-point clause of `Garland.Points` depend on it.
- `Math.random` as ambient state is not modelled. Draws are an explicit sequence.
- Ornaments.Positions, PineNeedles.Positions: each requires the draw sequence to be long enough (3 × 160 and 5 × 4000 draws). `Math.random` never runs out, so this is a limit of the model, not a demand of the source.
