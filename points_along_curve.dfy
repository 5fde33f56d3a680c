/**
 * The `PointsAlongCurve` component's buffer fill: `n` points written into
 * a zero-initialised flat buffer of `3 * n` numbers, point `i` taking
 * slots `3i`, `3i + 1` and `3i + 2` for its x, y and z.
 */
module PointsAlongCurve {
  import opened Host

  /** The flat layout of `points`: x, y, z of each point, in order. */
  function Flatten(points: seq<Vec3>): seq<real> {
    if points == [] then []
    else [points[0].x, points[0].y, points[0].z] + Flatten(points[1..])
  }

  /** Reads a flat buffer back as points, three numbers at a time. */
  function Unflatten(buf: seq<real>): seq<Vec3>
    requires |buf| % 3 == 0
  {
    if buf == [] then []
    else [Vec3(buf[0], buf[1], buf[2])] + Unflatten(buf[3..])
  }

  /** Slot `k` of the layout holds coordinate `k % 3` of point `k / 3`. */
  lemma {:induction false} FlattenAt(points: seq<Vec3>, k: nat)
    requires k < 3 * |points|
    ensures |Flatten(points)| == 3 * |points|
    ensures Flatten(points)[k] == Coord(points[k / 3], k % 3)
  {
    if k >= 3 {
      FlattenAt(points[1..], k - 3);
      assert (k - 3) / 3 == k / 3 - 1 && (k - 3) % 3 == k % 3;
    } else {
      FlattenLength(points[1..]);
    }
  }

  /** The layout has three slots per point. */
  lemma {:induction false} FlattenLength(points: seq<Vec3>)
    ensures |Flatten(points)| == 3 * |points|
  {
    if points != [] {
      FlattenLength(points[1..]);
    }
  }

  /** Appending a point appends its three coordinates to the layout. */
  lemma {:induction false} FlattenSnoc(points: seq<Vec3>, p: Vec3)
    ensures Flatten(points + [p]) == Flatten(points) + [p.x, p.y, p.z]
  {
    if points == [] {
      assert points + [p] == [p];
    } else {
      assert (points + [p])[1..] == points[1..] + [p];
      FlattenSnoc(points[1..], p);
    }
  }

  /** Un-flattening the buffer gives back the original points. */
  lemma {:induction false} UnflattenFlatten(points: seq<Vec3>)
    ensures |Flatten(points)| % 3 == 0
    ensures Unflatten(Flatten(points)) == points
  {
    FlattenLength(points);
    if points != [] {
      var buf := Flatten(points);
      assert buf[3..] == Flatten(points[1..]);
      UnflattenFlatten(points[1..]);
      assert [points[0]] + points[1..] == points;
    }
  }

  /** Every buffer of whole points is the layout of its un-flattening. */
  lemma {:induction false} FlattenUnflatten(buf: seq<real>)
    requires |buf| % 3 == 0
    ensures Flatten(Unflatten(buf)) == buf
  {
    if buf != [] {
      var points := Unflatten(buf);
      assert points[1..] == Unflatten(buf[3..]);
      FlattenUnflatten(buf[3..]);
      assert buf[..3] + buf[3..] == buf;
    }
  }

  /**
   * The loop of `PointsAlongCurve`: allocate a zero-filled buffer of
   * `3 * |points|` numbers and write the coordinates of point `i` into
   * slots `3i .. 3i + 2`. `writes[k]` counts the writes to slot `k`.
   */
  method Fill(points: seq<Vec3>) returns (arr: array<real>, ghost writes: seq<nat>)
    ensures fresh(arr) && arr.Length == 3 * |points|
    ensures arr[..] == Flatten(points)
    ensures forall k :: 0 <= k < arr.Length ==> arr[k] == Coord(points[k / 3], k % 3)
    ensures Unflatten(arr[..]) == points
    ensures |writes| == arr.Length && forall k :: 0 <= k < |writes| ==> writes[k] == 1
  {
    arr := new real[|points| * 3](_ => 0.0);
    writes := seq(arr.Length, _ => 0);
    var i := 0;
    while i < |points|
      invariant 0 <= i <= |points| && |writes| == arr.Length
      invariant arr[..3 * i] == Flatten(points[..i])
      invariant forall k :: 3 * i <= k < arr.Length ==> arr[k] == 0.0
      invariant forall k :: 0 <= k < |writes| ==> writes[k] == if k < 3 * i then 1 else 0
    {
      arr[i * 3] := points[i].x;
      writes := writes[i * 3 := writes[i * 3] + 1];
      arr[i * 3 + 1] := points[i].y;
      writes := writes[i * 3 + 1 := writes[i * 3 + 1] + 1];
      arr[i * 3 + 2] := points[i].z;
      writes := writes[i * 3 + 2 := writes[i * 3 + 2] + 1];
      FlattenSnoc(points[..i], points[i]);
      assert points[..i + 1] == points[..i] + [points[i]];
      assert arr[..3 * (i + 1)] == arr[..3 * i] + [points[i].x, points[i].y, points[i].z];
      i := i + 1;
    }
    assert points[..i] == points;
    assert arr[..] == arr[..3 * i];
    forall k | 0 <= k < arr.Length ensures arr[k] == Coord(points[k / 3], k % 3) {
      FlattenAt(points, k);
    }
    UnflattenFlatten(points);
  }
}
