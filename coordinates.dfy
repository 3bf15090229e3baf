/**
 * The configuration constants and the two coordinate maps between the
 * detector's normalised image space and the 3D scene.
 */
module Coordinates {
  import opened Vectors
  import opened Landmarks

  /** Smoothing coefficient of the exponential moving average; its documented range is (0, 1]. */
  const EmaAlpha: real := 0.1

  /** Uniform scale from normalised image units to scene units. */
  const Scale: real := 2.0

  /** Where the detector's origin lands in the scene. */
  const RootOffset: Vec3 := Vec3(0.0, 0.0, 0.0)

  lemma EmaAlphaInRange()
    ensures 0.0 < EmaAlpha <= 1.0
  {
  }

  /** The inverse of the scene map: undo the offset, the scale and the Y flip. */
  function ThreeJsToMediaPipe(v: Vec3): (p: Vec3) {
    Vec3((v.x - RootOffset.x) / Scale, -(v.y - RootOffset.y) / Scale, (v.z - RootOffset.z) / Scale)
  }

  /**
   * Image coordinates to scene coordinates: scale every axis by `Scale`,
   * flip Y (image Y grows downwards, scene Y upwards) and add `RootOffset`.
   */
  function ConvertMediaPipeToThreeJs(x: real, y: real, z: real): (r: Vec3)
    ensures ThreeJsToMediaPipe(r) == Vec3(x, y, z)
  {
    Vec3(x * Scale + RootOffset.x, -y * Scale + RootOffset.y, z * Scale + RootOffset.z)
  }

  /** The image origin lands on the root offset, which is the scene origin. */
  lemma ConvertOrigin()
    ensures ConvertMediaPipeToThreeJs(0.0, 0.0, 0.0) == RootOffset == Zero
  {
  }

  /** Every scene point comes from exactly one image point: the map is a bijection. */
  lemma ConvertRoundTrip(v: Vec3)
    ensures var p := ThreeJsToMediaPipe(v); ConvertMediaPipeToThreeJs(p.x, p.y, p.z) == v
  {
  }

  lemma ConvertInjective(a: Vec3, b: Vec3)
    requires ConvertMediaPipeToThreeJs(a.x, a.y, a.z) == ConvertMediaPipeToThreeJs(b.x, b.y, b.z)
    ensures a == b
  {
    assert ThreeJsToMediaPipe(ConvertMediaPipeToThreeJs(a.x, a.y, a.z)) == a;
  }

  /** Scene X and Z grow with image X and Z; scene Y falls as image Y grows. */
  lemma ConvertMonotone(x1: real, y1: real, z1: real, x2: real, y2: real, z2: real)
    ensures x1 < x2 ==> ConvertMediaPipeToThreeJs(x1, y1, z1).x < ConvertMediaPipeToThreeJs(x2, y2, z2).x
    ensures y1 < y2 ==> ConvertMediaPipeToThreeJs(x1, y1, z1).y > ConvertMediaPipeToThreeJs(x2, y2, z2).y
    ensures z1 < z2 ==> ConvertMediaPipeToThreeJs(x1, y1, z1).z < ConvertMediaPipeToThreeJs(x2, y2, z2).z
  {
  }

  /**
   * The map is affine: it carries a weighted mean of two points to the same
   * weighted mean of their images, so midpoints go to midpoints.
   */
  lemma ConvertAffine(a: Vec3, b: Vec3, t: real)
    ensures var m := Add(Mul(t, a), Mul(1.0 - t, b));
      ConvertMediaPipeToThreeJs(m.x, m.y, m.z)
      == Add(Mul(t, ConvertMediaPipeToThreeJs(a.x, a.y, a.z)), Mul(1.0 - t, ConvertMediaPipeToThreeJs(b.x, b.y, b.z)))
  {
  }

  /** Differences of scene points are the scaled, Y-flipped differences of image points. */
  lemma ConvertDifference(a: Vec3, b: Vec3)
    ensures Sub(ConvertMediaPipeToThreeJs(a.x, a.y, a.z), ConvertMediaPipeToThreeJs(b.x, b.y, b.z))
      == Vec3(Scale * (a.x - b.x), -Scale * (a.y - b.y), Scale * (a.z - b.z))
  {
  }

  /** The landmark axis flip: X stays, Y and Z change sign. It is its own inverse. */
  function FlipYz(v: Vec3): (r: Vec3)
    ensures r.x == v.x && r.y + v.y == 0.0 && r.z + v.z == 0.0
  {
    Vec3(v.x, -v.y, -v.z)
  }

  lemma FlipYzInvolution(v: Vec3)
    ensures FlipYz(FlipYz(v)) == v
  {
  }

  /** A landmark's position in the scene's axis orientation; its visibility is dropped. */
  function TransformLandmark(l: Landmark): (r: Vec3)
    ensures r.x == l.x
    ensures FlipYz(r) == l.Position()
  {
    FlipYz(l.Position())
  }

  /** The two maps share their X and Y orientation and disagree on Z's. */
  lemma ConvertVersusTransform(l: Landmark)
    ensures var c := ConvertMediaPipeToThreeJs(l.x, l.y, l.z);
      var t := TransformLandmark(l);
      c.x == Scale * t.x && c.y == Scale * t.y && c.z == -Scale * t.z
  {
  }
}
