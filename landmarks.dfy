/**
 * The pose detector's landmarks: a detected point, and the fixed table that
 * numbers the 33 anatomical points of a pose (`MediaPipePoseLandmarksIndex`).
 */
module Landmarks {
  import opened Wrappers
  import opened Vectors

  /** A detected point in normalised image space, with the detector's confidence. */
  datatype Landmark = Landmark(x: real, y: real, z: real, visibility: real) {
    function Position(): Vec3 {
      Vec3(x, y, z)
    }
  }

  /** The keys of the landmark index table, in the order the table lists them. */
  datatype LandmarkName =
    | Nose
    | LeftInnerEye | LeftEye | LeftOuterEye
    | RightInnerEye | RightEye | RightOuterEye
    | LeftEar | RightEar
    | LeftMouth | RightMouth
    | LeftShoulder | RightShoulder
    | LeftElbow | RightElbow
    | LeftWrist | RightWrist
    | LeftPinky | RightPinky
    | LeftIndex | RightIndex
    | LeftThumb | RightThumb
    | LeftHip | RightHip
    | LeftKnee | RightKnee
    | LeftAnkle | RightAnkle
    | LeftHeel | RightHeel
    | LeftFootIndex | RightFootIndex

  /** Number of points the detector reports per pose. */
  const LandmarkCount: nat := 33

  /** Every key of the table, listed in the detector's output order. */
  const AllNames: seq<LandmarkName> :=
    seq(LandmarkCount, i requires 0 <= i < LandmarkCount => NameAt(i).value)

  /**
   * The index table: the position of each named point in a pose's landmark
   * array.
   */
  function Index(n: LandmarkName): (i: nat)
    ensures i < LandmarkCount
  {
    match n
    case Nose => 0
    case LeftInnerEye => 1
    case LeftEye => 2
    case LeftOuterEye => 3
    case RightInnerEye => 4
    case RightEye => 5
    case RightOuterEye => 6
    case LeftEar => 7
    case RightEar => 8
    case LeftMouth => 9
    case RightMouth => 10
    case LeftShoulder => 11
    case RightShoulder => 12
    case LeftElbow => 13
    case RightElbow => 14
    case LeftWrist => 15
    case RightWrist => 16
    case LeftPinky => 17
    case RightPinky => 18
    case LeftIndex => 19
    case RightIndex => 20
    case LeftThumb => 21
    case RightThumb => 22
    case LeftHip => 23
    case RightHip => 24
    case LeftKnee => 25
    case RightKnee => 26
    case LeftAnkle => 27
    case RightAnkle => 28
    case LeftHeel => 29
    case RightHeel => 30
    case LeftFootIndex => 31
    case RightFootIndex => 32
  }

  /** The inverse lookup: which point sits at position `i` of a pose, if any. */
  function NameAt(i: int): (r: Option<LandmarkName>)
    ensures r.Some? <==> 0 <= i < LandmarkCount
  {
    match i
    case 0 => Some(Nose)
    case 1 => Some(LeftInnerEye)
    case 2 => Some(LeftEye)
    case 3 => Some(LeftOuterEye)
    case 4 => Some(RightInnerEye)
    case 5 => Some(RightEye)
    case 6 => Some(RightOuterEye)
    case 7 => Some(LeftEar)
    case 8 => Some(RightEar)
    case 9 => Some(LeftMouth)
    case 10 => Some(RightMouth)
    case 11 => Some(LeftShoulder)
    case 12 => Some(RightShoulder)
    case 13 => Some(LeftElbow)
    case 14 => Some(RightElbow)
    case 15 => Some(LeftWrist)
    case 16 => Some(RightWrist)
    case 17 => Some(LeftPinky)
    case 18 => Some(RightPinky)
    case 19 => Some(LeftIndex)
    case 20 => Some(RightIndex)
    case 21 => Some(LeftThumb)
    case 22 => Some(RightThumb)
    case 23 => Some(LeftHip)
    case 24 => Some(RightHip)
    case 25 => Some(LeftKnee)
    case 26 => Some(RightKnee)
    case 27 => Some(LeftAnkle)
    case 28 => Some(RightAnkle)
    case 29 => Some(LeftHeel)
    case 30 => Some(RightHeel)
    case 31 => Some(LeftFootIndex)
    case 32 => Some(RightFootIndex)
    case _ => None
  }

  /** The name at position `i` has index `i`: the lookup inverts the table. */
  lemma IndexOfNameAt(i: int)
    requires 0 <= i < LandmarkCount
    ensures NameAt(i).Some? && Index(NameAt(i).value) == i
  {
    if i < 11 {
      IndexOfNameAtFace(i);
    } else if i < 22 {
      IndexOfNameAtUpperBody(i);
    } else {
      IndexOfNameAtLowerBody(i);
    }
  }

  lemma IndexOfNameAtFace(i: int)
    requires 0 <= i < 11
    ensures NameAt(i).Some? && Index(NameAt(i).value) == i
  {
    assert i == 0 || i == 1 || i == 2 || i == 3 || i == 4 || i == 5 || i == 6 || i == 7 || i == 8 || i == 9 || i == 10;
  }

  lemma IndexOfNameAtUpperBody(i: int)
    requires 11 <= i < 22
    ensures NameAt(i).Some? && Index(NameAt(i).value) == i
  {
    assert i == 11 || i == 12 || i == 13 || i == 14 || i == 15 || i == 16 || i == 17 || i == 18 || i == 19 || i == 20 || i == 21;
  }

  lemma IndexOfNameAtLowerBody(i: int)
    requires 22 <= i < LandmarkCount
    ensures NameAt(i).Some? && Index(NameAt(i).value) == i
  {
    assert i == 22 || i == 23 || i == 24 || i == 25 || i == 26 || i == 27 || i == 28 || i == 29 || i == 30 || i == 31 || i == 32;
  }

  /** Position `i` of the output order carries the index `i`. */
  lemma IndexOfListed(i: int)
    requires 0 <= i < |AllNames|
    ensures Index(AllNames[i]) == i
  {
    IndexOfNameAt(i);
  }

  /** Looking a name up and reading the name back is the identity. */
  lemma NameAtIndex(n: LandmarkName)
    ensures NameAt(Index(n)) == Some(n)
  {
  }

  /** The table is injective: no two names share an index. */
  lemma IndexInjective(a: LandmarkName, b: LandmarkName)
    ensures Index(a) == Index(b) <==> a == b
  {
    NameAtIndex(a);
    NameAtIndex(b);
  }

  /**
   * The table has exactly 33 entries, its values are exactly 0..32, and
   * every name is listed once, at its index.
   */
  lemma IndexRange()
    ensures |AllNames| == LandmarkCount
    ensures forall i :: 0 <= i < |AllNames| ==> Index(AllNames[i]) == i
    ensures forall n :: AllNames[Index(n)] == n
  {
    forall i | 0 <= i < |AllNames| ensures Index(AllNames[i]) == i {
      IndexOfListed(i);
    }
    forall n ensures AllNames[Index(n)] == n {
      NameAtIndex(n);
    }
  }

  /** Points named for the subject's left side. */
  predicate IsLeft(n: LandmarkName) {
    match n
    case LeftInnerEye | LeftEye | LeftOuterEye | LeftEar | LeftMouth
      | LeftShoulder | LeftElbow | LeftWrist | LeftPinky | LeftIndex | LeftThumb
      | LeftHip | LeftKnee | LeftAnkle | LeftHeel | LeftFootIndex => true
    case _ => false
  }

  /** The same anatomical point on the other side of the body; the nose is its own mirror. */
  function Mirror(n: LandmarkName): (m: LandmarkName)
    ensures n == Nose <==> m == Nose
  {
    match n
    case Nose => Nose
    case LeftInnerEye => RightInnerEye
    case LeftEye => RightEye
    case LeftOuterEye => RightOuterEye
    case RightInnerEye => LeftInnerEye
    case RightEye => LeftEye
    case RightOuterEye => LeftOuterEye
    case LeftEar => RightEar
    case RightEar => LeftEar
    case LeftMouth => RightMouth
    case RightMouth => LeftMouth
    case LeftShoulder => RightShoulder
    case RightShoulder => LeftShoulder
    case LeftElbow => RightElbow
    case RightElbow => LeftElbow
    case LeftWrist => RightWrist
    case RightWrist => LeftWrist
    case LeftPinky => RightPinky
    case RightPinky => LeftPinky
    case LeftIndex => RightIndex
    case RightIndex => LeftIndex
    case LeftThumb => RightThumb
    case RightThumb => LeftThumb
    case LeftHip => RightHip
    case RightHip => LeftHip
    case LeftKnee => RightKnee
    case RightKnee => LeftKnee
    case LeftAnkle => RightAnkle
    case RightAnkle => LeftAnkle
    case LeftHeel => RightHeel
    case RightHeel => LeftHeel
    case LeftFootIndex => RightFootIndex
    case RightFootIndex => LeftFootIndex
  }

  /**
   * Mirroring pairs each left point with its right namesake: the eyes lie
   * three places apart (1-3 with 4-6), every other pair in adjacent places.
   */
  lemma MirrorPairsIndices(n: LandmarkName)
    requires IsLeft(n)
    ensures Index(Mirror(n)) == Index(n) + (if Index(n) <= 3 then 3 else 1)
  {
  }

  /** Every point other than the nose changes side under mirroring. */
  lemma MirrorSwapsSide(n: LandmarkName)
    requires n != Nose
    ensures IsLeft(n) <==> !IsLeft(Mirror(n))
  {
  }

  lemma MirrorInvolution(n: LandmarkName)
    ensures Mirror(Mirror(n)) == n
  {
  }

  /**
   * From the shoulders down (indices 11 to 32) the left points are exactly
   * those with an odd index, and each one's right counterpart has the next index.
   */
  lemma BodyPairsAdjacent(n: LandmarkName)
    requires Index(n) >= 11
    ensures IsLeft(n) <==> Index(n) % 2 == 1
    ensures IsLeft(n) ==> Index(Mirror(n)) == Index(n) + 1
  {
  }

  /** The indices 11 to 32 are exactly the body points, split evenly between the sides. */
  lemma BodyIndicesPaired(i: int)
    requires 11 <= i < LandmarkCount
    ensures NameAt(i).Some?
    ensures IsLeft(NameAt(i).value) <==> i % 2 == 1
    ensures i % 2 == 1 ==> Index(Mirror(NameAt(i).value)) == i + 1
  {
    IndexOfNameAt(i);
    BodyPairsAdjacent(NameAt(i).value);
  }
}
