/**
 * The entry point from a detector result to a pose update for the rig
 * (`poseToVrm`).
 */
module PoseToVrm {
  import opened Wrappers
  import opened Vectors
  import opened Landmarks
  import Bones
  import opened Coordinates

  /** A rotation quaternion, `[x, y, z, w]`. */
  datatype Quat = Quat(x: real, y: real, z: real, w: real)

  /** What a pose update sets on one bone; an absent part leaves that part of the bone alone. */
  datatype BoneTransform = BoneTransform(rotation: Option<Quat>, position: Option<Vec3>)

  /** A pose update (`VRMPose`): only the bones it names are touched. */
  type VrmPose = map<Bones.Bone, BoneTransform>

  /**
   * One frame of detector output: for each detected pose, its landmarks in
   * normalised image space and in world space.
   */
  datatype PoseLandmarkerResult = PoseLandmarkerResult(
    landmarks: seq<seq<Landmark>>,
    worldLandmarks: seq<seq<Landmark>>)

  /** The axis flip applied to every landmark of every detected pose. */
  function TransformPoses(poses: seq<seq<Landmark>>): (r: seq<seq<Vec3>>)
    ensures |r| == |poses|
    ensures forall i :: 0 <= i < |poses| ==> |r[i]| == |poses[i]|
    ensures forall i, j :: 0 <= i < |poses| && 0 <= j < |poses[i]| ==> FlipYz(r[i][j]) == poses[i][j].Position()
  {
    seq(|poses|, i requires 0 <= i < |poses| =>
      seq(|poses[i]|, j requires 0 <= j < |poses[i]| => TransformLandmark(poses[i][j])))
  }

  /**
   * The per-pose call as the code writes it: `transformLandmark` receives a
   * whole pose, an array, whose `x`, `y` and `z` are undefined. The vector
   * built from them has X = 0 and Y and Z NaN; it is modelled as `None`,
   * since NaN has no real counterpart. There is one entry per pose.
   */
  function TransformPosesAsWritten(poses: seq<seq<Landmark>>): (r: seq<Option<Vec3>>)
    ensures |r| == |poses|
    ensures forall i :: 0 <= i < |r| ==> r[i].None?
  {
    seq(|poses|, i requires 0 <= i < |poses| => None)
  }

  /**
   * A frame with one pose of 33 landmarks: the call as written yields a
   * single entry without coordinates, where the intended flip yields 33
   * triples, each flipping back to its landmark.
   */
  lemma AsWrittenLosesLandmarks(l: Landmark)
    ensures var pose := seq(LandmarkCount, _ => l);
      var asWritten := TransformPosesAsWritten([pose]);
      var intended := TransformPoses([pose]);
      |asWritten| == 1 && asWritten[0].None?
      && |intended| == 1 && |intended[0]| == 33
      && forall j :: 0 <= j < 33 ==> FlipYz(intended[0][j]) == l.Position()
  {
  }

  /**
   * The pose update for one frame. The landmarks are transformed and the
   * transformed values are not used: the update is always empty, whatever
   * the number of poses and landmarks, so it names no bone.
   */
  function PoseToVrm(result: PoseLandmarkerResult): (pose: VrmPose)
    ensures forall b :: b !in pose
    ensures |pose| == 0
  {
    var transformed := TransformPoses(result.landmarks);
    map[]
  }

  /** The update does not depend on the frame at all. */
  lemma PoseToVrmConstant(a: PoseLandmarkerResult, b: PoseLandmarkerResult)
    ensures PoseToVrm(a) == PoseToVrm(b)
  {
  }
}
