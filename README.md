# Pose landmarks to VRM rig: coordinate and bone-table model

This project models `src/lib/pose-to-vrm.ts`, the layer between the pose
detector's landmarks and the humanoid avatar's skeleton. The rest of the
application is webcam capture, detector loading, drawing and the 3D scene.
That file holds:

- the configuration constants `EMA_ALPHA`, `SCALE` and `ROOT_OFFSET`;
- `MediaPipePoseLandmarksIndex`, the table that numbers the 33 points of a
  detected pose;
- `_boneHierarchy`, the child-to-parent table of the rig's kinematic chains;
- `convertMediaPipeToThreeJS`, which maps image coordinates to scene
  coordinates: scale by `SCALE`, flip Y, add `ROOT_OFFSET`;
- `transformLandmark`, which keeps X and negates Y and Z;
- `poseToVrm`, the entry point, which transforms the frame's landmarks,
  discards them and returns an empty pose update.

The code is pure, so the model is pure: datatypes, functions and lemmas.

| module | file | contents |
|---|---|---|
| `Wrappers` | `wrappers.dfy` | `Option`, standing in for an absent dictionary entry |
| `Vectors` | `vectors.dfy` | `Vec3`, a triple of reals, for `THREE.Vector3` and three-number arrays |
| `Landmarks` | `landmarks.dfy` | landmarks, the 33 landmark names, the index table and its inverse |
| `Bones` | `bones.dfy` | the 55 VRM humanoid bone names, the hierarchy table, parent chains |
| `Coordinates` | `coordinates.dfy` | the constants, the scene map, its inverse, the landmark axis flip |
| `PoseToVrm` | `pose_to_vrm.dfy` | the detector result, the pose update type and `poseToVrm` |

Modelling choices:

- Numbers are `real`. IEEE doubles are not modelled (see "Left out").
- `VRMHumanBoneName` comes from the rig library, not from this repository.
  It is modelled as its 55 VRM 1.0 names. A name is either a midline bone
  (`Mid(Hips)`) or a side and a limb (`Sided(Left, UpperArm)` for
  `leftUpperArm`). This structure makes left/right mirroring a one-line
  function.
- `_boneHierarchy` is the `map` constant `Bones.BoneHierarchy`, with the same
  15 entries. `Bones.Parent` is the dictionary lookup.
- Parent chains terminate because of a measure. `Bones.Rank` gives each
  bone's level in its chain: 0 at Hips and the shoulders, 3 at Head, the
  hands and the feet. `Bones.ParentLowersRank` proves that every table entry
  goes down exactly one level.
- `VRMPose` is a `map` from bone to `BoneTransform`. Each transform has an
  optional quaternion and an optional position.
- `poseToVrm` maps `transformLandmark` over `poseLandmarkerResult.landmarks`.
  That field is a list of poses, and each pose is a list of landmarks. As
  written, each call therefore receives a whole pose, where a single landmark
  is expected (see "## Findings"). The result is discarded, so the returned
  update is the same either way. `PoseToVrm` uses the intended flip of every
  landmark of every pose (`PoseToVrm.TransformPoses`).
- Only the `EMA_ALPHA` comment (src/lib/pose-to-vrm.ts:8-10) mentions
  smoothing; the file has no smoothing, rotation or retargeting code.
  `PoseToVrm` follows the code and always returns the empty update.

## Model

| member | source | states |
|---|---|---|
| `Coordinates.EmaAlphaInRange` | src/lib/pose-to-vrm.ts:8-11 | the smoothing coefficient lies in the documented range 0 < alpha <= 1 |
| `Coordinates.ConvertMediaPipeToThreeJs` | src/lib/pose-to-vrm.ts:80-86 | the scene point is carried back to the given image point by undoing the offset, the scale and the Y flip |
| `Coordinates.ConvertOrigin` | src/lib/pose-to-vrm.ts:12-13 | the image origin lands on `ROOT_OFFSET`, which is the scene origin |
| `Coordinates.ConvertRoundTrip` | src/lib/pose-to-vrm.ts:80-86 | every scene point is the image of its inverse, so with the ensures above the map is a bijection |
| `Coordinates.ConvertInjective` | src/lib/pose-to-vrm.ts:80-86 | two image points with the same scene point are equal |
| `Coordinates.ConvertMonotone` | src/lib/pose-to-vrm.ts:80-86 | scene X and Z strictly increase with image X and Z, and scene Y strictly decreases as image Y grows |
| `Coordinates.ConvertAffine` | src/lib/pose-to-vrm.ts:80-86 | the map preserves weighted means of two points, in particular midpoints |
| `Coordinates.ConvertDifference` | src/lib/pose-to-vrm.ts:80-86 | the difference of two scene points is the image difference scaled by `SCALE`, with Y negated; the offset cancels |
| `Coordinates.TransformLandmark` | src/lib/pose-to-vrm.ts:88-94 | X is kept, and flipping Y and Z of the result gives back the landmark's position |
| `Coordinates.FlipYzInvolution` | src/lib/pose-to-vrm.ts:88-94 | applying the landmark axis flip twice gives back the original triple |
| `Coordinates.ConvertVersusTransform` | src/lib/pose-to-vrm.ts:80-94 | the scene map agrees with the landmark flip, up to `SCALE`, on X and Y, and is opposite to it on Z |
| `Landmarks.Index` | src/lib/pose-to-vrm.ts:15-49 | each name's index lies below 33, the number of points in a pose |
| `Landmarks.NameAt` | src/lib/pose-to-vrm.ts:15-49 | a position holds a name exactly when it lies in 0..32 |
| `Landmarks.IndexOfNameAt` | src/lib/pose-to-vrm.ts:15-49 | the name held at each position 0..32 has that position as its index |
| `Landmarks.IndexOfListed` | src/lib/pose-to-vrm.ts:15-49 | the name listed at position i of the output order has index i |
| `Landmarks.NameAtIndex` | src/lib/pose-to-vrm.ts:15-49 | looking up a name's index and reading back the name gives the name |
| `Landmarks.IndexInjective` | src/lib/pose-to-vrm.ts:15-49 | two names share an index if and only if they are the same name |
| `Landmarks.IndexRange` | src/lib/pose-to-vrm.ts:15-49 | the table has 33 entries, their values are exactly 0..32, and every name is listed at its index |
| `Landmarks.Mirror` | src/lib/pose-to-vrm.ts:15-49 | mirroring fixes the nose and only the nose |
| `Landmarks.MirrorSwapsSide` | src/lib/pose-to-vrm.ts:15-49 | every point other than the nose moves to the opposite side |
| `Landmarks.MirrorPairsIndices` | src/lib/pose-to-vrm.ts:16-48 | each left point is paired with its right namesake: the eyes' right counterparts sit three places later (1-3 with 4-6), every other pair in adjacent places |
| `Landmarks.MirrorInvolution` | src/lib/pose-to-vrm.ts:15-49 | mirroring a landmark name twice gives back the name |
| `Landmarks.BodyPairsAdjacent` | src/lib/pose-to-vrm.ts:27-48 | from leftShoulder on, a point is a left point exactly when its index is odd, and its right counterpart has the next index |
| `Landmarks.BodyIndicesPaired` | src/lib/pose-to-vrm.ts:27-48 | each index from 11 to 32 names a point; it is a left point exactly when the index is odd, and its mirror then sits at the next index |
| `Bones.Mirror` | src/lib/pose-to-vrm.ts:51-67 | mirroring fixes midline bones and swaps the side of the others, keeping the limb |
| `Bones.MirrorInvolution` | src/lib/pose-to-vrm.ts:51-67 | mirroring a bone twice gives back the bone |
| `Bones.Parent` | src/lib/pose-to-vrm.ts:51-67 | a bone has a parent exactly when it is Spine, Neck, Head, or an upper arm, lower arm, hand, upper leg, lower leg or foot; the parent is a midline bone or a bone on the child's own side |
| `Bones.ParentLowersRank` | src/lib/pose-to-vrm.ts:51-67 | every table entry goes exactly one level down towards a chain root |
| `Bones.NoSelfParent` | src/lib/pose-to-vrm.ts:51-67 | no bone is its own parent |
| `Bones.Chain` | src/lib/pose-to-vrm.ts:51-67 | following parent links from any bone stops after exactly as many links as the bone's level, at most 3; each link is a table entry, and the last bone reached is Hips or a shoulder and has no entry |
| `Bones.Root` | src/lib/pose-to-vrm.ts:51-67 | the bone where the links stop has no entry; upper arms, lower arms and hands reach their own side's shoulder, every other mapped bone reaches Hips, and an unmapped bone is its own root |
| `Bones.RanksDecrease` | src/lib/pose-to-vrm.ts:51-67 | along any run of parent links, levels strictly decrease |
| `Bones.ChainAcyclic` | src/lib/pose-to-vrm.ts:51-67 | the chain never visits the starting bone or any bone twice, so the table has no cycle |
| `Bones.ChainEndsAtRoot` | src/lib/pose-to-vrm.ts:51-67 | the last bone of a non-empty chain is the root |
| `Bones.MirrorParent` | src/lib/pose-to-vrm.ts:51-67 | the parent of a mirrored bone is the mirrored parent, and mirrored bones are mapped exactly when the originals are |
| `Bones.MirrorChain` | src/lib/pose-to-vrm.ts:51-67 | the whole chain of a mirrored bone is the mirrored chain |
| `PoseToVrm.TransformPoses` | src/lib/pose-to-vrm.ts:74-75 | one flipped triple per landmark of every pose, and each one flips back to its landmark's position |
| `PoseToVrm.TransformPosesAsWritten` | src/lib/pose-to-vrm.ts:74-75 | the call as written yields one entry per pose, and no entry carries the pose's coordinates |
| `PoseToVrm.AsWrittenLosesLandmarks` | src/lib/pose-to-vrm.ts:74-75 | for one pose of 33 landmarks the call as written yields one entry with no real coordinates, where the intended flip yields 33 triples that flip back to their landmarks |
| `PoseToVrm.PoseToVrm` | src/lib/pose-to-vrm.ts:69-78 | the pose update has no bone key, whatever the number of poses and landmarks in the frame |
| `PoseToVrm.PoseToVrmConstant` | src/lib/pose-to-vrm.ts:69-78 | any two frames give the same update |

## Findings

| source | as written | input that shows it | evidently intended | confidence | as-written member | corrected member |
|---|---|---|---|---|---|---|
| src/lib/pose-to-vrm.ts:74-75 | `landmarks.map(transformLandmark)` passes each pose, an array of landmarks, to `transformLandmark`; the array's `x`, `y` and `z` are undefined, so the vector gets X = 0 and Y and Z NaN (modelled as `None`, since NaN has no real counterpart) | a frame with one pose of 33 landmarks: one (0, NaN, NaN) vector instead of 33 flipped triples | flip every landmark of every pose | high for the shape; not executed | `PoseToVrm.TransformPosesAsWritten`, `PoseToVrm.AsWrittenLosesLandmarks` | `PoseToVrm.TransformPoses` |

The value is discarded, so the update `poseToVrm` returns is the same with
either version.

## Left out

- Floating point: coordinates are reals. The round trip of the scene map is
  exact over the reals. With doubles it is exact only while `x * 2` does not
  overflow.
- Temporal smoothing: `EMA_ALPHA` is declared but nothing uses it. No
  smoothing state or update exists in the code, so none is modelled.
- Bone-direction quaternions and per-bone retargeting: the code has none.
  `PoseToVrm` models the actual empty result.
- `segmentationMasks` of the detector result: `poseToVrm` does not read it.
- Webcam capture, detector loading over the network, canvas and scene
  rendering, the avatar's neck animation and the page views are I/O, foreign
  library calls or view code. They are not part of this model.
