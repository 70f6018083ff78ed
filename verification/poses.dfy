/** The pose a detector hands to the form analysers: one optional landmark per
    body point, each with an image-plane position and an in-frame likelihood. */
module Poses {

  /** The 33 body points the pose detector reports. */
  datatype LandmarkType =
    | Nose | LeftEyeInner | LeftEye | LeftEyeOuter | RightEyeInner | RightEye | RightEyeOuter
    | LeftEar | RightEar | LeftMouth | RightMouth
    | LeftShoulder | RightShoulder | LeftElbow | RightElbow | LeftWrist | RightWrist
    | LeftPinky | RightPinky | LeftIndex | RightIndex | LeftThumb | RightThumb
    | LeftHip | RightHip | LeftKnee | RightKnee | LeftAnkle | RightAnkle
    | LeftHeel | RightHeel | LeftFootIndex | RightFootIndex

  /** One detected body point: position in pixels and detection likelihood. */
  datatype Landmark = Landmark(x: real, y: real, inFrameLikelihood: real)

  /** A detected pose; a body point the detector did not return is absent. */
  type Pose = map<LandmarkType, Landmark>

  /** A possibly missing value, the model of a nullable reference. */
  datatype Option<T> = None | Some(value: T)

  /** `pose.getPoseLandmark(t)`: the landmark, or `None` for null. */
  function Get(pose: Pose, t: LandmarkType): Option<Landmark>
  {
    if t in pose then Some(pose[t]) else None
  }

  /** `p` and `q` hold the same body points with the same likelihoods, and the
      same y-coordinates except at the points in `free`; x is unconstrained. */
  ghost predicate AgreeOutsideY(p: Pose, q: Pose, free: set<LandmarkType>)
  {
    && p.Keys == q.Keys
    && (forall t :: t in p ==> p[t].inFrameLikelihood == q[t].inFrameLikelihood)
    && (forall t :: t in p && t !in free ==> p[t].y == q[t].y)
  }
}
