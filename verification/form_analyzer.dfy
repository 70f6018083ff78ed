/** The per-frame form checker the camera screen calls (`ExerciseFormAnalyzer`).
    Each check first requires every body point it uses to be detected, then
    requires each to be detected confidently, and then walks an ordered rule
    chain over y-only "angles" and the vertical offset between the hips. The
    class keeps no state that any check reads, so each check is a function of
    the pose alone. */
module FormAnalyzer {
  import opened Geometry
  import opened Poses
  import opened Text
  import opened AnalyzerMessages

  const PlankAngleThreshold: real := 15.0
  const PushupAngleThreshold: real := 90.0
  const ConfidenceThreshold: real := 0.7
  /** Largest vertical offset, in pixels, between the hips that still counts as level. */
  const HipLevelTolerance: real := 20.0

  /** The body points a plank check needs, both sides. */
  const PlankPoints: seq<LandmarkType> :=
    [LeftShoulder, RightShoulder, LeftHip, RightHip, LeftAnkle, RightAnkle]

  /** The body points a push-up check needs, both sides. */
  const PushupPoints: seq<LandmarkType> :=
    [LeftShoulder, RightShoulder, LeftElbow, RightElbow, LeftWrist, RightWrist, LeftHip, RightHip]

  /** How a pose fares before any geometry is computed. */
  datatype Gate = Ready | MissingLandmarks | LowConfidence

  /** Every point in `points` was detected. */
  function AllPresent(pose: Pose, points: seq<LandmarkType>): (b: bool)
    ensures b <==> forall i :: 0 <= i < |points| ==> points[i] in pose
    decreases |points|
  {
    |points| == 0 || (points[0] in pose && AllPresent(pose, points[1..]))
  }

  /** Some point in `points` was detected with a likelihood under the threshold. */
  function AnyUnclear(pose: Pose, points: seq<LandmarkType>): (b: bool)
    requires forall i :: 0 <= i < |points| ==> points[i] in pose
    ensures b <==> exists i :: 0 <= i < |points| && pose[points[i]].inFrameLikelihood < ConfidenceThreshold
    decreases |points|
  {
    |points| > 0 &&
    (pose[points[0]].inFrameLikelihood < ConfidenceThreshold || AnyUnclear(pose, points[1..]))
  }

  /** The presence check, then the confidence check. A likelihood equal to the
      threshold is confident enough. */
  function CheckGate(pose: Pose, points: seq<LandmarkType>): (g: Gate)
    ensures g == MissingLandmarks <==> exists i :: 0 <= i < |points| && points[i] !in pose
    ensures g == LowConfidence <==>
      && (forall i :: 0 <= i < |points| ==> points[i] in pose)
      && (exists i :: 0 <= i < |points| && pose[points[i]].inFrameLikelihood < ConfidenceThreshold)
    ensures g == Ready <==>
      forall i :: 0 <= i < |points| ==>
        points[i] in pose && pose[points[i]].inFrameLikelihood >= ConfidenceThreshold
  {
    if !AllPresent(pose, points) then MissingLandmarks
    else if AnyUnclear(pose, points) then LowConfidence
    else Ready
  }

  /** `Math.toDegrees(atan2(d, 0.0))`: the direction of a purely vertical offset. */
  function VerticalHeading(d: real): real
  {
    if d > 0.0 then 90.0 else if d < 0.0 then -90.0 else 0.0
  }

  function Sign(d: real): int
  {
    if d > 0.0 then 1 else if d < 0.0 then -1 else 0
  }

  /** The analyser's angle helper. It passes 0.0 for the x offset, so only the
      sides of `y2` on which `y1` and `y3` lie matter: the angle is 0 when they
      are on the same side (or both level), 180 when on opposite sides, and 90
      when exactly one of them is level with `y2`. */
  function YAngle(y1: real, y2: real, y3: real): (a: real)
    ensures a == 0.0 || a == 90.0 || a == 180.0
    ensures a == 0.0 <==> Sign(y1 - y2) == Sign(y3 - y2)
    ensures a == 180.0 <==> Sign(y1 - y2) * Sign(y3 - y2) == -1
  {
    Abs(VerticalHeading(y3 - y2) - VerticalHeading(y1 - y2))
  }

  /** The angle is unchanged by swapping the end points, and by any change of
      the coordinates that keeps the two signs. */
  lemma YAngleDependsOnSidesOnly(y1: real, y2: real, y3: real, z1: real, z2: real, z3: real)
    requires Sign(y1 - y2) == Sign(z1 - z2) && Sign(y3 - y2) == Sign(z3 - z2)
    ensures YAngle(y1, y2, y3) == YAngle(z1, z2, z3)
    ensures YAngle(y1, y2, y3) == YAngle(y3, y2, y1)
  {
  }

  /** Vertical offset between the two hips. */
  function HipOffset(pose: Pose): (d: real)
    requires LeftHip in pose && RightHip in pose
    ensures d >= 0.0
    ensures d == pose[LeftHip].y - pose[RightHip].y || d == pose[RightHip].y - pose[LeftHip].y
  {
    Abs(pose[LeftHip].y - pose[RightHip].y)
  }

  /** The left shoulder and left ankle are not on the same vertical side of the
      left hip, which is what a body-line angle above 15 degrees amounts to. */
  predicate PlankLineBroken(pose: Pose)
    requires LeftShoulder in pose && LeftHip in pose && LeftAnkle in pose
  {
    Sign(pose[LeftShoulder].y - pose[LeftHip].y) != Sign(pose[LeftAnkle].y - pose[LeftHip].y)
  }

  /** `analyzePlank`: first matching rule wins. */
  function AnalyzePlank(pose: Pose): (feedback: string)
    ensures feedback in {FullBodyMessage, UnclearMessage, LowerHipsMessage, HipsLevelMessage, PerfectPlankMessage}
    ensures feedback == FullBodyMessage <==> CheckGate(pose, PlankPoints) == MissingLandmarks
    ensures feedback == UnclearMessage <==> CheckGate(pose, PlankPoints) == LowConfidence
    ensures CheckGate(pose, PlankPoints) == Ready ==>
      && (feedback == LowerHipsMessage <==> PlankLineBroken(pose))
      && (feedback == HipsLevelMessage <==> !PlankLineBroken(pose) && HipOffset(pose) > HipLevelTolerance)
      && (feedback == PerfectPlankMessage <==> !PlankLineBroken(pose) && HipOffset(pose) <= HipLevelTolerance)
  {
    var gate := CheckGate(pose, PlankPoints);
    if gate == MissingLandmarks then FullBodyMessage
    else if gate == LowConfidence then UnclearMessage
    else
      var bodyAngle := YAngle(pose[LeftShoulder].y, pose[LeftHip].y, pose[LeftAnkle].y);
      var hipSag := HipOffset(pose);
      if bodyAngle > PlankAngleThreshold then LowerHipsMessage
      else if hipSag > HipLevelTolerance then HipsLevelMessage
      else PerfectPlankMessage
  }

  /** The shoulder and wrist of one arm are on the same vertical side of its
      elbow, which is what an arm angle below 90 degrees amounts to. */
  predicate ArmFolded(pose: Pose, shoulder: LandmarkType, elbow: LandmarkType, wrist: LandmarkType)
    requires shoulder in pose && elbow in pose && wrist in pose
  {
    Sign(pose[shoulder].y - pose[elbow].y) == Sign(pose[wrist].y - pose[elbow].y)
  }

  predicate EitherArmFolded(pose: Pose)
    requires LeftShoulder in pose && LeftElbow in pose && LeftWrist in pose
    requires RightShoulder in pose && RightElbow in pose && RightWrist in pose
  {
    ArmFolded(pose, LeftShoulder, LeftElbow, LeftWrist) || ArmFolded(pose, RightShoulder, RightElbow, RightWrist)
  }

  /** `analyzePushup`: first matching rule wins. */
  function AnalyzePushup(pose: Pose): (feedback: string)
    ensures feedback in {FullBodyMessage, UnclearMessage, LowerBodyMessage, HipsLevelMessage, PerfectPushupMessage}
    ensures feedback == FullBodyMessage <==> CheckGate(pose, PushupPoints) == MissingLandmarks
    ensures feedback == UnclearMessage <==> CheckGate(pose, PushupPoints) == LowConfidence
    ensures CheckGate(pose, PushupPoints) == Ready ==>
      && (feedback == LowerBodyMessage <==> EitherArmFolded(pose))
      && (feedback == HipsLevelMessage <==> !EitherArmFolded(pose) && HipOffset(pose) > HipLevelTolerance)
      && (feedback == PerfectPushupMessage <==> !EitherArmFolded(pose) && HipOffset(pose) <= HipLevelTolerance)
  {
    var gate := CheckGate(pose, PushupPoints);
    if gate == MissingLandmarks then FullBodyMessage
    else if gate == LowConfidence then UnclearMessage
    else
      var leftArmAngle := YAngle(pose[LeftShoulder].y, pose[LeftElbow].y, pose[LeftWrist].y);
      var rightArmAngle := YAngle(pose[RightShoulder].y, pose[RightElbow].y, pose[RightWrist].y);
      var hipAlignment := HipOffset(pose);
      if leftArmAngle < PushupAngleThreshold || rightArmAngle < PushupAngleThreshold then LowerBodyMessage
      else if hipAlignment > HipLevelTolerance then HipsLevelMessage
      else PerfectPushupMessage
  }

  /** A plank verdict mentions "Perfect" exactly when it is the correct-form one. */
  lemma PlankPerfectIffCorrect(pose: Pose)
    ensures Contains(AnalyzePlank(pose), PerfectMarker) <==> AnalyzePlank(pose) == PerfectPlankMessage
  {
    PlankVerdictMarking(AnalyzePlank(pose));
  }

  /** A push-up verdict mentions "Perfect" exactly when it is the correct-form one. */
  lemma PushupPerfectIffCorrect(pose: Pose)
    ensures Contains(AnalyzePushup(pose), PerfectMarker) <==> AnalyzePushup(pose) == PerfectPushupMessage
  {
    PushupVerdictMarking(AnalyzePushup(pose));
  }

  /** The gate looks only at which points were detected and how confidently. */
  lemma GateIgnoresPositions(p: Pose, q: Pose, points: seq<LandmarkType>, free: set<LandmarkType>)
    requires AgreeOutsideY(p, q, free)
    ensures CheckGate(p, points) == CheckGate(q, points)
  {
  }

  /** No plank verdict reads an x-coordinate, nor the y-coordinate of the right
      shoulder or the right ankle: those two points only have to be present
      and confidently detected. */
  lemma PlankReadsOnlyLeftLineAndHips(p: Pose, q: Pose)
    requires AgreeOutsideY(p, q, {RightShoulder, RightAnkle})
    ensures AnalyzePlank(p) == AnalyzePlank(q)
  {
    GateIgnoresPositions(p, q, PlankPoints, {RightShoulder, RightAnkle});
  }

  /** No push-up verdict reads an x-coordinate. */
  lemma PushupIgnoresX(p: Pose, q: Pose)
    requires AgreeOutsideY(p, q, {})
    ensures AnalyzePushup(p) == AnalyzePushup(q)
  {
    GateIgnoresPositions(p, q, PushupPoints, {});
  }

  /** Because the angle ignores x, a plank whose left hip lies strictly between
      the left shoulder and the left ankle in height, head high or head low,
      as on any straight sloping body line, is told to lower its hips and is
      never perfect. */
  lemma SlopedStraightPlankIsTooHigh(pose: Pose)
    requires CheckGate(pose, PlankPoints) == Ready
    requires pose[LeftShoulder].y < pose[LeftHip].y < pose[LeftAnkle].y
          || pose[LeftAnkle].y < pose[LeftHip].y < pose[LeftShoulder].y
    ensures AnalyzePlank(pose) == LowerHipsMessage
  {
  }
}
