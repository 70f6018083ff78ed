/** The alternative form checker (`PoseProcessor`): it mirrors x-coordinates
    for a front camera, dispatches on a case-insensitive exercise name, and
    judges a plank, a push-up or a squat from true three-point joint angles and
    pixel alignment tolerances. Three further exercises are placeholders. */
module PoseProcessor {
  import opened Geometry
  import opened Poses
  import opened Text

  /** The feedback a verdict carries; `Message` gives its text. */
  datatype Advice =
    | CannotDetectAllPoints
    | KeepHipsLevel | LowerHips | RaiseHips | CoreTight
    | KeepBodyStraight | ElbowsTooLow | LowerWithControl | KeepGoing
    | KneesInLine | KneesTooLow | GoodDepth
    | HollowBodyPending | RussianTwistPending | WallSitPending
    | NotSupported

  function Message(a: Advice): string
  {
    match a
    case CannotDetectAllPoints => "Cannot detect all required body points"
    case KeepHipsLevel => "Keep your hips level"
    case LowerHips => "Lower your hips to maintain a straight line"
    case RaiseHips => "Raise your hips to maintain a straight line"
    case CoreTight => "Good form! Keep your core tight"
    case KeepBodyStraight => "Keep your body straight, don't let your hips sag"
    case ElbowsTooLow => "You're going too low, keep elbows at least 90 degrees"
    case LowerWithControl => "Good! Now lower down with control"
    case KeepGoing => "Good form! Keep going"
    case KneesInLine => "Keep your knees in line with your toes"
    case KneesTooLow => "You're going too low, maintain at least 90 degrees at knees"
    case GoodDepth => "Good depth! Keep your chest up"
    case HollowBodyPending => "Hollow body analysis to be implemented"
    case RussianTwistPending => "Russian twist analysis to be implemented"
    case WallSitPending => "Wall sit analysis to be implemented"
    case NotSupported => "Exercise type not supported"
  }

  /** The length and first letter of each advice text. Only the texts of 38
      and of 43 characters share a length, and those differ in the first letter. */
  function Shape(a: Advice): (nat, char)
  {
    match a
    case CannotDetectAllPoints => (38, 'C')
    case KeepHipsLevel => (20, 'K')
    case LowerHips => (43, 'L')
    case RaiseHips => (43, 'R')
    case CoreTight => (31, 'G')
    case KeepBodyStraight => (48, 'K')
    case ElbowsTooLow => (53, 'Y')
    case LowerWithControl => (33, 'G')
    case KeepGoing => (21, 'G')
    case KneesInLine => (38, 'K')
    case KneesTooLow => (59, 'Y')
    case GoodDepth => (30, 'G')
    case HollowBodyPending => (38, 'H')
    case RussianTwistPending => (40, 'R')
    case WallSitPending => (35, 'W')
    case NotSupported => (27, 'E')
  }

  lemma MessageShape(a: Advice)
    ensures |Message(a)| == Shape(a).0
    ensures Shape(a).0 in {38, 43} ==> Message(a)[0] == Shape(a).1
  {
  }

  lemma ShapeInjective(a: Advice, b: Advice)
    requires Shape(a).0 == Shape(b).0
    requires Shape(a).0 in {38, 43} ==> Shape(a).1 == Shape(b).1
    ensures a == b
  {
  }

  /** Every advice has its own text, so comparing advice is comparing messages. */
  lemma MessageInjective(a: Advice, b: Advice)
    requires Message(a) == Message(b)
    ensures a == b
  {
    MessageShape(a);
    MessageShape(b);
    ShapeInjective(a, b);
  }

  /** The result of one analysis: whether the form is correct, and the advice. */
  datatype FormAnalysis = FormAnalysis(isCorrect: bool, advice: Advice)
  {
    function Feedback(): string
    {
      Message(advice)
    }
  }

  /** A processor is configured with the camera facing and the image width;
      `heading` stands for `Math.toDegrees(atan2(dy, dx))`. */
  datatype Processor = Processor(isFrontCamera: bool, imageWidth: int, heading: Heading)

  /** Pixel tolerance of every alignment check. */
  const AlignmentTolerance: real := 30.0
  const BodyLineLimit: real := 15.0
  const ElbowTooLowAngle: real := 45.0
  const ElbowExtendedAngle: real := 160.0
  const KneeTooLowAngle: real := 90.0
  const KneeExtendedAngle: real := 170.0

  const PlankPoints: set<LandmarkType> :=
    {LeftShoulder, RightShoulder, LeftHip, RightHip, LeftAnkle, RightAnkle}
  /** The points a push-up needs before any check: the left arm and the left hip. */
  const PushUpPoints: set<LandmarkType> := {LeftShoulder, LeftElbow, LeftWrist, LeftHip}
  const SquatPoints: set<LandmarkType> := {LeftHip, LeftKnee, LeftAnkle}

  /** The exercise names the dispatcher recognises, in lower case. */
  const KnownExercises: set<string> :=
    {"plank", "push-up", "squat", "hollow-body", "russian-twist", "wall-sit"}

  // ---------------------------------------------------------------- mirroring

  function MirrorLandmark(l: Landmark, imageWidth: int): Landmark
  {
    l.(x := imageWidth as real - l.x)
  }

  /** The front-camera correction: every landmark's x becomes `imageWidth - x`. */
  function Mirror(pose: Pose, imageWidth: int): (m: Pose)
    ensures m.Keys == pose.Keys
    ensures forall t :: t in pose ==>
      && m[t].x == imageWidth as real - pose[t].x
      && m[t].y == pose[t].y
      && m[t].inFrameLikelihood == pose[t].inFrameLikelihood
  {
    map t | t in pose :: MirrorLandmark(pose[t], imageWidth)
  }

  /** Mirroring twice restores the pose. */
  lemma MirrorTwiceRestores(pose: Pose, imageWidth: int)
    ensures Mirror(Mirror(pose, imageWidth), imageWidth) == pose
  {
    var twice := Mirror(Mirror(pose, imageWidth), imageWidth);
    forall t | t in pose
      ensures twice[t] == pose[t]
    {
    }
  }

  /** Mirroring changes x-coordinates only. */
  lemma MirrorMovesOnlyX(pose: Pose, imageWidth: int)
    ensures AgreeOutsideY(pose, Mirror(pose, imageWidth), {})
  {
  }

  /** The pose the rule chains see. */
  function Prepared(p: Processor, pose: Pose): (q: Pose)
    ensures !p.isFrontCamera ==> q == pose
    ensures p.isFrontCamera ==> q == Mirror(pose, p.imageWidth)
  {
    if p.isFrontCamera then Mirror(pose, p.imageWidth) else pose
  }

  // ----------------------------------------------------------------- geometry

  /** `calculateAngle`: the difference of the directions from `middle` to
      `last` and to `first`, made non-negative and folded into [0, 180]. */
  function JointAngle(h: Heading, first: Landmark, middle: Landmark, last: Landmark): (a: real)
    ensures 0.0 <= a <= 180.0
  {
    Folded(h(last.y - middle.y, last.x - middle.x) - h(first.y - middle.y, first.x - middle.x))
  }

  /** The absolute value of a difference of headings, folded into [0, 180]. */
  function Folded(d: real): (a: real)
    requires -360.0 < d < 360.0
    ensures 0.0 <= a <= 180.0
    ensures a == Abs(d) || a == 360.0 - Abs(d)
  {
    var raw := Abs(d);
    if raw > 180.0 then 360.0 - raw else raw
  }

  /** Replacing two headings by their reflections (`h'` with `h + h'` equal to
      plus or minus 180) keeps the folded difference. */
  lemma FoldedReflection(a: real, b: real, a': real, b': real)
    requires -180.0 < a <= 180.0 && -180.0 < b <= 180.0
    requires -180.0 < a' <= 180.0 && -180.0 < b' <= 180.0
    requires a + a' == 180.0 || a + a' == -180.0
    requires b + b' == 180.0 || b + b' == -180.0
    ensures Folded(a' - b') == Folded(a - b)
  {
  }

  /** The angle at a vertex does not depend on which end comes first. */
  lemma JointAngleSymmetric(h: Heading, first: Landmark, middle: Landmark, last: Landmark)
    ensures JointAngle(h, first, middle, last) == JointAngle(h, last, middle, first)
  {
  }

  /** Two ends at the same position make an angle of 0. */
  lemma JointAngleOfCoincidentEnds(h: Heading, first: Landmark, middle: Landmark, last: Landmark)
    requires first.x == last.x && first.y == last.y
    ensures JointAngle(h, first, middle, last) == 0.0
  {
  }

  /** Ends on a straight line through the vertex, one on each side, make 180. */
  lemma StraightJointAngle(h: Heading, first: Landmark, middle: Landmark, last: Landmark)
    requires Opposite(first.y - middle.y, first.x - middle.x, last.y - middle.y, last.x - middle.x)
    ensures JointAngle(h, first, middle, last) == 180.0
  {
    var b := h(first.y - middle.y, first.x - middle.x);
    var a := h(last.y - middle.y, last.x - middle.x);
    assert Abs(b - a) == 180.0;
  }

  /** The two landmarks are at different positions. */
  predicate Apart(a: Landmark, b: Landmark)
  {
    a.x != b.x || a.y != b.y
  }

  /** The headings of a non-zero offset and of its left-to-right reflection. */
  lemma ReflectedHeadings(h: Heading, dy: real, dx: real)
    requires dy != 0.0 || dx != 0.0
    ensures -180.0 < h(dy, dx) <= 180.0 && -180.0 < h(dy, -dx) <= 180.0
    ensures h(dy, dx) + h(dy, -dx) == 180.0 || h(dy, dx) + h(dy, -dx) == -180.0
  {
    assert h(dy, dx) + h(dy, -dx) == ReflectionSum(dy);
  }

  /** Mirroring all three points leaves the angle unchanged, as long as
      neither end sits on the vertex. */
  lemma MirroredJointAngle(h: Heading, first: Landmark, middle: Landmark, last: Landmark, imageWidth: int)
    requires Apart(first, middle) && Apart(last, middle)
    ensures JointAngle(h, MirrorLandmark(first, imageWidth), MirrorLandmark(middle, imageWidth),
                       MirrorLandmark(last, imageWidth))
         == JointAngle(h, first, middle, last)
  {
    var f, m, l := MirrorLandmark(first, imageWidth), MirrorLandmark(middle, imageWidth),
                   MirrorLandmark(last, imageWidth);
    var dyF, dxF := first.y - middle.y, first.x - middle.x;
    var dyL, dxL := last.y - middle.y, last.x - middle.x;
    assert f.y - m.y == dyF && f.x - m.x == -dxF;
    assert l.y - m.y == dyL && l.x - m.x == -dxL;
    ReflectedHeadings(h, dyF, dxF);
    ReflectedHeadings(h, dyL, dxL);
    FoldedReflection(h(dyL, dxL), h(dyF, dxF), h(dyL, -dxL), h(dyF, -dxF));
  }

  // ---------------------------------------------------------------- alignment

  /** `checkHipAlignment`: the hips differ in height by less than the tolerance. */
  function HipsAligned(leftHip: Landmark, rightHip: Landmark): (b: bool)
    ensures b <==> -AlignmentTolerance < leftHip.y - rightHip.y < AlignmentTolerance
  {
    Abs(leftHip.y - rightHip.y) < AlignmentTolerance
  }

  /** `checkKneeAlignment`: the knee is within the tolerance of the ankle horizontally. */
  function KneeAligned(knee: Landmark, ankle: Landmark): (b: bool)
    ensures b <==> -AlignmentTolerance < knee.x - ankle.x < AlignmentTolerance
  {
    Abs(knee.x - ankle.x) < AlignmentTolerance
  }

  /** The two points of a pair are both present and level within the tolerance. */
  predicate PairLevel(pair: (Option<Landmark>, Option<Landmark>))
  {
    pair.0.Some? && pair.1.Some? && Abs(pair.0.value.y - pair.1.value.y) < AlignmentTolerance
  }

  /** `checkBodyAlignment`: shoulders and hips must be present and level; the
      ankles are checked only when the pair is given and both are present. */
  function CheckBodyAlignment(
    shoulders: (Option<Landmark>, Option<Landmark>),
    hips: (Option<Landmark>, Option<Landmark>),
    ankles: Option<(Option<Landmark>, Option<Landmark>)>): (b: bool)
    ensures b <==>
      && PairLevel(shoulders)
      && PairLevel(hips)
      && (ankles.Some? && ankles.value.0.Some? && ankles.value.1.Some? ==> PairLevel(ankles.value))
  {
    if shoulders.0.None? || shoulders.1.None? || hips.0.None? || hips.1.None? then false
    else
      var shoulderAlignment := Abs(shoulders.0.value.y - shoulders.1.value.y) < AlignmentTolerance;
      var hipAlignment := Abs(hips.0.value.y - hips.1.value.y) < AlignmentTolerance;
      if ankles.None? || ankles.value.0.None? || ankles.value.1.None? then
        shoulderAlignment && hipAlignment
      else
        var ankleAlignment := Abs(ankles.value.0.value.y - ankles.value.1.value.y) < AlignmentTolerance;
        shoulderAlignment && hipAlignment && ankleAlignment
  }

  // -------------------------------------------------------------- rule chains

  /** `calculateBodyLineAngle`: the angle at the left hip between the left
      shoulder and the left ankle. */
  function BodyLineAngle(h: Heading, pose: Pose): (a: real)
    requires LeftShoulder in pose && LeftHip in pose && LeftAnkle in pose
    ensures 0.0 <= a <= 180.0
    ensures a == JointAngle(h, pose[LeftAnkle], pose[LeftHip], pose[LeftShoulder])
  {
    JointAngle(h, pose[LeftShoulder], pose[LeftHip], pose[LeftAnkle])
  }

  /** `analyzePlank`. The angle is never negative, so "raise your hips" is never given. */
  function AnalyzePlank(h: Heading, pose: Pose): (r: FormAnalysis)
    ensures r.advice == CannotDetectAllPoints <==> !(PlankPoints <= pose.Keys)
    ensures r.advice in {CannotDetectAllPoints, KeepHipsLevel, LowerHips, CoreTight}
    ensures PlankPoints <= pose.Keys && !HipsAligned(pose[LeftHip], pose[RightHip]) ==>
      r == FormAnalysis(false, KeepHipsLevel)
    ensures r.isCorrect <==>
      && PlankPoints <= pose.Keys
      && HipsAligned(pose[LeftHip], pose[RightHip])
      && BodyLineAngle(h, pose) <= BodyLineLimit
    ensures r.isCorrect <==> r.advice == CoreTight
    ensures r.advice == LowerHips <==>
      && PlankPoints <= pose.Keys
      && HipsAligned(pose[LeftHip], pose[RightHip])
      && BodyLineAngle(h, pose) > BodyLineLimit
  {
    if LeftShoulder !in pose || RightShoulder !in pose || LeftHip !in pose || RightHip !in pose
       || LeftAnkle !in pose || RightAnkle !in pose then
      FormAnalysis(false, CannotDetectAllPoints)
    else
      var hipAlignment := HipsAligned(pose[LeftHip], pose[RightHip]);
      var bodyLineAngle := BodyLineAngle(h, pose);
      if !hipAlignment then FormAnalysis(false, KeepHipsLevel)
      else if bodyLineAngle > BodyLineLimit then FormAnalysis(false, LowerHips)
      else if bodyLineAngle < -BodyLineLimit then FormAnalysis(false, RaiseHips)
      else FormAnalysis(true, CoreTight)
  }

  /** A plank held in a straight line, the shoulder and the ankle on opposite
      sides of the hip, makes a body-line angle of 180 and is told to lower
      its hips. */
  lemma StraightPlankIsTooHigh(h: Heading, pose: Pose)
    requires PlankPoints <= pose.Keys && HipsAligned(pose[LeftHip], pose[RightHip])
    requires Opposite(pose[LeftShoulder].y - pose[LeftHip].y, pose[LeftShoulder].x - pose[LeftHip].x,
                      pose[LeftAnkle].y - pose[LeftHip].y, pose[LeftAnkle].x - pose[LeftHip].x)
    ensures AnalyzePlank(h, pose) == FormAnalysis(false, LowerHips)
  {
    StraightJointAngle(h, pose[LeftShoulder], pose[LeftHip], pose[LeftAnkle]);
  }

  function ElbowAngle(h: Heading, pose: Pose): real
    requires LeftShoulder in pose && LeftElbow in pose && LeftWrist in pose
  {
    JointAngle(h, pose[LeftShoulder], pose[LeftElbow], pose[LeftWrist])
  }

  /** The shoulders and the hips are both present and level. */
  predicate TorsoLevel(pose: Pose)
  {
    && LeftShoulder in pose && RightShoulder in pose && LeftHip in pose && RightHip in pose
    && Abs(pose[LeftShoulder].y - pose[RightShoulder].y) < AlignmentTolerance
    && Abs(pose[LeftHip].y - pose[RightHip].y) < AlignmentTolerance
  }

  /** `analyzePushUp`. Only the left arm and left hip are required up front; a
      missing right shoulder or right hip fails the body-alignment check. */
  function AnalyzePushUp(h: Heading, pose: Pose): (r: FormAnalysis)
    ensures r.advice == CannotDetectAllPoints <==> !(PushUpPoints <= pose.Keys)
    ensures r.advice in {CannotDetectAllPoints, KeepBodyStraight, ElbowsTooLow, LowerWithControl, KeepGoing}
    ensures PushUpPoints <= pose.Keys && !TorsoLevel(pose) ==> r == FormAnalysis(false, KeepBodyStraight)
    ensures r.advice == KeepBodyStraight <==> PushUpPoints <= pose.Keys && !TorsoLevel(pose)
    ensures r.advice == ElbowsTooLow <==>
      PushUpPoints <= pose.Keys && TorsoLevel(pose) && ElbowAngle(h, pose) < ElbowTooLowAngle
    ensures r.isCorrect <==>
      PushUpPoints <= pose.Keys && TorsoLevel(pose) && ElbowAngle(h, pose) >= ElbowTooLowAngle
    ensures r.advice == LowerWithControl <==> r.isCorrect && ElbowAngle(h, pose) > ElbowExtendedAngle
    ensures r.advice == KeepGoing <==> r.isCorrect && ElbowAngle(h, pose) <= ElbowExtendedAngle
  {
    if LeftShoulder !in pose || LeftElbow !in pose || LeftWrist !in pose || LeftHip !in pose then
      FormAnalysis(false, CannotDetectAllPoints)
    else
      var elbowAngle := ElbowAngle(h, pose);
      var bodyAlignment := CheckBodyAlignment(
        (Get(pose, LeftShoulder), Get(pose, RightShoulder)), (Get(pose, LeftHip), Get(pose, RightHip)), None);
      if !bodyAlignment then FormAnalysis(false, KeepBodyStraight)
      else if elbowAngle < ElbowTooLowAngle then FormAnalysis(false, ElbowsTooLow)
      else if elbowAngle > ElbowExtendedAngle then FormAnalysis(true, LowerWithControl)
      else FormAnalysis(true, KeepGoing)
  }

  function KneeAngle(h: Heading, pose: Pose): real
    requires LeftHip in pose && LeftKnee in pose && LeftAnkle in pose
  {
    JointAngle(h, pose[LeftHip], pose[LeftKnee], pose[LeftAnkle])
  }

  /** `analyzeSquat`: knee over ankle first, then the knee angle bands. */
  function AnalyzeSquat(h: Heading, pose: Pose): (r: FormAnalysis)
    ensures r.advice == CannotDetectAllPoints <==> !(SquatPoints <= pose.Keys)
    ensures r.advice in {CannotDetectAllPoints, KneesInLine, KneesTooLow, LowerWithControl, GoodDepth}
    ensures SquatPoints <= pose.Keys && !KneeAligned(pose[LeftKnee], pose[LeftAnkle]) ==>
      r == FormAnalysis(false, KneesInLine)
    ensures r.advice == KneesInLine <==> SquatPoints <= pose.Keys && !KneeAligned(pose[LeftKnee], pose[LeftAnkle])
    ensures r.advice == KneesTooLow <==>
      && SquatPoints <= pose.Keys
      && KneeAligned(pose[LeftKnee], pose[LeftAnkle])
      && KneeAngle(h, pose) < KneeTooLowAngle
    ensures r.isCorrect <==>
      && SquatPoints <= pose.Keys
      && KneeAligned(pose[LeftKnee], pose[LeftAnkle])
      && KneeAngle(h, pose) >= KneeTooLowAngle
    ensures r.advice == LowerWithControl <==> r.isCorrect && KneeAngle(h, pose) > KneeExtendedAngle
    ensures r.advice == GoodDepth <==> r.isCorrect && KneeAngle(h, pose) <= KneeExtendedAngle
  {
    if LeftHip !in pose || LeftKnee !in pose || LeftAnkle !in pose then
      FormAnalysis(false, CannotDetectAllPoints)
    else
      var kneeAngle := KneeAngle(h, pose);
      var kneeAlignment := KneeAligned(pose[LeftKnee], pose[LeftAnkle]);
      if !kneeAlignment then FormAnalysis(false, KneesInLine)
      else if kneeAngle < KneeTooLowAngle then FormAnalysis(false, KneesTooLow)
      else if kneeAngle > KneeExtendedAngle then FormAnalysis(true, LowerWithControl)
      else FormAnalysis(true, GoodDepth)
  }

  /** The three placeholders accept every pose. */
  function AnalyzeHollowBody(pose: Pose): FormAnalysis
  {
    FormAnalysis(true, HollowBodyPending)
  }

  function AnalyzeRussianTwist(pose: Pose): FormAnalysis
  {
    FormAnalysis(true, RussianTwistPending)
  }

  function AnalyzeWallSit(pose: Pose): FormAnalysis
  {
    FormAnalysis(true, WallSitPending)
  }

  // ----------------------------------------------------------------- dispatch

  /** `analyzePose`: mirror for a front camera, then dispatch on the
      lower-cased exercise name. */
  function AnalyzePose(p: Processor, pose: Pose, exerciseType: string): (r: FormAnalysis)
    ensures r.advice == NotSupported <==> Lowercase(exerciseType) !in KnownExercises
    ensures Lowercase(exerciseType) !in KnownExercises ==> r == FormAnalysis(false, NotSupported)
    ensures Lowercase(exerciseType) in {"hollow-body", "russian-twist", "wall-sit"} ==>
      r.isCorrect && r.advice in {HollowBodyPending, RussianTwistPending, WallSitPending}
    ensures Lowercase(exerciseType) == "plank" ==> r == AnalyzePlank(p.heading, Prepared(p, pose))
    ensures Lowercase(exerciseType) == "push-up" ==> r == AnalyzePushUp(p.heading, Prepared(p, pose))
    ensures Lowercase(exerciseType) == "squat" ==> r == AnalyzeSquat(p.heading, Prepared(p, pose))
    ensures Lowercase(exerciseType) == "hollow-body" ==> r == FormAnalysis(true, HollowBodyPending)
    ensures Lowercase(exerciseType) == "russian-twist" ==> r == FormAnalysis(true, RussianTwistPending)
    ensures Lowercase(exerciseType) == "wall-sit" ==> r == FormAnalysis(true, WallSitPending)
  {
    var pose' := Prepared(p, pose);
    var name := Lowercase(exerciseType);
    if name == "plank" then AnalyzePlank(p.heading, pose')
    else if name == "push-up" then AnalyzePushUp(p.heading, pose')
    else if name == "squat" then AnalyzeSquat(p.heading, pose')
    else if name == "hollow-body" then AnalyzeHollowBody(pose')
    else if name == "russian-twist" then AnalyzeRussianTwist(pose')
    else if name == "wall-sit" then AnalyzeWallSit(pose')
    else FormAnalysis(false, NotSupported)
  }

  /** Dispatch ignores the case of ASCII letters in the exercise name. */
  lemma DispatchIgnoresCase(p: Processor, pose: Pose, exerciseType: string)
    ensures AnalyzePose(p, pose, exerciseType) == AnalyzePose(p, pose, Lowercase(exerciseType))
  {
    LowercaseIdempotent(exerciseType);
  }

  /** The placeholder exercises read no landmark: every pose gets the same verdict. */
  lemma PlaceholdersIgnorePose(p: Processor, pose1: Pose, pose2: Pose, exerciseType: string)
    requires Lowercase(exerciseType) in {"hollow-body", "russian-twist", "wall-sit"}
    ensures AnalyzePose(p, pose1, exerciseType) == AnalyzePose(p, pose2, exerciseType)
  {
  }

  /** The end points of the plank's hip angle are off the hip. */
  predicate PlankJointApart(pose: Pose)
  {
    && (LeftShoulder in pose && LeftHip in pose ==> Apart(pose[LeftShoulder], pose[LeftHip]))
    && (LeftAnkle in pose && LeftHip in pose ==> Apart(pose[LeftAnkle], pose[LeftHip]))
  }

  /** The end points of the push-up's elbow angle are off the elbow. */
  predicate PushUpJointApart(pose: Pose)
  {
    && (LeftShoulder in pose && LeftElbow in pose ==> Apart(pose[LeftShoulder], pose[LeftElbow]))
    && (LeftWrist in pose && LeftElbow in pose ==> Apart(pose[LeftWrist], pose[LeftElbow]))
  }

  /** The end points of the squat's knee angle are off the knee. */
  predicate SquatJointApart(pose: Pose)
  {
    && (LeftHip in pose && LeftKnee in pose ==> Apart(pose[LeftHip], pose[LeftKnee]))
    && (LeftAnkle in pose && LeftKnee in pose ==> Apart(pose[LeftAnkle], pose[LeftKnee]))
  }

  /** No end point of a measured joint sits on that joint's vertex. */
  predicate JointsApart(pose: Pose)
  {
    PlankJointApart(pose) && PushUpJointApart(pose) && SquatJointApart(pose)
  }

  lemma MirrorPreservesPlank(h: Heading, pose: Pose, w: int)
    requires PlankJointApart(pose)
    ensures AnalyzePlank(h, Mirror(pose, w)) == AnalyzePlank(h, pose)
  {
    var m := Mirror(pose, w);
    if PlankPoints <= pose.Keys {
      MirroredJointAngle(h, pose[LeftShoulder], pose[LeftHip], pose[LeftAnkle], w);
      assert BodyLineAngle(h, m) == BodyLineAngle(h, pose);
      assert HipsAligned(m[LeftHip], m[RightHip]) == HipsAligned(pose[LeftHip], pose[RightHip]);
    }
  }

  lemma MirrorPreservesPushUp(h: Heading, pose: Pose, w: int)
    requires PushUpJointApart(pose)
    ensures AnalyzePushUp(h, Mirror(pose, w)) == AnalyzePushUp(h, pose)
  {
    var m := Mirror(pose, w);
    if PushUpPoints <= pose.Keys {
      MirroredJointAngle(h, pose[LeftShoulder], pose[LeftElbow], pose[LeftWrist], w);
      assert ElbowAngle(h, m) == ElbowAngle(h, pose);
      assert TorsoLevel(m) == TorsoLevel(pose);
    }
  }

  lemma MirrorPreservesSquat(h: Heading, pose: Pose, w: int)
    requires SquatJointApart(pose)
    ensures AnalyzeSquat(h, Mirror(pose, w)) == AnalyzeSquat(h, pose)
  {
    var m := Mirror(pose, w);
    if SquatPoints <= pose.Keys {
      MirroredJointAngle(h, pose[LeftHip], pose[LeftKnee], pose[LeftAnkle], w);
      assert KneeAngle(h, m) == KneeAngle(h, pose);
      assert KneeAligned(m[LeftKnee], m[LeftAnkle]) == KneeAligned(pose[LeftKnee], pose[LeftAnkle]);
    }
  }

  /** Every check reads either y-coordinates, horizontal distances or angles,
      none of which mirroring changes: the camera facing never alters a
      verdict unless an end point sits on its vertex. */
  lemma FrontCameraDoesNotChangeVerdict(p: Processor, pose: Pose, exerciseType: string)
    requires JointsApart(pose)
    ensures AnalyzePose(p.(isFrontCamera := true), pose, exerciseType)
         == AnalyzePose(p.(isFrontCamera := false), pose, exerciseType)
  {
    MirrorPreservesPlank(p.heading, pose, p.imageWidth);
    MirrorPreservesPushUp(p.heading, pose, p.imageWidth);
    MirrorPreservesSquat(p.heading, pose, p.imageWidth);
  }
}
