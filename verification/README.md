# FitFormAR form checking, modelled in Dafny

FitFormAR is an Android app. It runs an on-device pose detector on camera
frames and gives spoken and on-screen feedback on exercise form. This project
models its decision logic in three parts.

- **`ExerciseFormAnalyzer`** (module `FormAnalyzer`) is the checker the camera
  screen actually calls. Plank and push-up each pass a presence gate and a
  confidence gate (likelihood at least 0.7). Then an ordered rule chain runs
  over "angles" computed from y-coordinates only, plus the vertical offset
  between the hips. Its seven possible messages live in `AnalyzerMessages`.
- **`PoseProcessor`** (module `PoseProcessor`) is an alternative checker. It
  mirrors x for a front camera and dispatches on the lower-cased exercise
  name. It judges a plank, a push-up or a squat from true three-point joint
  angles and 30-pixel alignment tolerances. Hollow body, Russian twist and
  wall sit are placeholders that accept every pose.
- **The camera screen's feedback callback** (module `CameraScreen`) routes each
  detected pose to the analyser for the chosen exercise. It drops feedback
  equal to what is already shown. It counts a perfect rep each time newly
  shown feedback contains "Perfect", and picks a milestone message to speak.

Supporting modules:

- `Poses`: landmarks, and a pose as a map from body point to landmark. A point
  the detector did not return is absent from the map.
- `Geometry`: `Heading`, the abstraction of `Math.toDegrees(atan2(dy, dx))`.
  It is any function with the range, antipodal and reflection properties of
  exact `atan2`.
- `Text`: Kotlin's `contains`, `lowercase` and decimal `Int` rendering.

What the proofs establish:

- Every verdict of every rule chain is characterised in both directions in
  terms of the pose, and the dispatchers are shown to route each exercise to
  its own rule chain.
- Exactly the correct-form messages contain "Perfect".
- `ExerciseFormAnalyzer`'s y-only angle takes only the values 0, 90 and 180. As
  a result, every straight, sloping plank, head high or head low, is told to
  lower its hips.
- `PoseProcessor`'s "raise your hips" branch is unreachable, because the angle
  is never negative.
- Mirroring for the front camera never changes a `PoseProcessor` verdict
  (unless an end point sits on its joint).
- The rep counter equals the number of positions at which newly shown
  feedback contains "Perfect".
- Holding one pose counts at most once.
- The counter is not capped at the goal of 20.

There is no start-position state machine and no reset operation in the code.
The three fields of `ExerciseFormAnalyzer` at lines 15-17 that such a machine
would use are never read, so the model has none either.

## Model

| member | source | states |
|---|---|---|
| FormAnalyzer.AllPresent | app/src/main/java/com/fitformar/ar/ExerciseFormAnalyzer.kt:24-26 | the null test passes exactly when every required body point was detected |
| FormAnalyzer.AnyUnclear | app/src/main/java/com/fitformar/ar/ExerciseFormAnalyzer.kt:31-34 | the confidence test fires exactly when some required point has likelihood below 0.7 |
| FormAnalyzer.CheckGate | app/src/main/java/com/fitformar/ar/ExerciseFormAnalyzer.kt:24-36 | a missing point is reported first; otherwise any likelihood below 0.7 is reported; the pose is ready exactly when every point is present with likelihood at least 0.7 |
| FormAnalyzer.YAngle | app/src/main/java/com/fitformar/ar/ExerciseFormAnalyzer.kt:119-124 | with the x offset fixed at 0 the angle is always 0, 90 or 180: 0 exactly when both ends lie on the same vertical side of the middle point, 180 exactly when on opposite sides |
| FormAnalyzer.YAngleDependsOnSidesOnly | app/src/main/java/com/fitformar/ar/ExerciseFormAnalyzer.kt:119-124 | the angle depends only on which side of the middle point each end lies, and is symmetric in the ends |
| FormAnalyzer.HipOffset | app/src/main/java/com/fitformar/ar/ExerciseFormAnalyzer.kt:46 | the vertical distance between the hips: non-negative and equal to the height difference taken one way or the other |
| FormAnalyzer.AnalyzePlank | app/src/main/java/com/fitformar/ar/ExerciseFormAnalyzer.kt:19-63 | one of five messages; "full body" iff a point is missing, "cannot detect" iff a point is unclear; on a ready pose, "lower your hips" iff shoulder and ankle are not on the same side of the hip, else "keep hips level" iff the hips differ by more than 20, else "Perfect plank form!" |
| FormAnalyzer.AnalyzePushup | app/src/main/java/com/fitformar/ar/ExerciseFormAnalyzer.kt:65-117 | one of five messages; the same two gates over all eight arm and hip points; on a ready pose, "lower your body" iff either arm has shoulder and wrist on the same side of the elbow, else "keep hips level" iff the hips differ by more than 20, else "Perfect push-up form!" |
| FormAnalyzer.PlankPerfectIffCorrect | app/src/main/java/com/fitformar/ar/ExerciseFormAnalyzer.kt:50-60 | a plank verdict contains "Perfect" exactly when it is the correct-form verdict |
| FormAnalyzer.PushupPerfectIffCorrect | app/src/main/java/com/fitformar/ar/ExerciseFormAnalyzer.kt:104-114 | a push-up verdict contains "Perfect" exactly when it is the correct-form verdict |
| FormAnalyzer.GateIgnoresPositions | app/src/main/java/com/fitformar/ar/ExerciseFormAnalyzer.kt:24-36 | the gates read only which points were detected and their likelihoods, never positions |
| FormAnalyzer.PlankReadsOnlyLeftLineAndHips | app/src/main/java/com/fitformar/ar/ExerciseFormAnalyzer.kt:38-46 | two poses that agree on detection, likelihoods and every y except the right shoulder's and right ankle's get the same plank verdict; no x is read |
| FormAnalyzer.PushupIgnoresX | app/src/main/java/com/fitformar/ar/ExerciseFormAnalyzer.kt:86-100 | poses differing only in x-coordinates get the same push-up verdict |
| FormAnalyzer.SlopedStraightPlankIsTooHigh | app/src/main/java/com/fitformar/ar/ExerciseFormAnalyzer.kt:39-53 | a ready plank whose hip lies strictly between shoulder and ankle in height, in either order (head high or head low), is told to lower its hips |
| AnalyzerMessages.MarkedMessages | app/src/main/java/com/fitformar/ui/screens/CameraScreen.kt:74 | of the seven analyser messages exactly the two correct-form ones contain "Perfect" |
| AnalyzerMessages.PlankVerdictMarking | app/src/main/java/com/fitformar/ar/ExerciseFormAnalyzer.kt:27-58 | among the plank messages, only "Perfect plank form!" contains "Perfect" |
| AnalyzerMessages.PushupVerdictMarking | app/src/main/java/com/fitformar/ar/ExerciseFormAnalyzer.kt:75-112 | among the push-up messages, only "Perfect push-up form!" contains "Perfect" |
| Text.ContainsAtSomePosition | app/src/main/java/com/fitformar/ui/screens/CameraScreen.kt:74 | `Text.Contains`, the model of Kotlin's case-sensitive `contains`, holds exactly when some window of the string equals the pattern |
| Text.Lowercase | app/src/main/java/com/fitformar/ar/PoseProcessor.kt:21 | lower-casing keeps the length, maps each ASCII capital to its small letter and leaves no capital |
| Text.DecimalString | app/src/main/java/com/fitformar/ui/screens/CameraScreen.kt:81 | the `$perfectReps` template text: at least one character, all decimal digits, no leading zero except for 0 itself, and one digit exactly for counts below 10 |
| Text.DecimalRoundTrip | app/src/main/java/com/fitformar/ui/screens/CameraScreen.kt:81 | the rendered count reads back as the count |
| PoseProcessor.MessageInjective | app/src/main/java/com/fitformar/ar/PoseProcessor.kt:28-108 | no two advice cases share a text, so comparing advice by case is comparing the feedback strings |
| PoseProcessor.Mirror | app/src/main/java/com/fitformar/ar/PoseProcessor.kt:13-19 | the same points are kept; each x becomes image width minus x; y and likelihood are unchanged |
| PoseProcessor.MirrorTwiceRestores | app/src/main/java/com/fitformar/ar/PoseProcessor.kt:13-19 | mirroring twice restores the pose |
| PoseProcessor.MirrorMovesOnlyX | app/src/main/java/com/fitformar/ar/PoseProcessor.kt:14-18 | a mirrored pose agrees with the original on detection, likelihood and every y |
| PoseProcessor.Prepared | app/src/main/java/com/fitformar/ar/PoseProcessor.kt:13-19 | the pose is mirrored exactly when the camera faces the user, and otherwise left alone |
| Geometry.HeadingInRange | app/src/main/java/com/fitformar/ar/PoseProcessor.kt:112-116 | every direction in degrees lies in (-180, 180] |
| Geometry.OppositeHeadings | app/src/main/java/com/fitformar/ar/PoseProcessor.kt:112-116 | offsets in opposite directions have directions exactly 180 degrees apart |
| PoseProcessor.ReflectedHeadings | app/src/main/java/com/fitformar/ar/PoseProcessor.kt:112-116 | the direction of an offset and of its left-to-right reflection sum to 180 or -180 |
| PoseProcessor.JointAngle | app/src/main/java/com/fitformar/ar/PoseProcessor.kt:111-119 | the folded angle lies in [0, 180] |
| PoseProcessor.JointAngleSymmetric | app/src/main/java/com/fitformar/ar/PoseProcessor.kt:111-119 | swapping the end points does not change the angle |
| PoseProcessor.JointAngleOfCoincidentEnds | app/src/main/java/com/fitformar/ar/PoseProcessor.kt:111-119 | two ends at the same position make angle 0 |
| PoseProcessor.StraightJointAngle | app/src/main/java/com/fitformar/ar/PoseProcessor.kt:111-119 | ends in opposite directions from the vertex make angle 180 |
| PoseProcessor.MirroredJointAngle | app/src/main/java/com/fitformar/ar/PoseProcessor.kt:111-119 | mirroring all three points leaves the angle unchanged when neither end is on the vertex |
| PoseProcessor.HipsAligned | app/src/main/java/com/fitformar/ar/PoseProcessor.kt:121-123 | the hips count as level exactly when their heights differ by strictly less than 30 |
| PoseProcessor.KneeAligned | app/src/main/java/com/fitformar/ar/PoseProcessor.kt:125-127 | the knee counts as over the ankle exactly when their horizontal positions differ by strictly less than 30 |
| PoseProcessor.BodyLineAngle | app/src/main/java/com/fitformar/ar/PoseProcessor.kt:129-131 | the angle at the left hip between left shoulder and left ankle, in [0, 180], and the same whichever end is named first |
| PoseProcessor.CheckBodyAlignment | app/src/main/java/com/fitformar/ar/PoseProcessor.kt:133-152 | true iff shoulders and hips are all present and each pair is level within 30, and the ankles, when given and both present, are level within 30 |
| PoseProcessor.AnalyzePlank | app/src/main/java/com/fitformar/ar/PoseProcessor.kt:32-53 | "cannot detect" iff one of the six points is missing; misaligned hips give "keep hips level"; "lower your hips" iff present with hips within 30 and body-line angle above 15; correct iff all present, hips within 30 and body-line angle at most 15, iff the advice is "keep your core tight"; "raise your hips" is never given |
| PoseProcessor.StraightPlankIsTooHigh | app/src/main/java/com/fitformar/ar/PoseProcessor.kt:43-52 | a plank with level hips whose shoulder and ankle are in opposite directions from the hip is told to lower its hips |
| PoseProcessor.AnalyzePushUp | app/src/main/java/com/fitformar/ar/PoseProcessor.kt:55-74 | "cannot detect" iff a left shoulder, elbow, wrist or hip is missing; "keep your body straight" iff the torso is unlevel or incomplete; "too low" iff the torso is level and the elbow angle is below 45; correct iff the torso is level and the elbow angle is at least 45; "lower down with control" iff correct with elbow angle above 160; "keep going" iff correct with elbow angle at most 160 |
| PoseProcessor.AnalyzeSquat | app/src/main/java/com/fitformar/ar/PoseProcessor.kt:76-94 | "cannot detect" iff a left hip, knee or ankle is missing; "knees in line" iff all three are present and the knee is 30 or more off the ankle horizontally; "too low" iff aligned with knee angle below 90; correct iff aligned with knee angle at least 90; "lower down with control" iff correct with knee angle above 170; "good depth" iff correct with knee angle at most 170 |
| PoseProcessor.AnalyzePose | app/src/main/java/com/fitformar/ar/PoseProcessor.kt:12-30 | "not supported" iff the lower-cased name is none of the six exercises, and then the verdict is incorrect; "plank", "push-up" and "squat" get the plank, push-up and squat verdicts of the pose after front-camera mirroring; each placeholder name gets a correct verdict with its own pending message |
| PoseProcessor.DispatchIgnoresCase | app/src/main/java/com/fitformar/ar/PoseProcessor.kt:21-29 | the verdict for a name equals the verdict for its lower-cased form |
| PoseProcessor.PlaceholdersIgnorePose | app/src/main/java/com/fitformar/ar/PoseProcessor.kt:96-109 | the placeholder exercises give the same verdict for every pose |
| PoseProcessor.MirrorPreservesPlank | app/src/main/java/com/fitformar/ar/PoseProcessor.kt:32-53 | mirroring does not change the plank verdict when neither end point of the plank angle sits on its vertex |
| PoseProcessor.MirrorPreservesPushUp | app/src/main/java/com/fitformar/ar/PoseProcessor.kt:55-74 | mirroring does not change the push-up verdict when neither end point of the push-up angle sits on its vertex |
| PoseProcessor.MirrorPreservesSquat | app/src/main/java/com/fitformar/ar/PoseProcessor.kt:76-94 | mirroring does not change the squat verdict when neither end point of the squat angle sits on its vertex |
| PoseProcessor.FrontCameraDoesNotChangeVerdict | app/src/main/java/com/fitformar/ar/PoseProcessor.kt:12-30 | front and back camera processors give the same verdict for every exercise name, on every pose in which no measured end point sits on its joint's vertex |
| CameraScreen.AnalyzeFrame | app/src/main/java/com/fitformar/ui/screens/CameraScreen.kt:240-243 | a plank frame gets the plank analyser's feedback and a push-up frame the push-up analyser's; the feedback is one of that exercise's five messages, and contains "Perfect" exactly when it is that exercise's correct-form message |
| CameraScreen.MilestoneMessage | app/src/main/java/com/fitformar/ui/screens/CameraScreen.kt:76-82 | a count of 1 speaks "Great! Now do 20 more perfect reps!", a count of 20 speaks "Congratulations! You've completed 20 perfect reps!", any other count speaks its decimal digits, which read back as the count, followed by " perfect reps completed!" |
| CameraScreen.MilestoneGoalMessages | app/src/main/java/com/fitformar/ui/screens/CameraScreen.kt:76-79 | the first rep and the twentieth rep announce the goal as "20" |
| CameraScreen.MilestoneCountReadsBack | app/src/main/java/com/fitformar/ui/screens/CameraScreen.kt:80-81 | every other count is announced as its decimal digits followed by " perfect reps completed!", and the digits read back as the count |
| CameraScreen.OnFeedbackUpdate | app/src/main/java/com/fitformar/ui/screens/CameraScreen.kt:68-85 | repeated feedback changes nothing and speaks nothing; new feedback is shown and spoken first; the count grows by one exactly when new feedback contains "Perfect", and then the milestone for the new count is spoken second |
| CameraScreen.Run | app/src/main/java/com/fitformar/ui/screens/CameraScreen.kt:46-85 | the callback folded over a sequence of feedbacks from the initial empty state; the count never exceeds the number of feedbacks |
| CameraScreen.RunShowsLatest | app/src/main/java/com/fitformar/ui/screens/CameraScreen.kt:46-71 | after any sequence of callbacks the last feedback given is shown, or "" before the first |
| CameraScreen.RunCountsPerfectArrivals | app/src/main/java/com/fitformar/ui/screens/CameraScreen.kt:46-85 | the count equals the number of positions whose feedback contains "Perfect" and differs from the feedback before it |
| CameraScreen.RepsNeverDecrease | app/src/main/java/com/fitformar/ui/screens/CameraScreen.kt:73-75 | later callbacks never lower the count |
| CameraScreen.HoldingCountsOnce | app/src/main/java/com/fitformar/ui/screens/CameraScreen.kt:69-70 | repeating the feedback just shown any number of times leaves the state unchanged |
| CameraScreen.HeldFeedbackCountsAtMostOnce | app/src/main/java/com/fitformar/ui/screens/CameraScreen.kt:69-75 | a run of one repeated feedback credits at most one rep |
| CameraScreen.StillPoseCountsAtMostOnce | app/src/main/java/com/fitformar/ui/screens/CameraScreen.kt:238-244 | a pose held still for any number of frames credits at most one rep |
| CameraScreen.PerfectThenImperfect | app/src/main/java/com/fitformar/ui/screens/CameraScreen.kt:69-83 | new "Perfect" feedback followed by feedback without it adds exactly one rep |
| CameraScreen.AlternationCounts | app/src/main/java/com/fitformar/ui/screens/CameraScreen.kt:74-75 | k alternations between marked and unmarked feedback count k reps |
| CameraScreen.CountIsNotCapped | app/src/main/java/com/fitformar/ui/screens/CameraScreen.kt:74-82 | alternating between perfect and uneven-hip plank feedback k times counts k reps, for every k, including past the goal of 20 |

## Left out

- Floating point: coordinates, likelihoods and angles are exact reals. `0.7f` is taken as 0.7, and the `Float`/`Double` conversions and rounding of both checkers are not modelled.
- `atan2` and `Math.toDegrees` in `PoseProcessor` are not computed. They are the parameter `Heading`, constrained only by range, antipodal and reflection properties that exact `atan2` has. Verdicts are stated in terms of the angle rather than raw coordinates.
- The y-only `atan2(d, 0.0)` of `ExerciseFormAnalyzer` is modelled exactly (90, -90 or 0 degrees), including `atan2(0.0, 0.0) == 0`; the signed-zero results of `atan2(-0.0, 0.0)` are not.
- `Text.Lowercase`: lower-cases ASCII letters only, because Kotlin's full Unicode case mapping is out of scope. Kotlin's `lowercase()` also maps some non-ASCII characters to ASCII letters (U+212A KELVIN SIGN becomes 'k'), so a name such as "PLAN\u212A" reaches the plank analysis in the app but is "not supported" in the model.
- `CameraScreen.Screen`: the count is an unbounded natural number. Kotlin's `Int` count wraps to a negative value after 2^31 - 1 perfect reps, and that wrap is not modelled, so `CountIsNotCapped` holds for every k only in the model.
- `PoseProcessor.AnalyzePose` mutates the detector's landmarks in place when mirroring. The model returns a mirrored copy, so the aliasing effect on later readers of the same pose object is not modelled.
- `PoseProcessor` feedback strings are modelled as the `Advice` enumeration with `Message` giving the exact texts, so verdicts are compared by case rather than by string.
- `PoseProcessor.AnalyzeHollowBody`, `AnalyzeRussianTwist` and `AnalyzeWallSit` carry no contract of their own. They return a constant, and their behaviour is stated through `AnalyzePose` and `PlaceholdersIgnorePose`.
- The unused fields `perfectRepCount`, `isInStartPosition` and `lastFeedback` of `ExerciseFormAnalyzer` are left out because no code reads them.
- Speech is modelled as the list of texts a callback passes to `speak`, in order. The speech engine, its queueing and its failures are not modelled.
- The camera, the pose detector, executors and threading are left out. So are image-proxy handling, the failure and error callbacks, and the Compose UI. The camera code delivers one pose at a time to the callback, which the model takes as a sequence of feedbacks.
- `PoseProcessor.AnalyzePose`: the image width is an unbounded integer, and Kotlin's `Int`-to-`Float` conversion of it is not modelled.
