/** The camera screen's feedback callback: it routes each detected pose to the
    analyser for the chosen exercise, drops feedback equal to what is already
    shown, and counts a perfect rep whenever newly shown feedback contains
    "Perfect". Speech is modelled as the list of texts each call asks to speak. */
module CameraScreen {
  import opened Poses
  import opened Text
  import opened AnalyzerMessages
  import FormAnalyzer

  const PerfectRepsGoal: nat := 20

  /** The exercises the app offers. */
  datatype Exercise = Plank | Pushup

  /** The correct-form message of an exercise's analyser. */
  function PerfectMessageFor(exercise: Exercise): string
  {
    match exercise
    case Plank => PerfectPlankMessage
    case Pushup => PerfectPushupMessage
  }

  /** The analyser call made for each detected pose. */
  function AnalyzeFrame(exercise: Exercise, pose: Pose): (feedback: string)
    ensures Contains(feedback, PerfectMarker) <==> feedback == PerfectMessageFor(exercise)
    ensures exercise == Plank ==>
      feedback in {FullBodyMessage, UnclearMessage, LowerHipsMessage, HipsLevelMessage, PerfectPlankMessage}
    ensures exercise == Pushup ==>
      feedback in {FullBodyMessage, UnclearMessage, LowerBodyMessage, HipsLevelMessage, PerfectPushupMessage}
    ensures exercise == Plank ==> feedback == FormAnalyzer.AnalyzePlank(pose)
    ensures exercise == Pushup ==> feedback == FormAnalyzer.AnalyzePushup(pose)
  {
    match exercise
    case Plank =>
      FormAnalyzer.PlankPerfectIffCorrect(pose);
      FormAnalyzer.AnalyzePlank(pose)
    case Pushup =>
      FormAnalyzer.PushupPerfectIffCorrect(pose);
      FormAnalyzer.AnalyzePushup(pose)
  }

  /** The screen state the callback reads and writes. */
  datatype Screen = Screen(feedback: string, perfectReps: nat)

  const Initial := Screen("", 0)

  /** One callback invocation: the new state and the texts it spoke, in order. */
  datatype Update = Update(screen: Screen, spoken: seq<string>)

  /** What is spoken after a perfect rep brings the count to `reps`. */
  function MilestoneMessage(reps: nat): (r: string)
    ensures reps == 1 ==> r == "Great! Now do 20 more perfect reps!"
    ensures reps == PerfectRepsGoal ==> r == "Congratulations! You've completed 20 perfect reps!"
    ensures reps != 1 && reps != PerfectRepsGoal ==>
      r == DecimalString(reps) + " perfect reps completed!" && DecimalValue(r[..|r| - 24]) == reps
  {
    GoalDigits();
    DecimalRoundTrip(reps);
    assert (DecimalString(reps) + " perfect reps completed!")[..|DecimalString(reps)|] == DecimalString(reps);
    if reps == 1 then "Great! Now do " + DecimalString(PerfectRepsGoal) + " more perfect reps!"
    else if reps == PerfectRepsGoal then
      "Congratulations! You've completed " + DecimalString(PerfectRepsGoal) + " perfect reps!"
    else DecimalString(reps) + " perfect reps completed!"
  }

  lemma GoalDigits()
    ensures DecimalString(PerfectRepsGoal) == "20"
  {
    assert DecimalString(2) == "2";
  }

  /** The goal renders as "20" in the first and last milestone messages. */
  lemma MilestoneGoalMessages()
    ensures MilestoneMessage(1) == "Great! Now do 20 more perfect reps!"
    ensures MilestoneMessage(PerfectRepsGoal) == "Congratulations! You've completed 20 perfect reps!"
  {
    assert DecimalString(20) == "20";
  }

  /** Every other milestone message opens with the count in decimal. */
  lemma MilestoneCountReadsBack(reps: nat)
    requires reps != 1 && reps != PerfectRepsGoal
    ensures exists digits ::
      && |digits| >= 1
      && (forall i :: 0 <= i < |digits| ==> IsDigit(digits[i]))
      && MilestoneMessage(reps) == digits + " perfect reps completed!"
      && DecimalValue(digits) == reps
  {
    DecimalRoundTrip(reps);
    var digits := DecimalString(reps);
    assert MilestoneMessage(reps) == digits + " perfect reps completed!";
  }

  /** The new feedback is shown for the first time and mentions "Perfect". */
  predicate PerfectArrival(shown: string, newFeedback: string)
  {
    newFeedback != shown && Contains(newFeedback, PerfectMarker)
  }

  /** `onFeedbackUpdate`. */
  function OnFeedbackUpdate(s: Screen, newFeedback: string): (u: Update)
    ensures newFeedback == s.feedback ==> u == Update(s, [])
    ensures newFeedback != s.feedback ==>
      && u.screen.feedback == newFeedback
      && |u.spoken| >= 1 && u.spoken[0] == newFeedback
    ensures u.screen.perfectReps == s.perfectReps + (if PerfectArrival(s.feedback, newFeedback) then 1 else 0)
    ensures PerfectArrival(s.feedback, newFeedback) ==>
      u.spoken == [newFeedback, MilestoneMessage(u.screen.perfectReps)]
    ensures !PerfectArrival(s.feedback, newFeedback) ==> |u.spoken| <= 1
  {
    if newFeedback == s.feedback then Update(s, [])
    else if Contains(newFeedback, PerfectMarker) then
      var reps := s.perfectReps + 1;
      Update(Screen(newFeedback, reps), [newFeedback, MilestoneMessage(reps)])
    else
      Update(Screen(newFeedback, s.perfectReps), [newFeedback])
  }

  /** The state after the callback has seen `feedbacks`, in order. */
  function Run(feedbacks: seq<string>): (r: Screen)
    ensures r.perfectReps <= |feedbacks|
    decreases |feedbacks|
  {
    if |feedbacks| == 0 then Initial
    else OnFeedbackUpdate(Run(feedbacks[..|feedbacks| - 1]), feedbacks[|feedbacks| - 1]).screen
  }

  lemma RunSnoc(feedbacks: seq<string>, f: string)
    ensures Run(feedbacks + [f]) == OnFeedbackUpdate(Run(feedbacks), f).screen
  {
    assert (feedbacks + [f])[..|feedbacks|] == feedbacks;
  }

  /** The feedback shown before position `i`: the empty string at the start. */
  function PreviousAt(feedbacks: seq<string>, i: nat): string
    requires i < |feedbacks|
  {
    if i == 0 then "" else feedbacks[i - 1]
  }

  /** The positions at which a perfect rep is credited, defined directly. */
  function ArrivalPositions(feedbacks: seq<string>): (r: set<nat>)
    ensures forall i :: i in r ==> i < |feedbacks|
  {
    set i: nat | i < |feedbacks| && PerfectArrival(PreviousAt(feedbacks, i), feedbacks[i])
  }

  /** The callback always shows the latest feedback it was given. */
  lemma {:induction false} RunShowsLatest(feedbacks: seq<string>)
    ensures Run(feedbacks).feedback == (if |feedbacks| == 0 then "" else feedbacks[|feedbacks| - 1])
    decreases |feedbacks|
  {
    if |feedbacks| > 0 {
      RunShowsLatest(feedbacks[..|feedbacks| - 1]);
    }
  }

  /** Extending the feedback sequence by one adds at most its last position. */
  lemma ArrivalPositionsSnoc(feedbacks: seq<string>)
    requires |feedbacks| > 0
    ensures var n := |feedbacks| - 1;
      ArrivalPositions(feedbacks) ==
        ArrivalPositions(feedbacks[..n])
        + (if PerfectArrival(PreviousAt(feedbacks, n), feedbacks[n]) then {n} else {})
  {
    var n := |feedbacks| - 1;
    var init := feedbacks[..n];
    forall i: nat | i < n
      ensures PreviousAt(init, i) == PreviousAt(feedbacks, i) && init[i] == feedbacks[i]
    {
    }
  }

  /** The count is the number of positions whose feedback mentions "Perfect"
      and differs from the one before. */
  lemma {:induction false} RunCountsPerfectArrivals(feedbacks: seq<string>)
    ensures Run(feedbacks).perfectReps == |ArrivalPositions(feedbacks)|
    decreases |feedbacks|
  {
    if |feedbacks| > 0 {
      var n := |feedbacks| - 1;
      var init := feedbacks[..n];
      var prev := Run(init);
      RunCountsPerfectArrivals(init);
      RunShowsLatest(init);
      assert PreviousAt(feedbacks, n) == prev.feedback;
      assert Run(feedbacks) == OnFeedbackUpdate(prev, feedbacks[n]).screen;
      ArrivalPositionsSnoc(feedbacks);
      var earlier := ArrivalPositions(init);
      assert n !in earlier;
      assert |earlier + {n}| == |earlier| + 1;
    }
  }

  /** The count never decreases, whatever feedback follows. */
  lemma {:induction false} RepsNeverDecrease(feedbacks: seq<string>, later: seq<string>)
    ensures Run(feedbacks).perfectReps <= Run(feedbacks + later).perfectReps
    decreases |later|
  {
    if |later| == 0 {
      assert feedbacks + later == feedbacks;
    } else {
      var front := later[..|later| - 1];
      RepsNeverDecrease(feedbacks, front);
      assert feedbacks + later == (feedbacks + front) + [later[|later| - 1]];
      RunSnoc(feedbacks + front, later[|later| - 1]);
    }
  }

  function Repeat(f: string, k: nat): (r: seq<string>)
    ensures |r| == k && forall i :: 0 <= i < k ==> r[i] == f
  {
    seq(k, i => f)
  }

  /** Holding one feedback changes nothing after it is first shown: holding
      perfect form counts once. */
  lemma {:induction false} HoldingCountsOnce(feedbacks: seq<string>, f: string, k: nat)
    ensures Run(feedbacks + [f] + Repeat(f, k)) == Run(feedbacks + [f])
    decreases k
  {
    if k > 0 {
      var held := feedbacks + [f] + Repeat(f, k - 1);
      HoldingCountsOnce(feedbacks, f, k - 1);
      RunShowsLatest(held);
      assert held[|held| - 1] == f;
      assert Run(held).feedback == f;
      assert OnFeedbackUpdate(Run(held), f).screen == Run(held);
      assert feedbacks + [f] + Repeat(f, k) == held + [f];
      RunSnoc(held, f);
    } else {
      assert feedbacks + [f] + Repeat(f, k) == feedbacks + [f];
    }
  }

  /** The same feedback any number of times credits at most one perfect rep. */
  lemma HeldFeedbackCountsAtMostOnce(f: string, k: nat)
    ensures Run(Repeat(f, k)).perfectReps <= 1
  {
    if k > 0 {
      assert Repeat(f, k) == [] + [f] + Repeat(f, k - 1);
      HoldingCountsOnce([], f, k - 1);
      RunSnoc([], f);
      assert [] + [f] == [f];
    }
  }

  /** A pose held still for any number of frames credits at most one perfect
      rep, because the analyser answers the same for the same pose. */
  lemma StillPoseCountsAtMostOnce(exercise: Exercise, pose: Pose, k: nat)
    ensures Run(Repeat(AnalyzeFrame(exercise, pose), k)).perfectReps <= 1
  {
    HeldFeedbackCountsAtMostOnce(AnalyzeFrame(exercise, pose), k);
  }

  /** `k` alternations between the feedbacks `good` and `bad`. */
  function Alternating(good: string, bad: string, k: nat): (r: seq<string>)
    ensures |r| == 2 * k
  {
    if k == 0 then [] else Alternating(good, bad, k - 1) + [good, bad]
  }

  /** Showing a perfect message and then an imperfect one credits exactly one rep. */
  lemma PerfectThenImperfect(feedbacks: seq<string>, good: string, bad: string)
    requires Run(feedbacks).feedback != good && good != bad
    requires Contains(good, PerfectMarker) && !Contains(bad, PerfectMarker)
    ensures Run(feedbacks + [good, bad]).perfectReps == Run(feedbacks).perfectReps + 1
    ensures Run(feedbacks + [good, bad]).feedback == bad
  {
    assert feedbacks + [good, bad] == (feedbacks + [good]) + [bad];
    RunSnoc(feedbacks, good);
    RunSnoc(feedbacks + [good], bad);
  }

  /** Every return from unmarked to marked feedback adds one rep. */
  lemma {:induction false} AlternationCounts(good: string, bad: string, k: nat)
    requires good != "" && good != bad
    requires Contains(good, PerfectMarker) && !Contains(bad, PerfectMarker)
    ensures Run(Alternating(good, bad, k)).perfectReps == k
    ensures k > 0 ==> Run(Alternating(good, bad, k)).feedback == bad
  {
    if k > 0 {
      AlternationCounts(good, bad, k - 1);
      PerfectThenImperfect(Alternating(good, bad, k - 1), good, bad);
    }
  }

  /** The count is not capped at the goal: a user alternating between correct
      and sagging plank form has every return to correct form counted. */
  lemma CountIsNotCapped(k: nat)
    ensures Run(Alternating(PerfectPlankMessage, HipsLevelMessage, k)).perfectReps == k
  {
    PerfectPlankIsMarked();
    HipsLevelIsUnmarked();
    MessageLengths();
    AlternationCounts(PerfectPlankMessage, HipsLevelMessage, k);
  }
}
