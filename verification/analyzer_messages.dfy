/** The seven feedback strings the form analyser can return, and which of them
    the camera screen's `contains("Perfect")` test picks out. */
module AnalyzerMessages {
  import opened Text

  const FullBodyMessage := "Please position your full body in the camera view"
  const UnclearMessage := "Cannot detect pose clearly. Please adjust your position"
  const LowerHipsMessage := "Lower your hips to maintain a straight line"
  const HipsLevelMessage := "Keep your hips level"
  const PerfectPlankMessage := "Perfect plank form!"
  const LowerBodyMessage := "Lower your body more"
  const PerfectPushupMessage := "Perfect push-up form!"

  const PerfectMarker := "Perfect"

  /** An occurrence cannot start at `a`'s first character when its second
      character differs, so only the rest of `a` and `b` can hold it. */
  lemma SkipFalseStart(a: string, b: string, t: string)
    requires 2 <= |a| && 2 <= |t| && a[1] != t[1] && t[0] !in a[1..]
    ensures Contains(a + b, t) == Contains(b, t)
  {
    assert (a + b)[1..] == a[1..] + b;
    assert !StartsWith(a + b, t) by {
      if |t| <= |a + b| {
        assert (a + b)[..|t|][1] == a[1];
      }
    }
    SkipWithoutInitial(a[1..], b, t);
  }

  lemma PerfectPlankIsMarked()
    ensures Contains(PerfectPlankMessage, PerfectMarker)
  {
    assert StartsWith(PerfectPlankMessage, PerfectMarker);
  }

  lemma PerfectPushupIsMarked()
    ensures Contains(PerfectPushupMessage, PerfectMarker)
  {
    assert StartsWith(PerfectPushupMessage, PerfectMarker);
  }

  lemma LowerHipsIsUnmarked()
    ensures !Contains(LowerHipsMessage, PerfectMarker)
  {
    WithoutInitial(LowerHipsMessage, PerfectMarker);
  }

  lemma HipsLevelIsUnmarked()
    ensures !Contains(HipsLevelMessage, PerfectMarker)
  {
    WithoutInitial(HipsLevelMessage, PerfectMarker);
  }

  lemma LowerBodyIsUnmarked()
    ensures !Contains(LowerBodyMessage, PerfectMarker)
  {
    WithoutInitial(LowerBodyMessage, PerfectMarker);
  }

  lemma FullBodySplit()
    ensures FullBodyMessage == "Please position " + ("your full body " + "in the camera view")
  {
  }

  lemma FullBodyTailUnmarked()
    ensures 'P' !in "your full body " + "in the camera view"
  {
  }

  lemma PleasePositionIsFalseStart()
    ensures "Please position "[1] != PerfectMarker[1] && 'P' !in "Please position "[1..]
  {
  }

  /** The only 'P' of this message starts "Please". */
  lemma FullBodyIsUnmarked()
    ensures !Contains(FullBodyMessage, PerfectMarker)
  {
    var head, tail := "Please position ", "your full body " + "in the camera view";
    FullBodySplit();
    FullBodyTailUnmarked();
    PleasePositionIsFalseStart();
    SkipFalseStart(head, tail, PerfectMarker);
    WithoutInitial(tail, PerfectMarker);
  }

  lemma UnclearSplit()
    ensures UnclearMessage == "Cannot detect pose clearly. " + ("Please adjust " + "your position")
  {
  }

  lemma UnclearHeadUnmarked()
    ensures 'P' !in "Cannot detect pose clearly. "
  {
  }

  lemma PleaseAdjustIsFalseStart()
    ensures "Please adjust "[1] != PerfectMarker[1] && 'P' !in "Please adjust "[1..]
    ensures 'P' !in "your position"
  {
  }

  /** The only 'P' of this message starts "Please". */
  lemma UnclearIsUnmarked()
    ensures !Contains(UnclearMessage, PerfectMarker)
  {
    var head, please, tail := "Cannot detect pose clearly. ", "Please adjust ", "your position";
    UnclearSplit();
    UnclearHeadUnmarked();
    PleaseAdjustIsFalseStart();
    SkipWithoutInitial(head, please + tail, PerfectMarker);
    SkipFalseStart(please, tail, PerfectMarker);
    WithoutInitial(tail, PerfectMarker);
  }

  /** Of the seven messages, exactly the two correct-form ones contain "Perfect". */
  lemma MarkedMessages()
    ensures Contains(PerfectPlankMessage, PerfectMarker) && Contains(PerfectPushupMessage, PerfectMarker)
    ensures !Contains(FullBodyMessage, PerfectMarker) && !Contains(UnclearMessage, PerfectMarker)
    ensures !Contains(LowerHipsMessage, PerfectMarker) && !Contains(HipsLevelMessage, PerfectMarker)
    ensures !Contains(LowerBodyMessage, PerfectMarker)
  {
    PerfectPlankIsMarked();
    PerfectPushupIsMarked();
    FullBodyIsUnmarked();
    UnclearIsUnmarked();
    LowerHipsIsUnmarked();
    HipsLevelIsUnmarked();
    LowerBodyIsUnmarked();
  }

  /** The lengths that tell the correct-form messages from the rest. */
  lemma MessageLengths()
    ensures |FullBodyMessage| == 49 && |UnclearMessage| == 55 && |LowerHipsMessage| == 43
    ensures |HipsLevelMessage| == 20 && |LowerBodyMessage| == 20
    ensures |PerfectPlankMessage| == 19 && |PerfectPushupMessage| == 21
  {
  }

  /** Among the plank verdicts, only the correct-form one is marked. */
  lemma PlankVerdictMarking(f: string)
    requires f == FullBodyMessage || f == UnclearMessage || f == LowerHipsMessage
          || f == HipsLevelMessage || f == PerfectPlankMessage
    ensures Contains(f, PerfectMarker) <==> f == PerfectPlankMessage
  {
    MessageLengths();
    if f == FullBodyMessage {
      FullBodyIsUnmarked();
    } else if f == UnclearMessage {
      UnclearIsUnmarked();
    } else if f == LowerHipsMessage {
      LowerHipsIsUnmarked();
    } else if f == HipsLevelMessage {
      HipsLevelIsUnmarked();
    } else {
      PerfectPlankIsMarked();
    }
  }

  /** Among the push-up verdicts, only the correct-form one is marked. */
  lemma PushupVerdictMarking(f: string)
    requires f == FullBodyMessage || f == UnclearMessage || f == LowerBodyMessage
          || f == HipsLevelMessage || f == PerfectPushupMessage
    ensures Contains(f, PerfectMarker) <==> f == PerfectPushupMessage
  {
    MessageLengths();
    if f == FullBodyMessage {
      FullBodyIsUnmarked();
    } else if f == UnclearMessage {
      UnclearIsUnmarked();
    } else if f == LowerBodyMessage {
      LowerBodyIsUnmarked();
    } else if f == HipsLevelMessage {
      HipsLevelIsUnmarked();
    } else {
      PerfectPushupIsMarked();
    }
  }
}
