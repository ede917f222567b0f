/** The dual-mood selfie challenge
    (src/components/challenge/DualMoodSelfieView.tsx): the two requested
    emotions with their defaults, the scoring of a captured photo (detector
    scores as rounded percentages, or random demo scores when both are zero),
    the `matchedBoth` rule, the face data handed to the parent, the mock result
    when verification fails, and the analysis progress counter. The outcome
    of `verifyFace`, the detector's expressions, the `Math.random()` draws and
    the photo's bytes are parameters. */
module DualMoodSelfie {
  import opened Common
  import opened FaceVerification

  /** Both rounded scores must reach this (inclusive) for a match. */
  const BothThreshold: int := 60
  /** The demo scores are raised to at least this when the third draw exceeds 0.3. */
  const DemoFloor: real := 70.0
  /** The mock result's scores. */
  const MockScore: int := 85

  /** `emotions[0] || 'happy'`. */
  function FirstEmotion(emotions: seq<string>): (e: string)
    ensures |emotions| > 0 && emotions[0] != "" ==> e == emotions[0]
    ensures |emotions| == 0 || emotions[0] == "" ==> e == "happy"
  {
    OrElse(if |emotions| > 0 then Some(emotions[0]) else None, "happy")
  }

  /** `emotions[1] || 'surprised'`. */
  function SecondEmotion(emotions: seq<string>): (e: string)
    ensures |emotions| > 1 && emotions[1] != "" ==> e == emotions[1]
    ensures |emotions| <= 1 || emotions[1] == "" ==> e == "surprised"
  {
    OrElse(if |emotions| > 1 then Some(emotions[1]) else None, "surprised")
  }

  /** `Math.max(x, 70)`. */
  function AtLeastDemoFloor(x: real): (r: real)
    ensures r >= x && r >= DemoFloor && (r == x || r == DemoFloor)
  {
    if x > DemoFloor then x else DemoFloor
  }

  /** The two scores before rounding: the detector's scores for the two
      emotions as percentages (a missing label scores 0; no detector result
      leaves both at 0), replaced by demo scores when both are 0. */
  function RawScores(expressions: Option<Expressions>, e1: string, e2: string, r1: real, r2: real, r3: real)
    : (s: (real, real))
    requires 0.0 <= r1 < 1.0 && 0.0 <= r2 < 1.0 && 0.0 <= r3 < 1.0
    ensures expressions.Some? && !(Score(expressions.value, e1) == 0.0 && Score(expressions.value, e2) == 0.0) ==>
      s == (Score(expressions.value, e1) * 100.0, Score(expressions.value, e2) * 100.0)
    ensures expressions.None? || (Score(expressions.value, e1) == 0.0 && Score(expressions.value, e2) == 0.0) ==>
      0.0 <= s.0 < 100.0 && 0.0 <= s.1 < 100.0 && (r3 > 0.3 ==> s.0 >= DemoFloor && s.1 >= DemoFloor)
  {
    var detected := if expressions.Some? then (Score(expressions.value, e1) * 100.0, Score(expressions.value, e2) * 100.0)
      else (0.0, 0.0);
    if detected.0 == 0.0 && detected.1 == 0.0 then
      var d1, d2 := r1 * 100.0, r2 * 100.0;
      if r3 > 0.3 then (AtLeastDemoFloor(d1), AtLeastDemoFloor(d2)) else (d1, d2)
    else detected
  }

  /** `matchedBoth`: both rounded scores are at least 60. */
  predicate MatchedBoth(s1: int, s2: int)
  {
    s1 >= BothThreshold && s2 >= BothThreshold
  }

  /** The verification result the view shows. */
  datatype DualVerification = DualVerification(
    isHuman: bool,
    confidence: real,
    emotion1Score: int,
    emotion2Score: int,
    matchedBoth: bool,
    message: string)

  datatype DualStats = DualStats(matchedBoth: bool, emotion1Score: int, emotion2Score: int)

  /** What one analysis produces: the shown result, and the face data and
      statistics handed to the parent with the photo. */
  datatype DualAssessment = DualAssessment(shown: DualVerification, faceData: FaceResult, stats: DualStats)

  /** The requested emotion as the parent stores it. */
  function Requested(e1: string, e2: string): (r: string)
    ensures r == e1 + " and " + e2
  {
    e1 + " and " + e2
  }

  function SuccessMessage(e1: string, e2: string): string
  {
    "Amazing! You matched both " + FormatEmotion(e1) + " and " + FormatEmotion(e2) + "!"
  }

  function RetryMessage(e1: string, e2: string): string
  {
    "Try again to match both " + FormatEmotion(e1) + " and " + FormatEmotion(e2)
  }

  /** The analysis of a photo whose face was verified as human (`basic`). */
  function Assess(basic: FaceResult, expressions: Option<Expressions>, emotions: seq<string>, r1: real, r2: real, r3: real)
    : (a: DualAssessment)
    requires basic.isHuman
    requires 0.0 <= r1 < 1.0 && 0.0 <= r2 < 1.0 && 0.0 <= r3 < 1.0
    ensures var raw := RawScores(expressions, FirstEmotion(emotions), SecondEmotion(emotions), r1, r2, r3);
      a.stats.emotion1Score == Round(raw.0) && a.stats.emotion2Score == Round(raw.1)
    ensures a.stats.matchedBoth <==> MatchedBoth(a.stats.emotion1Score, a.stats.emotion2Score)
    ensures a.shown == DualVerification(true, basic.confidence, a.stats.emotion1Score, a.stats.emotion2Score,
      a.stats.matchedBoth,
      if a.stats.matchedBoth then SuccessMessage(FirstEmotion(emotions), SecondEmotion(emotions))
      else RetryMessage(FirstEmotion(emotions), SecondEmotion(emotions)))
    ensures a.faceData.isHuman && a.faceData.confidence == basic.confidence && a.faceData.vibeCheck.Some?
    ensures var v := a.faceData.vibeCheck.value;
      v.requestedEmotion == Some(Requested(FirstEmotion(emotions), SecondEmotion(emotions)))
      && v.matchScore == Round((a.stats.emotion1Score + a.stats.emotion2Score) as real / 2.0)
      && v.passed == a.stats.matchedBoth && v.message == a.shown.message
      && (v.dominantEmotion == "dual" <==> a.stats.matchedBoth || (basic.vibeCheck.Some? && basic.vibeCheck.value.dominantEmotion == "dual"))
    ensures var v := a.faceData.vibeCheck.value;
      !a.stats.matchedBoth ==>
        (basic.vibeCheck.Some? && basic.vibeCheck.value.dominantEmotion != "" ==> v.dominantEmotion == basic.vibeCheck.value.dominantEmotion)
        && (basic.vibeCheck.None? || basic.vibeCheck.value.dominantEmotion == "" ==> v.dominantEmotion == "neutral")
  {
    var e1, e2 := FirstEmotion(emotions), SecondEmotion(emotions);
    var raw := RawScores(expressions, e1, e2, r1, r2, r3);
    var s1, s2 := Round(raw.0), Round(raw.1);
    var matched := MatchedBoth(s1, s2);
    var message := if matched then SuccessMessage(e1, e2) else RetryMessage(e1, e2);
    var basicDominant := if basic.vibeCheck.Some? then Some(basic.vibeCheck.value.dominantEmotion) else None;
    var dominant := if matched then "dual" else OrElse(basicDominant, "neutral");
    DualAssessment(
      DualVerification(true, basic.confidence, s1, s2, matched, message),
      FaceResult(true, basic.confidence, None, None,
        Some(VibeCheck(Some(Requested(e1, e2)), None, dominant, Round((s1 + s2) as real / 2.0), matched, message))),
      DualStats(matched, s1, s2))
  }

  /** The mock result when verification throws or finds no human: both
      emotions matched at 85. */
  function Mock(emotions: seq<string>): (a: DualAssessment)
    ensures a.stats == DualStats(true, MockScore, MockScore)
    ensures a.shown.isHuman && a.shown.confidence == 85.0 && a.shown.matchedBoth
    ensures a.faceData.vibeCheck.Some? && a.faceData.vibeCheck.value.passed
    ensures a.faceData.vibeCheck.value.requestedEmotion == Some(Requested(FirstEmotion(emotions), SecondEmotion(emotions)))
  {
    var e1, e2 := FirstEmotion(emotions), SecondEmotion(emotions);
    var message := SuccessMessage(e1, e2);
    DualAssessment(
      DualVerification(true, 85.0, MockScore, MockScore, true, message),
      FaceResult(true, 85.0, None, None, Some(VibeCheck(Some(Requested(e1, e2)), None, "dual", MockScore, true, message))),
      DualStats(true, MockScore, MockScore))
  }

  /** The whole analysis: `verifyFace` threw (`None`) or found no human gives
      the mock result; otherwise the photo is assessed. */
  function Analyse(basic: Option<FaceResult>, expressions: Option<Expressions>, emotions: seq<string>,
                   r1: real, r2: real, r3: real): (a: DualAssessment)
    requires 0.0 <= r1 < 1.0 && 0.0 <= r2 < 1.0 && 0.0 <= r3 < 1.0
    ensures basic.None? || !basic.value.isHuman ==> a == Mock(emotions)
    ensures basic.Some? && basic.value.isHuman ==> a == Assess(basic.value, expressions, emotions, r1, r2, r3)
    ensures a.faceData.vibeCheck.Some? && (a.faceData.vibeCheck.value.passed <==> a.stats.matchedBoth)
    ensures a.stats.matchedBoth <==> MatchedBoth(a.stats.emotion1Score, a.stats.emotion2Score)
  {
    if basic.None? || !basic.value.isHuman then Mock(emotions)
    else Assess(basic.value, expressions, emotions, r1, r2, r3)
  }

  /** The threshold is inclusive: two scores of exactly 60 match. */
  lemma SixtyMatches()
    ensures MatchedBoth(BothThreshold, BothThreshold)
    ensures !MatchedBoth(BothThreshold - 1, BothThreshold) && !MatchedBoth(BothThreshold, BothThreshold - 1)
  {
  }

  /** With no detector scores, a third draw above 0.3 guarantees a match. */
  lemma DemoScoresMatch(basic: FaceResult, emotions: seq<string>, r1: real, r2: real, r3: real)
    requires basic.isHuman && 0.0 <= r1 < 1.0 && 0.0 <= r2 < 1.0 && 0.3 < r3 < 1.0
    ensures Assess(basic, None, emotions, r1, r2, r3).stats.matchedBoth
  {
    var raw := RawScores(None, FirstEmotion(emotions), SecondEmotion(emotions), r1, r2, r3);
    assert raw.0 >= 70.0 && raw.1 >= 70.0;
  }

  /** Percent scores in [0, 100] give rounded scores and a match score in
      [0, 100]. */
  lemma ScoresArePercentages(basic: FaceResult, expressions: Option<Expressions>, emotions: seq<string>,
                             r1: real, r2: real, r3: real)
    requires basic.isHuman && 0.0 <= r1 < 1.0 && 0.0 <= r2 < 1.0 && 0.0 <= r3 < 1.0
    requires expressions.Some? ==> forall i :: 0 <= i < |expressions.value| ==> 0.0 <= expressions.value[i].1 <= 1.0
    ensures var a := Assess(basic, expressions, emotions, r1, r2, r3);
      0 <= a.stats.emotion1Score <= 100 && 0 <= a.stats.emotion2Score <= 100
      && 0 <= a.faceData.vibeCheck.value.matchScore <= 100
  {
    var e1, e2 := FirstEmotion(emotions), SecondEmotion(emotions);
    if expressions.Some? {
      ScoreInUnit(expressions.value, e1);
      ScoreInUnit(expressions.value, e2);
    }
    var raw := RawScores(expressions, e1, e2, r1, r2, r3);
    assert 0.0 <= raw.0 <= 100.0 && 0.0 <= raw.1 <= 100.0;
  }

  /** A label's score lies in [0, 1] when every listed score does. */
  lemma ScoreInUnit(es: Expressions, key: string)
    requires forall i :: 0 <= i < |es| ==> 0.0 <= es[i].1 <= 1.0
    ensures 0.0 <= Score(es, key) <= 1.0
  {
    var k := FindKey(es, key);
    if k.Some? {
      assert Score(es, key) == es[k.value].1;
    }
  }

  /** What `onCapture` receives: the photo, the face data and the statistics. */
  datatype DualCapture = DualCapture(file: Blob, faceData: FaceResult, stats: DualStats)

  class DualMoodView {
    const emotions: seq<string>
    var streamReady: bool
    var hasCapture: bool
    var isAnalyzing: bool
    var analyzeProgress: int
    /** The 100 ms progress interval is running. */
    var progressTimerOn: bool
    var verificationResult: Option<DualVerification>
    var error: Option<string>
    /** The captures handed to `onCapture`, in order. */
    var captures: seq<DualCapture>

    ghost predicate Valid()
      reads this
    {
      0 <= analyzeProgress <= 100 && analyzeProgress % 5 == 0
      && (progressTimerOn ==> isAnalyzing)
    }

    constructor (emotions: seq<string>)
      ensures Valid()
      ensures this.emotions == emotions && !streamReady && !hasCapture && !isAnalyzing
      ensures analyzeProgress == 0 && !progressTimerOn && verificationResult.None? && error.None? && captures == []
    {
      this.emotions := emotions;
      streamReady := false;
      hasCapture := false;
      isAnalyzing := false;
      analyzeProgress := 0;
      progressTimerOn := false;
      verificationResult := None;
      error := None;
      captures := [];
    }

    /** The camera became ready (`loadedmetadata`). */
    method StreamReady()
      requires Valid()
      modifies this
      ensures Valid() && streamReady
      ensures hasCapture == old(hasCapture) && isAnalyzing == old(isAnalyzing) && captures == old(captures)
    {
      streamReady := true;
    }

    /** `capturePhoto` up to the analysis: the frame is kept, the camera is
        stopped, and the analysis (with its progress counter from 0) starts. */
    method CapturePhoto()
      requires Valid()
      modifies this
      ensures Valid()
      ensures hasCapture && !streamReady && isAnalyzing && analyzeProgress == 0 && progressTimerOn
      ensures verificationResult == old(verificationResult) && captures == old(captures)
    {
      hasCapture := true;
      streamReady := false;
      isAnalyzing := true;
      analyzeProgress := 0;
      progressTimerOn := true;
    }

    /** One tick of the progress interval: up by five, and at 100 the
        interval clears itself; the counter never passes 100. */
    method ProgressTick()
      requires Valid() && progressTimerOn
      modifies this
      ensures Valid()
      ensures old(analyzeProgress) >= 100 ==> analyzeProgress == 100 && !progressTimerOn
      ensures old(analyzeProgress) < 100 ==> analyzeProgress == old(analyzeProgress) + 5 && progressTimerOn
      ensures analyzeProgress <= 100
      ensures isAnalyzing == old(isAnalyzing) && verificationResult == old(verificationResult) && captures == old(captures)
    {
      if analyzeProgress >= 100 {
        progressTimerOn := false;
        analyzeProgress := 100;
      } else {
        analyzeProgress := analyzeProgress + 5;
      }
    }

    /** The end of the analysis (`img.onload`): the result is shown, the
        photo (when `toBlob` yields one) is handed to the parent with its
        face data and statistics, and the analysis ends. */
    method AnalysisFinished(basic: Option<FaceResult>, expressions: Option<Expressions>,
                            r1: real, r2: real, r3: real, photo: Option<Blob>)
      requires Valid() && 0.0 <= r1 < 1.0 && 0.0 <= r2 < 1.0 && 0.0 <= r3 < 1.0
      modifies this
      ensures Valid()
      ensures var a := Analyse(basic, expressions, emotions, r1, r2, r3);
        verificationResult == Some(a.shown)
        && captures == old(captures) + (if photo.Some? then [DualCapture(photo.value, a.faceData, a.stats)] else [])
      ensures !isAnalyzing && !progressTimerOn
      ensures hasCapture == old(hasCapture) && analyzeProgress == old(analyzeProgress)
    {
      var a := Analyse(basic, expressions, emotions, r1, r2, r3);
      verificationResult := Some(a.shown);
      if photo.Some? {
        captures := captures + [DualCapture(photo.value, a.faceData, a.stats)];
      }
      isAnalyzing := false;
      progressTimerOn := false;
    }
  }
}
