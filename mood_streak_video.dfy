/** The 30-second mood-streak video challenge
    (src/components/challenge/MoodStreakVideo.tsx): drawing a new target
    emotion, the 3-2-1 countdown, starting and stopping the recording, the
    one-second timer, the per-frame match rule (real or simulated scores),
    and the results reported when the recording stops or the recorder could
    not be created. Each interval, timeout or animation-frame callback is a
    method; the clock (`Date.now()`), the detector's output and every
    `Math.random()` draw are parameters. */
module MoodStreakVideo {
  import opened Common
  import Timers
  import opened FaceVerification

  /** The challenge length in seconds. */
  const ChallengeSeconds: int := 30
  /** Matches needed to pass. */
  const StreakToPass: int := 5
  /** A real score (a percentage) must exceed this to match. */
  const RealThreshold: real := 50.0
  /** A simulated score must exceed this to match. */
  const SimulatedThreshold: real := 40.0
  /** Milliseconds that must pass after a match before the next one. */
  const MatchCooldownMs: int := 500

  /** Draws of `Math.random()`, each in [0, 1). */
  predicate ValidDraws(draws: seq<real>)
  {
    forall i :: 0 <= i < |draws| ==> 0.0 <= draws[i] < 1.0
  }

  /** Some draw, in order, yields an emotion other than the current one (the
      retry loop terminates on these draws). */
  predicate EventuallyNew(current: Option<Emotion>, draws: seq<real>)
    requires ValidDraws(draws)
  {
    |draws| > 0 && (Some(RandomEmotion(draws[0])) != current || EventuallyNew(current, draws[1..]))
  }

  /** The emotion the retry loop settles on: the first draw that differs
      from the current emotion. */
  function NextEmotion(current: Option<Emotion>, draws: seq<real>): (e: Emotion)
    requires ValidDraws(draws) && EventuallyNew(current, draws)
    ensures e != Neutral && Some(e) != current
    ensures exists i :: 0 <= i < |draws| && e == RandomEmotion(draws[i])
  {
    if Some(RandomEmotion(draws[0])) != current then RandomEmotion(draws[0])
    else
      var e := NextEmotion(current, draws[1..]);
      ghost var i :| 0 <= i < |draws[1..]| && e == RandomEmotion(draws[1..][i]);
      assert e == RandomEmotion(draws[i + 1]);
      e
  }

  /** The labels of a list of emotions, as the component stores them. */
  function Labels(es: seq<Emotion>): (r: seq<string>)
    ensures |r| == |es| && forall i :: 0 <= i < |es| ==> r[i] == Label(es[i])
  {
    seq(|es|, i requires 0 <= i < |es| => Label(es[i]))
  }

  /** The vibe check of a finished streak: "multiple" requested, the last
      matched emotion (or neutral) as dominant, the highest score, and a pass
      from five matches on. */
  function StreakVibe(streak: int, emotions: seq<string>, highest: int): (v: VibeCheck)
    ensures v.passed <==> streak >= StreakToPass
    ensures v.requestedEmotion == Some("multiple") && v.matchScore == highest
    ensures |emotions| > 0 && emotions[|emotions| - 1] != "" ==> v.dominantEmotion == emotions[|emotions| - 1]
    ensures |emotions| == 0 ==> v.dominantEmotion == "neutral"
    ensures v.passed ==> v.message == "Impressive! You matched " + IntToString(streak) + " emotions in 30 seconds!"
    ensures !v.passed ==> v.message == "You matched " + IntToString(streak) + " emotions. Try for 5 next time!"
  {
    var last := if |emotions| > 0 then Some(emotions[|emotions| - 1]) else None;
    var passed := streak >= StreakToPass;
    VibeCheck(Some("multiple"), None, OrElse(last, "neutral"), highest, passed,
      if passed then "Impressive! You matched " + IntToString(streak) + " emotions in 30 seconds!"
      else "You matched " + IntToString(streak) + " emotions. Try for 5 next time!")
  }

  /** What `onComplete` receives. */
  datatype StreakResult = StreakResult(
    videoBlob: Blob,
    selfieBlob: Blob,
    faceData: FaceResult,
    moodsMatched: int,
    emotions: seq<string>,
    highestScore: int)

  function Outcome(videoBlob: Blob, selfieBlob: Blob, streak: int, emotions: seq<string>, highest: int)
    : (r: StreakResult)
    ensures r.faceData.isHuman && r.faceData.confidence == 90.0
    ensures r.faceData.vibeCheck == Some(StreakVibe(streak, emotions, highest))
    ensures r.moodsMatched == streak && r.emotions == emotions && r.highestScore == highest
    ensures r.videoBlob == videoBlob && r.selfieBlob == selfieBlob
  {
    StreakResult(videoBlob, selfieBlob,
      FaceResult(true, 90.0, None, None, Some(StreakVibe(streak, emotions, highest))),
      streak, emotions, highest)
  }

  /** The simulated streak when the recorder cannot be created: 1 to 10. */
  function FallbackStreak(r: real): (n: int)
    requires 0.0 <= r < 1.0
    ensures 1 <= n <= 10
  {
    PickIndex(r, 10) + 1
  }

  /** The simulated highest score: 70 to 99. */
  function FallbackHighScore(r: real): (n: int)
    requires 0.0 <= r < 1.0
    ensures 70 <= n <= 99
  {
    PickIndex(r, 30) + 70
  }

  /** One emotion per draw. */
  function DrawnEmotions(draws: seq<real>): (es: seq<Emotion>)
    requires ValidDraws(draws)
    ensures |es| == |draws|
    ensures forall i :: 0 <= i < |es| ==> es[i] == RandomEmotion(draws[i]) && es[i] != Neutral
  {
    seq(|draws|, i requires 0 <= i < |draws| => RandomEmotion(draws[i]))
  }

  /** The fallback result: empty blobs, a streak in [1, 10] with as many
      (never neutral) emotions, a high score in [70, 99], and a pass from five
      matches on. */
  lemma FallbackOutcomeShape(r: real, draws: seq<real>, high: real)
    requires 0.0 <= r < 1.0 && 0.0 <= high < 1.0 && ValidDraws(draws) && |draws| >= 10
    ensures var n := FallbackStreak(r);
      var o := Outcome([], [], n, Labels(DrawnEmotions(draws[..n])), FallbackHighScore(high));
      1 <= o.moodsMatched <= 10 && |o.emotions| == o.moodsMatched
      && 70 <= o.highestScore <= 99
      && o.faceData.vibeCheck.Some? && (o.faceData.vibeCheck.value.passed <==> o.moodsMatched >= 5)
      && o.faceData.vibeCheck.value.dominantEmotion != "neutral"
  {
    var n := FallbackStreak(r);
    var es := Labels(DrawnEmotions(draws[..n]));
    var last := DrawnEmotions(draws[..n])[n - 1];
    assert es[n - 1] == Label(last) && last != Neutral;
    assert Label(last) != "neutral";
  }

  /** The match rule of a frame: the score exceeds the threshold and more
      than 500 ms have passed since the last match. */
  predicate MatchAllowed(score: real, threshold: real, now: int, lastMatchTime: int)
  {
    score > threshold && now - lastMatchTime > MatchCooldownMs
  }

  /** What the analysis of one frame sees from the detector. */
  datatype FrameResult =
    | Expressions(expressions: FaceVerification.Expressions)  // a face and its expression scores
    | NoExpressions                                           // no face, or no expressions
    | Threw                                                   // the detector threw

  class StreakGame {
    var hasStream: bool
    /** The detector is usable: face-api present, models loaded, not in fallback mode. */
    var detectorReady: bool
    var countdown: Option<int>
    var countdownTimerOn: bool
    var remainingTime: int
    var timerOn: bool
    /** The animation-frame analysis loop is scheduled. */
    var analysisOn: bool
    /** The 3-second timeout of the recorder-failure fallback is pending. */
    var fallbackOn: bool
    /** The 2-second "processing" delay after stopping is pending. */
    var processingOn: bool
    var isRecording: bool
    var isAnalyzing: bool
    var currentEmotion: Option<Emotion>
    var matchedEmotions: seq<Emotion>
    var streakCount: int
    var highestScore: int
    var currentScore: int
    var lastMatchTime: int
    var recorder: Recorder
    var chunks: seq<Blob>
    /** The results handed to `onComplete`, in order. */
    var results: seq<StreakResult>

    ghost predicate Valid()
      reads this
    {
      remainingTime >= 0 && highestScore >= 0
      // the streak counts the matched emotions
      && streakCount == |matchedEmotions|
      && (forall i :: 0 <= i < |matchedEmotions| ==> matchedEmotions[i] != Neutral)
      && currentEmotion != Some(Neutral)
      && (hasStream || isRecording ==> currentEmotion.Some?)
      && (countdownTimerOn <==> countdown.Some?)
      && (countdownTimerOn ==> !isRecording)
      && (countdown.Some? ==> 1 <= countdown.value <= 3)
      && (timerOn ==> isRecording && recorder == Active && !fallbackOn)
      && (fallbackOn ==> isRecording)
    }

    /** The initial state, before the models and the camera are set up. */
    constructor ()
      ensures Valid()
      ensures !hasStream && !detectorReady && countdown.None? && remainingTime == ChallengeSeconds
      ensures !timerOn && !analysisOn && !fallbackOn && !processingOn && !isRecording && !isAnalyzing
      ensures currentEmotion.None? && matchedEmotions == [] && streakCount == 0
      ensures highestScore == 0 && currentScore == 0 && lastMatchTime == 0
      ensures recorder == Absent && chunks == [] && results == []
    {
      hasStream := false;
      detectorReady := false;
      countdown := None;
      countdownTimerOn := false;
      remainingTime := ChallengeSeconds;
      timerOn := false;
      analysisOn := false;
      fallbackOn := false;
      processingOn := false;
      isRecording := false;
      isAnalyzing := false;
      currentEmotion := None;
      matchedEmotions := [];
      streakCount := 0;
      highestScore := 0;
      currentScore := 0;
      lastMatchTime := 0;
      recorder := Absent;
      chunks := [];
      results := [];
    }

    /** The mount effect: loading the models (a failure means fallback mode),
        starting the camera, then drawing the first emotion. */
    method Initialize(modelsLoaded: bool, streamObtained: bool, draws: seq<real>)
      requires Valid() && !hasStream && !isRecording
      requires ValidDraws(draws) && EventuallyNew(currentEmotion, draws)
      modifies this
      ensures Valid()
      ensures detectorReady == modelsLoaded && hasStream == streamObtained
      ensures currentEmotion == Some(NextEmotion(old(currentEmotion), draws))
      ensures countdown == old(countdown) && isRecording == old(isRecording) && results == old(results)
    {
      detectorReady := modelsLoaded;
      GenerateNewEmotion(draws);
      hasStream := streamObtained;
    }

    /** `generateNewEmotion`: draw until the emotion differs from the current one. */
    method GenerateNewEmotion(draws: seq<real>)
      requires Valid() && ValidDraws(draws) && EventuallyNew(currentEmotion, draws)
      modifies this
      ensures Valid()
      ensures currentEmotion == Some(NextEmotion(old(currentEmotion), draws))
      ensures hasStream == old(hasStream) && detectorReady == old(detectorReady)
      ensures countdown == old(countdown) && countdownTimerOn == old(countdownTimerOn)
      ensures remainingTime == old(remainingTime) && timerOn == old(timerOn) && analysisOn == old(analysisOn)
      ensures fallbackOn == old(fallbackOn) && processingOn == old(processingOn)
      ensures isRecording == old(isRecording) && isAnalyzing == old(isAnalyzing)
      ensures matchedEmotions == old(matchedEmotions) && streakCount == old(streakCount)
      ensures highestScore == old(highestScore) && currentScore == old(currentScore)
      ensures lastMatchTime == old(lastMatchTime) && recorder == old(recorder)
      ensures chunks == old(chunks) && results == old(results)
    {
      var i := 0;
      var newEmotion := RandomEmotion(draws[0]);
      while Some(newEmotion) == currentEmotion
        invariant 0 <= i < |draws|
        invariant newEmotion == RandomEmotion(draws[i])
        invariant EventuallyNew(currentEmotion, draws[i..])
        invariant NextEmotion(currentEmotion, draws[i..]) == NextEmotion(currentEmotion, draws)
        decreases |draws| - i
      {
        assert draws[i..][1..] == draws[i + 1..];
        i := i + 1;
        newEmotion := RandomEmotion(draws[i]);
      }
      currentEmotion := Some(newEmotion);
    }

    /** `startChallenge` from the start button (shown while neither recording
        nor processing, enabled once the camera is ready and no countdown runs). */
    method StartChallenge()
      requires Valid() && !isRecording && !isAnalyzing && countdown.None?
      modifies this
      ensures Valid()
      ensures countdown == Some(3) && countdownTimerOn
      ensures isRecording == old(isRecording) && remainingTime == old(remainingTime)
      ensures streakCount == old(streakCount) && results == old(results) && recorder == old(recorder)
    {
      countdown := Some(3);
      countdownTimerOn := true;
    }

    /** One countdown tick: above one it counts down; otherwise it clears
        itself, starts the recording (the outcome of creating the recorder is
        the parameter) and clears the countdown. */
    method CountdownTick(recorderCreated: bool)
      requires Valid() && countdownTimerOn
      modifies this
      ensures Valid()
      ensures var step := Timers.CountdownTick(old(countdown));
        countdown == step.next && countdownTimerOn == !step.fire
      ensures !Timers.CountdownTick(old(countdown)).fire ==>
        isRecording == old(isRecording) && streakCount == old(streakCount) && timerOn == old(timerOn)
        && recorder == old(recorder) && results == old(results)
      ensures Timers.CountdownTick(old(countdown)).fire && old(hasStream) ==>
        isRecording && streakCount == 0 && matchedEmotions == [] && highestScore == 0
        && remainingTime == ChallengeSeconds && chunks == []
      ensures results == old(results)
    {
      var step := Timers.CountdownTick(countdown);
      countdown := step.next;
      if step.fire {
        countdownTimerOn := false;
        StartRecording(recorderCreated);
      }
    }

    /** `startRecording`: without a stream nothing happens; otherwise the
        streak, matches, scores, time and chunks are reset, and either the
        recorder, the analysis loop and the timer start, or (the recorder
        could not be created) the 3-second fallback starts. */
    method StartRecording(recorderCreated: bool)
      requires Valid() && !isRecording && !countdownTimerOn
      modifies this
      ensures Valid()
      ensures !old(hasStream) ==> unchanged(this)
      ensures old(hasStream) ==>
        isRecording && streakCount == 0 && matchedEmotions == [] && highestScore == 0 && currentScore == 0
        && remainingTime == ChallengeSeconds && chunks == []
        && currentEmotion == old(currentEmotion) && lastMatchTime == old(lastMatchTime)
      ensures old(hasStream) && recorderCreated ==> recorder == Active && timerOn && analysisOn
      ensures old(hasStream) && !recorderCreated ==>
        recorder == old(recorder) && fallbackOn && timerOn == old(timerOn) && analysisOn == old(analysisOn)
      ensures results == old(results) && countdown == old(countdown) && countdownTimerOn == old(countdownTimerOn)
    {
      if !hasStream {
        return;
      }
      streakCount := 0;
      matchedEmotions := [];
      highestScore := 0;
      currentScore := 0;
      remainingTime := ChallengeSeconds;
      chunks := [];
      if recorderCreated {
        recorder := Active;
        isRecording := true;
        analysisOn := true;
        fallbackOn := false;
        timerOn := true;
      } else {
        isRecording := true;
        fallbackOn := true;
      }
    }

    /** One timer tick: at one second or less it clears itself, stops the
        recording and shows zero; otherwise it counts down. */
    method TimerTick()
      requires Valid() && timerOn
      modifies this
      ensures Valid()
      ensures var step := Timers.TimerTick(old(remainingTime));
        remainingTime == step.next && timerOn == !step.expired
      ensures old(remainingTime) <= 1 ==> !isRecording && isAnalyzing && !analysisOn && recorder == StopRequested
      ensures old(remainingTime) > 1 ==> isRecording && recorder == old(recorder)
      ensures streakCount == old(streakCount) && matchedEmotions == old(matchedEmotions)
      ensures highestScore == old(highestScore) && results == old(results)
    {
      var step := Timers.TimerTick(remainingTime);
      if step.expired {
        timerOn := false;
        StopRecording();
      }
      remainingTime := step.next;
    }

    /** `stopRecording`: the analysis loop ends, a running recorder is
        stopped, and the 2-second processing delay starts. */
    method StopRecording()
      requires Valid() && !timerOn && !fallbackOn
      modifies this
      ensures Valid()
      ensures !analysisOn && !isRecording && isAnalyzing && processingOn
      ensures recorder == (if old(recorder) == Active then StopRequested else old(recorder))
      ensures remainingTime == old(remainingTime) && streakCount == old(streakCount)
      ensures matchedEmotions == old(matchedEmotions) && highestScore == old(highestScore)
      ensures currentEmotion == old(currentEmotion) && results == old(results) && chunks == old(chunks)
      ensures fallbackOn == old(fallbackOn) && countdown == old(countdown)
    {
      analysisOn := false;
      if recorder == Active {
        recorder := StopRequested;
      }
      isRecording := false;
      isAnalyzing := true;
      processingOn := true;
    }

    /** The end of the processing delay. */
    method ProcessingElapsed()
      requires Valid() && processingOn
      modifies this
      ensures Valid()
      ensures !isAnalyzing && !processingOn
      ensures isRecording == old(isRecording) && results == old(results) && streakCount == old(streakCount)
    {
      isAnalyzing := false;
      processingOn := false;
    }

    /** `handleEmotionMatch`: the streak grows by one, the current emotion is
        appended, the highest score rises only when this score exceeds it,
        the match time is recorded and a new emotion is drawn. */
    method HandleMatch(score: real, now: int, draws: seq<real>)
      requires Valid() && currentEmotion.Some?
      requires ValidDraws(draws) && EventuallyNew(currentEmotion, draws)
      modifies this
      ensures Valid()
      ensures streakCount == old(streakCount) + 1
      ensures matchedEmotions == old(matchedEmotions) + [old(currentEmotion).value]
      ensures score > old(highestScore) as real ==> highestScore == Round(score)
      ensures !(score > old(highestScore) as real) ==> highestScore == old(highestScore)
      ensures highestScore >= old(highestScore)
      ensures lastMatchTime == now
      ensures currentEmotion == Some(NextEmotion(old(currentEmotion), draws))
      ensures currentEmotion != old(currentEmotion)
      ensures isRecording == old(isRecording) && timerOn == old(timerOn) && recorder == old(recorder)
      ensures remainingTime == old(remainingTime) && results == old(results) && currentScore == old(currentScore)
      ensures hasStream == old(hasStream) && detectorReady == old(detectorReady) && analysisOn == old(analysisOn)
      ensures countdown == old(countdown) && countdownTimerOn == old(countdownTimerOn)
      ensures fallbackOn == old(fallbackOn) && processingOn == old(processingOn)
      ensures isAnalyzing == old(isAnalyzing) && chunks == old(chunks)
    {
      streakCount := streakCount + 1;
      matchedEmotions := matchedEmotions + [currentEmotion.value];
      if score > highestScore as real {
        highestScore := Round(score);
      }
      lastMatchTime := now;
      GenerateNewEmotion(draws);
    }

    /** One run of `analyzeFrame` (with `simulateDetection`), on the frame the
        analysis loop scheduled: when recording with a video, the score is the
        detector's score for the current emotion as a percentage (a missing
        label scores 0) and must exceed 50, or, without a usable detector or
        without expressions, a random percentage that must exceed 40; either
        way more than 500 ms must have passed since the last match. The loop
        schedules its next frame only when the frame was analysed and the game
        is still recording; otherwise it ends. Returns whether it matched. */
    method AnalyzeFrame(videoPresent: bool, frame: FrameResult, simulated: real, now: int, draws: seq<real>)
      returns (matched: bool)
      requires Valid() && analysisOn && 0.0 <= simulated < 1.0
      requires ValidDraws(draws) && EventuallyNew(currentEmotion, draws)
      modifies this
      ensures Valid()
      ensures analysisOn <==> old(isRecording) && videoPresent
      ensures !(old(isRecording) && videoPresent) ==>
        !matched && currentScore == old(currentScore) && lastMatchTime == old(lastMatchTime)
      ensures old(isRecording) && videoPresent ==>
        currentScore == Round(FrameScore(old(detectorReady), frame, old(currentEmotion), simulated))
      ensures matched <==> (old(isRecording) && videoPresent
        && MatchAllowed(FrameScore(old(detectorReady), frame, old(currentEmotion), simulated),
          if old(detectorReady) && frame.Expressions? then RealThreshold else SimulatedThreshold,
          now, old(lastMatchTime)))
      ensures matched ==> (streakCount == old(streakCount) + 1 && lastMatchTime == now
        && matchedEmotions == old(matchedEmotions) + [old(currentEmotion).value]
        && currentEmotion == Some(NextEmotion(old(currentEmotion), draws)))
      ensures !matched ==> (streakCount == old(streakCount) && matchedEmotions == old(matchedEmotions)
        && currentEmotion == old(currentEmotion) && highestScore == old(highestScore))
      ensures isRecording == old(isRecording) && timerOn == old(timerOn) && recorder == old(recorder)
      ensures results == old(results) && remainingTime == old(remainingTime) && chunks == old(chunks)
      ensures hasStream == old(hasStream) && detectorReady == old(detectorReady)
      ensures countdown == old(countdown) && countdownTimerOn == old(countdownTimerOn)
      ensures fallbackOn == old(fallbackOn) && processingOn == old(processingOn) && isAnalyzing == old(isAnalyzing)
    {
      matched := false;
      if !isRecording || !videoPresent {
        analysisOn := false;
        return;
      }
      var real_ := detectorReady && frame.Expressions?;
      var score := FrameScore(detectorReady, frame, currentEmotion, simulated);
      currentScore := Round(score);
      var threshold := if real_ then RealThreshold else SimulatedThreshold;
      if MatchAllowed(score, threshold, now, lastMatchTime) {
        HandleMatch(score, now, draws);
        matched := true;
      }
    }

    /** `ondataavailable`: a chunk is kept only when it is not empty. */
    method DataAvailable(data: Blob)
      requires Valid() && (recorder == Active || recorder == StopRequested)
      modifies this
      ensures Valid()
      ensures chunks == old(chunks) + (if |data| > 0 then [data] else [])
      ensures Concat(chunks) == Concat(old(chunks)) + data
      ensures recorder == old(recorder) && isRecording == old(isRecording) && results == old(results)
      ensures streakCount == old(streakCount) && timerOn == old(timerOn)
    {
      if |data| > 0 {
        ConcatAppend(chunks, data);
        chunks := chunks + [data];
      }
    }

    /** The recorder's `stop` event: when a snapshot of the video could be
        taken (`selfie`), the recording and the streak's statistics are
        reported. */
    method RecorderStopped(selfie: Option<Blob>)
      requires Valid() && recorder == StopRequested
      modifies this
      ensures Valid()
      ensures recorder == Stopped
      ensures selfie.Some? ==> results == old(results) + [Outcome(Concat(old(chunks)), selfie.value,
        old(streakCount), Labels(old(matchedEmotions)), old(highestScore))]
      ensures selfie.None? ==> results == old(results)
      ensures streakCount == old(streakCount) && isRecording == old(isRecording) && chunks == old(chunks)
    {
      recorder := Stopped;
      if selfie.Some? {
        var videoBlob := Concat(chunks);
        results := results + [Outcome(videoBlob, selfie.value, streakCount, Labels(matchedEmotions), highestScore)];
      }
    }

    /** The fallback's 3-second timeout: a random streak of 1 to 10
        emotions and a random high score of 70 to 99 are reported with empty
        blobs, then the recording is stopped. */
    method FallbackElapsed(streakDraw: real, draws: seq<real>, highDraw: real)
      requires Valid() && fallbackOn
      requires 0.0 <= streakDraw < 1.0 && 0.0 <= highDraw < 1.0 && ValidDraws(draws) && |draws| >= 10
      modifies this
      ensures Valid()
      ensures !fallbackOn && !isRecording && isAnalyzing
      ensures results == old(results) + [Outcome([], [], FallbackStreak(streakDraw),
        Labels(DrawnEmotions(draws[..FallbackStreak(streakDraw)])), FallbackHighScore(highDraw))]
      ensures streakCount == old(streakCount) && matchedEmotions == old(matchedEmotions)
    {
      var randomStreakCount := FallbackStreak(streakDraw);
      var randomEmotions: seq<Emotion> := [];
      var i := 0;
      while i < randomStreakCount
        invariant 0 <= i <= randomStreakCount
        invariant |randomEmotions| == i
        invariant forall j :: 0 <= j < i ==> randomEmotions[j] == RandomEmotion(draws[j])
      {
        randomEmotions := randomEmotions + [RandomEmotion(draws[i])];
        i := i + 1;
      }
      assert randomEmotions == DrawnEmotions(draws[..randomStreakCount]);
      var randomHighScore := FallbackHighScore(highDraw);
      results := results + [Outcome([], [], randomStreakCount, Labels(randomEmotions), randomHighScore)];
      fallbackOn := false;
      StopRecording();
    }
  }

  /** The score a frame is judged by: the detector's score for the current
      emotion as a percentage when the detector is usable and saw
      expressions, otherwise the simulated percentage. */
  function FrameScore(detectorReady: bool, frame: FrameResult, current: Option<Emotion>, simulated: real): (s: real)
    requires 0.0 <= simulated < 1.0
    ensures !(detectorReady && frame.Expressions?) ==> 0.0 <= s < 100.0
  {
    if detectorReady && frame.Expressions? then
      if current.Some? then Score(frame.expressions, Label(current.value)) * 100.0 else 0.0
    else simulated * 100.0
  }
}
