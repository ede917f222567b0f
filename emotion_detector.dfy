/** The emotion-matching core of the video game
    (src/components/challenge/video/EmotionDetector.tsx): drawing target
    emotions, and one run of the detection loop deciding whether the player
    matched the target. The game state the component reads and writes through
    its props (owned by the recording component) is the class `MatchState`;
    React state and the component's refs are taken to agree. */
module EmotionDetector {
  import opened Common
  import opened FaceVerification

  /** A detected emotion must score strictly above this to count as a match. */
  const MatchThreshold: real := 0.6
  /** Matches needed to win; no new target is drawn once this many are matched. */
  const TotalEmotionsToMatch: int := 10

  /** `getRandomEmotion` of the detector: a challenge emotion, different from
      the current target when there is one. */
  function PickTarget(current: Option<Emotion>, r: real): (e: Emotion)
    requires 0.0 <= r < 1.0
    ensures e != Neutral
    ensures current.Some? ==> e != current.value
  {
    var pool := TargetPool(current);
    var i := PickIndex(r, |pool|);
    assert pool[i] in pool;
    pool[i]
  }

  /** The emotions a draw chooses from: the challenge emotions, less the
      current target when there is one. */
  function TargetPool(current: Option<Emotion>): (pool: seq<Emotion>)
    ensures |pool| > 0
    ensures forall e :: e in pool <==> e != Neutral && (current.Some? ==> e != current.value)
  {
    var choices := ChallengeEmotions();
    if current.Some? then
      var filtered := Without(choices, current.value);
      assert Happy in filtered || Sad in filtered;
      filtered
    else
      choices
  }

  /** Every challenge emotion other than the current target can be drawn. */
  lemma PickTargetCovers(current: Option<Emotion>, e: Emotion)
    requires e != Neutral
    requires current.Some? ==> e != current.value
    ensures exists r :: 0.0 <= r < 1.0 && PickTarget(current, r) == e
  {
    var pool := TargetPool(current);
    assert e in pool;
    var i :| 0 <= i < |pool| && pool[i] == e;
    PickIndexHits(i, |pool|);
    assert PickTarget(current, i as real / |pool| as real) == e;
  }

  /** What one detection run sees: the detector threw, no face, or a face with
      its expression scores. */
  datatype Frame = DetectorThrew | NoFace | Face(expressions: Expressions)

  /** The match condition: the game is running, a target is set, the
      cool-down is over, and the dominant emotion is the target with a score
      above the threshold. */
  predicate MatchFires(gameActive: bool, target: Option<Emotion>, recently: bool, es: Expressions)
    requires |es| > 0
  {
    gameActive && target.Some? && !recently
    && Dominant(es) == Label(target.value) && es[TopIndex(es)].1 > MatchThreshold
  }

  /** A match requires the target to score above the threshold and no label to
      score higher. */
  lemma MatchMeansTargetLeads(gameActive: bool, target: Option<Emotion>, recently: bool, es: Expressions)
    requires |es| > 0 && DistinctKeys(es)
    requires MatchFires(gameActive, target, recently, es)
    ensures Score(es, Label(target.value)) > MatchThreshold
    ensures forall j :: 0 <= j < |es| ==> es[j].1 <= Score(es, Label(target.value))
  {
    ScoreOfListed(es, TopIndex(es));
  }

  /** The game state shared by the recording component and the detector. */
  class MatchState {
    var gameActive: bool
    var targetEmotion: Option<Emotion>
    var emotionsMatched: int
    var emotionMatchedRecently: bool
    var showSuccessAnimation: bool
    var faceDetected: bool
    var dominantEmotion: Option<string>
    /** The 1.2-second `matchAnimationTimeout` is pending. */
    var cooldownTimerOn: bool

    ghost predicate Valid()
      reads this
    {
      emotionsMatched >= 0 && targetEmotion != Some(Neutral)
    }

    /** The initial state (all `useState` defaults). */
    constructor ()
      ensures Valid()
      ensures !gameActive && targetEmotion.None? && emotionsMatched == 0
      ensures !emotionMatchedRecently && !showSuccessAnimation && !faceDetected
      ensures dominantEmotion.None? && !cooldownTimerOn
    {
      gameActive := false;
      targetEmotion := None;
      emotionsMatched := 0;
      emotionMatchedRecently := false;
      showSuccessAnimation := false;
      faceDetected := false;
      dominantEmotion := None;
      cooldownTimerOn := false;
    }

    /** A new game: no matches, no target, no cool-down, game running. */
    method ResetForGame()
      requires Valid()
      modifies this
      ensures Valid()
      ensures gameActive && targetEmotion.None? && emotionsMatched == 0
      ensures !emotionMatchedRecently && !showSuccessAnimation
      ensures faceDetected == old(faceDetected) && dominantEmotion == old(dominantEmotion)
      ensures cooldownTimerOn == old(cooldownTimerOn)
    {
      emotionsMatched := 0;
      targetEmotion := None;
      gameActive := true;
      emotionMatchedRecently := false;
      showSuccessAnimation := false;
    }

    /** `setGameActive(false)`. */
    method Deactivate()
      requires Valid()
      modifies this
      ensures Valid()
      ensures !gameActive
      ensures targetEmotion == old(targetEmotion) && emotionsMatched == old(emotionsMatched)
      ensures emotionMatchedRecently == old(emotionMatchedRecently)
      ensures showSuccessAnimation == old(showSuccessAnimation) && cooldownTimerOn == old(cooldownTimerOn)
      ensures faceDetected == old(faceDetected) && dominantEmotion == old(dominantEmotion)
    {
      gameActive := false;
    }

    /** The effect that draws the first target once the game is active. */
    method InitialTarget(r: real)
      requires Valid() && 0.0 <= r < 1.0
      modifies this
      ensures Valid()
      ensures old(gameActive) && old(targetEmotion).None? ==> targetEmotion == Some(PickTarget(None, r))
      ensures !(old(gameActive) && old(targetEmotion).None?) ==> targetEmotion == old(targetEmotion)
      ensures gameActive == old(gameActive) && emotionsMatched == old(emotionsMatched)
      ensures emotionMatchedRecently == old(emotionMatchedRecently)
      ensures showSuccessAnimation == old(showSuccessAnimation) && cooldownTimerOn == old(cooldownTimerOn)
      ensures faceDetected == old(faceDetected) && dominantEmotion == old(dominantEmotion)
    {
      if gameActive && targetEmotion.None? {
        targetEmotion := Some(PickTarget(targetEmotion, r));
      }
    }

    /** `performEmotionDetection`: one run of the detection loop, given whether
        the video is available and ready, what the detector saw, and the draw
        of `Math.random()` for a new target. Returns whether it matched. */
    method PerformEmotionDetection(videoAvailable: bool, frame: Frame, r: real) returns (matched: bool)
      requires Valid() && 0.0 <= r < 1.0
      modifies this
      ensures Valid()
      ensures matched <==> (videoAvailable && frame.Face? && |frame.expressions| > 0
        && MatchFires(old(gameActive), old(targetEmotion), old(emotionMatchedRecently), frame.expressions))
      // a match starts the cool-down, counts once and shows the animation
      ensures matched ==> (emotionMatchedRecently && showSuccessAnimation && cooldownTimerOn
        && emotionsMatched == old(emotionsMatched) + 1)
      // the next target differs from the one just matched, unless the game is won
      ensures matched && emotionsMatched < TotalEmotionsToMatch ==>
        targetEmotion == Some(PickTarget(old(targetEmotion), r)) && targetEmotion != old(targetEmotion)
      ensures matched && emotionsMatched >= TotalEmotionsToMatch ==> targetEmotion == old(targetEmotion)
      ensures !matched ==> (emotionsMatched == old(emotionsMatched) && targetEmotion == old(targetEmotion)
        && emotionMatchedRecently == old(emotionMatchedRecently)
        && showSuccessAnimation == old(showSuccessAnimation) && cooldownTimerOn == old(cooldownTimerOn))
      // what the overlay shows about the face
      ensures !videoAvailable || frame.DetectorThrew? ==>
        faceDetected == old(faceDetected) && dominantEmotion == old(dominantEmotion)
      ensures videoAvailable && frame.NoFace? ==> !faceDetected && dominantEmotion.None?
      ensures videoAvailable && frame.Face? ==> faceDetected
      ensures videoAvailable && frame.Face? && |frame.expressions| > 0 ==>
        dominantEmotion == Some(Dominant(frame.expressions))
      ensures videoAvailable && frame.Face? && |frame.expressions| == 0 ==> dominantEmotion == old(dominantEmotion)
      ensures gameActive == old(gameActive)
    {
      matched := false;
      if !videoAvailable {
        return;
      }
      match frame
      case DetectorThrew =>
      case NoFace =>
        faceDetected := false;
        dominantEmotion := None;
      case Face(es) =>
        faceDetected := true;
        if |es| == 0 {
          // reading the first sorted entry throws; the error is caught and logged
          return;
        }
        var detected := Dominant(es);
        var confidence := es[TopIndex(es)].1;
        dominantEmotion := Some(detected);
        if gameActive && targetEmotion.Some? && !emotionMatchedRecently {
          if detected == Label(targetEmotion.value) && confidence > MatchThreshold {
            emotionMatchedRecently := true;
            showSuccessAnimation := true;
            var newCount := emotionsMatched + 1;
            emotionsMatched := newCount;
            if newCount < TotalEmotionsToMatch {
              targetEmotion := Some(PickTarget(targetEmotion, r));
            }
            cooldownTimerOn := true;
            matched := true;
          }
        }
    }

    /** The 1.2-second timeout after a match: matching is allowed again and
        the success animation ends. */
    method CooldownElapsed()
      requires Valid() && cooldownTimerOn
      modifies this
      ensures Valid()
      ensures !emotionMatchedRecently && !showSuccessAnimation && !cooldownTimerOn
      ensures gameActive == old(gameActive) && targetEmotion == old(targetEmotion)
      ensures emotionsMatched == old(emotionsMatched)
      ensures faceDetected == old(faceDetected) && dominantEmotion == old(dominantEmotion)
    {
      emotionMatchedRecently := false;
      showSuccessAnimation := false;
      cooldownTimerOn := false;
    }

    /** The 1.5-second effect timer that runs while `emotionMatchedRecently` is
        set (its cleanup cancels it when the flag changes). */
    method AutoResetElapsed()
      requires Valid() && emotionMatchedRecently
      modifies this
      ensures Valid()
      ensures !emotionMatchedRecently
      ensures showSuccessAnimation == old(showSuccessAnimation) && cooldownTimerOn == old(cooldownTimerOn)
      ensures gameActive == old(gameActive) && targetEmotion == old(targetEmotion)
      ensures emotionsMatched == old(emotionsMatched)
      ensures faceDetected == old(faceDetected) && dominantEmotion == old(dominantEmotion)
    {
      emotionMatchedRecently := false;
    }
  }
}
