/** The fallback face detector (src/lib/simpleFaceDetection.ts): it always
    reports a human face at confidence 85 and invents a vibe check, matching
    the requested emotion with four chances in five. Every `Math.random()`
    draw is a parameter in [0, 1). */
module SimpleFaceDetection {
  import opened Common
  import opened FaceVerification

  /** The detector's own emotion list (a different order from `EMOTIONS`). */
  const SimpleEmotions: seq<string> := ["happy", "sad", "angry", "surprised", "fearful", "disgusted", "neutral"]

  const SimpleConfidence: real := 85.0
  const SimpleMessage: string := "Verification completed"

  // The emoji literals as this source text stores them: the UTF-8 bytes of
  // each emoji read back as Windows-1252 characters (a byte with no
  // Windows-1252 character is dropped).
  const SimpleNeutralEmoji: string := "\U{F0}\U{178}\U{2DC}"
  const SimpleHappyEmoji: string := "\U{F0}\U{178}\U{2DC}\U{20AC}"
  const SimpleSadEmoji: string := "\U{F0}\U{178}\U{2DC}\U{A2}"
  const SimpleAngryEmoji: string := "\U{F0}\U{178}\U{2DC}\U{A1}"
  const SimpleFearfulEmoji: string := "\U{F0}\U{178}\U{2DC}\U{A8}"
  const SimpleDisgustedEmoji: string := "\U{F0}\U{178}\U{A4}\U{A2}"
  const SimpleSurprisedEmoji: string := "\U{F0}\U{178}\U{2DC}\U{B2}"

  /** `emojiMap[label]` as a template literal prints it: an unknown label
      reads "undefined". */
  function SimpleEmoji(name: string): (e: string)
    ensures name !in SimpleEmotions <==> e == "undefined"
  {
    match name
    case "neutral" => SimpleNeutralEmoji
    case "happy" => SimpleHappyEmoji
    case "sad" => SimpleSadEmoji
    case "angry" => SimpleAngryEmoji
    case "fearful" => SimpleFearfulEmoji
    case "disgusted" => SimpleDisgustedEmoji
    case "surprised" => SimpleSurprisedEmoji
    case _ => "undefined"
  }

  predicate Distinct<T(==)>(s: seq<T>)
  {
    forall i, j :: 0 <= i < j < |s| ==> s[i] != s[j]
  }

  /** Filtering a value out of a list that does not hold it keeps the list. */
  lemma {:induction false} WithoutAbsent(s: seq<string>, x: string)
    requires x !in s
    ensures Without(s, x) == s
  {
    if s != [] {
      assert s[0] != x;
      WithoutAbsent(s[1..], x);
      assert [s[0]] + s[1..] == s;
    }
  }

  /** Filtering a value out of a list of distinct values removes at most one. */
  lemma {:induction false} WithoutDropsAtMostOne(s: seq<string>, x: string)
    requires Distinct(s)
    ensures |Without(s, x)| >= |s| - 1
  {
    if s != [] {
      if s[0] == x {
        assert x !in s[1..] by {
          forall j | 0 <= j < |s[1..]|
            ensures s[1..][j] != x
          {
            assert s[1..][j] == s[j + 1];
          }
        }
        WithoutAbsent(s[1..], x);
      } else {
        WithoutDropsAtMostOne(s[1..], x);
      }
    }
  }

  /** The `forEach` that fills `detectedEmotions`: the dominant label gets
      `matchScore / 100`, every other label `Math.random() * 0.3` (the draw
      for position `i` is `noise[i]`). */
  method FillScores(dominant: string, matchScore: int, noise: seq<real>) returns (detected: Expressions)
    requires |noise| == |SimpleEmotions|
    requires forall i :: 0 <= i < |noise| ==> 0.0 <= noise[i] < 1.0
    ensures |detected| == |SimpleEmotions|
    ensures forall i :: 0 <= i < |detected| ==> detected[i].0 == SimpleEmotions[i]
    ensures forall i :: 0 <= i < |detected| && SimpleEmotions[i] == dominant ==>
      detected[i].1 == matchScore as real / 100.0
    ensures forall i :: 0 <= i < |detected| && SimpleEmotions[i] != dominant ==>
      detected[i].1 == noise[i] * 0.3 && 0.0 <= detected[i].1 < 0.3
  {
    detected := [];
    for i := 0 to |SimpleEmotions|
      invariant |detected| == i
      invariant forall k :: 0 <= k < i ==> detected[k].0 == SimpleEmotions[k]
      invariant forall k :: 0 <= k < i && SimpleEmotions[k] == dominant ==> detected[k].1 == matchScore as real / 100.0
      invariant forall k :: 0 <= k < i && SimpleEmotions[k] != dominant ==>
        detected[k].1 == noise[k] * 0.3 && 0.0 <= detected[k].1 < 0.3
    {
      var emotion := SimpleEmotions[i];
      var score := if emotion == dominant then matchScore as real / 100.0 else noise[i] * 0.3;
      detected := detected + [(emotion, score)];
    }
  }

  /** The `Math.random()` draws one call of `detectFaceSimple` makes: `pick`
      chooses an emotion when none is requested, `matching` decides whether
      the requested one is matched, `other` picks another emotion otherwise,
      `score` the match score, and `noise[i]` the score of the `i`-th label
      when it is not the dominant one. */
  datatype Draws = Draws(pick: real, matching: real, other: real, score: real, noise: seq<real>)

  predicate ValidDraws(d: Draws)
  {
    0.0 <= d.pick < 1.0 && 0.0 <= d.matching < 1.0 && 0.0 <= d.other < 1.0 && 0.0 <= d.score < 1.0
    && |d.noise| == |SimpleEmotions| && forall i :: 0 <= i < |d.noise| ==> 0.0 <= d.noise[i] < 1.0
  }

  /** The vibe-check message: "Great ..." when the requested emotion was
      matched, "Try to look more ..." otherwise. */
  function FallbackMessage(passed: bool, wanted: string): (m: string)
    ensures passed ==> m == "Great " + FormatEmotion(wanted) + " vibe! " + SimpleEmoji(wanted)
    ensures !passed ==> m == "Try to look more " + wanted + "! " + SimpleEmoji(wanted)
  {
    if passed then "Great " + FormatEmotion(wanted) + " vibe! " + SimpleEmoji(wanted)
    else "Try to look more " + wanted + "! " + SimpleEmoji(wanted)
  }

  /** A passed fallback message starts "Great", a failed one "Try to look
      more", so the message alone tells the outcome. */
  lemma MessageTellsOutcome(passed: bool, wanted: string)
    ensures passed ==> FallbackMessage(passed, wanted)[..5] == "Great"
    ensures !passed ==> FallbackMessage(passed, wanted)[..16] == "Try to look more"
    ensures FallbackMessage(true, wanted) != FallbackMessage(false, wanted)
  {
    assert FallbackMessage(true, wanted)[0] == 'G';
    assert FallbackMessage(false, wanted)[0] == 'T';
  }

  /** The scores `FillScores` produced give the dominant label its match score. */
  lemma DominantScored(detected: Expressions, dominant: string, matchScore: int)
    requires |detected| == |SimpleEmotions|
    requires forall i :: 0 <= i < |detected| ==> detected[i].0 == SimpleEmotions[i]
    requires forall i :: 0 <= i < |detected| && SimpleEmotions[i] == dominant ==>
      detected[i].1 == matchScore as real / 100.0
    requires dominant in SimpleEmotions
    ensures Score(detected, dominant) == matchScore as real / 100.0
  {
    var k :| 0 <= k < |SimpleEmotions| && SimpleEmotions[k] == dominant;
    assert DistinctKeys(detected);
    ScoreOfListed(detected, k);
  }

  /** The emotion shown instead of the requested one: drawn from the others. */
  function OtherEmotion(wanted: string, other: real): (e: string)
    requires 0.0 <= other < 1.0
    ensures e != wanted && e in SimpleEmotions
  {
    var others := Without(SimpleEmotions, wanted);
    WithoutDropsAtMostOne(SimpleEmotions, wanted);
    var e := others[PickIndex(other, |SimpleEmotions| - 1)];
    assert e in others;
    e
  }

  /** `detectFaceSimple`: the image is never looked at. */
  method DetectFaceSimple(requested: Option<string>, d: Draws) returns (r: FaceResult)
    requires ValidDraws(d)
    ensures r.isHuman && r.confidence == SimpleConfidence && r.message == Some(SimpleMessage) && r.faceVector.None?
    ensures r.vibeCheck.Some? && r.vibeCheck.value.requestedEmotion.Some?
    ensures var v := r.vibeCheck.value; var wanted := v.requestedEmotion.value;
      (Truthy(requested) ==> wanted == requested.value)
      && (!Truthy(requested) ==> wanted in SimpleEmotions)
      && 70 <= v.matchScore <= 99
      && (v.passed <==> d.matching > 0.2)
      && (v.passed ==> v.dominantEmotion == wanted)
      && (!v.passed ==> v.dominantEmotion != wanted && v.dominantEmotion in SimpleEmotions)
      && v.message == FallbackMessage(v.passed, wanted)
    ensures var v := r.vibeCheck.value;
      v.detectedEmotions.Some? && |v.detectedEmotions.value| == |SimpleEmotions|
      && (v.dominantEmotion in SimpleEmotions ==>
            Score(v.detectedEmotions.value, v.dominantEmotion) == v.matchScore as real / 100.0)
      && (forall i :: 0 <= i < |SimpleEmotions| && SimpleEmotions[i] != v.dominantEmotion ==>
            0.0 <= v.detectedEmotions.value[i].1 < 0.3)
  {
    var wanted := OrElse(requested, SimpleEmotions[PickIndex(d.pick, |SimpleEmotions|)]);
    var matchRequested := d.matching > 0.2;
    var dominant := if matchRequested then wanted else OtherEmotion(wanted, d.other);
    var matchScore := PickIndex(d.score, 30) + 70;
    var detected := FillScores(dominant, matchScore, d.noise);
    if dominant in SimpleEmotions {
      DominantScored(detected, dominant, matchScore);
    }
    var vibe := VibeCheck(Some(wanted), Some(detected), dominant, matchScore, matchRequested,
      FallbackMessage(matchRequested, wanted));
    r := FaceResult(true, SimpleConfidence, None, Some(SimpleMessage), Some(vibe));
  }
}
