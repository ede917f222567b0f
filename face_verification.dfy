/** The face-verification library (src/lib/faceVerification.ts): the emotion
    vocabulary, emoji and display formatting, the one-shot model loader, the
    decision procedure of `verifyFace` over what the face detector reports, and
    the base64 packing of the face descriptor. */
module FaceVerification {
  import opened Common
  import Base64

  /** The seven expressions the detector scores. */
  datatype Emotion = Neutral | Happy | Sad | Angry | Fearful | Disgusted | Surprised

  /** The label the detector and the UI use for an expression. */
  function Label(e: Emotion): (s: string)
    ensures |s| > 0
  {
    match e
    case Neutral => "neutral"
    case Happy => "happy"
    case Sad => "sad"
    case Angry => "angry"
    case Fearful => "fearful"
    case Disgusted => "disgusted"
    case Surprised => "surprised"
  }

  /** Every label is written in lower-case letters only. */
  lemma LabelLowerCase(e: Emotion)
    ensures forall j :: 0 <= j < |Label(e)| ==> 'a' <= Label(e)[j] <= 'z'
  {
    var s := Label(e);
    match e
    case Neutral => assert s == "neutral";
    case Happy => assert s == "happy";
    case Sad => assert s == "sad";
    case Angry => assert s == "angry";
    case Fearful => assert s == "fearful";
    case Disgusted => assert s == "disgusted";
    case Surprised => assert s == "surprised";
  }

  /** Different expressions have different labels. */
  lemma LabelInjective(e1: Emotion, e2: Emotion)
    requires Label(e1) == Label(e2)
    ensures e1 == e2
  {
    assert Label(e1)[0] == Label(e2)[0];
    assert |Label(e1)| == |Label(e2)|;
  }

  /** The expressions in the detector's (and `EMOTIONS`') order. */
  const AllEmotions: seq<Emotion> := [Neutral, Happy, Sad, Angry, Fearful, Disgusted, Surprised]

  /** `EMOTIONS`: the seven labels. */
  const Emotions: seq<string> := ["neutral", "happy", "sad", "angry", "fearful", "disgusted", "surprised"]

  /** Every expression is listed, and `EMOTIONS` lists their labels in the same order. */
  lemma EmotionsAreLabels(e: Emotion)
    ensures e in AllEmotions && Label(e) in Emotions
    ensures |Emotions| == |AllEmotions|
    ensures forall i :: 0 <= i < |AllEmotions| ==> Emotions[i] == Label(AllEmotions[i])
  {
  }

  /** A challenge expression's label is one of `EMOTIONS` and is not "neutral". */
  lemma ChallengeLabel(e: Emotion)
    requires e != Neutral
    ensures Label(e) in Emotions && Label(e) != "neutral"
  {
    assert Label(e)[0] != 'n';
  }

  /** `s.filter(e => e !== x)`. */
  function Without<T(==,!new)>(s: seq<T>, x: T): (r: seq<T>)
    ensures forall e :: e in r <==> e in s && e != x
    ensures |r| <= |s|
  {
    if s == [] then []
    else if s[0] == x then Without(s[1..], x)
    else [s[0]] + Without(s[1..], x)
  }

  /** The expressions a challenge may ask for: all but neutral. */
  function ChallengeEmotions(): (r: seq<Emotion>)
    ensures forall e :: e in r <==> e != Neutral
  {
    assert forall e: Emotion :: e in AllEmotions by {
      forall e: Emotion
        ensures e in AllEmotions
      {
        EmotionsAreLabels(e);
      }
    }
    Without(AllEmotions, Neutral)
  }

  /** `getRandomEmotion` for a draw `r` of `Math.random()`: never neutral. */
  function RandomEmotion(r: real): (e: Emotion)
    requires 0.0 <= r < 1.0
    ensures e != Neutral
  {
    var choices := ChallengeEmotions();
    assert Happy in choices;
    choices[PickIndex(r, |choices|)]
  }

  /** Every expression but neutral can be drawn. */
  lemma RandomEmotionCovers(e: Emotion)
    requires e != Neutral
    ensures exists r :: 0.0 <= r < 1.0 && RandomEmotion(r) == e
  {
    var choices := ChallengeEmotions();
    assert e in choices;
    var i :| 0 <= i < |choices| && choices[i] == e;
    PickIndexHits(i, |choices|);
    assert RandomEmotion(i as real / |choices| as real) == e;
  }

  lemma PickIndexHits(i: nat, n: nat)
    requires i < n
    ensures 0.0 <= i as real / n as real < 1.0
    ensures PickIndex(i as real / n as real, n) == i
  {
    var r := i as real / n as real;
    assert r * n as real == i as real;
  }

  // The emoji literals are kept exactly as the source text stores them: the
  // UTF-8 bytes of each emoji read back as Mac OS Roman characters.
  const NeutralEmoji: string := "\U{F8FF}\U{FC}\U{F2}\U{EA}"
  const HappyEmoji: string := "\U{F8FF}\U{FC}\U{F2}\U{C4}"
  const SadEmoji: string := "\U{F8FF}\U{FC}\U{F2}\U{A2}"
  const AngryEmoji: string := "\U{F8FF}\U{FC}\U{F2}\U{B0}"
  const FearfulEmoji: string := "\U{F8FF}\U{FC}\U{F2}\U{AE}"
  const DisgustedEmoji: string := "\U{F8FF}\U{FC}\U{A7}\U{A2}"
  const SurprisedEmoji: string := "\U{F8FF}\U{FC}\U{F2}\U{2264}"
  const UnknownEmoji: string := "\U{201A}\U{F9}\U{EC}"

  /** `getEmotionEmoji`: the label's emoji, the question-mark emoji for any other text. */
  function EmotionEmoji(emotion: string): (r: string)
    ensures emotion in Emotions <==> r != UnknownEmoji
    ensures |r| >= 3
  {
    match emotion
    case "neutral" => NeutralEmoji
    case "happy" => HappyEmoji
    case "sad" => SadEmoji
    case "angry" => AngryEmoji
    case "fearful" => FearfulEmoji
    case "disgusted" => DisgustedEmoji
    case "surprised" => SurprisedEmoji
    case _ => UnknownEmoji
  }

  /** Two different labels never share an emoji. */
  lemma EmojiInjective(e1: Emotion, e2: Emotion)
    requires e1 != e2
    ensures EmotionEmoji(Label(e1)) != EmotionEmoji(Label(e2))
  {
  }

  /** `toUpperCase` of one character, on the ASCII letters. */
  function UpperChar(c: char): (u: char)
    ensures 'a' <= c <= 'z' ==> 'A' <= u <= 'Z' && u as int == c as int - 32
    ensures !('a' <= c <= 'z') ==> u == c
  {
    if 'a' <= c <= 'z' then (c as int - 32) as char else c
  }

  function LowerChar(c: char): char
  {
    if 'A' <= c <= 'Z' then (c as int + 32) as char else c
  }

  /** `formatEmotion`: the first character upper-cased, the rest unchanged. */
  function FormatEmotion(emotion: string): (r: string)
    ensures |r| == |emotion|
    ensures |emotion| > 0 ==> r[0] == UpperChar(emotion[0]) && r[1..] == emotion[1..]
  {
    if emotion == "" then "" else [UpperChar(emotion[0])] + emotion[1..]
  }

  /** Formatting loses nothing for a label that starts with a lower-case letter:
      lower-casing the first character gives the label back. */
  lemma FormatEmotionReversible(emotion: string)
    requires |emotion| > 0 && 'a' <= emotion[0] <= 'z'
    ensures var f := FormatEmotion(emotion); [LowerChar(f[0])] + f[1..] == emotion
  {
  }

  /** Formatting is idempotent. */
  lemma FormatEmotionIdempotent(emotion: string)
    ensures FormatEmotion(FormatEmotion(emotion)) == FormatEmotion(emotion)
  {
  }

  // ---------------------------------------------------------------------------
  // The model loader

  /** The shared loading promise: none yet, pending, resolved, or rejected with
      its error message. */
  datatype LoadState = NotStarted | Loading | Loaded | LoadFailed(message: string)

  /** What a call of `loadFaceApiModels` does: returns at once, hands back the
      existing promise, or starts the (single) download. */
  datatype LoadCall = AlreadyLoaded | Awaiting(promise: LoadState) | Started

  /** The module-level `modelsLoaded` flag and `modelLoadingPromise`. */
  class ModelLoader {
    var modelsLoaded: bool
    var promise: LoadState
    ghost var downloadsStarted: nat

    ghost predicate Valid()
      reads this
    {
      downloadsStarted <= 1
      && (downloadsStarted == 0 <==> promise == NotStarted)
      && (modelsLoaded <==> promise == Loaded)
    }

    constructor ()
      ensures Valid()
      ensures !modelsLoaded && promise == NotStarted && downloadsStarted == 0
    {
      modelsLoaded := false;
      promise := NotStarted;
      downloadsStarted := 0;
    }

    /** `loadFaceApiModels()`: the models are downloaded at most once, however
        often it is called; a rejected promise stays cached. */
    method Load() returns (call: LoadCall)
      requires Valid()
      modifies this
      ensures Valid()
      ensures old(modelsLoaded) ==> call == AlreadyLoaded
      ensures !old(modelsLoaded) && old(promise) != NotStarted ==> call == Awaiting(old(promise))
      ensures old(promise) == NotStarted ==> call == Started && promise == Loading
      ensures old(promise) != NotStarted ==> promise == old(promise)
      ensures modelsLoaded == old(modelsLoaded)
      ensures downloadsStarted == 1
    {
      if modelsLoaded {
        return AlreadyLoaded;
      }
      if promise != NotStarted {
        return Awaiting(promise);
      }
      promise := Loading;
      downloadsStarted := 1;
      call := Started;
    }

    /** The download finishing: all four networks loaded, or the first failure
        with its message. */
    method Settle(succeeded: bool, error: string)
      requires Valid() && promise == Loading
      modifies this
      ensures Valid()
      ensures succeeded ==> modelsLoaded && promise == Loaded
      ensures !succeeded ==> !modelsLoaded && promise == LoadFailed("Failed to load face detection models: " + error)
      ensures downloadsStarted == old(downloadsStarted)
    {
      if succeeded {
        modelsLoaded := true;
        promise := Loaded;
      } else {
        promise := LoadFailed("Failed to load face detection models: " + error);
      }
    }
  }

  // ---------------------------------------------------------------------------
  // What the detector reports

  /** Expression scores as `Object.entries(expressions)` lists them. */
  type Expressions = seq<(string, real)>

  /** Number of points in each landmark group (`getLeftEye().length`, ...). */
  datatype Landmarks = Landmarks(leftEye: nat, rightEye: nat, nose: nat, mouth: nat)

  /** One detected face: detection score, box size, landmarks, the bytes of the
      128-float descriptor, and the expression scores. */
  datatype Detection = Detection(
    score: real,
    boxWidth: real,
    boxHeight: real,
    landmarks: Landmarks,
    descriptor: seq<byte>,
    expressions: Expressions)

  /** The outcome of awaiting the models and running the detector on an image. */
  datatype Analysis =
    | LoadRejected(reason: string)
    | DetectorThrew(message: string)
    | NoFace
    | Found(detection: Detection)

  datatype VibeCheck = VibeCheck(
    requestedEmotion: Option<string>,
    detectedEmotions: Option<Expressions>,
    dominantEmotion: string,
    matchScore: int,
    passed: bool,
    message: string)

  /** `FaceVerificationResult`. */
  datatype FaceResult = FaceResult(
    isHuman: bool,
    confidence: real,
    faceVector: Option<string>,
    message: Option<string>,
    vibeCheck: Option<VibeCheck>)

  // ---------------------------------------------------------------------------
  // Expression scores

  /** The first position of `key`, if any. */
  function FindKey(es: Expressions, key: string): (r: Option<nat>)
    ensures r.None? <==> forall j :: 0 <= j < |es| ==> es[j].0 != key
    ensures r.Some? ==> r.value < |es| && es[r.value].0 == key
    ensures r.Some? ==> forall j :: 0 <= j < r.value ==> es[j].0 != key
  {
    if es == [] then None
    else if es[0].0 == key then Some(0)
    else match FindKey(es[1..], key)
      case None => None
      case Some(k) => Some(k + 1)
  }

  /** `expressions[key] || 0`: the score of `key`, zero when it is missing. */
  function Score(es: Expressions, key: string): (v: real)
    ensures (forall j :: 0 <= j < |es| ==> es[j].0 != key) ==> v == 0.0
    ensures FindKey(es, key).Some? ==> v == es[FindKey(es, key).value].1
  {
    match FindKey(es, key)
    case None => 0.0
    case Some(k) => es[k].1
  }

  predicate DistinctKeys(es: Expressions)
  {
    forall i, j :: 0 <= i < j < |es| ==> es[i].0 != es[j].0
  }

  /** Object keys are distinct, so looking up a listed label finds its own score. */
  lemma ScoreOfListed(es: Expressions, k: nat)
    requires DistinctKeys(es) && k < |es|
    ensures Score(es, es[k].0) == es[k].1
  {
    assert FindKey(es, es[k].0).Some?;
  }

  /** The entry a stable descending sort puts first: the first entry with the
      largest score. */
  function TopIndex(es: Expressions): (k: nat)
    requires |es| > 0
    ensures k < |es|
    ensures forall j :: 0 <= j < |es| ==> es[j].1 <= es[k].1
    ensures forall j :: 0 <= j < k ==> es[j].1 < es[k].1
  {
    if |es| == 1 then 0
    else
      var p := TopIndex(es[..|es| - 1]);
      if es[|es| - 1].1 > es[p].1 then |es| - 1 else p
  }

  /** The dominant emotion: the label of the highest score, the earlier label on a tie. */
  function Dominant(es: Expressions): string
    requires |es| > 0
  {
    es[TopIndex(es)].0
  }

  /** No listed label scores higher than the dominant one; with the
      non-negative scores the detector gives, no label at all does. */
  lemma DominantIsMaximal(es: Expressions, key: string)
    requires |es| > 0 && DistinctKeys(es)
    ensures forall i :: 0 <= i < |es| ==> es[i].1 <= Score(es, Dominant(es))
    ensures FindKey(es, key).Some? ==> Score(es, key) <= Score(es, Dominant(es))
    ensures (forall i :: 0 <= i < |es| ==> 0.0 <= es[i].1) ==> Score(es, key) <= Score(es, Dominant(es))
  {
    ScoreOfListed(es, TopIndex(es));
  }

  function Values(es: Expressions): (vs: seq<real>)
    ensures |vs| == |es| && forall i :: 0 <= i < |es| ==> vs[i] == es[i].1
  {
    seq(|es|, i requires 0 <= i < |es| => es[i].1)
  }

  function Sum(vs: seq<real>): real
  {
    if vs == [] then 0.0 else Sum(vs[..|vs| - 1]) + vs[|vs| - 1]
  }

  lemma {:induction false} SumConstant(vs: seq<real>, c: real)
    requires forall i :: 0 <= i < |vs| ==> vs[i] == c
    ensures Sum(vs) == |vs| as real * c
  {
    if vs != [] {
      SumConstant(vs[..|vs| - 1], c);
    }
  }

  lemma ProductPositive(a: real, b: real)
    requires a > 0.0 && b > 0.0
    ensures a * b > 0.0
  {
  }

  lemma SquareNonNegative(d: real)
    ensures d * d >= 0.0
  {
    if d > 0.0 {
      ProductPositive(d, d);
    } else if d < 0.0 {
      ProductPositive(-d, -d);
      assert d * d == (-d) * (-d);
    }
  }

  /** The sum of squared deviations from `m`: never negative, and zero when
      every value equals `m`. */
  function SquaredDeviations(vs: seq<real>, m: real): (s: real)
    ensures s >= 0.0
    ensures (forall i :: 0 <= i < |vs| ==> vs[i] == m) ==> s == 0.0
  {
    if vs == [] then 0.0
    else
      var d := vs[|vs| - 1] - m;
      var rest := SquaredDeviations(vs[..|vs| - 1], m);
      SquareNonNegative(d);
      assert (forall i :: 0 <= i < |vs| ==> vs[i] == m) ==> d == 0.0 && rest == 0.0 by {
        assert forall i :: 0 <= i < |vs| - 1 ==> vs[..|vs| - 1][i] == vs[i];
      }
      rest + d * d
  }

  /** `calculateVariance` (population variance): never negative, and zero
      when all values are equal. */
  function Variance(vs: seq<real>): (v: real)
    requires |vs| > 0
    ensures v >= 0.0
    ensures (forall i :: 0 <= i < |vs| ==> vs[i] == vs[0]) ==> v == 0.0
  {
    var n := |vs| as real;
    var mean := Sum(vs) / n;
    assert (forall i :: 0 <= i < |vs| ==> vs[i] == vs[0]) ==> mean == vs[0] by {
      if forall i :: 0 <= i < |vs| ==> vs[i] == vs[0] {
        SumConstant(vs, vs[0]);
      }
    }
    SquaredDeviations(vs, mean) / n
  }

  function Min(a: real, b: real): real
  {
    if a <= b then a else b
  }

  /** `calculateConfidenceScore`: up to 50 points from the detection score, up to
      30 from the face size and up to 20 from the spread of the expression
      scores, rounded and capped at 100. */
  function ConfidenceScore(detectionScore: real, es: Expressions, ratio: real): (c: int)
    requires |es| > 0
    ensures c <= 100
    ensures 0.0 <= detectionScore && 0.0 <= ratio ==> c >= 0
    ensures c <= Round(detectionScore * 50.0 + 50.0)
    ensures c < 100 ==> c == Round(detectionScore * 50.0 + Min(ratio * 100.0, 30.0) + Min(Variance(Values(es)) * 1000.0, 20.0))
  {
    var score := detectionScore * 50.0 + Min(ratio * 100.0, 30.0) + Min(Variance(Values(es)) * 1000.0, 20.0);
    var r := Round(score);
    if r <= 100 then r else 100
  }

  // ---------------------------------------------------------------------------
  // Facial features

  datatype FeatureCheck = FeatureCheck(allFeaturesVisible: bool, missingFeatures: seq<string>)

  /** The position of a feature name in the order the features are checked. */
  function FeatureRank(f: string): int
  {
    match f
    case "left eye" => 0
    case "right eye" => 1
    case "nose" => 2
    case "mouth" => 3
    case _ => 4
  }

  /** The number of landmark points of a named feature. */
  function FeaturePoints(l: Landmarks, f: string): nat
  {
    match f
    case "left eye" => l.leftEye
    case "right eye" => l.rightEye
    case "nose" => l.nose
    case "mouth" => l.mouth
    case _ => 0
  }

  const FeatureNames: seq<string> := ["left eye", "right eye", "nose", "mouth"]

  /** `checkFaceFeaturesVisibility`: lists, in check order, every feature
      with no landmark points; all features are visible exactly when none is. */
  function CheckFaceFeaturesVisibility(l: Landmarks): (c: FeatureCheck)
    ensures c.allFeaturesVisible <==> c.missingFeatures == []
    ensures c.allFeaturesVisible <==> l.leftEye > 0 && l.rightEye > 0 && l.nose > 0 && l.mouth > 0
    ensures forall f :: f in c.missingFeatures <==> f in FeatureNames && FeaturePoints(l, f) == 0
    ensures forall i, j :: 0 <= i < j < |c.missingFeatures| ==>
      FeatureRank(c.missingFeatures[i]) < FeatureRank(c.missingFeatures[j])
  {
    var missing :=
      (if l.leftEye == 0 then ["left eye"] else [])
      + (if l.rightEye == 0 then ["right eye"] else [])
      + (if l.nose == 0 then ["nose"] else [])
      + (if l.mouth == 0 then ["mouth"] else []);
    FeatureCheck(|missing| == 0, missing)
  }

  // ---------------------------------------------------------------------------
  // verifyFace

  const MinDetectionScore: real := 0.7
  const MinFaceRatio: real := 0.03
  const VibeThreshold: real := 0.3

  /** The message of an exception caught by `verifyFace`. */
  function AnalysisError(message: string): string
  {
    "Error during face analysis: " + message
  }

  /** The V8 message of reading `[0]` of the first entry of an empty entry list. */
  const EmptyExpressionsError: string := "Cannot read properties of undefined (reading '0')"

  /** The face descriptor as stored: base64 of its bytes. */
  function FaceVector(descriptor: seq<byte>): string
  {
    Base64.Encode(descriptor)
  }

  /** The vibe check of a requested emotion, or of the dominant one when none is requested. */
  function VibeFor(es: Expressions, requested: Option<string>): VibeCheck
    requires |es| > 0
  {
    var dominant := Dominant(es);
    if Truthy(requested) then
      var wanted := requested.value;
      var score := Score(es, wanted);
      var passed := score > VibeThreshold;
      VibeCheck(requested, Some(es), dominant, Percent(score), passed,
        if passed then "Great " + FormatEmotion(wanted) + " vibe! " + EmotionEmoji(wanted)
        else "Try to look more " + wanted + "! " + EmotionEmoji(wanted))
    else
      VibeCheck(None, Some(es), dominant, Percent(Score(es, dominant)), true,
        "Your vibe is " + FormatEmotion(dominant) + " " + EmotionEmoji(dominant))
  }

  function Rejection(confidence: real, message: string): FaceResult
  {
    FaceResult(false, confidence, None, Some(message), None)
  }

  /** `verifyFace` on an image of the given size. */
  function VerifyFace(analysis: Analysis, imageWidth: real, imageHeight: real, requested: Option<string>): (r: FaceResult)
    requires analysis.Found? ==> imageWidth * imageHeight > 0.0
    ensures analysis.LoadRejected? ==> r == Rejection(0.0, AnalysisError("Failed to load face detection models: " + analysis.reason))
    ensures analysis.DetectorThrew? ==> r == Rejection(0.0, AnalysisError(analysis.message))
    ensures analysis.NoFace? ==> r == Rejection(0.0, "No face detected in image")
    ensures r.isHuman ==> analysis.Found? && r.confidence > 70.0
    ensures r.vibeCheck.Some? <==> r.faceVector.Some?
    ensures r.vibeCheck.Some? ==> r.message.None?
    ensures r.vibeCheck.None? ==> !r.isHuman && r.message.Some?
  {
    match analysis
    case LoadRejected(reason) => Rejection(0.0, AnalysisError("Failed to load face detection models: " + reason))
    case DetectorThrew(message) => Rejection(0.0, AnalysisError(message))
    case NoFace => Rejection(0.0, "No face detected in image")
    case Found(d) =>
      if d.score < MinDetectionScore then Rejection(d.score * 100.0, "Low confidence face detection")
      else
        var features := CheckFaceFeaturesVisibility(d.landmarks);
        if !features.allFeaturesVisible then
          Rejection(30.0, "Missing facial features: " + Join(features.missingFeatures, ", "))
        else
          var ratio := FaceRatio(d, imageWidth, imageHeight);
          if ratio < MinFaceRatio then Rejection(40.0, "Face too small in frame")
          else if |d.expressions| == 0 then Rejection(0.0, AnalysisError(EmptyExpressionsError))
          else Assessment(d, ratio, requested)
  }

  /** The result for a face that passed every gate. */
  function Assessment(d: Detection, ratio: real, requested: Option<string>): FaceResult
    requires |d.expressions| > 0
  {
    var confidence := ConfidenceScore(d.score, d.expressions, ratio);
    FaceResult(confidence > 70, confidence as real, Some(FaceVector(d.descriptor)), None,
      Some(VibeFor(d.expressions, requested)))
  }

  /** The share of the image the face box covers. */
  function FaceRatio(d: Detection, imageWidth: real, imageHeight: real): real
    requires imageWidth * imageHeight > 0.0
  {
    (d.boxWidth * d.boxHeight) / (imageWidth * imageHeight)
  }

  /** A face passes every gate of `verifyFace`: detection score, visible
      features, size in frame, and some expression scores. */
  predicate PassesGates(d: Detection, imageWidth: real, imageHeight: real)
    requires imageWidth * imageHeight > 0.0
  {
    d.score >= MinDetectionScore
    && CheckFaceFeaturesVisibility(d.landmarks).allFeaturesVisible
    && FaceRatio(d, imageWidth, imageHeight) >= MinFaceRatio
    && |d.expressions| > 0
  }

  /** A face is judged human exactly when it passes every gate and its
      confidence score exceeds 70; a vibe check is reported exactly when it
      passes the gates. */
  lemma HumanExactly(d: Detection, imageWidth: real, imageHeight: real, requested: Option<string>)
    requires imageWidth * imageHeight > 0.0
    ensures var r := VerifyFace(Found(d), imageWidth, imageHeight, requested);
      (r.vibeCheck.Some? <==> PassesGates(d, imageWidth, imageHeight))
      && (r.isHuman <==>
            (PassesGates(d, imageWidth, imageHeight)
             && ConfidenceScore(d.score, d.expressions, FaceRatio(d, imageWidth, imageHeight)) > 70))
  {
  }

  /** Each rejected gate reports its fixed confidence and message, in gate order. */
  lemma GateRejections(d: Detection, imageWidth: real, imageHeight: real, requested: Option<string>)
    requires imageWidth * imageHeight > 0.0
    ensures var r := VerifyFace(Found(d), imageWidth, imageHeight, requested);
      var features := CheckFaceFeaturesVisibility(d.landmarks);
      (d.score < 0.7 ==> r == Rejection(d.score * 100.0, "Low confidence face detection"))
      && (d.score >= 0.7 && !features.allFeaturesVisible ==>
            r == Rejection(30.0, "Missing facial features: " + Join(features.missingFeatures, ", ")))
      && (d.score >= 0.7 && features.allFeaturesVisible && FaceRatio(d, imageWidth, imageHeight) < 0.03 ==>
            r == Rejection(40.0, "Face too small in frame"))
  {
  }

  /** With an emotion requested, the vibe check passes exactly when that
      emotion scores above 0.3, and its score is the rounded percentage. */
  lemma RequestedVibe(d: Detection, imageWidth: real, imageHeight: real, wanted: string)
    requires imageWidth * imageHeight > 0.0 && wanted != ""
    requires PassesGates(d, imageWidth, imageHeight)
    ensures var r := VerifyFace(Found(d), imageWidth, imageHeight, Some(wanted));
      r.vibeCheck.Some?
      && var v := r.vibeCheck.value;
      v.requestedEmotion == Some(wanted)
      && (v.passed <==> Score(d.expressions, wanted) > 0.3)
      && v.matchScore == Percent(Score(d.expressions, wanted))
      && v.dominantEmotion == Dominant(d.expressions)
      && (v.passed ==> v.message == "Great " + FormatEmotion(wanted) + " vibe! " + EmotionEmoji(wanted))
      && (!v.passed ==> v.message == "Try to look more " + wanted + "! " + EmotionEmoji(wanted))
  {
    assert VerifyFace(Found(d), imageWidth, imageHeight, Some(wanted))
      == Assessment(d, FaceRatio(d, imageWidth, imageHeight), Some(wanted));
  }

  /** Without a requested emotion the vibe check always passes and scores the
      dominant emotion, whose score no other label exceeds. */
  lemma UnrequestedVibeCheck(es: Expressions, requested: Option<string>)
    requires |es| > 0 && DistinctKeys(es) && !Truthy(requested)
    ensures var v := VibeFor(es, requested);
      v.passed && v.requestedEmotion.None?
      && v.matchScore == Percent(es[TopIndex(es)].1)
      && (forall j :: 0 <= j < |es| ==> es[j].1 <= es[TopIndex(es)].1)
  {
    var k := TopIndex(es);
    ScoreOfListed(es, k);
    assert Score(es, Dominant(es)) == es[k].1;
    var v := VibeFor(es, requested);
  }

  lemma UnrequestedVibe(d: Detection, imageWidth: real, imageHeight: real, requested: Option<string>)
    requires imageWidth * imageHeight > 0.0 && !Truthy(requested)
    requires PassesGates(d, imageWidth, imageHeight) && DistinctKeys(d.expressions)
    ensures VerifyFace(Found(d), imageWidth, imageHeight, requested).vibeCheck
      == Some(VibeFor(d.expressions, requested))
  {
  }

  /** Scores are probabilities, so a match score is a percentage. */
  lemma MatchScoreIsPercentage(es: Expressions, requested: Option<string>)
    requires |es| > 0
    requires forall j :: 0 <= j < |es| ==> 0.0 <= es[j].1 <= 1.0
    ensures 0 <= VibeFor(es, requested).matchScore <= 100
  {
    if Truthy(requested) {
      assert 0.0 <= Score(es, requested.value) <= 1.0;
    } else {
      assert 0.0 <= Score(es, Dominant(es)) <= 1.0;
    }
  }

  // ---------------------------------------------------------------------------
  // Descriptor packing

  /** The descriptor bytes read back from stored text: the forgiving base64
      decoding `atob` applies, rejected unless it is a whole number of 4-byte
      floats. */
  function DescriptorFromBase64(text: string): (r: Option<seq<byte>>)
    ensures r.Some? <==> Base64.ForgivingDecode(text).Some? && |Base64.ForgivingDecode(text).value| % 4 == 0
    ensures r.Some? ==> r.value == Base64.ForgivingDecode(text).value
  {
    match Base64.ForgivingDecode(text)
    case None => None
    case Some(b) => if |b| % 4 == 0 then Some(b) else None
  }

  /** A stored face vector reads back as the descriptor it was made from. */
  lemma FaceVectorRoundTrip(descriptor: seq<byte>)
    requires |descriptor| % 4 == 0
    ensures DescriptorFromBase64(FaceVector(descriptor)) == Some(descriptor)
  {
    Base64.ForgivingDecodeEncode(descriptor);
  }

  /** `floatArrayToBase64`: one character per byte of the descriptor's buffer,
      then `btoa`. */
  method FloatArrayToBase64(bytes: seq<byte>) returns (encoded: string)
    ensures encoded == FaceVector(bytes)
  {
    var binary: string := "";
    for i := 0 to |bytes|
      invariant binary == Base64.BinaryString(bytes[..i])
    {
      binary := binary + [bytes[i] as int as char];
    }
    assert bytes[..|bytes|] == bytes;
    assert Base64.BytesOf(binary) == bytes;
    encoded := Base64.Btoa(binary).value;
  }

  /** `base64ToFloatArray`: `atob`, each character code stored into a
      `Uint8Array` (modulo 256), then viewed as 4-byte floats. `None` stands for
      the exception `atob` or the `Float32Array` constructor throws. */
  method Base64ToFloatArray(text: string) returns (r: Option<seq<byte>>)
    ensures r == DescriptorFromBase64(text)
  {
    var binary := Base64.Atob(text);
    if binary.None? {
      return None;
    }
    var s := binary.value;
    var bytes := new byte[|s|];
    for i := 0 to |s|
      invariant forall k :: 0 <= k < i ==> bytes[k] as int == s[k] as int
    {
      bytes[i] := ((s[i] as int) % 256) as byte;
    }
    if bytes.Length % 4 != 0 {
      return None;
    }
    assert bytes[..] == Base64.ForgivingDecode(text).value;
    r := Some(bytes[..]);
  }
}
