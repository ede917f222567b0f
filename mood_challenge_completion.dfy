/** The mood-challenge flow (src/components/challenge/MoodChallengeCompletion.tsx):
    intro, capture and review stages; the dispatch of a captured result by
    challenge id ('1' single selfie, '2' dual mood, '3' mood streak); and the
    submission of the stored media. */
module MoodChallengeCompletion {
  import opened Common
  import opened FaceVerification
  import DualMoodSelfie
  import ReviewView

  datatype Stage = Intro | Capture | Review

  /** What a capture view hands over (the fields the flow reads). */
  datatype Captured = Captured(
    kind: Option<string>,
    file: Option<Blob>,
    faceData: Option<FaceResult>,
    videoBlob: Option<Blob>,
    selfieBlob: Option<Blob>)

  /** `mediaCaptured`. */
  datatype Media = Media(videoBlob: Option<Blob>, selfieBlob: Option<Blob>, faceData: Option<FaceResult>)

  const NoMedia: Media := Media(None, None, None)

  /** What `handleMediaCapture` stores for a challenge id, or `None` when it
      ignores the result. */
  function Stored(challengeId: string, result: Captured): (m: Option<Media>)
    ensures challengeId == "1" ==>
      (m.Some? <==> result.kind == Some("selfie"))
      && (m.Some? ==> m.value == Media(None, result.file, result.faceData))
    ensures challengeId == "2" ==> m == Some(Media(None, result.file, result.faceData))
    ensures challengeId == "3" ==> m == Some(Media(result.videoBlob, result.selfieBlob, result.faceData))
    ensures challengeId !in {"1", "2", "3"} ==> m.None?
  {
    if challengeId == "1" then
      if result.kind == Some("selfie") then Some(Media(None, result.file, result.faceData)) else None
    else if challengeId == "2" then Some(Media(None, result.file, result.faceData))
    else if challengeId == "3" then Some(Media(result.videoBlob, result.selfieBlob, result.faceData))
    else None
  }

  /** What `handleSubmit` passes to `onComplete` (video, selfie), if anything. */
  function Payload(m: Media): (p: Option<(Blob, Blob)>)
    ensures m.videoBlob.Some? && m.selfieBlob.Some? ==> p == Some((m.videoBlob.value, m.selfieBlob.value))
    ensures m.videoBlob.None? && m.selfieBlob.Some? ==> p == Some(([], m.selfieBlob.value))
    ensures m.selfieBlob.None? ==> p.None?
  {
    match m.selfieBlob
    case None => None
    case Some(selfie) => Some((if m.videoBlob.Some? then m.videoBlob.value else [], selfie))
  }

  /** A photo captured in a single-selfie or dual-mood challenge is submitted
      with an empty video; a streak capture with both blobs submits both. */
  lemma CapturedMediaIsSubmitted(challengeId: string, result: Captured)
    requires Stored(challengeId, result).Some?
    ensures challengeId in {"1", "2"} && result.file.Some? ==>
      Payload(Stored(challengeId, result).value) == Some(([], result.file.value))
    ensures challengeId == "3" && result.videoBlob.Some? && result.selfieBlob.Some? ==>
      Payload(Stored(challengeId, result).value) == Some((result.videoBlob.value, result.selfieBlob.value))
    ensures result.file.None? && challengeId in {"1", "2"} ==> Payload(Stored(challengeId, result).value).None?
  {
  }

  /** The view shown for a stage and challenge id. */
  datatype Screen = IntroScreen | SelfieScreen | DualMoodScreen | StreakScreen | ReviewScreen | Blank

  function ScreenOf(stage: Stage, challengeId: string): (s: Screen)
    ensures s == IntroScreen <==> stage == Intro
    ensures s == ReviewScreen <==> stage == Review
    ensures s == Blank <==> stage == Capture && challengeId !in {"1", "2", "3"}
  {
    match stage
    case Intro => IntroScreen
    case Review => ReviewScreen
    case Capture =>
      if challengeId == "1" then SelfieScreen
      else if challengeId == "2" then DualMoodScreen
      else if challengeId == "3" then StreakScreen
      else Blank
  }

  /** The labels of the two dual-mood emotions, as passed to the dual-mood view. */
  function DualLabels(dual: seq<Emotion>): (labels: seq<string>)
    ensures |labels| == |dual| && forall i :: 0 <= i < |dual| ==> labels[i] == Label(dual[i])
  {
    if dual == [] then [] else [Label(dual[0])] + DualLabels(dual[1..])
  }

  /** The dual-mood emotions drawn here reach the review screen unchanged: the
      selfie view uses them (no default applies), and the review splits the
      requested string back into them. */
  lemma DualEmotionsReachReview(e1: Emotion, e2: Emotion, basic: Option<FaceResult>,
                                expressions: Option<Expressions>, r1: real, r2: real, r3: real)
    requires 0.0 <= r1 < 1.0 && 0.0 <= r2 < 1.0 && 0.0 <= r3 < 1.0
    ensures var labels := DualLabels([e1, e2]);
      DualMoodSelfie.FirstEmotion(labels) == Label(e1) && DualMoodSelfie.SecondEmotion(labels) == Label(e2)
      && ReviewView.DualEmotions(Some(DualMoodSelfie.Analyse(basic, expressions, labels, r1, r2, r3).faceData))
         == [Label(e1), Label(e2)]
  {
    var labels := DualLabels([e1, e2]);
    ReviewView.LabelSpaceFree(e1);
    ReviewView.LabelSpaceFree(e2);
    ReviewView.DualReviewShowsRequested(basic, expressions, labels, r1, r2, r3);
  }

  class MoodCompletion {
    const challengeId: string
    /** The two emotions of the dual-mood challenge, drawn once. */
    const dualEmotions: seq<Emotion>
    var stage: Stage
    var status: string
    var media: Media

    /** Mounting: the intro stage, nothing stored, and two non-neutral
        emotions drawn (they may coincide). */
    constructor (challengeId: string, r1: real, r2: real)
      requires 0.0 <= r1 < 1.0 && 0.0 <= r2 < 1.0
      ensures this.challengeId == challengeId
      ensures dualEmotions == [RandomEmotion(r1), RandomEmotion(r2)]
      ensures forall e :: e in dualEmotions ==> e != Neutral
      ensures stage == Intro && status == "Ready to start" && media == NoMedia
    {
      this.challengeId := challengeId;
      dualEmotions := [RandomEmotion(r1), RandomEmotion(r2)];
      stage := Intro;
      status := "Ready to start";
      media := NoMedia;
    }

    /** START CHALLENGE. */
    method Start()
      requires stage == Intro
      modifies this
      ensures stage == Capture && media == old(media) && status == old(status)
    {
      stage := Capture;
    }

    /** A capture view reports a status line. */
    method StatusChange(newStatus: string)
      modifies this
      ensures status == newStatus && stage == old(stage) && media == old(media)
    {
      status := newStatus;
    }

    /** `handleMediaCapture`: store what the challenge id calls for and move to
        review; any other result leaves the flow as it was. */
    method MediaCapture(result: Captured)
      requires stage == Capture
      modifies this
      ensures Stored(challengeId, result).Some? ==> media == Stored(challengeId, result).value && stage == Review
      ensures Stored(challengeId, result).None? ==> media == old(media) && stage == Capture
      ensures status == old(status)
    {
      var stored := Stored(challengeId, result);
      if stored.Some? {
        media := stored.value;
        stage := Review;
      }
    }

    /** `handleSubmit`: the (video, selfie) pair handed to `onComplete`, if any. */
    method Submit() returns (sent: Option<(Blob, Blob)>)
      ensures media.selfieBlob.None? <==> sent.None?
      ensures sent.Some? ==> sent.value.1 == media.selfieBlob.value
      ensures sent.Some? ==> sent.value.0 == (if media.videoBlob.Some? then media.videoBlob.value else [])
    {
      if media.videoBlob.Some? && media.selfieBlob.Some? {
        sent := Some((media.videoBlob.value, media.selfieBlob.value));
      } else if media.selfieBlob.Some? {
        sent := Some(([], media.selfieBlob.value));
      } else {
        sent := None;
      }
      assert sent == Payload(media);
    }

    /** Either retake button returns to the capture stage; the stored media
        stay until the next capture replaces them. */
    method Retake()
      requires stage == Review
      modifies this
      ensures stage == Capture && media == old(media) && status == old(status)
    {
      stage := Capture;
    }
  }
}
