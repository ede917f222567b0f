/** The general challenge flow (src/components/challenge/ChallengeCompletion.tsx):
    a video challenge (id '3') records a video, every other challenge takes a
    selfie; both then go to review, from which the medium is submitted,
    retaken, or the user goes back. */
module ChallengeCompletion {
  import opened Common
  import opened FaceVerification

  datatype Stage = VideoStage | SelfieStage | ReviewStage

  predicate IsVideoChallenge(challengeId: string)
  {
    challengeId == "3"
  }

  /** The capture stage of a challenge: video for id '3', selfie otherwise. */
  function CaptureStage(challengeId: string): (s: Stage)
    ensures s == VideoStage <==> IsVideoChallenge(challengeId)
    ensures s == SelfieStage <==> !IsVideoChallenge(challengeId)
  {
    if IsVideoChallenge(challengeId) then VideoStage else SelfieStage
  }

  class Completion {
    const challengeId: string
    var stage: Stage
    var videoBlob: Option<Blob>
    var selfieBlob: Option<Blob>
    var faceData: Option<FaceResult>

    /** Only the challenge's own capture stage is ever shown, and the review
        always has the challenge's medium to submit. */
    ghost predicate Valid()
      reads this
    {
      (stage != ReviewStage ==> stage == CaptureStage(challengeId))
      && (stage == ReviewStage && IsVideoChallenge(challengeId) ==> videoBlob.Some?)
      && (stage == ReviewStage && !IsVideoChallenge(challengeId) ==> selfieBlob.Some?)
    }

    constructor (challengeId: string)
      ensures Valid()
      ensures this.challengeId == challengeId
      ensures stage == CaptureStage(challengeId) && videoBlob.None? && selfieBlob.None? && faceData.None?
    {
      this.challengeId := challengeId;
      stage := CaptureStage(challengeId);
      videoBlob := None;
      selfieBlob := None;
      faceData := None;
    }

    /** `handleVideoComplete`: keep the recording and go to review. */
    method VideoComplete(blob: Blob)
      requires Valid() && stage == VideoStage
      modifies this
      ensures Valid()
      ensures videoBlob == Some(blob) && stage == ReviewStage
      ensures selfieBlob == old(selfieBlob) && faceData == old(faceData)
    {
      videoBlob := Some(blob);
      stage := ReviewStage;
    }

    /** `handleSelfieCapture`: keep the photo, replace the face data only when
        one is supplied, and go to review. */
    method SelfieCapture(file: Blob, data: Option<FaceResult>)
      requires Valid() && stage == SelfieStage
      modifies this
      ensures Valid()
      ensures selfieBlob == Some(file) && stage == ReviewStage
      ensures data.Some? ==> faceData == data
      ensures data.None? ==> faceData == old(faceData)
      ensures videoBlob == old(videoBlob)
    {
      selfieBlob := Some(file);
      if data.Some? {
        faceData := data;
      }
      stage := ReviewStage;
    }

    /** `handleSubmit`: the challenge's medium with the face data, when present.
        From the review something is always sent. */
    method Submit() returns (sent: Option<(Blob, Option<FaceResult>)>)
      requires Valid()
      ensures IsVideoChallenge(challengeId) ==>
        (sent.Some? <==> videoBlob.Some?) && (sent.Some? ==> sent.value == (videoBlob.value, faceData))
      ensures !IsVideoChallenge(challengeId) ==>
        (sent.Some? <==> selfieBlob.Some?) && (sent.Some? ==> sent.value == (selfieBlob.value, faceData))
      ensures stage == ReviewStage ==> sent.Some?
    {
      if IsVideoChallenge(challengeId) && videoBlob.Some? {
        sent := Some((videoBlob.value, faceData));
      } else if !IsVideoChallenge(challengeId) && selfieBlob.Some? {
        sent := Some((selfieBlob.value, faceData));
      } else {
        sent := None;
      }
    }

    /** `handleBack`: from the review, back to the capture stage; from a
        capture stage, leave the flow (`onBack`, reported as `true`). */
    method Back() returns (leave: bool)
      requires Valid()
      modifies this
      ensures Valid()
      ensures leave <==> old(stage) != ReviewStage
      ensures stage == CaptureStage(challengeId)
      ensures videoBlob == old(videoBlob) && selfieBlob == old(selfieBlob) && faceData == old(faceData)
    {
      leave := stage != ReviewStage;
      stage := CaptureStage(challengeId);
    }

    /** `handleRetakeVideo`, offered for a video challenge. */
    method RetakeVideo()
      requires Valid() && stage == ReviewStage && IsVideoChallenge(challengeId)
      modifies this
      ensures Valid()
      ensures videoBlob.None? && stage == VideoStage
      ensures selfieBlob == old(selfieBlob) && faceData == old(faceData)
    {
      videoBlob := None;
      stage := VideoStage;
    }

    /** `handleRetakeSelfie`, offered for a selfie challenge: the photo and the
        face data are both dropped. */
    method RetakeSelfie()
      requires Valid() && stage == ReviewStage && !IsVideoChallenge(challengeId)
      modifies this
      ensures Valid()
      ensures selfieBlob.None? && faceData.None? && stage == SelfieStage
      ensures videoBlob == old(videoBlob)
    {
      selfieBlob := None;
      faceData := None;
      stage := SelfieStage;
    }
  }
}
