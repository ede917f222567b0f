/** The selfie vibe check (src/components/challenge/SelfieView.tsx): a random
    non-neutral emotion is requested, one photo is taken and analysed (by
    `verifyFace`, or by the simple fallback detector when the models did not
    load), the outcome is reported as a status line and handed over with the
    photo, and a failed vibe can be retaken with a fresh emotion. The
    browser's answers, the detector's analysis and every `Math.random()` draw
    are parameters. */
module SelfieView {
  import opened Common
  import opened FaceVerification
  import SimpleFaceDetection

  const CheckMark: char := '\U{2705}'
  const CrossMark: char := '\U{274C}'

  const LoadingStatus: string := "\U{1F504} LOADING MODELS..."
  const PreparingStatus: string := "\U{1F4F8} PREPARING CAMERA..."
  const CameraErrorStatus: string := "\U{274C} CAMERA ERROR"
  const CapturingStatus: string := "\U{1F4F8} CAPTURING..."
  const AnalyzingStatus: string := "\U{1F50D} ANALYZING FACE..."

  const InitFailed: string := "Face verification failed to initialize. Please try again later."
  const CameraFailed: string := "Failed to access camera. Please check permissions."

  /** What the component renders. */
  datatype Screen = ErrorScreen | ReviewScreen | CameraScreen

  /** The error screen wins while nothing is captured; a capture with its
      image shows the review; otherwise the camera view. */
  function ScreenOf(error: Option<string>, hasCapture: bool, capturedImage: Option<string>): (s: Screen)
    ensures s == ErrorScreen <==> Truthy(error) && !hasCapture
    ensures s == ReviewScreen <==> hasCapture && Truthy(capturedImage)
  {
    if Truthy(error) && !hasCapture then ErrorScreen
    else if hasCapture && Truthy(capturedImage) then ReviewScreen
    else CameraScreen
  }

  /** The capture button exists only on the camera view and is enabled only
      once the stream is ready. */
  predicate CanCapture(screen: Screen, isStreamReady: bool)
  {
    screen == CameraScreen && isStreamReady
  }

  function CaptureLabel(isStreamReady: bool): (s: string)
    ensures s == "CAPTURE VIBE" <==> isStreamReady
  {
    if isStreamReady then "CAPTURE VIBE" else "PREPARING CAMERA..."
  }

  /** The status line the camera reports once its stream is ready. */
  function ShowFaceStatus(requested: string): string
  {
    "\U{1F4F8} SHOW YOUR " + FormatEmotion(requested) + " FACE " + EmotionEmoji(requested)
  }

  /** The outcome of the mount-time model load: the error shown and whether
      the fallback detector is to be used. */
  datatype InitOutcome = InitOutcome(error: Option<string>, fallback: bool)

  /** The load outcome as written: a failure both shows an error and turns
      the fallback on. */
  function ModelLoadAsWritten(loaded: bool): (o: InitOutcome)
    ensures o.fallback <==> !loaded
    ensures o.error.Some? <==> !loaded
  {
    if loaded then InitOutcome(None, false) else InitOutcome(Some(InitFailed), true)
  }

  /** As written, the fallback is switched on only where it can never be
      used: the error screen replaces the camera view, whether or not the
      camera starts afterwards, so no photo can be taken; and only a retake,
      offered on the review of a photo, clears the error. */
  lemma FallbackUnusableAsWritten(isStreamReady: bool, capturedImage: Option<string>)
    ensures ModelLoadAsWritten(false).fallback
    ensures ScreenOf(ModelLoadAsWritten(false).error, false, capturedImage) == ErrorScreen
    ensures !CanCapture(ScreenOf(ModelLoadAsWritten(false).error, false, capturedImage), isStreamReady)
  {
  }

  /** The load outcome as evidently intended: a failure only turns the
      fallback on, and the camera view stays. */
  function ModelLoadIntended(loaded: bool): (o: InitOutcome)
    ensures o.fallback <==> !loaded
    ensures o.error.None?
  {
    InitOutcome(None, !loaded)
  }

  /** With the corrected outcome a failed load still leads to a capture with
      the fallback detector once the camera is ready. */
  lemma FallbackUsableIntended()
    ensures ModelLoadIntended(false).fallback
    ensures CanCapture(ScreenOf(ModelLoadIntended(false).error, false, None), true)
  {
  }

  /** The fallback vibe check, which replaces the one `detectFaceSimple`
      made up: the requested emotion counts as matched. */
  function FallbackVibe(requested: string, rScore: real): (v: VibeCheck)
    requires 0.0 <= rScore < 1.0
    ensures v.requestedEmotion == Some(requested) && v.dominantEmotion == requested && v.passed
    ensures 70 <= v.matchScore <= 99 && v.detectedEmotions.None?
  {
    VibeCheck(Some(requested), None, requested, PickIndex(rScore, 30) + 70, true,
      "Great " + FormatEmotion(requested) + " vibe! " + EmotionEmoji(requested))
  }

  /** The result in fallback mode: whatever the simple detector drew, a
      passed vibe check on the requested emotion. */
  function FallbackResult(requested: string, rScore: real): (r: FaceResult)
    requires 0.0 <= rScore < 1.0
    ensures r.isHuman && r.confidence == SimpleFaceDetection.SimpleConfidence && r.faceVector.None?
    ensures r.vibeCheck == Some(FallbackVibe(requested, rScore))
  {
    FaceResult(true, SimpleFaceDetection.SimpleConfidence, None, Some(SimpleFaceDetection.SimpleMessage),
      Some(FallbackVibe(requested, rScore)))
  }

  /** The result when the analysis throws: always a passed vibe check. */
  function MockResult(requested: string, rScore: real): (r: FaceResult)
    requires 0.0 <= rScore < 1.0
    ensures r.isHuman && r.confidence == 85.0 && r.message == Some("Verification completed")
    ensures r.vibeCheck.Some? && r.vibeCheck.value.passed && r.vibeCheck.value.dominantEmotion == requested
    ensures 70 <= r.vibeCheck.value.matchScore <= 99
  {
    FaceResult(true, 85.0, None, Some("Verification completed"),
      Some(VibeCheck(Some(requested), None, requested, PickIndex(rScore, 30) + 70, true,
        "Nice " + FormatEmotion(requested) + " vibe! " + EmotionEmoji(requested))))
  }

  /** The result when the image cannot even be set up: a passed vibe check
      scored 80. */
  function ImageFailureResult(requested: string): (r: FaceResult)
    ensures r.isHuman && r.confidence == 80.0
    ensures r.vibeCheck.Some? && r.vibeCheck.value.passed && r.vibeCheck.value.matchScore == 80
    ensures r.vibeCheck.value.dominantEmotion == requested
  {
    FaceResult(true, 80.0, None, Some("Verification completed"),
      Some(VibeCheck(Some(requested), None, requested, 80, true,
        "Great " + FormatEmotion(requested) + " vibe! " + EmotionEmoji(requested))))
  }

  /** Whether a result is reported as a success: by its vibe check when it
      has one, otherwise by whether a human was found. */
  predicate Approved(r: FaceResult)
  {
    if r.vibeCheck.Some? then r.vibeCheck.value.passed else r.isHuman
  }

  /** The status line reported for a result. */
  function StatusFor(r: FaceResult): (s: string)
    ensures |s| > 0 && (s[0] == CheckMark || s[0] == CrossMark)
    ensures s[0] == CheckMark <==> Approved(r)
  {
    if r.vibeCheck.Some? then
      [if r.vibeCheck.value.passed then CheckMark else CrossMark] + " " + r.vibeCheck.value.message
    else if r.isHuman then
      [CheckMark] + " VERIFIED (" + IntToString(Round(r.confidence)) + "%)"
    else
      [CrossMark] + " VERIFICATION FAILED: " + OrElse(r.message, "Not recognized as human")
  }

  /** A `verifyFace` result is approved exactly when its vibe check passed: a
      result without one is never human, so the "VERIFIED" line is never
      shown for it. */
  lemma VerifiedStatus(analysis: Analysis, w: real, h: real, requested: string)
    requires analysis.Found? ==> w * h > 0.0
    ensures var r := VerifyFace(analysis, w, h, Some(requested));
      StatusFor(r)[0] == CheckMark <==> r.vibeCheck.Some? && r.vibeCheck.value.passed
  {
  }

  /** The fallback, the mock and the image-failure results are all reported
      as successes. */
  lemma SubstitutesAreApproved(requested: string, rScore: real)
    requires 0.0 <= rScore < 1.0
    ensures StatusFor(FallbackResult(requested, rScore))[0] == CheckMark
    ensures StatusFor(MockResult(requested, rScore))[0] == CheckMark
    ensures StatusFor(ImageFailureResult(requested))[0] == CheckMark
  {
  }

  /** The review button: "CONTINUE" after a passed vibe check, otherwise a
      retake. */
  function ReviewButton(result: Option<FaceResult>): (s: string)
    ensures s == "CONTINUE" <==> result.Some? && result.value.vibeCheck.Some? && result.value.vibeCheck.value.passed
    ensures s == "RETAKE SELFIE" <==> !(result.Some? && result.value.vibeCheck.Some? && result.value.vibeCheck.value.passed)
  {
    if result.Some? && result.value.vibeCheck.Some? && result.value.vibeCheck.value.passed then "CONTINUE"
    else "RETAKE SELFIE"
  }

  class Selfie {
    var requestedEmotion: string
    var useFallbackMode: bool
    /** A stream is held (`streamRef.current` is set). */
    var hasStream: bool
    var isStreamReady: bool
    var hasCapture: bool
    var capturedImage: Option<string>
    var isAnalyzing: bool
    var verificationResult: Option<FaceResult>
    var error: Option<string>
    /** The status lines reported through `onStatusChange`, in order. */
    var statuses: seq<string>
    /** The photos and face data handed to `onMediaCapture`, in order. */
    var captures: seq<(Blob, FaceResult)>

    /** The requested emotion is always a challenge emotion, never neutral; the
        camera is ready only with a stream; an analysis runs only on a
        capture. */
    ghost predicate Valid()
      reads this
    {
      requestedEmotion in Emotions && requestedEmotion != "neutral"
      && (isStreamReady ==> hasStream)
      && (isAnalyzing ==> hasCapture && capturedImage.Some?)
    }

    /** Mounting: a random emotion is requested and the models start loading. */
    constructor (r: real)
      requires 0.0 <= r < 1.0
      ensures Valid()
      ensures requestedEmotion == Label(RandomEmotion(r)) && requestedEmotion != "neutral"
      ensures !useFallbackMode && !hasStream && !isStreamReady && !hasCapture && capturedImage.None?
      ensures !isAnalyzing && verificationResult.None? && error.None?
      ensures statuses == [LoadingStatus] && captures == []
    {
      var e := RandomEmotion(r);
      EmotionsAreLabels(e);
      requestedEmotion := Label(e);
      useFallbackMode := false;
      hasStream := false;
      isStreamReady := false;
      hasCapture := false;
      capturedImage := None;
      isAnalyzing := false;
      verificationResult := None;
      error := None;
      statuses := [LoadingStatus];
      captures := [];
    }

    /** The model load settled (`loaded` tells how); either way the camera is
        then started (`cameraGranted` is the browser's answer). The corrected
        outcome is used: a failure only switches to the fallback detector. */
    method ModelsSettled(loaded: bool, cameraGranted: bool)
      requires Valid()
      modifies this
      ensures Valid()
      ensures useFallbackMode == ModelLoadIntended(loaded).fallback
      ensures cameraGranted ==> hasStream && error == old(error) && statuses == old(statuses) + [PreparingStatus]
      ensures !cameraGranted ==>
        error == Some(CameraFailed) && statuses == old(statuses) + [PreparingStatus, CameraErrorStatus]
      ensures requestedEmotion == old(requestedEmotion) && hasCapture == old(hasCapture) && captures == old(captures)
    {
      // The corrected outcome never shows an error, so `error` is untouched.
      useFallbackMode := ModelLoadIntended(loaded).fallback;
      statuses := statuses + [PreparingStatus];
      StartCamera(cameraGranted);
    }

    /** `startCamera`: hold the stream, or show the camera error. */
    method StartCamera(granted: bool)
      requires Valid()
      modifies this
      ensures Valid()
      ensures granted ==> hasStream && error == old(error) && statuses == old(statuses)
      ensures !granted ==>
        hasStream == old(hasStream) && error == Some(CameraFailed) && statuses == old(statuses) + [CameraErrorStatus]
      ensures isStreamReady == old(isStreamReady) && requestedEmotion == old(requestedEmotion)
      ensures useFallbackMode == old(useFallbackMode) && hasCapture == old(hasCapture)
      ensures capturedImage == old(capturedImage) && verificationResult == old(verificationResult)
      ensures isAnalyzing == old(isAnalyzing) && captures == old(captures)
    {
      if granted {
        hasStream := true;
      } else {
        error := Some(CameraFailed);
        statuses := statuses + [CameraErrorStatus];
      }
    }

    /** The video's metadata loaded: the camera is ready and the requested
        emotion is announced. */
    method StreamReady()
      requires Valid() && hasStream
      modifies this
      ensures Valid()
      ensures isStreamReady && statuses == old(statuses) + [ShowFaceStatus(requestedEmotion)]
      ensures hasStream && requestedEmotion == old(requestedEmotion) && error == old(error)
      ensures hasCapture == old(hasCapture) && capturedImage == old(capturedImage)
      ensures verificationResult == old(verificationResult) && captures == old(captures)
    {
      isStreamReady := true;
      statuses := statuses + [ShowFaceStatus(requestedEmotion)];
    }

    /** `stopCamera`: the stream is dropped and the camera is not ready. */
    method StopCamera()
      requires Valid()
      modifies this
      ensures Valid()
      ensures !hasStream && !isStreamReady
      ensures requestedEmotion == old(requestedEmotion) && error == old(error) && statuses == old(statuses)
      ensures hasCapture == old(hasCapture) && capturedImage == old(capturedImage) && isAnalyzing == old(isAnalyzing)
      ensures verificationResult == old(verificationResult) && captures == old(captures)
      ensures useFallbackMode == old(useFallbackMode)
    {
      hasStream := false;
      isStreamReady := false;
    }

    /** `capturePhoto` up to the analysis: reachable only through the enabled
        capture button; the frame (a data URL, never empty) is kept, the
        camera stopped, and the analysis begins. */
    method CapturePhoto(dataUrl: string)
      requires Valid() && CanCapture(ScreenOf(error, hasCapture, capturedImage), isStreamReady)
      requires |dataUrl| > 0
      modifies this
      ensures Valid()
      ensures hasCapture && capturedImage == Some(dataUrl) && isAnalyzing
      ensures !hasStream && !isStreamReady
      ensures ScreenOf(error, hasCapture, capturedImage) == ReviewScreen
      ensures statuses == old(statuses) + [CapturingStatus, AnalyzingStatus]
      ensures requestedEmotion == old(requestedEmotion) && error == old(error)
      ensures verificationResult == old(verificationResult) && captures == old(captures)
      ensures useFallbackMode == old(useFallbackMode)
    {
      statuses := statuses + [CapturingStatus];
      capturedImage := Some(dataUrl);
      hasCapture := true;
      StopCamera();
      statuses := statuses + [AnalyzingStatus];
      isAnalyzing := true;
    }

    /** The image loaded and was analysed: by the fallback detector (whose
        vibe check is replaced) or by `verifyFace` on the requested emotion.
        The result is kept and reported, and handed over with the photo when
        the canvas yields one (`blob`). */
    method AnalysisFinished(draws: SimpleFaceDetection.Draws, rScore: real,
                            analysis: Analysis, imageWidth: real, imageHeight: real, blob: Option<Blob>)
      requires Valid() && isAnalyzing
      requires SimpleFaceDetection.ValidDraws(draws) && 0.0 <= rScore < 1.0
      requires analysis.Found? ==> imageWidth * imageHeight > 0.0
      modifies this
      ensures Valid()
      ensures useFallbackMode ==> verificationResult == Some(FallbackResult(requestedEmotion, rScore))
      ensures !useFallbackMode ==>
        verificationResult == Some(VerifyFace(analysis, imageWidth, imageHeight, Some(requestedEmotion)))
      ensures verificationResult.Some? && statuses == old(statuses) + [StatusFor(verificationResult.value)]
      ensures blob.Some? ==> captures == old(captures) + [(blob.value, verificationResult.value)]
      ensures blob.None? ==> captures == old(captures)
      ensures !isAnalyzing && hasCapture && capturedImage == old(capturedImage)
      ensures requestedEmotion == old(requestedEmotion) && error == old(error) && useFallbackMode == old(useFallbackMode)
    {
      var result: FaceResult;
      if useFallbackMode {
        var simple := SimpleFaceDetection.DetectFaceSimple(None, draws);
        result := simple.(vibeCheck := Some(FallbackVibe(requestedEmotion, rScore)));
      } else {
        result := VerifyFace(analysis, imageWidth, imageHeight, Some(requestedEmotion));
      }
      verificationResult := Some(result);
      statuses := statuses + [StatusFor(result)];
      if blob.Some? {
        captures := captures + [(blob.value, result)];
      }
      isAnalyzing := false;
    }

    /** The analysis threw: a mock success is kept, reported, and handed over
        with the photo when the canvas yields one. (Neither `verifyFace`,
        which catches its own failures, nor the fallback detector throws, so
        only the host's callbacks can lead here.) */
    method AnalysisThrew(rScore: real, blob: Option<Blob>)
      requires Valid() && isAnalyzing && 0.0 <= rScore < 1.0
      modifies this
      ensures Valid()
      ensures verificationResult == Some(MockResult(requestedEmotion, rScore))
      ensures statuses == old(statuses) + [StatusFor(MockResult(requestedEmotion, rScore))]
      ensures blob.Some? ==> captures == old(captures) + [(blob.value, MockResult(requestedEmotion, rScore))]
      ensures blob.None? ==> captures == old(captures)
      ensures !isAnalyzing && hasCapture && capturedImage == old(capturedImage)
      ensures requestedEmotion == old(requestedEmotion) && error == old(error)
    {
      var mock := MockResult(requestedEmotion, rScore);
      verificationResult := Some(mock);
      statuses := statuses + [StatusFor(mock)];
      if blob.Some? {
        captures := captures + [(blob.value, mock)];
      }
      isAnalyzing := false;
    }

    /** Setting up the image threw: a success scored 80 is kept and reported,
        but nothing is handed over. */
    method ImageFailed()
      requires Valid() && isAnalyzing
      modifies this
      ensures Valid()
      ensures verificationResult == Some(ImageFailureResult(requestedEmotion))
      ensures statuses == old(statuses) + [StatusFor(ImageFailureResult(requestedEmotion))]
      ensures captures == old(captures)
      ensures !isAnalyzing && hasCapture && capturedImage == old(capturedImage)
      ensures requestedEmotion == old(requestedEmotion) && error == old(error)
    {
      isAnalyzing := false;
      verificationResult := Some(ImageFailureResult(requestedEmotion));
      statuses := statuses + [StatusFor(ImageFailureResult(requestedEmotion))];
    }

    /** `retakeSelfie`, offered on the review once the analysis is over and
        the vibe check did not pass: everything about the capture is reset, a
        new non-neutral emotion is drawn, and the camera is started again. */
    method Retake(r: real, cameraGranted: bool)
      requires Valid() && ScreenOf(error, hasCapture, capturedImage) == ReviewScreen && !isAnalyzing
      requires ReviewButton(verificationResult) == "RETAKE SELFIE"
      requires 0.0 <= r < 1.0
      modifies this
      ensures Valid()
      ensures requestedEmotion == Label(RandomEmotion(r)) && requestedEmotion != "neutral"
      ensures !hasCapture && capturedImage.None? && verificationResult.None? && !isAnalyzing
      ensures cameraGranted ==> error.None? && hasStream && statuses == old(statuses)
      ensures !cameraGranted ==> error == Some(CameraFailed) && statuses == old(statuses) + [CameraErrorStatus]
      ensures captures == old(captures) && useFallbackMode == old(useFallbackMode)
    {
      var e := RandomEmotion(r);
      ChallengeLabel(e);
      hasCapture := false;
      capturedImage := None;
      error := None;
      verificationResult := None;
      isAnalyzing := false;
      requestedEmotion := Label(e);
      StartCamera(cameraGranted);
    }
  }
}
