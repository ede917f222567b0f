/** Camera set-up of the split video challenge
    (src/components/challenge/video/CameraSetup.tsx): the mapping from a
    `getUserMedia` failure to the message shown, the facing-mode toggle, and
    the flags `startCamera`, `stopCamera`, the video's `loadeddata` event and
    the manual permission request set. The browser's answer (a stream, or an
    error name) is a parameter. */
module CameraSetup {
  import opened Common

  const PermissionDenied: string := "Camera permission denied. Please allow camera access."
  const NoCamera: string := "No camera found on this device."
  const InUse: string := "Camera is already in use by another application."
  const NeedsHttps: string := "Camera requires HTTPS. Please use localhost for development."
  const Unavailable: string := "Unable to access camera."
  const ManualDenied: string := "Permission denied. Please allow camera access in your browser settings."

  /** The message for a failed camera request, by the error's name; an
      unrecognised error in an insecure context points at HTTPS. */
  function CameraErrorMessage(errorName: string, secureContext: bool): (m: string)
    ensures errorName == "NotAllowedError" ==> m == PermissionDenied
    ensures errorName == "NotFoundError" ==> m == NoCamera
    ensures errorName == "NotReadableError" ==> m == InUse
    ensures errorName !in {"NotAllowedError", "NotFoundError", "NotReadableError"} ==>
      m == (if secureContext then Unavailable else NeedsHttps)
  {
    if errorName == "NotAllowedError" then PermissionDenied
    else if errorName == "NotFoundError" then NoCamera
    else if errorName == "NotReadableError" then InUse
    else if !secureContext then NeedsHttps
    else Unavailable
  }

  /** `prev === 'user' ? 'environment' : 'user'`. */
  function ToggleFacing(m: FacingMode): (r: FacingMode)
    ensures r != m
  {
    if m == User then Environment else User
  }

  /** Switching twice returns to the original camera. */
  lemma ToggleTwice(m: FacingMode)
    ensures ToggleFacing(ToggleFacing(m)) == m
  {
  }

  /** The switch button is offered only with permission and while idle. */
  predicate OffersSwitch(hasPermission: bool, buttonState: ButtonState)
  {
    hasPermission && buttonState == Idle
  }

  /** The browser's answer to `getUserMedia`: a stream, or an error by name.
      A missing camera API is the error named "Error". */
  datatype Access = Granted | Failed(errorName: string)

  /** The camera state the set-up writes (held by the parent component). */
  class Camera {
    var facingMode: FacingMode
    /** A stream is held. */
    var hasStream: bool
    /** The held stream's tracks are live. */
    var tracksLive: bool
    var hasPermission: bool
    var error: Option<string>
    var videoReady: bool

    constructor ()
      ensures facingMode == User && !hasStream && !tracksLive && !hasPermission && error.None? && !videoReady
    {
      facingMode := User;
      hasStream := false;
      tracksLive := false;
      hasPermission := false;
      error := None;
      videoReady := false;
    }

    /** `startCamera`: clear the error and the ready flag, then either hold the
        new stream with permission, or show the mapped message without it. */
    method StartCamera(access: Access, secureContext: bool)
      modifies this
      ensures !videoReady && facingMode == old(facingMode)
      ensures access == Granted ==> hasStream && tracksLive && hasPermission && error.None?
      ensures access.Failed? ==>
        !hasPermission && error == Some(CameraErrorMessage(access.errorName, secureContext))
        && hasStream == old(hasStream) && tracksLive == old(tracksLive)
    {
      error := None;
      videoReady := false;
      match access
      case Granted =>
        hasStream := true;
        tracksLive := true;
        hasPermission := true;
      case Failed(name) =>
        error := Some(CameraErrorMessage(name, secureContext));
        hasPermission := false;
    }

    /** `stopCamera`: stop the tracks of the stream passed in (the held one),
        and the video is no longer ready. */
    method StopCamera()
      modifies this
      ensures !videoReady && !tracksLive
      ensures hasStream == old(hasStream) && hasPermission == old(hasPermission) && error == old(error)
      ensures facingMode == old(facingMode)
    {
      tracksLive := false;
      videoReady := false;
    }

    /** The video element (shown only with permission) loaded its data. */
    method VideoLoaded()
      requires hasPermission
      modifies this
      ensures videoReady
      ensures hasStream == old(hasStream) && hasPermission && error == old(error) && facingMode == old(facingMode)
    {
      videoReady := true;
    }

    /** "Grant Camera Access" (offered while an error shows): a probing
        request whose stream is dropped at once; if it succeeds the camera is
        started, otherwise the manual-denial message shows. */
    method RequestPermission(probe: Access, access: Access, secureContext: bool)
      requires error.Some? && !hasPermission
      modifies this
      ensures probe == Granted && access == Granted ==> hasStream && hasPermission && error.None? && !videoReady
      ensures probe == Granted && access.Failed? ==>
        !hasPermission && error == Some(CameraErrorMessage(access.errorName, secureContext))
      ensures probe.Failed? ==>
        error == Some(ManualDenied) && hasPermission == old(hasPermission) && hasStream == old(hasStream)
        && videoReady == old(videoReady)
      ensures facingMode == old(facingMode)
    {
      if probe == Granted {
        StartCamera(access, secureContext);
      } else {
        error := Some(ManualDenied);
      }
    }

    /** `switchCamera`, offered with permission while the button is idle. */
    method SwitchCamera(buttonState: ButtonState)
      requires OffersSwitch(hasPermission, buttonState)
      modifies this
      ensures facingMode == ToggleFacing(old(facingMode)) && facingMode != old(facingMode)
      ensures hasStream == old(hasStream) && hasPermission == old(hasPermission) && error == old(error)
      ensures videoReady == old(videoReady)
    {
      facingMode := ToggleFacing(facingMode);
    }
  }
}
