/** The plain video recorder (src/components/VideoRecording.tsx): camera
    start-up with its error messages, the facing-mode switch, a three-second
    countdown, a recording limited to `maxDuration` seconds, the recorded
    chunks, and the hand-over of the video when the recorder stops. Each
    interval callback and each recorder event is a method; the browser's
    answers are parameters. */
module VideoRecorder {
  import opened Common
  import Timers
  import CameraSetup

  /** `maxDuration` when the caller gives none. */
  const DefaultMaxDuration: nat := 30
  /** The countdown's first value. */
  const CountdownStart: int := 3

  class PlainRecorder {
    const maxDuration: nat
    var facingMode: FacingMode
    /** A stream is held (`stream` is non-null). */
    var hasStream: bool
    var hasPermission: bool
    var error: Option<string>
    var isRecording: bool
    var countdown: Option<int>
    var recordingTime: int
    var buttonState: ButtonState
    var countdownTimerOn: bool
    var recordingTimerOn: bool
    var recorder: Recorder
    var chunks: seq<Blob>
    /** The videos handed to `onComplete`, in order. */
    var completed: seq<Blob>

    /** The countdown runs exactly while its interval does, and only in the
        countdown state; the recorder records exactly while the button shows
        recording; the recording timer runs only then. */
    ghost predicate Valid()
      reads this
    {
      recordingTime >= 0
      && (countdownTimerOn <==> countdown.Some?)
      && (countdownTimerOn ==> buttonState == CountingDown && 1 <= countdown.value <= CountdownStart)
      && (recorder == Active <==> buttonState == Recording)
      && (recorder == Active <==> isRecording)
      && (recordingTimerOn ==> recorder == Active)
    }

    constructor (maxDuration: nat)
      ensures Valid()
      ensures this.maxDuration == maxDuration && recordingTime == maxDuration
      ensures facingMode == User && !hasStream && !hasPermission && error.None?
      ensures buttonState == Idle && countdown.None? && recorder == Absent && !isRecording
      ensures !countdownTimerOn && !recordingTimerOn && chunks == [] && completed == []
    {
      this.maxDuration := maxDuration;
      facingMode := User;
      hasStream := false;
      hasPermission := false;
      error := None;
      isRecording := false;
      countdown := None;
      recordingTime := maxDuration;
      buttonState := Idle;
      countdownTimerOn := false;
      recordingTimerOn := false;
      recorder := Absent;
      chunks := [];
      completed := [];
    }

    /** `startCamera` (run on mount and after every facing-mode change). */
    method StartCamera(access: CameraSetup.Access, secureContext: bool)
      requires Valid()
      modifies this
      ensures Valid()
      ensures access == CameraSetup.Granted ==> hasStream && hasPermission && error.None?
      ensures access.Failed? ==>
        !hasPermission && hasStream == old(hasStream)
        && error == Some(CameraSetup.CameraErrorMessage(access.errorName, secureContext))
      ensures buttonState == old(buttonState) && recorder == old(recorder) && chunks == old(chunks)
      ensures completed == old(completed) && facingMode == old(facingMode)
    {
      error := None;
      match access
      case Granted =>
        hasStream := true;
        hasPermission := true;
      case Failed(name) =>
        error := Some(CameraSetup.CameraErrorMessage(name, secureContext));
        hasPermission := false;
    }

    /** `stopCamera`: the stream's tracks are stopped and the stream dropped. */
    method StopCamera()
      requires Valid()
      modifies this
      ensures Valid() && !hasStream
      ensures hasPermission == old(hasPermission) && buttonState == old(buttonState) && recorder == old(recorder)
      ensures countdown == old(countdown) && chunks == old(chunks) && completed == old(completed)
      ensures facingMode == old(facingMode) && recordingTime == old(recordingTime)
    {
      hasStream := false;
    }

    /** `switchCamera` (offered with permission while idle), followed by the
        effect clean-up the facing-mode change triggers: camera stopped and
        both intervals cleared. The clean-up would also stop an active
        recorder, but while idle none is active (`Valid`). The camera is then
        started again by `StartCamera`. */
    method SwitchCamera()
      requires Valid() && CameraSetup.OffersSwitch(hasPermission, buttonState)
      modifies this
      ensures Valid()
      ensures facingMode == CameraSetup.ToggleFacing(old(facingMode))
      ensures !hasStream && !countdownTimerOn && !recordingTimerOn
      ensures recorder == old(recorder) && buttonState == Idle && chunks == old(chunks) && completed == old(completed)
    {
      StopCamera();
      facingMode := CameraSetup.ToggleFacing(facingMode);
      countdownTimerOn := false;
      recordingTimerOn := false;
    }

    /** `startCountdown`. */
    method StartCountdown()
      requires Valid() && buttonState == Idle
      modifies this
      ensures Valid()
      ensures buttonState == CountingDown && countdown == Some(CountdownStart) && countdownTimerOn
      ensures recorder == old(recorder) && chunks == old(chunks) && completed == old(completed)
      ensures hasStream == old(hasStream) && recordingTime == old(recordingTime)
    {
      buttonState := CountingDown;
      countdown := Some(CountdownStart);
      countdownTimerOn := true;
    }

    /** One tick of the countdown interval: count down, or clear the interval
        and start recording. */
    method CountdownTick()
      requires Valid() && countdownTimerOn
      modifies this
      ensures Valid()
      ensures var step := Timers.CountdownTick(old(countdown));
        countdown == step.next && (countdownTimerOn <==> !step.fire)
        && (step.fire && old(hasStream) ==> JustStarted())
        && (step.fire && !old(hasStream) ==> buttonState == CountingDown && recorder == old(recorder))
        && (!step.fire ==> buttonState == CountingDown && recorder == old(recorder) && chunks == old(chunks))
      ensures completed == old(completed)
    {
      var step := Timers.CountdownTick(countdown);
      countdown := step.next;
      if step.fire {
        countdownTimerOn := false;
        StartRecording();
      }
    }

    /** The state right after a recording starts. */
    ghost predicate JustStarted()
      reads this
    {
      buttonState == Recording && isRecording && recorder == Active && countdown.None? && !countdownTimerOn
      && recordingTime == maxDuration && chunks == [] && recordingTimerOn
    }

    /** `startRecording`: without a stream nothing happens; otherwise a new
        recorder records from an empty buffer for `maxDuration` seconds. */
    method StartRecording()
      requires Valid() && buttonState == CountingDown && !countdownTimerOn
      modifies this
      ensures Valid()
      ensures !old(hasStream) ==> unchanged(this)
      ensures old(hasStream) ==> JustStarted() && hasStream
      ensures completed == old(completed) && facingMode == old(facingMode)
    {
      if !hasStream {
        return;
      }
      recordingTimerOn := false;
      buttonState := Recording;
      countdown := None;
      recordingTime := maxDuration;
      chunks := [];
      recorder := Active;
      isRecording := true;
      recordingTimerOn := true;
    }

    /** One tick of the recording timer: count down, or at the last second
        clear the interval, stop recording, and show zero. */
    method TimerTick()
      requires Valid() && recordingTimerOn
      modifies this
      ensures Valid()
      ensures var step := Timers.TimerTick(old(recordingTime));
        recordingTime == step.next && recordingTime >= 0
        && (step.expired ==> !recordingTimerOn && recorder == StopRequested && buttonState == Idle && !isRecording)
        && (!step.expired ==> recordingTimerOn && recorder == old(recorder) && buttonState == old(buttonState))
      ensures chunks == old(chunks) && completed == old(completed)
    {
      var step := Timers.TimerTick(recordingTime);
      if step.expired {
        recordingTimerOn := false;
        StopRecording();
      }
      recordingTime := step.next;
    }

    /** `stopRecording`: always clears the timer; an active recorder is
        stopped, the button returns to idle and the camera is stopped. A
        repeated stop changes nothing else. */
    method StopRecording()
      requires Valid()
      modifies this
      ensures Valid()
      ensures !recordingTimerOn
      ensures old(recorder) == Active ==> recorder == StopRequested && !isRecording && buttonState == Idle && !hasStream
      ensures old(recorder) != Active ==>
        recorder == old(recorder) && buttonState == old(buttonState) && hasStream == old(hasStream)
      ensures chunks == old(chunks) && completed == old(completed) && recordingTime == old(recordingTime)
      ensures countdown == old(countdown)
    {
      recordingTimerOn := false;
      if recorder == Active {
        recorder := StopRequested;
        isRecording := false;
        buttonState := Idle;
        StopCamera();
      }
    }

    /** The main button (disabled without permission and during the
        countdown): idle starts the countdown, recording stops. */
    method ButtonClick()
      requires Valid() && hasPermission
      modifies this
      ensures Valid()
      ensures old(buttonState) == Idle ==> buttonState == CountingDown && countdown == Some(CountdownStart)
      ensures old(buttonState) == Recording ==> buttonState == Idle && recorder == StopRequested
      ensures old(buttonState) == CountingDown ==> unchanged(this)
    {
      if buttonState == Idle {
        StartCountdown();
      } else if buttonState == Recording {
        StopRecording();
      }
    }

    /** `ondataavailable`: only non-empty chunks are kept. */
    method DataAvailable(data: Blob)
      requires Valid() && recorder != Absent
      modifies this
      ensures Valid()
      ensures |data| > 0 ==> chunks == old(chunks) + [data]
      ensures |data| == 0 ==> chunks == old(chunks)
      ensures Concat(chunks) == Concat(old(chunks)) + data
      ensures recorder == old(recorder) && buttonState == old(buttonState) && completed == old(completed)
    {
      if |data| > 0 {
        ConcatAppend(chunks, data);
        chunks := chunks + [data];
      }
    }

    /** `onstop`: the chunks become one video, the camera is stopped, and the
        video is handed over. */
    method RecorderStopped()
      requires Valid() && recorder == StopRequested
      modifies this
      ensures Valid()
      ensures completed == old(completed) + [Concat(chunks)] && |Concat(chunks)| == TotalSize(chunks)
      ensures recorder == Stopped && !hasStream && chunks == old(chunks) && buttonState == old(buttonState)
    {
      recorder := Stopped;
      StopCamera();
      ConcatSize(chunks);
      completed := completed + [Concat(chunks)];
    }
  }

  /** The recorder starts at most one recording per countdown: a countdown
      from 3 fires on its third tick and never before. */
  lemma CountdownStartsOnce(k: nat)
    requires k < CountdownStart
    ensures Timers.CountdownTick(Timers.CountdownAfter(Some(CountdownStart), k)).fire <==> k == CountdownStart - 1
  {
    Timers.CountdownFiresOnTick(CountdownStart, k);
  }

  /** A recording of `maxDuration` seconds is stopped by exactly its
      `maxDuration`-th timer tick. */
  lemma RecordingStopsOnTime(maxDuration: nat, k: nat)
    requires 1 <= maxDuration && k < maxDuration
    ensures Timers.TimerTick(Timers.TimeAfter(maxDuration, k)).expired <==> k == maxDuration - 1
  {
    Timers.TimerExpiresOnTick(maxDuration, k);
  }
}
