/** The photo capture with a countdown
    (src/components/challenge/CameraCapture.tsx): "Capture" starts a
    three-second countdown whose last tick takes one screenshot; the button
    is disabled and reads "Capturing..." while the countdown shows. The
    webcam's screenshot (a data URL, or nothing) is a parameter. */
module CameraCapture {
  import opened Common
  import Timers

  const CountdownStart: int := 3

  /** The capture button's label. */
  function CaptureLabel(countdown: Option<int>): (s: string)
    ensures s == "Capturing..." <==> countdown.Some?
    ensures s == "Capture" <==> countdown.None?
  {
    if countdown.Some? then "Capturing..." else "Capture"
  }

  /** The capture button is disabled exactly while a countdown shows. */
  predicate CaptureDisabled(countdown: Option<int>)
  {
    countdown.Some?
  }

  class Capturer {
    const facingMode: FacingMode
    var countdown: Option<int>
    var timerOn: bool
    /** The images handed to `onCapture`, in order. */
    var captured: seq<string>

    ghost predicate Valid()
      reads this
    {
      (timerOn <==> countdown.Some?)
      && (countdown.Some? ==> 1 <= countdown.value <= CountdownStart)
    }

    /** `facingMode` defaults to the user-facing camera. */
    constructor (facingMode: FacingMode)
      ensures Valid()
      ensures this.facingMode == facingMode && countdown.None? && !timerOn && captured == []
    {
      this.facingMode := facingMode;
      countdown := None;
      timerOn := false;
      captured := [];
    }

    /** `startCapture`, reachable only through the enabled button. */
    method StartCapture()
      requires Valid() && !CaptureDisabled(countdown)
      modifies this
      ensures Valid()
      ensures countdown == Some(CountdownStart) && timerOn && captured == old(captured)
    {
      countdown := Some(CountdownStart);
      timerOn := true;
    }

    /** One tick of the countdown: count down, or clear the timer and capture
        once. `screenshot` is what the webcam returns (`None` when it is not
        mounted or gives nothing). */
    method Tick(screenshot: Option<string>)
      requires Valid() && timerOn
      modifies this
      ensures Valid()
      ensures var step := Timers.CountdownTick(old(countdown));
        countdown == step.next && (timerOn <==> !step.fire)
        && (!step.fire ==> captured == old(captured))
        && (step.fire ==> captured == old(captured) + (if Truthy(screenshot) then [screenshot.value] else []))
    {
      var step := Timers.CountdownTick(countdown);
      countdown := step.next;
      if step.fire {
        timerOn := false;
        Capture(screenshot);
      }
    }

    /** `capture`: hand over the screenshot when there is a non-empty one. */
    method Capture(screenshot: Option<string>)
      modifies this
      ensures Truthy(screenshot) ==> captured == old(captured) + [screenshot.value]
      ensures !Truthy(screenshot) ==> captured == old(captured)
      ensures countdown == old(countdown) && timerOn == old(timerOn)
    {
      if Truthy(screenshot) {
        captured := captured + [screenshot.value];
      }
    }
  }

  /** Started from 3, the countdown takes exactly one screenshot: on its
      third tick, after which its timer is cleared. */
  lemma CapturesOnThirdTick(k: nat)
    requires k < CountdownStart
    ensures Timers.CountdownTick(Timers.CountdownAfter(Some(CountdownStart), k)).fire <==> k == CountdownStart - 1
  {
    Timers.CountdownFiresOnTick(CountdownStart, k);
  }
}
