/** The stand-alone game controller of the split video challenge
    (src/components/challenge/video/GameControler.tsx): the exported
    countdown, the win effect, `startGame` with its game timer and hard
    timeout, and `endGame` guarded by `gameActive`. Its props (the parent's
    state and setters) are fields here; the game state it shares with the
    detector is a `MatchState`. */
module GameController {
  import opened Common
  import Timers
  import opened EmotionDetector

  class Controller {
    const game: MatchState
    const maxDuration: nat
    var hasStream: bool
    var countdown: Option<int>
    var recordingTime: int
    var buttonState: ButtonState
    var gameWon: bool
    var countdownTimerOn: bool
    var recordingTimerOn: bool
    /** `gameTimeoutRef`: the hard timeout of `maxDuration` seconds. */
    var hardTimeoutOn: bool
    /** At least one 2-second delay after a win is pending. */
    var winDelayOn: bool
    var recorder: Recorder
    var chunks: seq<Blob>
    /** The blobs handed to `onComplete`, in order. */
    var completed: seq<Blob>

    ghost predicate Valid()
      reads this, game
    {
      game.Valid()
      && recordingTime >= 0
      && (countdownTimerOn ==> countdown.Some? && 1 <= countdown.value <= 3)
      // while the game timer or the hard timeout is pending the game is not won
      && (recordingTimerOn || hardTimeoutOn ==> !gameWon)
    }

    constructor (maxDuration: nat, hasStream: bool)
      ensures Valid() && fresh(game)
      ensures this.maxDuration == maxDuration && this.hasStream == hasStream
      ensures countdown.None? && recordingTime == maxDuration && buttonState == Idle && !gameWon
      ensures !countdownTimerOn && !recordingTimerOn && !hardTimeoutOn && !winDelayOn
      ensures recorder == Absent && chunks == [] && completed == []
    {
      game := new MatchState();
      this.maxDuration := maxDuration;
      this.hasStream := hasStream;
      countdown := None;
      recordingTime := maxDuration;
      buttonState := Idle;
      gameWon := false;
      countdownTimerOn := false;
      recordingTimerOn := false;
      hardTimeoutOn := false;
      winDelayOn := false;
      recorder := Absent;
      chunks := [];
      completed := [];
    }

    /** The exported `startCountdown` (through `beginCountdown`): the button
        shows the countdown, which starts at 3. */
    method BeginCountdown()
      requires Valid() && !countdownTimerOn
      modifies this
      ensures Valid()
      ensures buttonState == CountingDown && countdown == Some(3) && countdownTimerOn
      ensures recordingTime == old(recordingTime) && gameWon == old(gameWon)
      ensures recordingTimerOn == old(recordingTimerOn) && hardTimeoutOn == old(hardTimeoutOn)
      ensures recorder == old(recorder) && chunks == old(chunks) && completed == old(completed)
      ensures winDelayOn == old(winDelayOn) && hasStream == old(hasStream)
    {
      buttonState := CountingDown;
      countdown := Some(3);
      countdownTimerOn := true;
    }

    /** One tick of the countdown: it counts down, and at a missing value or
        one it clears its interval, calls back `startGame` and clears the
        countdown. */
    method CountdownTick()
      requires Valid() && countdownTimerOn
      modifies this, game
      ensures Valid()
      ensures var step := Timers.CountdownTick(old(countdown));
        countdown == step.next && countdownTimerOn == !step.fire
      ensures !Timers.CountdownTick(old(countdown)).fire ==>
        buttonState == old(buttonState) && recordingTime == old(recordingTime) && recorder == old(recorder)
        && recordingTimerOn == old(recordingTimerOn) && hardTimeoutOn == old(hardTimeoutOn) && unchanged(game)
      ensures Timers.CountdownTick(old(countdown)).fire && old(hasStream) ==>
        game.gameActive && game.emotionsMatched == 0 && recordingTime == maxDuration
        && buttonState == Recording && recorder == Active && recordingTimerOn && hardTimeoutOn
      ensures completed == old(completed) && hasStream == old(hasStream)
    {
      var step := Timers.CountdownTick(countdown);
      countdown := step.next;
      if step.fire {
        countdownTimerOn := false;
        StartGame();
      }
    }

    /** `startGame`: without a stream nothing happens; otherwise the game
        state is reset, a new recorder starts with no chunks, and both the
        game timer and the hard timeout start. */
    method StartGame()
      requires Valid() && !countdownTimerOn
      modifies this, game
      ensures Valid()
      ensures !old(hasStream) ==> unchanged(this) && unchanged(game)
      ensures old(hasStream) ==>
        game.gameActive && game.emotionsMatched == 0 && game.targetEmotion.None?
        && !game.emotionMatchedRecently && !game.showSuccessAnimation
        && !gameWon && buttonState == Recording && countdown.None? && recordingTime == maxDuration
        && chunks == [] && recorder == Active && recordingTimerOn && hardTimeoutOn
      ensures completed == old(completed) && hasStream == old(hasStream) && winDelayOn == old(winDelayOn)
    {
      if !hasStream {
        return;
      }
      game.ResetForGame();
      gameWon := false;
      buttonState := Recording;
      countdown := None;
      recordingTime := maxDuration;
      chunks := [];
      recorder := Active;
      recordingTimerOn := true;
      hardTimeoutOn := true;
    }

    /** One tick of the game timer: at one second or less it clears itself,
        ends the game as lost and shows zero; otherwise it counts down. */
    method TimerTick()
      requires Valid() && recordingTimerOn
      modifies this, game
      ensures Valid()
      ensures var step := Timers.TimerTick(old(recordingTime));
        recordingTime == step.next && recordingTimerOn == !step.expired
      ensures recordingTime >= 0
      ensures old(recordingTime) > 1 ==>
        recordingTime == old(recordingTime) - 1 && unchanged(game)
        && gameWon == old(gameWon) && recorder == old(recorder) && buttonState == old(buttonState)
      ensures old(recordingTime) <= 1 && old(game.gameActive) ==>
        !game.gameActive && !gameWon && buttonState == Idle && !hardTimeoutOn
      ensures old(recordingTime) <= 1 && !old(game.gameActive) ==>
        unchanged(game) && gameWon == old(gameWon) && buttonState == old(buttonState)
      ensures completed == old(completed) && chunks == old(chunks) && countdown == old(countdown)
    {
      var step := Timers.TimerTick(recordingTime);
      if step.expired {
        recordingTimerOn := false;
        EndGame(false);
      }
      recordingTime := step.next;
    }

    /** The hard timeout: it ends the game as lost only if the game is still
        active and not won. */
    method HardTimeout()
      requires Valid() && hardTimeoutOn
      modifies this, game
      ensures Valid()
      ensures !hardTimeoutOn
      ensures old(game.gameActive) && !old(gameWon) ==>
        !game.gameActive && !gameWon && buttonState == Idle && !recordingTimerOn
      ensures !(old(game.gameActive) && !old(gameWon)) ==>
        unchanged(game) && gameWon == old(gameWon) && buttonState == old(buttonState)
        && recordingTimerOn == old(recordingTimerOn) && recorder == old(recorder)
      ensures recordingTime == old(recordingTime) && completed == old(completed) && chunks == old(chunks)
    {
      hardTimeoutOn := false;
      if game.gameActive && !gameWon {
        EndGame(false);
      }
    }

    /** The win effect: an active game with ten matches is won; the game
        timer and the hard timeout are cleared and a 2-second delay before
        stopping the recorder starts. */
    method WinEffect()
      requires Valid()
      modifies this
      ensures Valid()
      ensures old(game.gameActive) && game.emotionsMatched >= TotalEmotionsToMatch ==>
        gameWon && !recordingTimerOn && !hardTimeoutOn && winDelayOn
      ensures !(old(game.gameActive) && game.emotionsMatched >= TotalEmotionsToMatch) ==> unchanged(this)
      ensures countdown == old(countdown) && buttonState == old(buttonState) && recordingTime == old(recordingTime)
      ensures recorder == old(recorder) && chunks == old(chunks) && completed == old(completed)
    {
      if game.gameActive && game.emotionsMatched >= TotalEmotionsToMatch {
        gameWon := true;
        recordingTimerOn := false;
        hardTimeoutOn := false;
        winDelayOn := true;
      }
    }

    /** The end of the win delay: a recorder still running is stopped. */
    method WinDelayElapsed()
      requires Valid() && winDelayOn
      modifies this
      ensures Valid()
      ensures !winDelayOn
      ensures recorder == (if old(recorder) == Active then StopRequested else old(recorder))
      ensures countdown == old(countdown) && buttonState == old(buttonState) && recordingTime == old(recordingTime)
      ensures gameWon == old(gameWon) && recordingTimerOn == old(recordingTimerOn)
      ensures hardTimeoutOn == old(hardTimeoutOn) && chunks == old(chunks) && completed == old(completed)
    {
      winDelayOn := false;
      if recorder == Active {
        recorder := StopRequested;
      }
    }

    /** `endGame`: only while the game is active, it records the outcome,
        clears the hard timeout and the game timer, stops a running recorder
        and returns the button to idle; otherwise it changes nothing. */
    method EndGame(won: bool)
      requires Valid()
      modifies this, game
      ensures Valid()
      ensures !old(game.gameActive) ==> unchanged(this) && unchanged(game)
      ensures old(game.gameActive) ==>
        !game.gameActive && gameWon == won && !hardTimeoutOn && !recordingTimerOn && buttonState == Idle
        && recorder == (if old(recorder) == Active then StopRequested else old(recorder))
      ensures countdown == old(countdown) && recordingTime == old(recordingTime) && chunks == old(chunks)
      ensures completed == old(completed) && winDelayOn == old(winDelayOn) && hasStream == old(hasStream)
      ensures game.emotionsMatched == old(game.emotionsMatched) && game.targetEmotion == old(game.targetEmotion)
    {
      if game.gameActive {
        game.Deactivate();
        gameWon := won;
        hardTimeoutOn := false;
        recordingTimerOn := false;
        if recorder == Active {
          recorder := StopRequested;
        }
        buttonState := Idle;
      }
    }

    /** `ondataavailable`: a chunk is kept only when it is not empty. */
    method DataAvailable(data: Blob)
      requires Valid() && (recorder == Active || recorder == StopRequested)
      modifies this
      ensures Valid()
      ensures chunks == old(chunks) + (if |data| > 0 then [data] else [])
      ensures Concat(chunks) == Concat(old(chunks)) + data
      ensures countdown == old(countdown) && buttonState == old(buttonState) && recordingTime == old(recordingTime)
      ensures gameWon == old(gameWon) && recordingTimerOn == old(recordingTimerOn) && hardTimeoutOn == old(hardTimeoutOn)
      ensures recorder == old(recorder) && completed == old(completed) && winDelayOn == old(winDelayOn)
    {
      if |data| > 0 {
        ConcatAppend(chunks, data);
        chunks := chunks + [data];
      }
    }

    /** The recorder's `stop` event: the game becomes inactive and the
        recording is reported, even when it is empty. */
    method RecorderStopped()
      requires Valid() && recorder == StopRequested
      modifies this, game
      ensures Valid()
      ensures recorder == Stopped && !game.gameActive
      ensures completed == old(completed) + [Concat(old(chunks))]
      ensures countdown == old(countdown) && buttonState == old(buttonState) && recordingTime == old(recordingTime)
      ensures gameWon == old(gameWon) && chunks == old(chunks) && winDelayOn == old(winDelayOn)
      ensures recordingTimerOn == old(recordingTimerOn) && hardTimeoutOn == old(hardTimeoutOn)
    {
      recorder := Stopped;
      game.Deactivate();
      completed := completed + [Concat(chunks)];
    }

    /** Unmounting: every timer is cleared and a running recorder is stopped. */
    method Unmount()
      requires Valid()
      modifies this
      ensures Valid()
      ensures !countdownTimerOn && !recordingTimerOn && !hardTimeoutOn
      ensures recorder == (if old(recorder) == Active then StopRequested else old(recorder))
      ensures countdown == old(countdown) && buttonState == old(buttonState)
      ensures recordingTime == old(recordingTime) && gameWon == old(gameWon)
      ensures chunks == old(chunks) && completed == old(completed) && winDelayOn == old(winDelayOn)
    {
      countdownTimerOn := false;
      recordingTimerOn := false;
      hardTimeoutOn := false;
      if recorder == Active {
        recorder := StopRequested;
      }
    }
  }
}
