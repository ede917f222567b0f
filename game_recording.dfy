/** The split video challenge's recording component
    (src/components/challenge/video/VideoRecording.tsx): the 3-2-1 countdown,
    starting a game and its recorder, the one-second game timer, the win
    effect, `endGame` guarded by `gameEndedRef`, the main button, and the
    recorder's `dataavailable`/`stop` events. The game state it shares with
    the detector is a `MatchState`. Each interval or timeout callback is a
    method that may run only while its timer is pending. */
module GameRecording {
  import opened Common
  import Timers
  import opened EmotionDetector
  import GameUI

  /** The `maxDuration` prop's default, in seconds. */
  const DefaultMaxDuration: nat := 10

  /** What `endGame` reports when the recorder is not running and no chunk
      was recorded. */
  const PlaceholderText: string := "game ended"

  function Placeholder(): (b: Blob)
    ensures |b| == |PlaceholderText|
  {
    AsciiBytes(PlaceholderText)
  }

  class GameRecorder {
    /** The game state shared with the emotion detector. */
    const game: MatchState
    const maxDuration: nat
    /** A camera stream is held and permission was granted. */
    var hasStream: bool
    var countdown: Option<int>
    var recordingTime: int
    var buttonState: ButtonState
    var gameWon: bool
    /** `gameEndedRef`: set once a game has ended, cleared by the next start. */
    var gameEnded: bool
    var countdownTimerOn: bool
    var recordingTimerOn: bool
    /** The 2-second delay after a win is pending. */
    var winDelayOn: bool
    var recorder: Recorder
    var chunks: seq<Blob>
    /** The blobs handed to `onComplete`, in order. */
    var completed: seq<Blob>

    ghost predicate Valid()
      reads this, game
    {
      game.Valid()
      && recordingTime >= 0
      && (countdownTimerOn <==> countdown.Some?)
      && (countdown.Some? ==> 1 <= countdown.value <= 3 && buttonState == CountingDown)
      && (buttonState != Recording ==> !game.gameActive)
      && (gameWon ==> gameEnded)
      && (recordingTimerOn ==> !gameEnded && game.gameActive)
      // until a game ends, its recorder keeps running
      && (game.gameActive && !gameEnded ==> recorder == Active)
      // during the win delay nothing can restart or end the game
      && (winDelayOn ==> gameEnded && gameWon && game.gameActive && recorder == Active && !recordingTimerOn)
    }

    /** A game just started: counters reset, recorder and game timer running. */
    ghost predicate JustStarted()
      reads this, game
    {
      game.gameActive && game.emotionsMatched == 0 && game.targetEmotion.None?
      && !game.emotionMatchedRecently && !game.showSuccessAnimation
      && !gameWon && !gameEnded && buttonState == Recording && countdown.None?
      && recordingTime == maxDuration && chunks == [] && recorder == Active && recordingTimerOn
    }

    constructor (maxDuration: nat, hasStream: bool)
      ensures Valid() && fresh(game)
      ensures this.maxDuration == maxDuration && this.hasStream == hasStream
      ensures countdown.None? && recordingTime == maxDuration && buttonState == Idle
      ensures !gameWon && !gameEnded && !countdownTimerOn && !recordingTimerOn && !winDelayOn
      ensures recorder == Absent && chunks == [] && completed == []
      ensures !game.gameActive && game.emotionsMatched == 0 && game.targetEmotion.None?
    {
      game := new MatchState();
      this.maxDuration := maxDuration;
      this.hasStream := hasStream;
      countdown := None;
      recordingTime := maxDuration;
      buttonState := Idle;
      gameWon := false;
      gameEnded := false;
      countdownTimerOn := false;
      recordingTimerOn := false;
      winDelayOn := false;
      recorder := Absent;
      chunks := [];
      completed := [];
    }

    /** `startCountdown`: the button shows the countdown, which starts at 3. */
    method StartCountdown()
      requires Valid() && buttonState == Idle
      modifies this
      ensures Valid()
      ensures buttonState == CountingDown && countdown == Some(3) && countdownTimerOn
      ensures recordingTime == old(recordingTime) && gameWon == old(gameWon) && gameEnded == old(gameEnded)
      ensures recordingTimerOn == old(recordingTimerOn) && winDelayOn == old(winDelayOn)
      ensures recorder == old(recorder) && chunks == old(chunks) && completed == old(completed)
      ensures hasStream == old(hasStream)
    {
      buttonState := CountingDown;
      countdown := Some(3);
      countdownTimerOn := true;
    }

    /** One tick of the countdown interval: it counts down, and on its last
        tick clears itself, clears the countdown and starts the game. */
    method CountdownTick()
      requires Valid() && countdownTimerOn
      modifies this, game
      ensures Valid()
      ensures var step := Timers.CountdownTick(old(countdown));
        countdown == step.next && countdownTimerOn == !step.fire
      ensures !Timers.CountdownTick(old(countdown)).fire ==>
        buttonState == old(buttonState) && recorder == old(recorder) && chunks == old(chunks)
        && recordingTimerOn == old(recordingTimerOn) && unchanged(game)
      ensures Timers.CountdownTick(old(countdown)).fire && old(hasStream) ==> JustStarted()
      ensures Timers.CountdownTick(old(countdown)).fire && !old(hasStream) ==>
        buttonState == CountingDown && recorder == old(recorder) && unchanged(game)
      ensures completed == old(completed) && hasStream == old(hasStream) && winDelayOn == old(winDelayOn)
    {
      var step := Timers.CountdownTick(countdown);
      countdown := step.next;
      if step.fire {
        countdownTimerOn := false;
        StartGame();
      }
    }

    /** `startGame`: without a stream nothing happens; otherwise the game
        state is reset, a new recorder starts with no chunks, and the game
        timer starts from `maxDuration`. Called by the countdown once its
        interval is cleared. */
    method StartGame()
      requires Valid() && buttonState == CountingDown && !countdownTimerOn
      modifies this, game
      ensures Valid()
      ensures !old(hasStream) ==> unchanged(this) && unchanged(game)
      ensures old(hasStream) ==> JustStarted()
      ensures old(hasStream) ==> !countdownTimerOn && !winDelayOn
      ensures completed == old(completed) && hasStream == old(hasStream)
      ensures game.faceDetected == old(game.faceDetected) && game.dominantEmotion == old(game.dominantEmotion)
    {
      if !hasStream {
        return;
      }
      game.ResetForGame();
      gameWon := false;
      gameEnded := false;
      buttonState := Recording;
      countdown := None;
      recordingTime := maxDuration;
      chunks := [];
      recorder := Active;
      recordingTimerOn := true;
    }

    /** One tick of the game timer: the time drops by one and the interval
        clears itself when it reaches zero, so the time is never negative. */
    method TimerTick()
      requires Valid() && recordingTimerOn
      modifies this
      ensures Valid()
      ensures var step := Timers.TimerTick(old(recordingTime));
        recordingTime == step.next && recordingTimerOn == !step.expired
      ensures recordingTime >= 0
      ensures countdown == old(countdown) && buttonState == old(buttonState) && gameWon == old(gameWon)
      ensures gameEnded == old(gameEnded) && recorder == old(recorder) && chunks == old(chunks)
      ensures completed == old(completed) && winDelayOn == old(winDelayOn) && hasStream == old(hasStream)
    {
      var step := Timers.TimerTick(recordingTime);
      recordingTime := step.next;
      if step.expired {
        recordingTimerOn := false;
      }
    }

    /** The win effect: with the game active, ten matches and the game not
        yet ended, the game is marked ended and won, the timer stops and the
        2-second delay before stopping the recorder starts. */
    method WinEffect()
      requires Valid()
      modifies this
      ensures Valid()
      ensures old(game.gameActive && game.emotionsMatched >= TotalEmotionsToMatch && !gameEnded) ==>
        gameEnded && gameWon && !recordingTimerOn && winDelayOn
      ensures !old(game.gameActive && game.emotionsMatched >= TotalEmotionsToMatch && !gameEnded) ==>
        unchanged(this)
      ensures countdown == old(countdown) && buttonState == old(buttonState) && recordingTime == old(recordingTime)
      ensures recorder == old(recorder) && chunks == old(chunks) && completed == old(completed)
      ensures hasStream == old(hasStream)
    {
      if game.gameActive && game.emotionsMatched >= TotalEmotionsToMatch && !gameEnded {
        gameEnded := true;
        gameWon := true;
        recordingTimerOn := false;
        winDelayOn := true;
      }
    }

    /** The end of the 2-second win delay: a recorder still running is stopped. */
    method WinDelayElapsed()
      requires Valid() && winDelayOn
      modifies this
      ensures Valid()
      ensures !winDelayOn
      ensures recorder == StopRequested
      ensures countdown == old(countdown) && buttonState == old(buttonState) && recordingTime == old(recordingTime)
      ensures gameWon == old(gameWon) && gameEnded == old(gameEnded) && recordingTimerOn == old(recordingTimerOn)
      ensures chunks == old(chunks) && completed == old(completed) && hasStream == old(hasStream)
    {
      winDelayOn := false;
      if recorder == Active {
        recorder := StopRequested;
      }
    }

    /** `endGame`: ignored once the game has ended; otherwise marks it ended,
        and if the game is active records the outcome, stops the timer and
        stops the recorder (whose stop event reports the recording) and returns
        the button to idle. An active game always has a running recorder, so
        the direct hand-over of the recorded chunks (or a placeholder) is
        reached only through a `stop()` that throws, which is not modelled. */
    method EndGame(won: bool)
      requires Valid()
      modifies this, game
      ensures Valid()
      ensures old(gameEnded) ==> unchanged(this) && unchanged(game)
      ensures !old(gameEnded) ==> gameEnded
      ensures !old(gameEnded) && !old(game.gameActive) ==>
        unchanged(game) && buttonState == old(buttonState) && gameWon == old(gameWon)
        && recorder == old(recorder) && completed == old(completed)
      ensures !old(gameEnded) && old(game.gameActive) ==>
        !game.gameActive && gameWon == won && !recordingTimerOn && buttonState == Idle
      ensures !old(gameEnded) && old(game.gameActive) ==> recorder == StopRequested && completed == old(completed)
      ensures |completed| <= |old(completed)| + 1
      ensures countdown == old(countdown) && recordingTime == old(recordingTime) && chunks == old(chunks)
      ensures winDelayOn == old(winDelayOn) && hasStream == old(hasStream)
      ensures game.emotionsMatched == old(game.emotionsMatched) && game.targetEmotion == old(game.targetEmotion)
    {
      if gameEnded {
        return;
      }
      gameEnded := true;
      if game.gameActive {
        game.Deactivate();
        gameWon := won;
        recordingTimerOn := false;
        if recorder == Active {
          recorder := StopRequested;
        } else {
          var blob := if |chunks| > 0 then Concat(chunks) else Placeholder();
          completed := completed + [blob];
        }
        buttonState := Idle;
      }
    }

    /** The time-expired effect (in this component and in the overlay): once
        the time shows zero while the game is active, the game ends as lost. */
    method TimeExpiredEffect()
      requires Valid()
      modifies this, game
      ensures Valid()
      ensures !GameUI.TimeExpiredFires(old(game.gameActive), old(recordingTime), true) ==>
        unchanged(this) && unchanged(game)
      ensures GameUI.TimeExpiredFires(old(game.gameActive), old(recordingTime), true) && !old(gameEnded) ==>
        gameEnded && !game.gameActive && !gameWon && buttonState == Idle
      ensures GameUI.TimeExpiredFires(old(game.gameActive), old(recordingTime), true) && old(gameEnded) ==>
        unchanged(this) && unchanged(game)
    {
      if GameUI.TimeExpiredFires(game.gameActive, recordingTime, true) {
        EndGame(false);
      }
    }

    /** The main button: from idle (with a camera) it starts the countdown,
        while recording an active game it forfeits; during the countdown, or
        while it is disabled, a click does nothing. */
    method ButtonClick()
      requires Valid()
      modifies this, game
      ensures Valid()
      ensures old(buttonState) == Idle && old(hasStream) ==>
        buttonState == CountingDown && countdown == Some(3) && countdownTimerOn && unchanged(game)
      ensures old(buttonState) == Recording && old(hasStream) && old(game.gameActive) && !old(gameEnded) ==>
        gameEnded && !game.gameActive && !gameWon && buttonState == Idle
      ensures old(buttonState) == CountingDown ==> unchanged(this) && unchanged(game)
      ensures !old(hasStream) ==> unchanged(this) && unchanged(game)
    {
      if buttonState == Idle && hasStream {
        StartCountdown();
      } else if buttonState == Recording && hasStream && game.gameActive {
        EndGame(false);
      }
    }

    /** `ondataavailable`: a chunk is kept only when it is not empty. */
    method DataAvailable(data: Blob)
      requires Valid() && (recorder == Active || recorder == StopRequested)
      modifies this
      ensures Valid()
      ensures chunks == old(chunks) + (if |data| > 0 then [data] else [])
      ensures Concat(chunks) == Concat(old(chunks)) + data
      ensures countdown == old(countdown) && buttonState == old(buttonState) && recordingTime == old(recordingTime)
      ensures gameWon == old(gameWon) && gameEnded == old(gameEnded) && recordingTimerOn == old(recordingTimerOn)
      ensures recorder == old(recorder) && completed == old(completed) && winDelayOn == old(winDelayOn)
      ensures hasStream == old(hasStream)
    {
      if |data| > 0 {
        ConcatAppend(chunks, data);
        chunks := chunks + [data];
      }
    }

    /** The recorder's `stop` event: with chunks recorded, the game becomes
        inactive and the recording (the chunks joined) is reported; with
        none, nothing is reported. */
    method RecorderStopped()
      requires Valid() && recorder == StopRequested
      modifies this, game
      ensures Valid()
      ensures recorder == Stopped
      ensures |old(chunks)| > 0 ==> !game.gameActive && completed == old(completed) + [Concat(old(chunks))]
      ensures |old(chunks)| == 0 ==> completed == old(completed) && unchanged(game)
      ensures countdown == old(countdown) && buttonState == old(buttonState) && recordingTime == old(recordingTime)
      ensures gameWon == old(gameWon) && gameEnded == old(gameEnded) && chunks == old(chunks)
      ensures winDelayOn == old(winDelayOn) && hasStream == old(hasStream)
    {
      recorder := Stopped;
      if |chunks| > 0 {
        game.Deactivate();
        completed := completed + [Concat(chunks)];
      }
    }

    /** "Play Again" on the game-over overlay: the camera is restarted (the
        outcome is the parameter) and the button returns to idle. */
    method RestartGame(streamObtained: bool)
      requires Valid() && GameUI.GameOverOverlay(game.gameActive, buttonState, gameWon, 0, 0).Some?
      modifies this
      ensures Valid()
      ensures buttonState == Idle && hasStream == streamObtained
      ensures countdown == old(countdown) && recordingTime == old(recordingTime) && gameWon == old(gameWon)
      ensures gameEnded == old(gameEnded) && recorder == old(recorder) && chunks == old(chunks)
      ensures completed == old(completed) && winDelayOn == old(winDelayOn)
    {
      hasStream := streamObtained;
      buttonState := Idle;
    }
  }
}
