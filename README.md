# Nocena VHP emotion challenges in Dafny

This project models the logic of the Nocena "vibe check" widgets. These are
React components that ask the user to show an emotion to the camera, score
the face with face-api.js, and turn the outcome into a challenge result. The
model has two parts.

- **The timed matching games.** This covers the split video game: the shared
  game state and the emotion detector, the recording component, the
  stand-alone game controller and the overlay. It also covers the
  30-second mood streak, the plain video recorder and the photo-capture
  countdown. Each component whose fields change is a `class`. Every
  interval, timeout, recorder event and button press is a method. A method
  may run only while its timer is pending.
- **The result assembly and routing rules.** This covers `verifyFace` and
  its helpers, the fallback detector, the selfie and dual-mood results, the
  review screen, the two completion flows, and the camera error messages.
  These are functions over datatypes, with lemmas.

Every value the browser supplies is a parameter: `Math.random()`,
`Date.now()`, face-api.js detections, `getUserMedia` answers, screenshots
and recorded chunks. A random draw is a real in [0, 1). Numbers are exact
reals or unbounded integers. `Math.round(x)` is `Round`, the floor of
x + 0.5. `Math.floor(Math.random() * n)` is `PickIndex`. Blobs are byte
sequences. `btoa`/`atob` are modelled by the base64 alphabet and padding of
section 4 of RFC 4648, applied to "binary strings" (one character per byte);
`atob` first applies the forgiving-base64 rules of the WHATWG Infra standard
(ASCII whitespace removed, padding optional).

Modules: `Common`, `Timers` (the countdown and game-timer step rules shared
by every component), `Base64`, `FaceVerification`, `SimpleFaceDetection`,
`EmotionDetector`, `GameRecording`, `GameController`, `GameUI`,
`MoodStreakVideo`, `DualMoodSelfie`, `SelfieView`, `ReviewView`,
`MoodChallengeCompletion`, `ChallengeCompletion`, `VideoRecorder`,
`CameraCapture` and `CameraSetup`.

Where the code and the components' own comments disagree, the model follows
the code:
- the split recorder's `maxDuration` defaults to 10 seconds, not 30;
- the fallback score "between 70-100" is 70 to 99;
- the streak review says "Need 10 matches to pass", but the streak passes at 5 matches.

## Model

| member | source | states |
|---|---|---|
| Common.OrElse | src/lib/simpleFaceDetection.ts:15 | `a \|\| b` on an optional string gives the value when it is non-empty and the default otherwise |
| Common.AsciiBytes | src/components/challenge/video/VideoRecording.tsx:311 | a text blob holds one byte per (ASCII) character, with the same codes |
| Common.ConcatSize | src/components/VideoRecording.tsx:160 | the blob built from the chunks is as long as the chunks together |
| Common.ConcatAppend | src/components/VideoRecording.tsx:153-157 | appending a chunk appends its bytes to the blob the chunks make |
| Common.Round | src/lib/faceVerification.ts:210 | `Math.round` gives the integer within half a unit of x (halves round up) |
| Common.Percent | src/lib/faceVerification.ts:210 | the rounded percentage of x is within half a point of 100x, and lies in [0, 100] for x in [0, 1] |
| Common.PickIndex | src/lib/faceVerification.ts:87 | `Math.floor(Math.random() * n)` is an index below n |
| Common.NatToString | src/components/challenge/video/GameUI.tsx:71-72 | a number prints as a non-empty digit string, one digit exactly when it is below 10 |
| Common.NatToStringValue | src/components/challenge/video/GameUI.tsx:72 | the printed digits read back as the number (printing is injective) |
| Common.IntToString | src/components/challenge/MoodStreakVideo.tsx:223-224 | the text is non-empty and starts with a minus sign exactly when the number is negative |
| Common.IntToStringValue | src/components/challenge/MoodStreakVideo.tsx:223-224 | the text is all digits reading back as the number, or for a negative number a minus sign followed by digits reading back as its magnitude |
| Common.Join | src/lib/faceVerification.ts:167 | joining no parts gives "", joining one part gives that part |
| Common.JoinSeparates | src/lib/faceVerification.ts:167 | joining two or more parts gives the first part, then the separator, then the join of the rest |
| Common.JoinLength | src/lib/faceVerification.ts:167 | the join is as long as the parts together plus one separator between each two neighbours |
| Timers.CountdownTick | src/components/challenge/video/VideoRecording.tsx:185-196 | a countdown tick fires (and clears) exactly at a missing value or one at most 1, otherwise it decrements to a value of at least 1 |
| Timers.CountdownFiresOnTick | src/components/challenge/video/VideoRecording.tsx:183-196 | started at n, the countdown shows n - k after k ticks and fires on tick n and on no earlier tick, so the game starts once |
| Timers.TimerTick | src/components/VideoRecording.tsx:169-178 | the game timer never goes negative, expires exactly when the previous value is at most 1, and otherwise decrements by one |
| Timers.TimerExpiresOnTick | src/components/challenge/video/VideoRecording.tsx:254-266 | started at t, the timer shows t - k after k ticks and expires on tick t and no earlier |
| Timers.TimerStaysExpired | src/components/challenge/video/VideoRecording.tsx:259-262 | after t or more ticks the timer stays at 0 |
| Base64.CharOf | src/lib/faceVerification.ts:315 | every 6-bit value has an alphabet character that decodes back to it |
| Base64.IndexOf | src/lib/faceVerification.ts:322 | a decoded alphabet character is a 6-bit value |
| Base64.CharOfIndexOf | src/lib/faceVerification.ts:322 | alphabet characters and their values are in one-to-one correspondence |
| Base64.EncodeGroup | src/lib/faceVerification.ts:315 | three bytes encode to four characters |
| Base64.Encode | src/lib/faceVerification.ts:315 | the encoding has a length divisible by 4 and is empty exactly for empty input |
| Base64.DecodeGroup | src/lib/faceVerification.ts:322 | a quartet decodes to 1 to 3 bytes, and to exactly 3 unless it is the last one |
| Base64.GroupRoundTrip | src/lib/faceVerification.ts:315-322 | a full quartet decodes back to its three bytes |
| Base64.OneByteRoundTrip | src/lib/faceVerification.ts:315-322 | a single trailing byte (two padding characters) round-trips |
| Base64.TwoBytesRoundTrip | src/lib/faceVerification.ts:315-322 | two trailing bytes (one padding character) round-trip |
| Base64.DecodeEncode | src/lib/faceVerification.ts:303-330 | decoding the encoding of any bytes gives the bytes back |
| Base64.EncodeShape | src/lib/faceVerification.ts:315 | the encoding is alphabet characters followed by exactly the 0, 1 or 2 '=' the input length calls for |
| Base64.StripWhitespace | src/lib/faceVerification.ts:322 | removing ASCII whitespace leaves no whitespace, never lengthens the text and keeps a whitespace-free text as it is |
| Base64.ForgivingDecode | src/lib/faceVerification.ts:322 | `atob`'s forgiving decode equals the padded decode on whitespace-free text of length divisible by 4, and fails when one character is left over or an unpadded text holds a non-alphabet character |
| Base64.ForgivingDecodeEncode | src/lib/faceVerification.ts:315-322 | the forgiving decode of any encoding gives the bytes back |
| Base64.UnpaddedDecodes | src/lib/faceVerification.ts:322 | an encoding with its padding left off still decodes to the encoded bytes |
| Base64.WhitespaceIgnored | src/lib/faceVerification.ts:322 | whitespace in the input does not change the forgiving decode |
| Base64.BinaryString | src/lib/faceVerification.ts:309-312 | byte i becomes the character with code i, one per byte |
| Base64.BytesOf | src/lib/faceVerification.ts:323-327 | character i of a binary string becomes byte `charCodeAt(i)` |
| Base64.Btoa | src/lib/faceVerification.ts:315 | `btoa` succeeds exactly on binary strings |
| Base64.Atob | src/lib/faceVerification.ts:322 | `atob` succeeds exactly when the forgiving decode does, and yields the binary string of the decoded bytes |
| Base64.AtobBtoa | src/lib/faceVerification.ts:315-322 | `atob(btoa(s)) == s` for every binary string |
| FaceVerification.Label | src/lib/faceVerification.ts:26-34 | each emotion's label is non-empty |
| FaceVerification.LabelLowerCase | src/lib/faceVerification.ts:26-34 | every character of a label is a lower-case letter |
| FaceVerification.ChallengeLabel | src/lib/faceVerification.ts:26-34 | a non-neutral emotion's label is listed in `EMOTIONS` and is not "neutral" |
| FaceVerification.LabelInjective | src/lib/faceVerification.ts:26-34 | different emotions have different labels |
| FaceVerification.EmotionsAreLabels | src/lib/faceVerification.ts:26-34 | `EMOTIONS` lists the seven labels, one per emotion, in order |
| FaceVerification.Without | src/lib/faceVerification.ts:86 | `filter(e => e !== x)` keeps exactly the elements other than x |
| FaceVerification.ChallengeEmotions | src/lib/faceVerification.ts:86 | the challenge emotions are exactly the emotions other than neutral |
| FaceVerification.RandomEmotion | src/lib/faceVerification.ts:84-89 | `getRandomEmotion` never yields neutral |
| FaceVerification.RandomEmotionCovers | src/lib/faceVerification.ts:84-89 | every non-neutral emotion is drawn by some random value |
| FaceVerification.EmotionEmoji | src/lib/faceVerification.ts:94-106 | a known label gets its own glyph and every other string the fixed fallback glyph |
| FaceVerification.EmojiInjective | src/lib/faceVerification.ts:95-103 | different emotions get different glyphs |
| FaceVerification.UpperChar | src/lib/faceVerification.ts:112 | `toUpperCase` maps a lower-case letter to its capital and leaves other characters alone |
| FaceVerification.FormatEmotion | src/lib/faceVerification.ts:111-113 | formatting keeps the length, capitalises only the first character and keeps the rest; "" stays "" |
| FaceVerification.FormatEmotionReversible | src/lib/faceVerification.ts:111-113 | a lower-case label is recovered from its formatted form |
| FaceVerification.FormatEmotionIdempotent | src/lib/faceVerification.ts:111-113 | formatting twice is formatting once |
| FaceVerification.ModelLoader.Load | src/lib/faceVerification.ts:43-48 | a call returns at once when loaded, shares the pending or settled load otherwise, and starts a download only on the first call, so exactly one download is ever started |
| FaceVerification.ModelLoader.Settle | src/lib/faceVerification.ts:69-75 | success marks the models loaded; failure keeps them unloaded and caches the rejection with its message |
| FaceVerification.FindKey | src/lib/faceVerification.ts:203 | the lookup finds the first entry with the key, and fails exactly when no entry has it |
| FaceVerification.Score | src/lib/faceVerification.ts:203 | `expressions[key] \|\| 0` is the key's score, or 0 when the key is absent |
| FaceVerification.ScoreOfListed | src/lib/faceVerification.ts:203 | with distinct keys, a listed key scores its own entry |
| FaceVerification.TopIndex | src/lib/faceVerification.ts:196-198 | the sort picks an entry no other entry exceeds, the first such entry |
| FaceVerification.DominantIsMaximal | src/lib/faceVerification.ts:196-198 | no entry scores above the dominant emotion, no listed key scores above it, and with non-negative scores no key at all does |
| FaceVerification.SquaredDeviations | src/lib/faceVerification.ts:296-297 | the sum of squared deviations is non-negative, and zero for constant values |
| FaceVerification.Variance | src/lib/faceVerification.ts:294-298 | the variance is non-negative, and zero when all values are equal |
| FaceVerification.ConfidenceScore | src/lib/faceVerification.ts:268-289 | the confidence is at most 100, non-negative for non-negative inputs, at most the detection part plus 50, and below 100 it is the rounded sum of the three parts |
| FaceVerification.CheckFaceFeaturesVisibility | src/lib/faceVerification.ts:246-262 | all features are visible exactly when the missing list is empty, i.e. when every feature has points; the list holds exactly the missing features in the fixed order |
| FaceVerification.VerifyFace | src/lib/faceVerification.ts:118-241 | a load failure, a detector error and no face each give confidence 0 with their message; a human verdict needs a found face and confidence above 70; a vibe check comes exactly with a face vector and replaces the message |
| FaceVerification.HumanExactly | src/lib/faceVerification.ts:142-228 | a found face gets a vibe check exactly when it passes every gate, and is human exactly when it also scores above 70 |
| FaceVerification.GateRejections | src/lib/faceVerification.ts:152-183 | the gates reject in order: a low detection score (confidence = score x 100), then missing features (30), then a face below 3% of the image (40) |
| FaceVerification.RequestedVibe | src/lib/faceVerification.ts:202-215 | with a requested emotion the vibe check passes exactly when its score (0 if absent) exceeds 0.3, the match score is the rounded percentage, and the message follows the outcome |
| FaceVerification.UnrequestedVibeCheck | src/lib/faceVerification.ts:216-225 | without a requested emotion the vibe check always passes and scores the dominant emotion, which no label exceeds |
| FaceVerification.UnrequestedVibe | src/lib/faceVerification.ts:216-225 | a face that passes the gates without a requested emotion gets that unrequested vibe check |
| FaceVerification.MatchScoreIsPercentage | src/lib/faceVerification.ts:210-221 | with scores in [0, 1], the match score lies in [0, 100] |
| FaceVerification.DescriptorFromBase64 | src/lib/faceVerification.ts:321-330 | decoding succeeds exactly when `atob`'s forgiving decode succeeds with bytes that fill whole 4-byte floats, and gives those bytes |
| FaceVerification.FaceVectorRoundTrip | src/lib/faceVerification.ts:303-330 | a descriptor's bytes survive `floatArrayToBase64` followed by `base64ToFloatArray` |
| FaceVerification.FloatArrayToBase64 | src/lib/faceVerification.ts:303-316 | the loop builds the binary string of the bytes and encodes it, giving the face vector |
| FaceVerification.Base64ToFloatArray | src/lib/faceVerification.ts:321-330 | the loop copies each character code into the byte array, giving the decoded descriptor |
| SimpleFaceDetection.SimpleEmoji | src/lib/simpleFaceDetection.ts:18-62 | a label outside the detector's list prints as "undefined", and every listed label has a glyph |
| SimpleFaceDetection.WithoutDropsAtMostOne | src/lib/simpleFaceDetection.ts:30 | filtering one value out of the distinct labels leaves at least six to choose from |
| SimpleFaceDetection.FillScores | src/lib/simpleFaceDetection.ts:39-46 | every label is scored in list order: the dominant one gets matchScore / 100, every other label a value in [0, 0.3) |
| SimpleFaceDetection.DetectFaceSimple | src/lib/simpleFaceDetection.ts:4-66 | always human at confidence 85; the requested label is the given one, or one from the list; the match score is 70 to 99; it passes exactly when the draw exceeds 0.2; the dominant emotion is the requested one exactly when it passes; the message follows the outcome; the dominant's score is matchScore / 100, the others below 0.3 |
| SimpleFaceDetection.FallbackMessage | src/lib/simpleFaceDetection.ts:60-62 | a passed check praises the formatted emotion, a failed one asks for more of it, each followed by its glyph |
| SimpleFaceDetection.MessageTellsOutcome | src/lib/simpleFaceDetection.ts:60-62 | a passed message starts "Great" and a failed one "Try to look more", so the two outcomes never share a message |
| SimpleFaceDetection.OtherEmotion | src/lib/simpleFaceDetection.ts:30-33 | the emotion shown on a miss is a listed emotion other than the requested one |
| EmotionDetector.PickTarget | src/components/challenge/video/EmotionDetector.tsx:60-75 | a new target is never neutral and differs from the current target |
| EmotionDetector.TargetPool | src/components/challenge/video/EmotionDetector.tsx:62-66 | the pool is non-empty and holds exactly the non-neutral emotions other than the current target |
| EmotionDetector.PickTargetCovers | src/components/challenge/video/EmotionDetector.tsx:65-74 | every eligible emotion can be drawn |
| EmotionDetector.MatchMeansTargetLeads | src/components/challenge/video/EmotionDetector.tsx:129-149 | a match means the target scores above 0.6 and no label scores higher |
| EmotionDetector.MatchState.InitialTarget | src/components/challenge/video/EmotionDetector.tsx:78-84 | a first target is drawn only when the game is active and no target is set |
| EmotionDetector.MatchState.PerformEmotionDetection | src/components/challenge/video/EmotionDetector.tsx:108-197 | a match happens exactly when a face is seen, the game is active, a target is set, no cool-down runs and the top label is the target above 0.6; it counts once, starts the cool-down and draws a different target below 10 matches; otherwise count and target stay; no face clears the face flags, a detector error changes nothing |
| EmotionDetector.MatchState.CooldownElapsed | src/components/challenge/video/EmotionDetector.tsx:182-187 | the 1.2 s timeout clears the cool-down and the animation and nothing else |
| EmotionDetector.MatchState.AutoResetElapsed | src/components/challenge/video/EmotionDetector.tsx:87-96 | the 1.5 s reset clears only the cool-down flag |
| EmotionDetector.MatchState.ResetForGame | src/components/challenge/video/VideoRecording.tsx:211-217 | a new game has no matches, no target and no cool-down, and is active |
| EmotionDetector.MatchState.Deactivate | src/components/challenge/video/VideoRecording.tsx:284 | `setGameActive(false)` changes nothing else |
| GameRecording.Placeholder | src/components/challenge/video/VideoRecording.tsx:309-311 | the placeholder blob is the text "game ended" |
| GameRecording.GameRecorder.StartCountdown | src/components/challenge/video/VideoRecording.tsx:180-184 | the button shows the countdown, which starts at 3 |
| GameRecording.GameRecorder.CountdownTick | src/components/challenge/video/VideoRecording.tsx:185-196 | a tick counts down; the last tick clears the countdown and starts the game once |
| GameRecording.GameRecorder.StartGame | src/components/challenge/video/VideoRecording.tsx:199-267 | without a stream nothing changes; otherwise matches 0, no target, active, not won, not ended, recording, time = maxDuration, empty chunks, and recorder and timer running |
| GameRecording.GameRecorder.TimerTick | src/components/challenge/video/VideoRecording.tsx:254-266 | the time drops by one, stops at 0 and never goes negative; the interval clears itself at 0 |
| GameRecording.GameRecorder.WinEffect | src/components/challenge/video/VideoRecording.tsx:94-114 | the win fires only when active with at least 10 matches and not yet ended; it marks the game ended and won, stops the timer and schedules the recorder stop |
| GameRecording.GameRecorder.WinDelayElapsed | src/components/challenge/video/VideoRecording.tsx:107-112 | after the 2 s win delay the running recorder is stopped |
| GameRecording.GameRecorder.EndGame | src/components/challenge/video/VideoRecording.tsx:270-318 | once ended, later calls change nothing; otherwise the game is marked ended, and an active game becomes inactive with the given outcome, its timer cleared, its running recorder asked to stop (nothing is handed over yet) and the button idle |
| GameRecording.GameRecorder.TimeExpiredEffect | src/components/challenge/video/VideoRecording.tsx:365-370 | time at 0 in an active game ends it as lost, once |
| GameRecording.GameRecorder.ButtonClick | src/components/challenge/video/VideoRecording.tsx:332-339 | idle starts the countdown, recording forfeits, the countdown state ignores the click |
| GameRecording.GameRecorder.DataAvailable | src/components/challenge/video/VideoRecording.tsx:229-234 | only non-empty chunks are kept, so the video bytes grow by exactly the chunk |
| GameRecording.GameRecorder.RecorderStopped | src/components/challenge/video/VideoRecording.tsx:236-248 | with chunks, the game becomes inactive and the joined chunks are handed over; with none, nothing is handed over |
| GameRecording.GameRecorder.RestartGame | src/components/challenge/video/VideoRecording.tsx:326-330 | "Play Again" restarts the camera and returns the button to idle |
| GameController.Controller.BeginCountdown | src/components/challenge/video/GameControler.tsx:112-115 | the button shows the countdown, which starts at 3 |
| GameController.Controller.CountdownTick | src/components/challenge/video/GameControler.tsx:19-29 | a tick counts down; at a missing value or one at most 1 it clears itself, starts the game and clears the countdown |
| GameController.Controller.StartGame | src/components/challenge/video/GameControler.tsx:117-187 | without a stream nothing changes; otherwise matches 0, time = maxDuration, game active and not won, recording, and the recorder, timer and hard timeout running |
| GameController.Controller.TimerTick | src/components/challenge/video/GameControler.tsx:165-175 | the time never goes negative; at one second or less the interval clears, the game ends as lost and the time reads 0 |
| GameController.Controller.HardTimeout | src/components/challenge/video/GameControler.tsx:179-184 | the hard timeout ends the game as lost only when it is active and not won |
| GameController.Controller.WinEffect | src/components/challenge/video/GameControler.tsx:61-86 | an active game with at least 10 matches is won, and its timer and hard timeout are cleared |
| GameController.Controller.WinDelayElapsed | src/components/challenge/video/GameControler.tsx:79-84 | after the win delay a running recorder is stopped |
| GameController.Controller.EndGame | src/components/challenge/video/GameControler.tsx:189-216 | only an active game changes: it becomes inactive with the given outcome, its timers are cleared, the recorder is stopped and the button is idle |
| GameController.Controller.DataAvailable | src/components/challenge/video/GameControler.tsx:146-151 | only non-empty chunks are kept |
| GameController.Controller.RecorderStopped | src/components/challenge/video/GameControler.tsx:153-159 | the game becomes inactive and the joined chunks are handed over |
| GameController.Controller.Unmount | src/components/challenge/video/GameControler.tsx:89-110 | unmounting clears every timer and stops a running recorder |
| GameUI.TimerBand | src/components/challenge/video/GameUI.tsx:41-48 | green exactly above 10 s, yellow exactly in (5, 10], red exactly at 5 s or less |
| GameUI.BandNeverRelaxes | src/components/challenge/video/GameUI.tsx:42-43 | as time runs down the band never becomes less urgent |
| GameUI.CountdownOverlay | src/components/challenge/video/GameUI.tsx:55-61 | the countdown overlay shows exactly while a countdown is set, and shows its value |
| GameUI.GameOverOverlay | src/components/challenge/video/GameUI.tsx:64-73 | the overlay shows exactly when the game is inactive and the button reads recording; the headline and message follow `gameWon` |
| GameUI.LostMessageIsNotWon | src/components/challenge/video/GameUI.tsx:70-72 | a lost message never equals a won message |
| GameUI.LostMessageTellsCount | src/components/challenge/video/GameUI.tsx:72 | different match counts give different lost messages |
| MoodStreakVideo.NextEmotion | src/components/challenge/MoodStreakVideo.tsx:102-107 | the retry loop settles on a drawn emotion that is not neutral and differs from the current one |
| MoodStreakVideo.Labels | src/components/challenge/MoodStreakVideo.tsx:425 | the stored list holds each matched emotion's label, in order |
| MoodStreakVideo.StreakVibe | src/components/challenge/MoodStreakVideo.tsx:217-225 | the streak passes exactly at 5 matches or more; "multiple" is requested; the dominant emotion is the last match or "neutral"; the score is the highest score; the message follows the outcome |
| MoodStreakVideo.Outcome | src/components/challenge/MoodStreakVideo.tsx:214-238 | the reported result is human at confidence 90 with the streak vibe check and the streak statistics |
| MoodStreakVideo.FallbackStreak | src/components/challenge/MoodStreakVideo.tsx:272 | the simulated streak is 1 to 10 |
| MoodStreakVideo.FallbackHighScore | src/components/challenge/MoodStreakVideo.tsx:277 | the simulated high score is 70 to 99 |
| MoodStreakVideo.DrawnEmotions | src/components/challenge/MoodStreakVideo.tsx:273-276 | one non-neutral emotion per draw |
| MoodStreakVideo.FallbackOutcomeShape | src/components/challenge/MoodStreakVideo.tsx:270-305 | the fallback result has a streak of 1 to 10 with as many emotions, a high score of 70 to 99, passes exactly at 5 or more, and never names neutral as dominant |
| MoodStreakVideo.FrameScore | src/components/challenge/MoodStreakVideo.tsx:365-406 | a simulated score is a percentage below 100 |
| MoodStreakVideo.StreakGame.Initialize | src/components/challenge/MoodStreakVideo.tsx:58-99 | a failed model load means fallback mode; the camera state follows the answer; the first emotion is drawn |
| MoodStreakVideo.StreakGame.GenerateNewEmotion | src/components/challenge/MoodStreakVideo.tsx:102-113 | the retry loop sets the current emotion to the first draw that differs from it, and changes nothing else |
| MoodStreakVideo.StreakGame.StartChallenge | src/components/challenge/MoodStreakVideo.tsx:156-170 | the countdown starts at 3 |
| MoodStreakVideo.StreakGame.CountdownTick | src/components/challenge/MoodStreakVideo.tsx:159-169 | a tick counts down while above 1; otherwise it clears itself and starts recording once |
| MoodStreakVideo.StreakGame.StartRecording | src/components/challenge/MoodStreakVideo.tsx:173-310 | without a stream nothing changes; otherwise streak 0, no matches, scores 0, 30 s, no chunks, recording; then the recorder, analysis and timer start, or the 3 s fallback does when no recorder can be made |
| MoodStreakVideo.StreakGame.TimerTick | src/components/challenge/MoodStreakVideo.tsx:253-262 | the time drops by one, or at 1 or less shows 0 and stops the recording |
| MoodStreakVideo.StreakGame.StopRecording | src/components/challenge/MoodStreakVideo.tsx:313-339 | the analysis loop ends, a running recorder is stopped, recording ends and processing starts |
| MoodStreakVideo.StreakGame.ProcessingElapsed | src/components/challenge/MoodStreakVideo.tsx:336-338 | the 2 s delay ends the processing state |
| MoodStreakVideo.StreakGame.HandleMatch | src/components/challenge/MoodStreakVideo.tsx:421-440 | the streak grows by one, exactly the current emotion is appended, the highest score rises (to the rounded score) only when the score exceeds it, the match time is recorded, and the new emotion differs from the old |
| MoodStreakVideo.StreakGame.AnalyzeFrame | src/components/challenge/MoodStreakVideo.tsx:346-418 | when recording, a frame matches exactly when its score exceeds 50 (detector) or 40 (simulated) and more than 500 ms have passed since the last match; the shown score is the rounded frame score; a non-match keeps streak, list and emotion; when not recording the frame is not analysed and the analysis loop ends |
| MoodStreakVideo.StreakGame.DataAvailable | src/components/challenge/MoodStreakVideo.tsx:190-194 | only non-empty chunks are kept, so the video grows by exactly the chunk |
| MoodStreakVideo.StreakGame.RecorderStopped | src/components/challenge/MoodStreakVideo.tsx:196-243 | with a snapshot, the video, snapshot and streak statistics are reported once; without one nothing is reported |
| MoodStreakVideo.StreakGame.FallbackElapsed | src/components/challenge/MoodStreakVideo.tsx:270-308 | the fallback reports empty blobs, the simulated streak with that many drawn emotions and the simulated high score, then stops recording |
| DualMoodSelfie.FirstEmotion | src/components/challenge/DualMoodSelfieView.tsx:52 | a missing or empty first emotion defaults to "happy" |
| DualMoodSelfie.SecondEmotion | src/components/challenge/DualMoodSelfieView.tsx:53 | a missing or empty second emotion defaults to "surprised" |
| DualMoodSelfie.AtLeastDemoFloor | src/components/challenge/DualMoodSelfieView.tsx:229-230 | `Math.max(x, 70)` is the larger of x and 70 |
| DualMoodSelfie.RawScores | src/components/challenge/DualMoodSelfieView.tsx:182-232 | the scores are the two labels' detector scores x 100 (0 when absent), or random demo scores when both are 0, raised to at least 70 when the third draw exceeds 0.3 |
| DualMoodSelfie.Requested | src/components/challenge/DualMoodSelfieView.tsx:275 | the requested string is exactly "e1 and e2" |
| DualMoodSelfie.Assess | src/components/challenge/DualMoodSelfieView.tsx:234-292 | the scores are the rounded raw scores; `matchedBoth` holds exactly when both are at least 60; the face data requests "e1 and e2", scores the rounded mean, passes exactly when both matched and names "dual" as dominant then, and otherwise names the basic result's dominant emotion or "neutral" when it has none |
| DualMoodSelfie.Mock | src/components/challenge/DualMoodSelfieView.tsx:298-345 | when verification fails, both scores are 85, both match, and the face data passes with "e1 and e2" requested |
| DualMoodSelfie.Analyse | src/components/challenge/DualMoodSelfieView.tsx:164-348 | a throw or a non-human face gives the mock; otherwise the assessment; either way the vibe check passes exactly when both matched |
| DualMoodSelfie.SixtyMatches | src/components/challenge/DualMoodSelfieView.tsx:239 | the threshold is inclusive: 60 and 60 match, 59 with 60 does not |
| DualMoodSelfie.DemoScoresMatch | src/components/challenge/DualMoodSelfieView.tsx:221-239 | without detector scores, a third draw above 0.3 always yields a match |
| DualMoodSelfie.ScoresArePercentages | src/components/challenge/DualMoodSelfieView.tsx:209-277 | scores in [0, 1] give both rounded scores and the match score in [0, 100] |
| DualMoodSelfie.DualMoodView.StreamReady | src/components/challenge/DualMoodSelfieView.tsx:94-101 | the camera becomes ready and nothing else changes |
| DualMoodSelfie.DualMoodView.CapturePhoto | src/components/challenge/DualMoodSelfieView.tsx:135-157 | the frame is kept, the camera stops, and the analysis starts at progress 0 |
| DualMoodSelfie.DualMoodView.ProgressTick | src/components/challenge/DualMoodSelfieView.tsx:119-133 | progress rises by 5 per tick, stops at 100 and never exceeds it |
| DualMoodSelfie.DualMoodView.AnalysisFinished | src/components/challenge/DualMoodSelfieView.tsx:164-348 | the shown result and the captured face data and statistics are those of the analysis, and the analysis ends |
| SelfieView.ScreenOf | src/components/challenge/SelfieView.tsx:293-309 | the error screen shows exactly when an error is set and nothing is captured; the review shows exactly when a captured image is held |
| SelfieView.CaptureLabel | src/components/challenge/SelfieView.tsx:441-443 | the capture button reads "CAPTURE VIBE" exactly when the camera is ready |
| SelfieView.ModelLoadAsWritten | src/components/challenge/SelfieView.tsx:75-82 | as written, a failed model load both sets an error and switches to fallback mode |
| SelfieView.FallbackUnusableAsWritten | src/components/challenge/SelfieView.tsx:293-306 | as written, with the error that lines 75-82 set, after a failed load the error screen replaces the camera, so no capture can happen in fallback mode |
| SelfieView.ModelLoadIntended | src/components/challenge/SelfieView.tsx:75-82 | corrected: a failed load only switches to fallback mode |
| SelfieView.FallbackUsableIntended | src/components/challenge/SelfieView.tsx:161-176 | corrected: after a failed load the camera view can capture once the stream is ready |
| SelfieView.FallbackVibe | src/components/challenge/SelfieView.tsx:169-175 | the fallback vibe check names the requested emotion as dominant, passes, and scores 70 to 99 |
| SelfieView.FallbackResult | src/components/challenge/SelfieView.tsx:161-176 | the fallback result is human at confidence 85 and carries the fallback vibe check, whatever the simple detector drew |
| SelfieView.MockResult | src/components/challenge/SelfieView.tsx:220-234 | when the analysis throws, the result is human at confidence 85 and passes with the requested emotion, scored 70 to 99 |
| SelfieView.ImageFailureResult | src/components/challenge/SelfieView.tsx:261-275 | when the image cannot be set up, the result is human at confidence 80 and passes with score 80 |
| SelfieView.StatusFor | src/components/challenge/SelfieView.tsx:186-200 | the status starts with a check mark exactly when the vibe check passed, or, with no vibe check, when the face is human |
| SelfieView.VerifiedStatus | src/components/challenge/SelfieView.tsx:179-200 | a `verifyFace` result gets the check mark exactly when its vibe check is present and passed |
| SelfieView.SubstitutesAreApproved | src/components/challenge/SelfieView.tsx:167-277 | the fallback, mock and image-failure results are all reported with a check mark |
| SelfieView.ReviewButton | src/components/challenge/SelfieView.tsx:376-378 | the button reads "CONTINUE" exactly after a passed vibe check, otherwise "RETAKE SELFIE" |
| SelfieView.Selfie.ModelsSettled | src/components/challenge/SelfieView.tsx:67-85 | a failed load turns on fallback mode (corrected rule); the camera is started and its failure shows the camera error |
| SelfieView.Selfie.StartCamera | src/components/challenge/SelfieView.tsx:92-119 | a granted camera holds the stream; a refusal shows the camera error and status |
| SelfieView.Selfie.StreamReady | src/components/challenge/SelfieView.tsx:109-112 | the camera becomes ready and reports the requested emotion |
| SelfieView.Selfie.StopCamera | src/components/challenge/SelfieView.tsx:121-127 | the stream is dropped and the camera is not ready |
| SelfieView.Selfie.CapturePhoto | src/components/challenge/SelfieView.tsx:129-150 | the frame is kept, the camera stops, the review shows and the analysis starts |
| SelfieView.Selfie.AnalysisFinished | src/components/challenge/SelfieView.tsx:157-256 | fallback mode keeps the fallback result, otherwise the `verifyFace` result; its status is reported and it is handed over with the photo |
| SelfieView.Selfie.AnalysisThrew | src/components/challenge/SelfieView.tsx:220-256 | a throw keeps, reports and hands over the mock result |
| SelfieView.Selfie.ImageFailed | src/components/challenge/SelfieView.tsx:261-278 | the image-failure result is kept and reported, and nothing is handed over |
| SelfieView.Selfie.Retake | src/components/challenge/SelfieView.tsx:281-290 | capture, image, error, result and analysing flag are cleared, a new non-neutral emotion is drawn and the camera restarts |
| SelfieView.Selfie.constructor | src/components/challenge/SelfieView.tsx:62-64 | mounting requests a non-neutral emotion and starts loading |
| ReviewView.IsPassed | src/components/challenge/ReviewView.tsx:38-41 | passed exactly when a vibe check is present and passed |
| ReviewView.ShownMatchScore | src/components/challenge/ReviewView.tsx:61 | the match score shown, or 0 without a vibe check |
| ReviewView.ShownRequested | src/components/challenge/ReviewView.tsx:54 | the requested emotion shown, or "neutral" when missing or empty |
| ReviewView.ShownEmoji | src/components/challenge/ReviewView.tsx:50 | without a vibe check the neutral glyph shows |
| ReviewView.Split | src/components/challenge/ReviewView.tsx:69 | `split` yields at least one piece, the first is a prefix of the string, and no piece contains the separator |
| ReviewView.SplitJoin | src/components/challenge/ReviewView.tsx:69 | joining the pieces with the separator gives the string back |
| ReviewView.SplitWithoutSeparator | src/components/challenge/ReviewView.tsx:69 | a string without the separator splits into itself |
| ReviewView.FreeOfHasNoSeparator | src/components/challenge/ReviewView.tsx:69 | a string without the separator's first character does not contain the separator |
| ReviewView.SplitAfterFree | src/components/challenge/ReviewView.tsx:69 | a head without the separator's first character is split off at the separator that follows it |
| ReviewView.JoinSplit | src/components/challenge/ReviewView.tsx:69 | splitting a join gives the parts back when no part but the last holds the separator's first character and the last holds no separator |
| ReviewView.JoinSplitNeedsMore | src/components/challenge/ReviewView.tsx:69 | parts that merely avoid the separator can split back differently: "a" and "" joined by "aa" split as "" and "a" |
| ReviewView.DualEmotions | src/components/challenge/ReviewView.tsx:69 | with no requested emotion the view shows two empty names; otherwise pieces that join back to the requested string |
| ReviewView.DualRoundTrip | src/components/challenge/ReviewView.tsx:69 | "e1 and e2" splits back into e1 and e2 when neither contains a space |
| ReviewView.SplitCanMisplaceLabels | src/components/challenge/ReviewView.tsx:69 | with "x and" and "y" the split gives "x" and "and y", so a label ending in " and" breaks the round trip |
| ReviewView.LabelSpaceFree | src/lib/faceVerification.ts:26-34 | no detector label contains a space |
| ReviewView.DualReviewShowsRequested | src/components/challenge/ReviewView.tsx:38-69 | the review of a dual-mood capture shows the two emotions the selfie view was given and passes exactly when both matched |
| ReviewView.XpReward | src/components/challenge/ReviewView.tsx:184 | 50 XP for type '1', 100 for '2', 250 otherwise |
| ReviewView.ShownXp | src/components/challenge/ReviewView.tsx:182-187 | XP shows exactly when passed |
| ReviewView.MainMedium | src/components/challenge/ReviewView.tsx:216 | the video shows exactly for type '3' with a non-empty video, otherwise the selfie |
| ReviewView.StatusLabel | src/components/challenge/ReviewView.tsx:171 | "VIBE_SYNCED" exactly when passed, "SYNC_FAILED" exactly when not |
| ReviewView.SubmitLabel | src/components/challenge/ReviewView.tsx:313 | "ACCESS GRANTED" exactly when passed, "RETRY CHALLENGE" exactly when not |
| ReviewView.RetakeLabel | src/components/challenge/ReviewView.tsx:307 | the retake label by type: selfie for '1', dual mood for '2', challenge otherwise |
| MoodChallengeCompletion.Stored | src/components/challenge/MoodChallengeCompletion.tsx:47-76 | id '1' stores a selfie result only; '2' stores the file and face data; '3' adds the video and snapshot; any other id stores nothing |
| MoodChallengeCompletion.Payload | src/components/challenge/MoodChallengeCompletion.tsx:78-86 | video and selfie are both sent; a selfie alone is sent with an empty video; without a selfie nothing is sent |
| MoodChallengeCompletion.CapturedMediaIsSubmitted | src/components/challenge/MoodChallengeCompletion.tsx:51-86 | a captured photo (ids '1' and '2') is submitted with an empty video, a streak capture with its video and snapshot, and a capture without a photo is never submitted |
| MoodChallengeCompletion.ScreenOf | src/components/challenge/MoodChallengeCompletion.tsx:88-160 | intro and review show exactly in their stages; capture with an unknown id shows nothing |
| MoodChallengeCompletion.DualLabels | src/components/challenge/MoodChallengeCompletion.tsx:41 | the dual-mood view receives the two drawn emotions' labels |
| MoodChallengeCompletion.DualEmotionsReachReview | src/components/challenge/MoodChallengeCompletion.tsx:41-150 | the two drawn emotions reach the review screen unchanged through "e1 and e2" and the split |
| MoodChallengeCompletion.MoodCompletion.constructor | src/components/challenge/MoodChallengeCompletion.tsx:32-41 | the flow starts at intro with nothing stored and two non-neutral (possibly equal) emotions |
| MoodChallengeCompletion.MoodCompletion.Start | src/components/challenge/MoodChallengeCompletion.tsx:106-108 | START moves intro to capture |
| MoodChallengeCompletion.MoodCompletion.StatusChange | src/components/challenge/MoodChallengeCompletion.tsx:43-45 | a status report replaces the status line only |
| MoodChallengeCompletion.MoodCompletion.MediaCapture | src/components/challenge/MoodChallengeCompletion.tsx:47-76 | what the id calls for is stored and the flow moves to review; otherwise stage and media stay |
| MoodChallengeCompletion.MoodCompletion.Submit | src/components/challenge/MoodChallengeCompletion.tsx:78-86 | something is sent exactly when a selfie is stored: that selfie, with the stored video or an empty one |
| MoodChallengeCompletion.MoodCompletion.Retake | src/components/challenge/MoodChallengeCompletion.tsx:153-154 | either retake returns to capture and keeps the stored media |
| ChallengeCompletion.CaptureStage | src/components/challenge/ChallengeCompletion.tsx:43-47 | the capture stage is video exactly for id '3', selfie otherwise |
| ChallengeCompletion.Completion.constructor | src/components/challenge/ChallengeCompletion.tsx:44-53 | the flow starts at its capture stage with nothing stored |
| ChallengeCompletion.Completion.VideoComplete | src/components/challenge/ChallengeCompletion.tsx:55-60 | the video is stored and the flow moves to review |
| ChallengeCompletion.Completion.SelfieCapture | src/components/challenge/ChallengeCompletion.tsx:62-79 | the photo is stored, the face data is replaced only when given, and the flow moves to review |
| ChallengeCompletion.Completion.Submit | src/components/challenge/ChallengeCompletion.tsx:81-88 | the video (id '3') or the selfie is sent with the face data, only when present; from review something is always sent |
| ChallengeCompletion.Completion.Back | src/components/challenge/ChallengeCompletion.tsx:90-98 | from review back to the capture stage; from a capture stage the flow is left |
| ChallengeCompletion.Completion.RetakeVideo | src/components/challenge/ChallengeCompletion.tsx:100-103 | the video is cleared and the flow returns to video capture |
| ChallengeCompletion.Completion.RetakeSelfie | src/components/challenge/ChallengeCompletion.tsx:105-109 | the photo and face data are cleared and the flow returns to selfie capture |
| VideoRecorder.PlainRecorder.constructor | src/components/VideoRecording.tsx:14-30 | `maxDuration` defaults to 30 at the call site; the recorder starts idle with time = maxDuration |
| VideoRecorder.PlainRecorder.StartCamera | src/components/VideoRecording.tsx:53-92 | a granted camera holds the stream with permission and no error; a failure shows the mapped message without permission |
| VideoRecorder.PlainRecorder.StopCamera | src/components/VideoRecording.tsx:94-99 | the stream is dropped |
| VideoRecorder.PlainRecorder.SwitchCamera | src/components/VideoRecording.tsx:115-119 | the facing mode toggles, the camera stops and both intervals are cleared |
| VideoRecorder.PlainRecorder.StartCountdown | src/components/VideoRecording.tsx:121-124 | the button shows the countdown, which starts at 3 |
| VideoRecorder.PlainRecorder.CountdownTick | src/components/VideoRecording.tsx:125-134 | a tick counts down; the last one clears itself and starts recording once |
| VideoRecorder.PlainRecorder.StartRecording | src/components/VideoRecording.tsx:137-179 | without a stream nothing changes; otherwise recording, time = maxDuration, no chunks, and recorder and timer running |
| VideoRecorder.PlainRecorder.TimerTick | src/components/VideoRecording.tsx:169-178 | the time drops by one, or at 1 or less shows 0 and stops the recording |
| VideoRecorder.PlainRecorder.StopRecording | src/components/VideoRecording.tsx:181-194 | the timer is always cleared; only a running recorder is stopped, with the button idle and the camera stopped, so a repeated stop changes nothing else |
| VideoRecorder.PlainRecorder.ButtonClick | src/components/VideoRecording.tsx:196-202 | idle starts the countdown, recording stops, the countdown state ignores the click |
| VideoRecorder.PlainRecorder.DataAvailable | src/components/VideoRecording.tsx:153-157 | only non-empty chunks are kept |
| VideoRecorder.PlainRecorder.RecorderStopped | src/components/VideoRecording.tsx:159-163 | the chunks become one video of their total size, the camera stops and the video is handed over |
| VideoRecorder.CountdownStartsOnce | src/components/VideoRecording.tsx:121-135 | a countdown from 3 starts recording on its third tick and never before |
| VideoRecorder.RecordingStopsOnTime | src/components/VideoRecording.tsx:169-178 | a recording of maxDuration seconds is stopped by exactly its maxDuration-th tick |
| CameraCapture.CaptureLabel | src/components/challenge/CameraCapture.tsx:80 | "Capturing..." exactly while a countdown shows, "Capture" otherwise |
| CameraCapture.Capturer.constructor | src/components/challenge/CameraCapture.tsx:15-18 | the capturer starts without a countdown and without captures |
| CameraCapture.Capturer.StartCapture | src/components/challenge/CameraCapture.tsx:29-30 | the enabled button starts the countdown at 3 |
| CameraCapture.Capturer.Tick | src/components/challenge/CameraCapture.tsx:31-40 | a tick counts down; the last one clears the timer and captures once |
| CameraCapture.Capturer.Capture | src/components/challenge/CameraCapture.tsx:20-27 | a non-empty screenshot is handed over, otherwise nothing |
| CameraCapture.CapturesOnThirdTick | src/components/challenge/CameraCapture.tsx:29-40 | a countdown from 3 captures on its third tick and never before |
| CameraSetup.CameraErrorMessage | src/components/challenge/video/CameraSetup.tsx:49-61 | each recognised error name gets its message; any other error gets the HTTPS message in an insecure context and "Unable to access camera." otherwise |
| CameraSetup.ToggleFacing | src/components/challenge/video/CameraSetup.tsx:98 | switching always changes the facing mode |
| CameraSetup.ToggleTwice | src/components/challenge/video/CameraSetup.tsx:98 | switching twice returns to the original camera |
| CameraSetup.Camera.constructor | src/components/challenge/video/VideoRecording.tsx:25-29 | the camera starts user-facing without stream, permission, error or readiness |
| CameraSetup.Camera.StartCamera | src/components/challenge/video/CameraSetup.tsx:18-67 | the error and readiness are cleared first; success holds the stream with permission; failure shows the mapped message without permission |
| CameraSetup.Camera.StopCamera | src/components/challenge/video/CameraSetup.tsx:69-79 | the tracks are stopped and the video is never left ready |
| CameraSetup.Camera.VideoLoaded | src/components/challenge/video/CameraSetup.tsx:110-113 | the video becomes ready |
| CameraSetup.Camera.RequestPermission | src/components/challenge/video/CameraSetup.tsx:81-94 | a granted probe starts the camera; a refused one shows the manual-permission message |
| CameraSetup.Camera.SwitchCamera | src/components/challenge/video/CameraSetup.tsx:96-99 | offered only with permission while idle, it toggles the facing mode |

## Left out

- Camera and media plumbing are not modelled: `getUserMedia`, tracks, `MediaRecorder`, canvases, `toBlob`/`toDataURL`, `Image` loading and object URLs. Their outcomes are parameters. A recorder is a phase: absent, active, stop requested, stopped.
- face-api.js is a foreign library. Model loading and detection results are parameters. So are the detector's `window.faceapi` and the `faceApiModelsLoaded` flag.
- Timers do not run. Each interval or timeout callback is a method that may run only while its timer is pending. `requestAnimationFrame` status reports and console logging are omitted.
- State is read as current. React's batched updates and stale closures are not modelled: the model reads the current state where the source reads a value captured in an earlier render. This hides two effects of the source as written. In the mood streak, the countdown calls the `startRecording` of the render where the button was pressed, so its `analyzeFrame` sees `isRecording` false (MoodStreakVideo.tsx:347) and the streak never counts a match. In the game controller, the countdown calls the `startGame` of the render where it began, whose timer calls an `endGame` that sees `gameActive` false (GameControler.tsx:193), and whose hard timeout tests that same captured `gameActive` (GameControler.tsx:181); neither ends the game. The model states what these closures are evidently meant to do. The selfie view's "SHOW YOUR" status is read the same way.
- Numbers are exact reals, not IEEE doubles.
- FaceVerification.ConfidenceScore: only the clamp to 100, non-negativity and the rounded sum below the clamp are stated; floating-point rounding in the variance is not modelled.
- FaceVerification.VerifyFace: requires a positive image area when a face is found. A zero-area image would divide by zero in the source.
- FaceVerification.EmotionEmoji and SimpleFaceDetection.SimpleEmoji: the glyphs are the literals as the source text stores them (UTF-8 bytes read back in another code page), not the emoji they were meant to be.
- FaceVerification.UpperChar: `toUpperCase` is modelled on ASCII letters only.
- MoodStreakVideo.StreakGame.GenerateNewEmotion: requires the draws to reach a new emotion. The source loop can in principle retry for ever.
- MoodStreakVideo: the initialisation error path ("Failed to initialize") and the status lines are not modelled. The camera restart on unmount is not modelled either.
- GameRecording: `emotionsMatched` can exceed 10 during the 2-second win delay, since the target is not redrawn and the game stays active. No upper bound is claimed.
- GameRecording.GameRecorder.EndGame: a `stop()` that throws is not modelled. That is the only path on which an ended game hands over the chunks (or the placeholder) at once; in the model the recorder is always stopped through its `onstop` event.
- FaceVerification.EmotionEmoji: objects are modelled as finite maps, so a label that names an inherited `Object.prototype` property (such as "constructor" or "toString") gets the fallback glyph, where the source would print the inherited function.
- SimpleFaceDetection.SimpleEmoji: as for `EmotionEmoji`, inherited `Object.prototype` property names are not modelled; such a label prints as "undefined" in the model.
- FaceVerification.Score: an expression key that names an inherited `Object.prototype` property scores 0 in the model; in the source `expressions[key]` would be that property.
- DualMoodSelfie: the camera start, the retake and the image-setup failure ("Failed to process image") are not modelled.
- SelfieView.Selfie.ImageFailed: the source clears `isAnalyzing` only in the synchronous catch. An image that never loads leaves the analysis running, and no event for that is modelled.
- SelfieView.Selfie.CapturePhoto: requires a non-empty data URL. The canvas always produces one.
- ReviewView.ShownEmoji: only the missing-vibe-check case is stated.
- ReviewView rendering: the per-type detail panels and the streak's "Need 10 matches to pass" text are not modelled; the streak passes at 5.
- VideoRecorder.PlainRecorder: the manual permission request duplicates `CameraSetup.Camera.RequestPermission` and is not repeated. The unmount clean-up is folded into `SwitchCamera`.
- GameRecording.GameRecorder and GameController.Controller: the mount-time model load is not modelled. It affects only logging.
- `dist/index.js` and `dist/index.mjs` are not part of this model. Neither are `src/app/api/vhp/verify/route.ts`, the two `ChallengeMode.tsx` files, `src/components/ReviewView.tsx`, `src/components/SelfieView.tsx` or `EmotionDisplay.tsx`. These are bundled copies, mocks or rendering only.

## Findings

| source | as written | input that shows it | evidently intended | confidence | as-written member | corrected member |
|---|---|---|---|---|---|---|
| src/components/challenge/SelfieView.tsx:75-82 | a failed model load sets `error` and `useFallbackMode`; with `error` set and nothing captured, the error screen (293-306) replaces the camera, so the capture button never renders and the fallback branch (161-176) is unreachable | the face-api.js model download fails on mount | the failure should only switch to fallback mode so the selfie can still be taken with the simple detector | not executed | SelfieView.ModelLoadAsWritten, SelfieView.FallbackUnusableAsWritten | SelfieView.ModelLoadIntended, SelfieView.FallbackUsableIntended |
