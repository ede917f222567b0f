/** The game overlay of the split video challenge
    (src/components/challenge/video/GameUI.tsx): the timer's colour band, the
    time-expired trigger, and the game-over texts. All of it is derived from
    the game state passed in. */
module GameUI {
  import opened Common

  /** The timer's colour band. */
  datatype Band = Green | Yellow | Red

  /** How urgent a band looks: green, then yellow, then red. */
  function Urgency(b: Band): (u: nat)
    ensures u <= 2
  {
    match b
    case Green => 0
    case Yellow => 1
    case Red => 2
  }

  /** The band of the remaining time: green above ten seconds, yellow above
      five, red from five down. */
  function TimerBand(recordingTime: int): (b: Band)
    ensures b == Green <==> recordingTime > 10
    ensures b == Yellow <==> 5 < recordingTime <= 10
    ensures b == Red <==> recordingTime <= 5
  {
    if recordingTime > 10 then Green
    else if recordingTime > 5 then Yellow
    else Red
  }

  /** As time runs down the band never becomes less urgent. */
  lemma BandNeverRelaxes(later: int, earlier: int)
    requires later <= earlier
    ensures Urgency(TimerBand(earlier)) <= Urgency(TimerBand(later))
  {
  }

  /** The effect that reports an expired timer: the game is running, the time
      shows zero and a callback was supplied. */
  predicate TimeExpiredFires(gameActive: bool, recordingTime: int, hasCallback: bool)
  {
    gameActive && recordingTime == 0 && hasCallback
  }

  /** The countdown overlay: present exactly while a countdown value is set,
      and it shows that value. */
  function CountdownOverlay(countdown: Option<int>): (r: Option<string>)
    ensures r.Some? <==> countdown.Some?
    ensures r.Some? ==> r.value == IntToString(countdown.value)
  {
    if countdown.Some? then Some(IntToString(countdown.value)) else None
  }

  /** The game-over overlay's headline and message. */
  datatype GameOver = GameOver(headline: string, message: string)

  const WonHeadline: string := "\U{1F389} You won! \U{1F389}"
  const LostHeadline: string := "\U{23F1}\U{FE0F} Time's up!"

  function WonMessage(total: nat): string
  {
    "You matched all " + NatToString(total) + " emotions!"
  }

  function LostMessage(matched: nat, total: nat): string
  {
    "You matched " + NatToString(matched) + " out of " + NatToString(total) + " emotions"
  }

  /** The game-over overlay: shown once the game is no longer active while
      the button still reads as recording; its texts follow `gameWon`. */
  function GameOverOverlay(gameActive: bool, buttonState: ButtonState, gameWon: bool, matched: nat, total: nat)
    : (r: Option<GameOver>)
    ensures r.Some? <==> !gameActive && buttonState == Recording
    ensures r.Some? ==> (r.value.headline == WonHeadline <==> gameWon)
    ensures r.Some? ==> (r.value.headline == LostHeadline <==> !gameWon)
    ensures r.Some? && gameWon ==> r.value.message == WonMessage(total)
    ensures r.Some? && !gameWon ==> r.value.message == LostMessage(matched, total)
  {
    if !gameActive && buttonState == Recording then
      assert WonHeadline[0] != LostHeadline[0];
      if gameWon then Some(GameOver(WonHeadline, WonMessage(total)))
      else Some(GameOver(LostHeadline, LostMessage(matched, total)))
    else None
  }

  /** A lost game's message never reads like a won game's. */
  lemma LostMessageIsNotWon(matched: nat, total: nat, total': nat)
    ensures LostMessage(matched, total) != WonMessage(total')
  {
    var lost, won := LostMessage(matched, total), WonMessage(total');
    var d := NatToString(matched);
    assert lost[12] == d[0];
    assert won[12] == 'a';
  }

  /** Two digit strings followed by a space are equal exactly when they are. */
  lemma DigitsThenSpace(d1: string, d2: string, rest1: string, rest2: string)
    requires AllDigits(d1) && AllDigits(d2)
    requires |rest1| > 0 && |rest2| > 0 && rest1[0] == ' ' && rest2[0] == ' '
    requires d1 + rest1 == d2 + rest2
    ensures d1 == d2
  {
    var s, t := d1 + rest1, d2 + rest2;
    // the first position past the shorter digit string is a space in one
    // string exactly when it is a space in the other
    var k := if |d1| < |d2| then |d1| else |d2|;
    assert s[k] == t[k];
    assert s[k] == ' ' <==> k == |d1|;
    assert t[k] == ' ' <==> k == |d2|;
    assert d1 == s[..|d1|] == t[..|d2|] == d2;
  }

  /** The lost message tells the number of matches: different counts give
      different messages. */
  lemma LostMessageTellsCount(m1: nat, m2: nat, total: nat)
    requires LostMessage(m1, total) == LostMessage(m2, total)
    ensures m1 == m2
  {
    var d1, d2 := NatToString(m1), NatToString(m2);
    var rest := " out of " + NatToString(total) + " emotions";
    var prefix := "You matched ";
    assert LostMessage(m1, total) == prefix + (d1 + rest);
    assert LostMessage(m2, total) == prefix + (d2 + rest);
    assert d1 + rest == LostMessage(m1, total)[|prefix|..];
    assert d2 + rest == LostMessage(m2, total)[|prefix|..];
    DigitsThenSpace(d1, d2, rest, rest);
    NatToStringValue(m1);
    NatToStringValue(m2);
  }
}
