/** The review screen (src/components/challenge/ReviewView.tsx): whether the
    capture passed, the values it shows with their defaults, the dual-mood
    view's split of the requested emotions, the XP reward, which medium is
    shown, and the labels. Everything is derived from the props. */
module ReviewView {
  import opened Common
  import opened FaceVerification
  import DualMoodSelfie

  // ---------------------------------------------------------------------------
  // Derived values

  /** `vibeCheck?.passed || false`. */
  function IsPassed(faceData: Option<FaceResult>): (p: bool)
    ensures p <==> faceData.Some? && faceData.value.vibeCheck.Some? && faceData.value.vibeCheck.value.passed
  {
    match faceData
    case None => false
    case Some(f) => f.vibeCheck.Some? && f.vibeCheck.value.passed
  }

  /** `vibeCheck?.matchScore || 0`. */
  function ShownMatchScore(faceData: Option<FaceResult>): (s: int)
    ensures faceData.Some? && faceData.value.vibeCheck.Some? ==> s == faceData.value.vibeCheck.value.matchScore
    ensures faceData.None? || faceData.value.vibeCheck.None? ==> s == 0
  {
    if faceData.Some? && faceData.value.vibeCheck.Some? && faceData.value.vibeCheck.value.matchScore != 0
    then faceData.value.vibeCheck.value.matchScore
    else 0
  }

  /** The requested emotion, if the vibe check carries one. */
  function RequestedOf(faceData: Option<FaceResult>): Option<string>
  {
    if faceData.Some? && faceData.value.vibeCheck.Some? then faceData.value.vibeCheck.value.requestedEmotion
    else None
  }

  /** `vibeCheck?.requestedEmotion || 'neutral'`, shown by the single-emotion view. */
  function ShownRequested(faceData: Option<FaceResult>): (e: string)
    ensures Truthy(RequestedOf(faceData)) ==> e == RequestedOf(faceData).value
    ensures !Truthy(RequestedOf(faceData)) ==> e == "neutral"
  {
    OrElse(RequestedOf(faceData), "neutral")
  }

  /** The emoji of `vibeCheck?.dominantEmotion || 'neutral'`. */
  function ShownEmoji(faceData: Option<FaceResult>): (r: string)
    ensures faceData.None? || faceData.value.vibeCheck.None? ==> r == EmotionEmoji("neutral")
  {
    var dominant := if faceData.Some? && faceData.value.vibeCheck.Some?
      then Some(faceData.value.vibeCheck.value.dominantEmotion) else None;
    EmotionEmoji(OrElse(dominant, "neutral"))
  }

  // ---------------------------------------------------------------------------
  // The dual-mood split

  const And: string := " and "

  /** `s` holds an occurrence of `sep` somewhere. */
  predicate HasSeparator(s: string, sep: string)
    requires |sep| > 0
    decreases |s|
  {
    |s| >= |sep| && (s[..|sep|] == sep || HasSeparator(s[1..], sep))
  }

  /** `s.split(sep)` for a non-empty separator: the pieces between the
      leftmost non-overlapping occurrences of `sep`. No piece holds the
      separator, and the first piece is a prefix of `s`. */
  function Split(s: string, sep: string): (r: seq<string>)
    requires |sep| > 0
    ensures |r| >= 1
    ensures r[0] <= s
    ensures forall i :: 0 <= i < |r| ==> !HasSeparator(r[i], sep)
    decreases |s|
  {
    if |s| < |sep| then [s]
    else if s[..|sep|] == sep then
      var rest := Split(s[|sep|..], sep);
      assert !HasSeparator("", sep);
      assert forall i :: 1 <= i < |[""] + rest| ==> ([""] + rest)[i] == rest[i - 1];
      [""] + rest
    else
      var rest := Split(s[1..], sep);
      var head := [s[0]] + rest[0];
      assert head <= s by {
        assert s == [s[0]] + s[1..];
      }
      assert !HasSeparator(head, sep) by {
        if |head| >= |sep| {
          assert head[..|sep|] == s[..|sep|];
          assert head[1..] == rest[0];
        }
      }
      var r := [head] + rest[1..];
      assert forall i :: 1 <= i < |r| ==> r[i] == rest[i];
      r
  }

  /** Splitting and joining with the same separator gives back the string. */
  lemma {:induction false} SplitJoin(s: string, sep: string)
    requires |sep| > 0
    ensures Join(Split(s, sep), sep) == s
    decreases |s|
  {
    if |s| < |sep| {
    } else if s[..|sep|] == sep {
      SplitJoin(s[|sep|..], sep);
      SplitJoinAtSeparator(s, sep);
    } else {
      SplitJoin(s[1..], sep);
      SplitJoinAtChar(s, sep);
    }
  }

  /** The step of `SplitJoin` where the string starts with the separator. */
  lemma SplitJoinAtSeparator(s: string, sep: string)
    requires |sep| > 0 && |s| >= |sep| && s[..|sep|] == sep
    requires Join(Split(s[|sep|..], sep), sep) == s[|sep|..]
    ensures Join(Split(s, sep), sep) == s
  {
    var rest := Split(s[|sep|..], sep);
    assert Split(s, sep) == [""] + rest;
    JoinAfterEmpty(rest, sep);
    SplitAt(s, |sep|);
  }

  lemma SplitAt(s: string, k: nat)
    requires k <= |s|
    ensures s == s[..k] + s[k..]
  {
  }

  /** An empty first part leaves the joined string starting with the separator. */
  lemma JoinAfterEmpty(rest: seq<string>, sep: string)
    requires |rest| >= 1
    ensures Join([""] + rest, sep) == sep + Join(rest, sep)
  {
    assert ([""] + rest)[1..] == rest;
  }

  /** The step of `SplitJoin` where the first character is kept. */
  lemma SplitJoinAtChar(s: string, sep: string)
    requires |sep| > 0 && |s| >= |sep| && s[..|sep|] != sep
    requires Join(Split(s[1..], sep), sep) == s[1..]
    ensures Join(Split(s, sep), sep) == s
  {
    var rest := Split(s[1..], sep);
    assert Split(s, sep) == [[s[0]] + rest[0]] + rest[1..];
    JoinExtendsHead(s[0], rest, sep);
    assert s == [s[0]] + s[1..];
  }

  /** Putting a character in front of the first part puts it in front of the
      joined string. */
  lemma JoinExtendsHead(c: char, parts: seq<string>, sep: string)
    requires |parts| >= 1
    ensures Join([[c] + parts[0]] + parts[1..], sep) == [c] + Join(parts, sep)
  {
    var extended := [[c] + parts[0]] + parts[1..];
    if |parts| > 1 {
      assert extended[1..] == parts[1..];
    }
  }

  /** `s` never uses the character `c`. */
  predicate FreeOf(s: string, c: char)
  {
    forall i :: 0 <= i < |s| ==> s[i] != c
  }

  predicate SpaceFree(s: string)
  {
    FreeOf(s, ' ')
  }

  /** A string without the separator splits into itself. */
  lemma {:induction false} SplitWithoutSeparator(s: string, sep: string)
    requires |sep| > 0 && !HasSeparator(s, sep)
    ensures Split(s, sep) == [s]
    decreases |s|
  {
    if |s| >= |sep| {
      SplitWithoutSeparator(s[1..], sep);
      assert [s[0]] + s[1..] == s;
    }
  }

  /** A string that never uses the separator's first character holds no
      separator. */
  lemma {:induction false} FreeOfHasNoSeparator(s: string, sep: string)
    requires |sep| > 0 && FreeOf(s, sep[0])
    ensures !HasSeparator(s, sep)
    decreases |s|
  {
    if |s| >= |sep| {
      assert s[..|sep|][0] != sep[0];
      FreeOfHasNoSeparator(s[1..], sep);
    }
  }

  /** A first part that never uses the separator's first character is split
      off at the separator that follows it. */
  lemma {:induction false} SplitAfterFree(e: string, sep: string, rest: string)
    requires |sep| > 0 && FreeOf(e, sep[0])
    ensures Split(e + sep + rest, sep) == [e] + Split(rest, sep)
    decreases |e|
  {
    var s := e + sep + rest;
    if |e| == 0 {
      assert s[..|sep|] == sep;
      assert s[|sep|..] == rest;
    } else {
      assert s[..|sep|][0] == e[0] != sep[0];
      assert s[1..] == e[1..] + sep + rest;
      SplitAfterFree(e[1..], sep, rest);
      assert [s[0]] + e[1..] == e;
    }
  }

  /** Joining and splitting gives back the parts, when every part but the
      last avoids the separator's first character and the last holds no
      separator. */
  lemma {:induction false} JoinSplit(parts: seq<string>, sep: string)
    requires |sep| > 0 && |parts| >= 1
    requires forall i :: 0 <= i < |parts| - 1 ==> FreeOf(parts[i], sep[0])
    requires !HasSeparator(parts[|parts| - 1], sep)
    ensures Split(Join(parts, sep), sep) == parts
    decreases |parts|
  {
    if |parts| == 1 {
      SplitWithoutSeparator(parts[0], sep);
    } else {
      var tail := parts[1..];
      assert forall i :: 0 <= i < |tail| - 1 ==> tail[i] == parts[i + 1];
      JoinSplit(tail, sep);
      assert Join(parts, sep) == parts[0] + sep + Join(tail, sep);
      SplitAfterFree(parts[0], sep, Join(tail, sep));
      assert parts == [parts[0]] + tail;
    }
  }

  /** Holding no separator is not enough for the round trip: with the
      separator "aa", the parts "a" and "" join to "aaa", which splits as ""
      and "a". */
  lemma JoinSplitNeedsMore()
    ensures !HasSeparator("a", "aa") && !HasSeparator("", "aa")
    ensures Split(Join(["a", ""], "aa"), "aa") == ["", "a"]
  {
    assert Join(["a", ""], "aa") == "aaa";
    assert "aaa"[..2] == "aa";
    assert "aaa"[2..] == "a";
    assert Split("a", "aa") == ["a"];
  }

  /** The two emotions the dual-mood view shows:
      `requestedEmotion?.split(' and ') || ['', '']`. */
  function DualEmotions(faceData: Option<FaceResult>): (r: seq<string>)
    ensures |r| >= 1
    ensures RequestedOf(faceData).None? ==> r == ["", ""]
    ensures RequestedOf(faceData).Some? ==> Join(r, And) == RequestedOf(faceData).value
  {
    match RequestedOf(faceData)
    case None => ["", ""]
    case Some(requested) =>
      SplitJoin(requested, And);
      Split(requested, And)
  }

  /** The split gives back the two emotions joined by `"e1 and e2"` when
      neither contains a space. */
  lemma DualRoundTrip(e1: string, e2: string)
    requires SpaceFree(e1) && SpaceFree(e2)
    ensures Split(DualMoodSelfie.Requested(e1, e2), And) == [e1, e2]
  {
    FreeOfHasNoSeparator(e2, And);
    JoinSplit([e1, e2], And);
  }

  /** Without the space-free condition the round trip fails: "x and" and "y"
      come back as "x" and "and y". */
  lemma SplitCanMisplaceLabels()
    ensures Split(DualMoodSelfie.Requested("x and", "y"), And) == ["x", "and y"]
  {
    assert DualMoodSelfie.Requested("x and", "y") == "x" + And + "and y";
    SplitAfterFree("x", And, "and y");
    assert "and y"[..|And|] != And;
    assert "and y"[1..] == "nd y";
    assert Split("nd y", And) == ["nd y"];
    assert ['a'] + "nd y" == "and y";
    assert Split("and y", And) == ["and y"];
  }

  /** Every detector label is space-free. */
  lemma LabelSpaceFree(e: Emotion)
    ensures SpaceFree(Label(e))
  {
  }

  /** The review of a dual-mood capture shows the two emotions the selfie view
      asked for, whenever those are space-free (every detector label is). */
  lemma DualReviewShowsRequested(basic: Option<FaceResult>, expressions: Option<Expressions>, emotions: seq<string>,
                                 r1: real, r2: real, r3: real)
    requires 0.0 <= r1 < 1.0 && 0.0 <= r2 < 1.0 && 0.0 <= r3 < 1.0
    requires SpaceFree(DualMoodSelfie.FirstEmotion(emotions)) && SpaceFree(DualMoodSelfie.SecondEmotion(emotions))
    ensures var a := DualMoodSelfie.Analyse(basic, expressions, emotions, r1, r2, r3);
      DualEmotions(Some(a.faceData)) == [DualMoodSelfie.FirstEmotion(emotions), DualMoodSelfie.SecondEmotion(emotions)]
      && IsPassed(Some(a.faceData)) == a.stats.matchedBoth
  {
    DualRoundTrip(DualMoodSelfie.FirstEmotion(emotions), DualMoodSelfie.SecondEmotion(emotions));
  }

  // ---------------------------------------------------------------------------
  // XP, medium and labels

  /** The XP reward of a challenge type. */
  function XpReward(challengeType: string): (xp: nat)
    ensures challengeType == "1" ==> xp == 50
    ensures challengeType == "2" ==> xp == 100
    ensures challengeType != "1" && challengeType != "2" ==> xp == 250
  {
    if challengeType == "1" then 50 else if challengeType == "2" then 100 else 250
  }

  /** The XP counter, shown only when the capture passed. */
  function ShownXp(faceData: Option<FaceResult>, challengeType: string): (xp: Option<nat>)
    ensures xp.Some? <==> IsPassed(faceData)
    ensures xp.Some? ==> xp.value in {50, 100, 250}
  {
    if IsPassed(faceData) then Some(XpReward(challengeType)) else None
  }

  /** The medium in the main frame. */
  datatype Medium = Video(video: Blob) | Photo(selfie: Blob)

  /** The video is shown for the streak challenge when it has content;
      otherwise the selfie. */
  function MainMedium(challengeType: string, videoBlob: Blob, selfieBlob: Blob): (m: Medium)
    ensures m.Video? <==> challengeType == "3" && |videoBlob| > 0
    ensures m.Video? ==> m.video == videoBlob
    ensures m.Photo? ==> m.selfie == selfieBlob
  {
    if challengeType == "3" && |videoBlob| > 0 then Video(videoBlob) else Photo(selfieBlob)
  }

  /** The achievement label. */
  function StatusLabel(isPassed: bool): (s: string)
    ensures isPassed <==> s == "VIBE_SYNCED"
    ensures !isPassed <==> s == "SYNC_FAILED"
  {
    if isPassed then "VIBE_SYNCED" else "SYNC_FAILED"
  }

  /** The submit button's label. */
  function SubmitLabel(isPassed: bool): (s: string)
    ensures isPassed <==> s == "ACCESS GRANTED"
    ensures !isPassed <==> s == "RETRY CHALLENGE"
  {
    if isPassed then "ACCESS GRANTED" else "RETRY CHALLENGE"
  }

  /** The retake button's label by challenge type. */
  function RetakeLabel(challengeType: string): (s: string)
    ensures challengeType == "1" <==> s == "Retake Selfie"
    ensures challengeType == "2" <==> s == "Retake Dual Mood"
    ensures challengeType != "1" && challengeType != "2" <==> s == "Retake Challenge"
  {
    if challengeType == "1" then "Retake Selfie"
    else if challengeType == "2" then "Retake Dual Mood"
    else "Retake Challenge"
  }

  /** A separate "Retake Video" button exists only for the streak challenge. */
  predicate OffersRetakeVideo(challengeType: string)
  {
    challengeType == "3"
  }
}
