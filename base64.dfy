/** The base64 alphabet and padding of section 4 of RFC 4648, as the browser's
    `btoa`/`atob` apply it to "binary strings" (strings whose characters all
    have codes below 256, one character per byte). */
module Base64 {
  import opened Common

  /** The character for a 6-bit value: A-Z, a-z, 0-9, '+', '/'. */
  function CharOf(v: int): (c: char)
    requires 0 <= v < 64
    ensures IndexOf(c) == Some(v)
  {
    if v < 26 then ('A' as int + v) as char
    else if v < 52 then ('a' as int + (v - 26)) as char
    else if v < 62 then ('0' as int + (v - 52)) as char
    else if v == 62 then '+'
    else '/'
  }

  /** The 6-bit value of an alphabet character, `None` for any other character
      (the padding character '=' included). */
  function IndexOf(c: char): (r: Option<int>)
    ensures r.Some? ==> 0 <= r.value < 64
  {
    if 'A' <= c <= 'Z' then Some(c as int - 'A' as int)
    else if 'a' <= c <= 'z' then Some(c as int - 'a' as int + 26)
    else if '0' <= c <= '9' then Some(c as int - '0' as int + 52)
    else if c == '+' then Some(62)
    else if c == '/' then Some(63)
    else None
  }

  lemma CharOfIndexOf(c: char)
    requires IndexOf(c).Some?
    ensures CharOf(IndexOf(c).value) == c
  {
  }

  /** Three bytes as four characters. */
  function EncodeGroup(b0: byte, b1: byte, b2: byte): (s: string)
    ensures |s| == 4 && forall i :: 0 <= i < 4 ==> IndexOf(s[i]).Some?
  {
    var x0, x1, x2 := b0 as int, b1 as int, b2 as int;
    [CharOf(x0 / 4), CharOf((x0 % 4) * 16 + x1 / 16), CharOf((x1 % 16) * 4 + x2 / 64), CharOf(x2 % 64)]
  }

  /** Four 6-bit values as three bytes; a trailing pad keeps only the leading ones. */
  function Bytes3(c0: int, c1: int, c2: int, c3: int): (b: seq<byte>)
    requires 0 <= c0 < 64 && 0 <= c1 < 64 && 0 <= c2 < 64 && 0 <= c3 < 64
    ensures |b| == 3
  {
    [(c0 * 4 + c1 / 16) as byte, ((c1 % 16) * 16 + c2 / 4) as byte, ((c2 % 4) * 64 + c3) as byte]
  }

  function Encode(b: seq<byte>): (s: string)
    ensures |s| % 4 == 0 && (|b| == 0 <==> |s| == 0)
  {
    if |b| == 0 then ""
    else if |b| == 1 then
      var x0 := b[0] as int;
      [CharOf(x0 / 4), CharOf((x0 % 4) * 16), '=', '=']
    else if |b| == 2 then
      var x0, x1 := b[0] as int, b[1] as int;
      [CharOf(x0 / 4), CharOf((x0 % 4) * 16 + x1 / 16), CharOf((x1 % 16) * 4), '=']
    else EncodeGroup(b[0], b[1], b[2]) + Encode(b[3..])
  }

  /** Decodes one group of four characters; `last` says whether padding may occur. */
  function DecodeGroup(q: string, last: bool): (r: Option<seq<byte>>)
    requires |q| == 4
    ensures r.Some? ==> 1 <= |r.value| <= 3
    ensures r.Some? && !last ==> |r.value| == 3
  {
    var i0, i1, i2, i3 := IndexOf(q[0]), IndexOf(q[1]), IndexOf(q[2]), IndexOf(q[3]);
    if i0.None? || i1.None? then None
    else if i2.Some? && i3.Some? then Some(Bytes3(i0.value, i1.value, i2.value, i3.value))
    else if !last then None
    else if i2.Some? && q[3] == '=' then Some(Bytes3(i0.value, i1.value, i2.value, 0)[..2])
    else if q[2] == '=' && q[3] == '=' then Some(Bytes3(i0.value, i1.value, 0, 0)[..1])
    else None
  }

  /** Decoding; `None` is the `InvalidCharacterError` of a malformed input. */
  function Decode(s: string): (r: Option<seq<byte>>)
    decreases |s|
  {
    if |s| == 0 then Some([])
    else if |s| % 4 != 0 then None
    else if |s| == 4 then DecodeGroup(s, true)
    else
      match DecodeGroup(s[..4], false)
      case None => None
      case Some(head) =>
        match Decode(s[4..])
        case None => None
        case Some(tail) => Some(head + tail)
  }

  lemma ArithOne(x0: int)
    requires 0 <= x0 < 256
    ensures ((x0 % 4) * 16) / 16 == x0 % 4
    ensures (x0 / 4) * 4 + ((x0 % 4) * 16) / 16 == x0
  {
  }

  lemma ArithTwo(x0: int, x1: int)
    requires 0 <= x0 < 256 && 0 <= x1 < 256
    ensures ((x0 % 4) * 16 + x1 / 16) / 16 == x0 % 4
    ensures ((x0 % 4) * 16 + x1 / 16) % 16 == x1 / 16
    ensures ((x1 % 16) * 4) / 4 == x1 % 16
    ensures ((x1 % 16) * 4) % 4 == 0
  {
  }

  lemma ArithThree(x1: int, x2: int)
    requires 0 <= x1 < 256 && 0 <= x2 < 256
    ensures ((x1 % 16) * 4 + x2 / 64) / 4 == x1 % 16
    ensures ((x1 % 16) * 4 + x2 / 64) % 4 == x2 / 64
  {
  }

  lemma GroupRoundTrip(b0: byte, b1: byte, b2: byte)
    ensures DecodeGroup(EncodeGroup(b0, b1, b2), false) == Some([b0, b1, b2])
    ensures DecodeGroup(EncodeGroup(b0, b1, b2), true) == Some([b0, b1, b2])
  {
    var x0, x1, x2 := b0 as int, b1 as int, b2 as int;
    var c0, c1, c2, c3 := x0 / 4, (x0 % 4) * 16 + x1 / 16, (x1 % 16) * 4 + x2 / 64, x2 % 64;
    ArithTwo(x0, x1);
    ArithThree(x1, x2);
    var q := EncodeGroup(b0, b1, b2);
    assert q == [CharOf(c0), CharOf(c1), CharOf(c2), CharOf(c3)];
    assert IndexOf(q[0]) == Some(c0) && IndexOf(q[1]) == Some(c1);
    assert IndexOf(q[2]) == Some(c2) && IndexOf(q[3]) == Some(c3);
    assert Bytes3(c0, c1, c2, c3) == [b0, b1, b2];
  }

  lemma OneByteRoundTrip(b: seq<byte>)
    requires |b| == 1
    ensures Decode(Encode(b)) == Some(b)
  {
    var x0 := b[0] as int;
    var c0, c1 := x0 / 4, (x0 % 4) * 16;
    ArithOne(x0);
    var q := Encode(b);
    assert q == [CharOf(c0), CharOf(c1), '=', '='];
    assert IndexOf(q[0]) == Some(c0) && IndexOf(q[1]) == Some(c1);
    assert IndexOf(q[2]).None? && IndexOf(q[3]).None?;
    assert Decode(q) == DecodeGroup(q, true);
    assert DecodeGroup(q, true) == Some(Bytes3(c0, c1, 0, 0)[..1]);
    var bs := Bytes3(c0, c1, 0, 0);
    assert bs[0] as int == c0 * 4 + c1 / 16;
    assert bs[0] == b[0];
    assert bs[..1] == [bs[0]];
    assert b == [b[0]];
    assert Decode(Encode(b)) == Some(bs[..1]);
  }

  /** The two bytes an encoding of two bytes carries come back from its
      three significant 6-bit values. */
  lemma TwoBytesBack(b0: byte, b1: byte)
    ensures var x0, x1 := b0 as int, b1 as int;
      Bytes3(x0 / 4, (x0 % 4) * 16 + x1 / 16, (x1 % 16) * 4, 0)[..2] == [b0, b1]
  {
    var x0, x1 := b0 as int, b1 as int;
    var c0, c1, c2 := x0 / 4, (x0 % 4) * 16 + x1 / 16, (x1 % 16) * 4;
    ArithTwo(x0, x1);
    var bs := Bytes3(c0, c1, c2, 0);
    assert bs[0] as int == c0 * 4 + c1 / 16;
    assert bs[1] as int == (c1 % 16) * 16 + c2 / 4;
  }

  /** A quartet with one padding character decodes to the two leading bytes
      of its three values. */
  lemma OnePadDecodes(c0: int, c1: int, c2: int)
    requires 0 <= c0 < 64 && 0 <= c1 < 64 && 0 <= c2 < 64
    ensures DecodeGroup([CharOf(c0), CharOf(c1), CharOf(c2), '='], true) == Some(Bytes3(c0, c1, c2, 0)[..2])
  {
    var q := [CharOf(c0), CharOf(c1), CharOf(c2), '='];
    assert IndexOf(q[0]) == Some(c0) && IndexOf(q[1]) == Some(c1) && IndexOf(q[2]) == Some(c2);
    assert IndexOf(q[3]).None?;
  }

  lemma TwoBytesRoundTrip(b: seq<byte>)
    requires |b| == 2
    ensures Decode(Encode(b)) == Some(b)
  {
    var x0, x1 := b[0] as int, b[1] as int;
    var c0, c1, c2 := x0 / 4, (x0 % 4) * 16 + x1 / 16, (x1 % 16) * 4;
    ArithTwo(x0, x1);
    var q := Encode(b);
    assert q == [CharOf(c0), CharOf(c1), CharOf(c2), '='];
    assert Decode(q) == DecodeGroup(q, true);
    OnePadDecodes(c0, c1, c2);
    TwoBytesBack(b[0], b[1]);
    assert b == [b[0], b[1]];
  }

  /** Decoding an encoding gives back the bytes (`atob(btoa(s)) === s`). */
  lemma {:induction false} DecodeEncode(b: seq<byte>)
    ensures Decode(Encode(b)) == Some(b)
  {
    if |b| == 1 {
      OneByteRoundTrip(b);
    } else if |b| == 2 {
      TwoBytesRoundTrip(b);
    } else if |b| >= 3 {
      GroupRoundTrip(b[0], b[1], b[2]);
      var s := Encode(b);
      assert s == EncodeGroup(b[0], b[1], b[2]) + Encode(b[3..]);
      if |b| == 3 {
        assert s == EncodeGroup(b[0], b[1], b[2]);
        assert b == [b[0], b[1], b[2]];
      } else {
        DecodeEncode(b[3..]);
        assert s[..4] == EncodeGroup(b[0], b[1], b[2]);
        assert s[4..] == Encode(b[3..]);
        assert b == [b[0], b[1], b[2]] + b[3..];
      }
    }
  }

  /** The padding characters an encoding of `n` bytes ends with. */
  function PadCount(n: nat): (p: nat)
    ensures p <= 2
  {
    if n % 3 == 0 then 0 else 3 - n % 3
  }

  /** An encoding is alphabet characters followed by exactly the padding its
      length calls for. */
  lemma {:induction false} EncodeShape(b: seq<byte>)
    ensures |Encode(b)| >= PadCount(|b|)
    ensures forall i :: 0 <= i < |Encode(b)| - PadCount(|b|) ==> IndexOf(Encode(b)[i]).Some?
    ensures forall i :: |Encode(b)| - PadCount(|b|) <= i < |Encode(b)| ==> Encode(b)[i] == '='
  {
    if |b| >= 3 {
      var rest := Encode(b[3..]);
      var p := PadCount(|b[3..]|);
      EncodeShape(b[3..]);
      var s := Encode(b);
      var g := EncodeGroup(b[0], b[1], b[2]);
      assert s == g + rest;
      assert PadCount(|b|) == p;
      assert forall i :: 0 <= i < 4 ==> IndexOf(s[i]).Some?;
      assert forall i :: 4 <= i < |s| ==> s[i] == rest[i - 4];
    }
  }

  /** The ASCII whitespace `atob` skips: tab, line feed, form feed, carriage
      return and space. */
  predicate IsAsciiWhitespace(c: char)
  {
    c == '\t' || c == '\n' || c == '\U{C}' || c == '\r' || c == ' '
  }

  /** The input with its ASCII whitespace removed. */
  function StripWhitespace(s: string): (t: string)
    ensures |t| <= |s|
    ensures forall i :: 0 <= i < |t| ==> !IsAsciiWhitespace(t[i])
    ensures (forall i :: 0 <= i < |s| ==> !IsAsciiWhitespace(s[i])) ==> t == s
  {
    if s == [] then []
    else if IsAsciiWhitespace(s[0]) then StripWhitespace(s[1..])
    else [s[0]] + StripWhitespace(s[1..])
  }

  predicate InAlphabet(s: string)
  {
    forall i :: 0 <= i < |s| ==> IndexOf(s[i]).Some?
  }

  /** The forgiving decoding `atob` applies: whitespace is removed; an input
      whose length is a multiple of four is decoded with its padding; an input
      of any other length must be unpadded alphabet characters, is refused
      when one character is left over, and is otherwise decoded as if the
      missing padding were there. `None` is the `InvalidCharacterError`. */
  function ForgivingDecode(s: string): (r: Option<seq<byte>>)
    ensures (forall i :: 0 <= i < |s| ==> !IsAsciiWhitespace(s[i])) && |s| % 4 == 0 ==> r == Decode(s)
    ensures |StripWhitespace(s)| % 4 == 1 ==> r.None?
    ensures |StripWhitespace(s)| % 4 != 0 && !InAlphabet(StripWhitespace(s)) ==> r.None?
  {
    var t := StripWhitespace(s);
    if |t| % 4 == 0 then Decode(t)
    else if |t| % 4 == 1 || !InAlphabet(t) then None
    else Decode(t + MissingPadding(|t|))
  }

  /** An encoding decodes forgivingly to its bytes. */
  lemma ForgivingDecodeEncode(b: seq<byte>)
    ensures ForgivingDecode(Encode(b)) == Some(b)
  {
    EncodeShape(b);
    DecodeEncode(b);
    assert StripWhitespace(Encode(b)) == Encode(b);
  }

  /** The padding `atob` restores for an unpadded text of length `n`. */
  function MissingPadding(n: nat): (pad: string)
    ensures n % 4 == 2 ==> pad == "=="
    ensures n % 4 == 3 ==> pad == "="
  {
    if n % 4 == 2 then "==" else "="
  }

  /** Restoring the padding of a padded text with its `p` final `=` left off. */
  lemma PaddingRestored(e: string, p: nat)
    requires |e| % 4 == 0 && 1 <= p <= 2 && |e| >= p
    requires forall i :: |e| - p <= i < |e| ==> e[i] == '='
    ensures var t := e[..|e| - p];
      |t| % 4 == 4 - p && t + MissingPadding(|t|) == e
  {
    var t := e[..|e| - p];
    assert |t| % 4 == 4 - p;
    var pad := MissingPadding(|t|);
    assert |pad| == p;
    assert forall i :: 0 <= i < |e| ==> (t + pad)[i] == e[i];
  }

  /** A whitespace-free unpadded alphabet text decodes as its padded form. */
  lemma ForgivingUnpadded(t: string)
    requires StripWhitespace(t) == t && InAlphabet(t)
    requires |t| % 4 == 2 || |t| % 4 == 3
    ensures ForgivingDecode(t) == Decode(t + MissingPadding(|t|))
  {
  }

  /** The alphabet part of an encoding is whitespace free and in the alphabet. */
  lemma UnpaddedShape(b: seq<byte>)
    ensures var e := Encode(b);
      |e| >= PadCount(|b|) && InAlphabet(e[..|e| - PadCount(|b|)])
      && StripWhitespace(e[..|e| - PadCount(|b|)]) == e[..|e| - PadCount(|b|)]
  {
    EncodeShape(b);
    var e := Encode(b);
    var t := e[..|e| - PadCount(|b|)];
    assert forall i :: 0 <= i < |t| ==> IndexOf(t[i]).Some?;
    assert forall i :: 0 <= i < |t| ==> !IsAsciiWhitespace(t[i]);
  }

  /** An encoding with its padding left off still decodes to its bytes. */
  lemma UnpaddedDecodes(b: seq<byte>)
    ensures var e := Encode(b);
      |e| >= PadCount(|b|) && ForgivingDecode(e[..|e| - PadCount(|b|)]) == Some(b)
  {
    var e := Encode(b);
    var p := PadCount(|b|);
    UnpaddedShape(b);
    var t := e[..|e| - p];
    if p == 0 {
      assert t == e;
      ForgivingDecodeEncode(b);
    } else {
      EncodeShape(b);
      PaddingRestored(e, p);
      ForgivingUnpadded(t);
      DecodeEncode(b);
    }
  }

  /** Whitespace anywhere in the input does not change the decoding. */
  lemma WhitespaceIgnored(s: string)
    ensures ForgivingDecode(s) == ForgivingDecode(StripWhitespace(s))
  {
    var t := StripWhitespace(s);
    assert StripWhitespace(t) == t;
  }

  /** A binary string: every character code fits a byte. */
  predicate IsBinary(s: string)
  {
    forall i :: 0 <= i < |s| ==> s[i] as int < 256
  }

  /** The binary string of a byte sequence (`String.fromCharCode` per byte). */
  function BinaryString(b: seq<byte>): (s: string)
    ensures |s| == |b| && IsBinary(s)
    ensures forall i :: 0 <= i < |b| ==> s[i] as int == b[i] as int
  {
    seq(|b|, i requires 0 <= i < |b| => b[i] as int as char)
  }

  function BytesOf(s: string): (b: seq<byte>)
    requires IsBinary(s)
    ensures |b| == |s|
    ensures forall i :: 0 <= i < |s| ==> b[i] as int == s[i] as int
  {
    seq(|s|, i requires 0 <= i < |s| => s[i] as int as byte)
  }

  /** `btoa`: `None` (an `InvalidCharacterError`) when a character does not fit a byte. */
  function Btoa(s: string): (r: Option<string>)
    ensures r.Some? <==> IsBinary(s)
  {
    if IsBinary(s) then Some(Encode(BytesOf(s))) else None
  }

  /** `atob`: the forgiving decoding as a binary string; `None` (an
      `InvalidCharacterError`) on malformed input. */
  function Atob(s: string): (r: Option<string>)
    ensures r.Some? <==> ForgivingDecode(s).Some?
    ensures r.Some? ==> IsBinary(r.value) && BytesOf(r.value) == ForgivingDecode(s).value
  {
    match ForgivingDecode(s)
    case None => None
    case Some(b) => Some(BinaryString(b))
  }

  /** `atob(btoa(s)) === s` for every binary string. */
  lemma AtobBtoa(s: string)
    requires IsBinary(s)
    ensures Btoa(s).Some? && Atob(Btoa(s).value) == Some(s)
  {
    ForgivingDecodeEncode(BytesOf(s));
    assert BinaryString(BytesOf(s)) == s;
  }
}
