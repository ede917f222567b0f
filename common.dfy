/** Shared vocabulary of the challenge components: optional values, bytes and
    blobs, the button and camera enumerations of `video/types.ts`, the media
    recorder's life cycle, JavaScript's `Math.round`/`Math.floor(Math.random() * n)`
    over exact reals, and the number and list formatting the UI messages use. */
module Common {

  datatype Option<+T> = None | Some(value: T)

  /** A JavaScript string is "truthy" when it is present and non-empty. */
  predicate Truthy(s: Option<string>)
  {
    s.Some? && s.value != ""
  }

  /** `a || b` on an optional string. */
  function OrElse(s: Option<string>, default: string): (r: string)
    ensures Truthy(s) ==> r == s.value
    ensures !Truthy(s) ==> r == default
  {
    if Truthy(s) then s.value else default
  }

  newtype byte = x: int | 0 <= x < 256

  /** A Blob is modelled by its bytes; its MIME type is not modelled. */
  type Blob = seq<byte>

  /** The bytes of an ASCII text, as `new Blob([text])` stores them. */
  function AsciiBytes(s: string): (b: Blob)
    requires forall i :: 0 <= i < |s| ==> s[i] as int < 128
    ensures |b| == |s|
    ensures forall i :: 0 <= i < |s| ==> b[i] as int == s[i] as int
  {
    seq(|s|, i requires 0 <= i < |s| => s[i] as int as byte)
  }

  /** `new Blob(chunks)`: the chunks' bytes one after another. */
  function Concat(chunks: seq<Blob>): Blob
  {
    if chunks == [] then [] else Concat(chunks[..|chunks| - 1]) + chunks[|chunks| - 1]
  }

  function TotalSize(chunks: seq<Blob>): nat
  {
    if chunks == [] then 0 else TotalSize(chunks[..|chunks| - 1]) + |chunks[|chunks| - 1]|
  }

  lemma {:induction false} ConcatSize(chunks: seq<Blob>)
    ensures |Concat(chunks)| == TotalSize(chunks)
  {
    if chunks != [] {
      ConcatSize(chunks[..|chunks| - 1]);
    }
  }

  /** Appending a chunk appends its bytes to the final recording. */
  lemma ConcatAppend(chunks: seq<Blob>, c: Blob)
    ensures Concat(chunks + [c]) == Concat(chunks) + c
  {
    assert (chunks + [c])[..|chunks|] == chunks;
  }

  /** The three states of the main button (`ButtonState` in video/types.ts). */
  datatype ButtonState = Idle | CountingDown | Recording

  /** `FacingMode` in video/types.ts. */
  datatype FacingMode = User | Environment

  /** The life cycle of a MediaRecorder held in a ref: none created yet,
      recording, `stop()` called with the `stop` event still to come, stopped
      (`state === 'inactive'`). */
  datatype Recorder = Absent | Active | StopRequested | Stopped

  /** `Math.round`: the nearest integer, halves rounded towards +infinity. */
  function Round(x: real): (r: int)
    ensures r as real - 0.5 <= x < r as real + 0.5
  {
    (x + 0.5).Floor
  }

  /** `Math.round(x * 100)`: a score in [0, 1] as a whole percentage. */
  function Percent(x: real): (p: int)
    ensures p as real - 0.5 <= x * 100.0 < p as real + 0.5
    ensures 0.0 <= x <= 1.0 ==> 0 <= p <= 100
  {
    Round(x * 100.0)
  }

  /** `Math.floor(Math.random() * n)` for a draw `r` of `Math.random()`. */
  function PickIndex(r: real, n: nat): (i: nat)
    requires 0.0 <= r < 1.0 && n > 0
    ensures i < n
  {
    var x := r * n as real;
    assert x < n as real by {
      assert r * n as real < 1.0 * n as real;
    }
    x.Floor
  }

  function Digit(d: int): (c: char)
    requires 0 <= d < 10
    ensures '0' <= c <= '9' && c as int - '0' as int == d
  {
    ('0' as int + d) as char
  }

  predicate AllDigits(s: string)
  {
    forall i :: 0 <= i < |s| ==> '0' <= s[i] <= '9'
  }

  /** Decimal text of a natural number, as template literals print it. */
  function NatToString(n: nat): (s: string)
    ensures |s| >= 1 && AllDigits(s)
    ensures n < 10 <==> |s| == 1
  {
    if n < 10 then [Digit(n)] else NatToString(n / 10) + [Digit(n % 10)]
  }

  /** The value of a string of decimal digits. */
  function DigitsValue(s: string): nat
    requires AllDigits(s)
  {
    if s == [] then 0 else DigitsValue(s[..|s| - 1]) * 10 + (s[|s| - 1] as int - '0' as int)
  }

  /** Printing a number and reading it back gives the number. */
  lemma {:induction false} NatToStringValue(n: nat)
    ensures DigitsValue(NatToString(n)) == n
  {
    if n >= 10 {
      NatToStringValue(n / 10);
      var s := NatToString(n);
      assert s[..|s| - 1] == NatToString(n / 10);
    }
  }

  /** Decimal text of an integer, as template literals print it: a minus sign
      before the digits of a negative number (see `IntToStringValue`). */
  function IntToString(i: int): (s: string)
    ensures |s| >= 1
    ensures s[0] == '-' <==> i < 0
  {
    if i < 0 then "-" + NatToString(-i) else NatToString(i)
  }

  /** The digits of an integer's text read back as its magnitude, so the text
      denotes the number. */
  lemma IntToStringValue(i: int)
    ensures var s := IntToString(i);
      (i >= 0 ==> AllDigits(s) && DigitsValue(s) == i)
      && (i < 0 ==> |s| >= 2 && AllDigits(s[1..]) && DigitsValue(s[1..]) == -i)
  {
    var s := IntToString(i);
    if i < 0 {
      NatToStringValue(-i);
      assert s[1..] == NatToString(-i);
    } else {
      NatToStringValue(i);
    }
  }

  /** Sum of the lengths of some strings. */
  function TotalLength(parts: seq<string>): nat
  {
    if parts == [] then 0 else |parts[0]| + TotalLength(parts[1..])
  }

  /** `parts.join(sep)`: the parts in order, with one separator between each
      neighbouring pair (`JoinSeparates`, `JoinLength`). */
  function Join(parts: seq<string>, sep: string): (r: string)
    ensures parts == [] ==> r == ""
    ensures |parts| == 1 ==> r == parts[0]
  {
    if parts == [] then ""
    else if |parts| == 1 then parts[0]
    else parts[0] + sep + Join(parts[1..], sep)
  }

  /** With two or more parts, the join starts with the first part followed by
      the separator, and goes on with the join of the others. */
  lemma JoinSeparates(parts: seq<string>, sep: string)
    requires |parts| >= 2
    ensures var r, k := Join(parts, sep), |parts[0]|;
      |r| >= k + |sep| && r[..k] == parts[0] && r[k..k + |sep|] == sep && r[k + |sep|..] == Join(parts[1..], sep)
  {
    var r, k := Join(parts, sep), |parts[0]|;
    assert r == parts[0] + sep + Join(parts[1..], sep);
    assert r[..k] == parts[0];
    assert r[k..k + |sep|] == sep;
    assert r[k + |sep|..] == Join(parts[1..], sep);
  }

  /** A join is as long as its parts plus one separator per neighbouring pair. */
  lemma {:induction false} JoinLength(parts: seq<string>, sep: string)
    requires |parts| >= 1
    ensures |Join(parts, sep)| == TotalLength(parts) + (|parts| - 1) * |sep|
    decreases |parts|
  {
    if |parts| >= 2 {
      JoinLength(parts[1..], sep);
      assert (|parts| - 2) * |sep| + |sep| == (|parts| - 1) * |sep|;
    }
  }
}
