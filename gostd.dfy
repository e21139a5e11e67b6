/** The pieces of Go's standard library that the core relies on, written out
    so that their results are exact: decimal formatting (`%d`), UTF-8 byte
    lengths (`len` of a string), `strings.Join`, `strings.TrimSpace`,
    `strings.ToUpper`, `time.Duration.String`, the `error` values the core
    creates, wraps and inspects, contexts, and the slog levels. */
module GoStd {
  import opened Wrappers

  newtype byte = x: int | 0 <= x < 256

  // ---------------------------------------------------------------------
  // Decimal formatting (fmt's %d, strconv.Itoa)

  function DigitChar(d: nat): char
    requires d < 10
  {
    "0123456789"[d]
  }

  predicate IsDigit(c: char) {
    '0' <= c <= '9'
  }

  /** Decimal digits of `n`, most significant first, without leading zeros. */
  function NatToString(n: nat): (s: string)
    ensures |s| > 0
    ensures forall i :: 0 <= i < |s| ==> IsDigit(s[i])
    ensures |s| > 1 ==> s[0] != '0'
  {
    if n < 10 then [DigitChar(n)] else NatToString(n / 10) + [DigitChar(n % 10)]
  }

  /** `%d` of a Go int: a minus sign in front of negative numbers. */
  function IntToString(i: int): string {
    if i < 0 then "-" + NatToString(-i) else NatToString(i)
  }

  /** Reads back a string of decimal digits; the partner of NatToString. */
  function ParseNat(s: string): nat
    requires forall i :: 0 <= i < |s| ==> IsDigit(s[i])
  {
    if |s| == 0 then 0
    else ParseNat(s[..|s| - 1]) * 10 + DigitValue(s[|s| - 1])
  }

  function DigitValue(c: char): nat
    requires IsDigit(c)
  {
    assert '0' as int <= c as int;
    c as int - '0' as int
  }

  /** Formatting a number with %d loses nothing: it can be read back. */
  lemma {:induction false} NatToStringRoundTrip(n: nat)
    ensures ParseNat(NatToString(n)) == n
  {
    if n >= 10 {
      var s := NatToString(n);
      assert s[..|s| - 1] == NatToString(n / 10);
      NatToStringRoundTrip(n / 10);
    }
  }

  /** Distinct numbers format to distinct strings. */
  lemma NatToStringInjective(m: nat, n: nat)
    requires NatToString(m) == NatToString(n)
    ensures m == n
  {
    NatToStringRoundTrip(m);
    NatToStringRoundTrip(n);
  }

  // ---------------------------------------------------------------------
  // UTF-8: Go strings are byte sequences, so len(s) counts encoded bytes

  /** The UTF-8 encoding of one Unicode scalar value. */
  function EncodeRune(c: char): (r: seq<byte>)
    ensures 1 <= |r| <= 4
    ensures (|r| == 1) <==> (c as int < 0x80)
  {
    var v := c as int;
    if v < 0x80 then [v as byte]
    else if v < 0x800 then [(0xC0 + v / 0x40) as byte, (0x80 + v % 0x40) as byte]
    else if v < 0x10000 then
      [(0xE0 + v / 0x1000) as byte, (0x80 + (v / 0x40) % 0x40) as byte, (0x80 + v % 0x40) as byte]
    else
      [(0xF0 + v / 0x40000) as byte, (0x80 + (v / 0x1000) % 0x40) as byte,
       (0x80 + (v / 0x40) % 0x40) as byte, (0x80 + v % 0x40) as byte]
  }

  /** The bytes of a Go string literal. */
  function Utf8(s: string): (r: seq<byte>)
    ensures |r| >= |s|
  {
    if |s| == 0 then [] else EncodeRune(s[0]) + Utf8(s[1..])
  }

  /** Go's `len` of a string: its length in bytes. */
  function Len(s: string): nat {
    |Utf8(s)|
  }

  const Newline: byte := 10

  // ---------------------------------------------------------------------
  // package strings

  /** strings.Join: the parts with `sep` between neighbours. */
  function Join(parts: seq<string>, sep: string): string
  {
    if |parts| == 0 then ""
    else if |parts| == 1 then parts[0]
    else parts[0] + sep + Join(parts[1..], sep)
  }

  /** unicode.IsSpace: the White_Space property of Unicode. */
  predicate IsSpace(c: char) {
    c == '\t' || c == '\n' || c == '\U{000B}' || c == '\U{000C}' || c == '\r' || c == ' '
    || c == '\U{0085}' || c == '\U{00A0}' || c == '\U{1680}'
    || ('\U{2000}' <= c <= '\U{200A}')
    || c == '\U{2028}' || c == '\U{2029}' || c == '\U{202F}' || c == '\U{205F}' || c == '\U{3000}'
  }

  predicate AllSpace(s: string) {
    forall i :: 0 <= i < |s| ==> IsSpace(s[i])
  }

  function TrimLeftSpace(s: string): (r: string)
    ensures |r| <= |s| && r == s[|s| - |r|..]
    ensures r == "" <==> AllSpace(s)
    ensures r != "" ==> !IsSpace(r[0])
  {
    if |s| > 0 && IsSpace(s[0]) then TrimLeftSpace(s[1..]) else s
  }

  function TrimRightSpace(s: string): (r: string)
    ensures |r| <= |s| && r == s[..|r|]
    ensures r == "" <==> AllSpace(s)
    ensures r != "" ==> !IsSpace(r[|r| - 1])
  {
    if |s| > 0 && IsSpace(s[|s| - 1]) then TrimRightSpace(s[..|s| - 1]) else s
  }

  /** strings.TrimSpace: `s` without leading and trailing white space. The
      result is a piece of `s` that neither starts nor ends with white space,
      and it is empty exactly when `s` is all white space. */
  function TrimSpace(s: string): (r: string)
    ensures exists i, j :: 0 <= i <= j <= |s| && r == s[i..j]
    ensures r != "" ==> !IsSpace(r[0]) && !IsSpace(r[|r| - 1])
    ensures r == "" <==> AllSpace(s)
  {
    var left := TrimLeftSpace(s);
    var r := TrimRightSpace(left);
    var i := |s| - |left|;
    assert r == s[i..][..|r|] == s[i..i + |r|];
    assert r != "" ==> r[0] == left[0];
    assert left != "" ==> !AllSpace(left) by {
      if left != "" { assert !IsSpace(left[0]); }
    }
    r
  }

  /** unicode.ToUpper restricted to ASCII letters. */
  function UpperRune(c: char): char {
    if 'a' <= c <= 'z' then (c as int - 32) as char else c
  }

  /** strings.ToUpper on the ASCII range: no lower-case ASCII letter is left,
      and every other character stays where it was. */
  function ToUpper(s: string): (r: string)
    ensures |r| == |s|
    ensures forall i :: 0 <= i < |r| ==> !('a' <= r[i] <= 'z')
    ensures forall i :: 0 <= i < |s| && !('a' <= s[i] <= 'z') ==> r[i] == s[i]
    ensures forall i :: 0 <= i < |s| && 'a' <= s[i] <= 'z' ==> r[i] == (s[i] as int - 32) as char
  {
    if |s| == 0 then "" else [UpperRune(s[0])] + ToUpper(s[1..])
  }

  // ---------------------------------------------------------------------
  // time.Duration: a count of nanoseconds

  type Duration = int

  const Nanosecond: Duration := 1
  const Microsecond: Duration := 1000
  const Millisecond: Duration := 1000000
  const Second: Duration := 1000000000

  /** The low `prec` decimal digits of `v`, zero-padded to width `prec`. */
  function LowDigits(v: nat, prec: nat): (s: string)
    ensures |s| == prec
  {
    if prec == 0 then "" else LowDigits(v / 10, prec - 1) + [DigitChar(v % 10)]
  }

  function TrimTrailingZeros(s: string): string {
    if |s| > 0 && s[|s| - 1] == '0' then TrimTrailingZeros(s[..|s| - 1]) else s
  }

  /** The fraction printed by Duration.String for the low `prec` digits: a
      decimal point and the digits without trailing zeros, or nothing. */
  function FracPart(v: nat, prec: nat): string {
    var digits := TrimTrailingZeros(LowDigits(v, prec));
    if digits == "" then "" else "." + digits
  }

  /** time.Duration.String: "72h3m0.5s", "1.5s", "300ms", "0s", ... */
  function DurationString(d: Duration): string
    decreases if d < 0 then 1 else 0
  {
    if d < 0 then "-" + DurationString(-d)
    else if d == 0 then "0s"
    else if d < Second then
      if d < Microsecond then NatToString(d) + "ns"
      else if d < Millisecond then NatToString(d / Microsecond) + FracPart(d, 3) + "\U{00B5}s"
      else NatToString(d / Millisecond) + FracPart(d, 6) + "ms"
    else
      var secs := d / Second;
      var s := NatToString(secs % 60) + FracPart(d, 9) + "s";
      var mins := secs / 60;
      if mins == 0 then s
      else
        var m := NatToString(mins % 60) + "m" + s;
        var hours := mins / 60;
        if hours == 0 then m else NatToString(hours) + "h" + m
  }

  // ---------------------------------------------------------------------
  // Go error values: sentinels, errors.New/fmt.Errorf messages, and the
  // single-cause wrapping of fmt.Errorf("...: %w", err)

  datatype Error =
    | DeadlineExceeded              // context.DeadlineExceeded
    | Canceled                      // context.Canceled
    | New(text: string)             // errors.New, or fmt.Errorf without %w
    | Wrap(prefix: string, cause: Error)  // fmt.Errorf(prefix + "%w", cause)

  /** err.Error() */
  function Text(e: Error): string {
    match e
    case DeadlineExceeded => "context deadline exceeded"
    case Canceled => "context canceled"
    case New(t) => t
    case Wrap(p, c) => p + Text(c)
  }

  /** errors.Unwrap */
  function Unwrap(e: Error): Option<Error> {
    if e.Wrap? then Some(e.cause) else None
  }

  /** errors.Is: `target` is `e` or lies on its chain of causes. */
  predicate Is(e: Error, target: Error) {
    e == target || (e.Wrap? && Is(e.cause, target))
  }

  /** Wrapping with %w keeps the cause reachable and its message visible. */
  lemma WrapPreservesCause(prefix: string, cause: Error, target: Error)
    ensures Unwrap(Wrap(prefix, cause)) == Some(cause)
    ensures Is(cause, target) ==> Is(Wrap(prefix, cause), target)
    ensures Text(Wrap(prefix, cause)) == prefix + Text(cause)
  {
  }

  // ---------------------------------------------------------------------
  // package context

  datatype Context =
    | Background                                   // context.Background()
    | RequestContext(id: nat)                      // r.Context() of one request
    | WithTimeout(parent: Context, timeout: Duration)  // context.WithTimeout

  // ---------------------------------------------------------------------
  // package log/slog

  /** A *slog.Logger, as an identity: what it prints is not modelled. */
  datatype Logger = DefaultLogger | CustomLogger(id: nat)

  type Level = int

  const LevelDebug: Level := -4
  const LevelInfo: Level := 0
  const LevelWarn: Level := 4
  const LevelError: Level := 8
}
