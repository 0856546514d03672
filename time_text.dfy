/** Hours-and-minutes arithmetic and the two texts the front end prints for a
    duration: the clock form "HH:MM" and the form "{h}h {m}m". Each text comes
    with a reader that recovers the numbers from it. */
module TimeText {
  import opened Common

  // ---------------------------------------------------------------------------
  // Arithmetic

  /** JavaScript's `%` on numbers, for a positive divisor: the remainder
      keeps the sign of the dividend. */
  function JsRemReal(a: real, b: real): (r: real)
    requires b > 0.0
  {
    a - b * TruncateToInt(a / b) as real
  }

  /** Multiplying out a bound on a quotient by a positive divisor. */
  lemma QuotientBounds(a: real, b: real, y: real)
    requires b > 0.0
    ensures y <= a / b ==> b * y <= a
    ensures a / b < y ==> a < b * y
  {
  }

  /** A non-negative dividend leaves a remainder in [0, b). */
  lemma JsRemRealBounds(a: real, b: real)
    requires a >= 0.0 && b > 0.0
    ensures 0.0 <= JsRemReal(a, b) < b
  {
    var q: real := TruncateToInt(a / b) as real;
    QuotientBounds(a, b, q);
    QuotientBounds(a, b, q + 1.0);
  }

  /** `Math.floor(s / 3600)`. */
  function Hours(s: real): int { Floor(s / 3600.0) }

  /** `Math.floor((s % 3600) / 60)`. */
  function Minutes(s: real): int { Floor(JsRemReal(s, 3600.0) / 60.0) }

  /** For a non-negative number of seconds the hours and minutes are whole,
      the minutes stay below 60, and together they name the minute in which
      `s` falls. */
  lemma HoursMinutesBounds(s: real)
    requires s >= 0.0
    ensures Hours(s) >= 0 && 0 <= Minutes(s) < 60
    ensures (Hours(s) * 3600 + Minutes(s) * 60) as real <= s < (Hours(s) * 3600 + Minutes(s) * 60 + 60) as real
    ensures (Hours(s) * 3600) as real <= s < (Hours(s) * 3600 + 3600) as real
  {
    JsRemRealBounds(s, 3600.0);
    var h := Hours(s);
    var q := TruncateToInt(s / 3600.0);
    assert q == h;
    var rem := JsRemReal(s, 3600.0);
    assert rem == s - 3600.0 * h as real;
    var m := Minutes(s);
    assert m as real <= rem / 60.0 < m as real + 1.0;
  }

  // ---------------------------------------------------------------------------
  // Reading numbers back

  function DigitValue(c: char): nat
    requires IsAsciiDigit(c)
  {
    c as int - '0' as int
  }

  /** Value of a string of decimal digits. */
  function DigitsValue(s: string): nat
    requires forall k :: 0 <= k < |s| ==> IsAsciiDigit(s[k])
  {
    if s == [] then 0 else DigitsValue(s[..|s| - 1]) * 10 + DigitValue(s[|s| - 1])
  }

  /** Printing a number and reading it back gives the number. */
  lemma {:induction false} NatToStringValue(n: nat)
    ensures DigitsValue(NatToString(n)) == n
  {
    if n >= 10 {
      var s := NatToString(n);
      assert s[..|s| - 1] == NatToString(n / 10);
      NatToStringValue(n / 10);
    }
  }

  /** A leading zero does not change the value. */
  lemma {:induction false} LeadingZeroValue(s: string)
    requires forall k :: 0 <= k < |s| ==> IsAsciiDigit(s[k])
    ensures DigitsValue("0" + s) == DigitsValue(s)
    decreases |s|
  {
    if s != [] {
      var t := "0" + s;
      assert t[..|t| - 1] == "0" + s[..|s| - 1];
      LeadingZeroValue(s[..|s| - 1]);
    }
  }

  /** Length of the run of digits at the start of `s`. */
  function SpanDigits(s: string): (n: nat)
    ensures n <= |s|
    ensures forall k :: 0 <= k < n ==> IsAsciiDigit(s[k])
    ensures n < |s| ==> !IsAsciiDigit(s[n])
  {
    if s != [] && IsAsciiDigit(s[0]) then 1 + SpanDigits(s[1..]) else 0
  }

  lemma {:induction false} SpanDigitsOfDigits(d: string, t: string)
    requires forall k :: 0 <= k < |d| ==> IsAsciiDigit(d[k])
    requires t == [] || !IsAsciiDigit(t[0])
    ensures SpanDigits(d + t) == |d|
    decreases |d|
  {
    if d != [] {
      assert (d + t)[1..] == d[1..] + t;
      SpanDigitsOfDigits(d[1..], t);
    }
  }

  /** Reads a number at the start of `s`; nothing when `s` does not start with
      a digit. */
  function ReadNat(s: string): (r: Option<(nat, string)>)
    ensures r.None? <==> s == [] || !IsAsciiDigit(s[0])
    ensures r.Some? ==> |r.value.1| < |s| && r.value.1 == s[|s| - |r.value.1|..]
  {
    var n := SpanDigits(s);
    if n == 0 then None else Some((DigitsValue(s[..n]), s[n..]))
  }

  /** A printed number is read back when what follows it is not a digit. */
  lemma ReadNatOfPrinted(digits: string, n: nat, t: string)
    requires forall k :: 0 <= k < |digits| ==> IsAsciiDigit(digits[k])
    requires digits != [] && DigitsValue(digits) == n
    requires t == [] || !IsAsciiDigit(t[0])
    ensures ReadNat(digits + t) == Some((n, t))
  {
    SpanDigitsOfDigits(digits, t);
    assert (digits + t)[..|digits|] == digits;
    assert (digits + t)[|digits|..] == t;
  }

  /** The zero-padded number is still a run of digits with the same value. */
  lemma PaddedValue(n: nat)
    ensures var p := PadStart2(NatToString(n));
      p != [] && (forall k :: 0 <= k < |p| ==> IsAsciiDigit(p[k])) && DigitsValue(p) == n
  {
    NatToStringValue(n);
    var s := NatToString(n);
    if |s| < 2 {
      assert PadStart2(s) == "0" + s;
      LeadingZeroValue(s);
    }
  }

  // ---------------------------------------------------------------------------
  // Clock text "HH:MM"

  function ClockText(h: nat, m: nat): (t: string)
    ensures |t| >= 5
  {
    PadStart2(NatToString(h)) + ":" + PadStart2(NatToString(m))
  }

  /** Reads "H:M" with one or more digits on each side and nothing after. */
  function ParseClock(t: string): Option<(nat, nat)> {
    match ReadNat(t)
    case None => None
    case Some((h, rest)) =>
      if rest == [] || rest[0] != ':' then None
      else match ReadNat(rest[1..])
        case None => None
        case Some((m, tail)) => if tail == [] then Some((h, m)) else None
  }

  /** The clock text names its hours and minutes unambiguously. */
  lemma ClockRoundTrip(h: nat, m: nat)
    ensures ParseClock(ClockText(h, m)) == Some((h, m))
  {
    var ph := PadStart2(NatToString(h));
    var pm := PadStart2(NatToString(m));
    PaddedValue(h);
    PaddedValue(m);
    ReadNatOfPrinted(ph, h, ":" + pm);
    assert ClockText(h, m) == ph + (":" + pm);
    ReadNatOfPrinted(pm, m, "");
    assert (":" + pm)[1..] == pm + "";
  }

  // ---------------------------------------------------------------------------
  // Duration text "{h}h {m}m"

  function DurationText(h: int, m: int): string {
    IntToString(h) + "h " + IntToString(m) + "m"
  }

  /** Reads the " {m}m" part that follows the hours' 'h'. */
  function ParseMinutesPart(rest: string): Option<nat> {
    if |rest| < 2 || rest[0] != 'h' || rest[1] != ' ' then None
    else match ReadNat(rest[2..])
      case None => None
      case Some((m, tail)) => if tail == "m" then Some(m) else None
  }

  /** Reads "{h}h {m}m" for non-negative h and m. */
  function ParseDuration(t: string): Option<(nat, nat)> {
    match ReadNat(t)
    case None => None
    case Some((h, rest)) =>
      match ParseMinutesPart(rest)
      case None => None
      case Some(m) => Some((h, m))
  }

  lemma MinutesPartRoundTrip(m: nat)
    ensures ParseMinutesPart("h " + NatToString(m) + "m") == Some(m)
  {
    var sm := NatToString(m);
    var rest := "h " + sm + "m";
    NatToStringValue(m);
    ReadNatOfPrinted(sm, m, "m");
    assert rest == ['h', ' '] + (sm + "m");
    assert rest[2..] == sm + "m";
  }

  lemma DurationRoundTrip(h: nat, m: nat)
    ensures ParseDuration(DurationText(h, m)) == Some((h, m))
  {
    var sh := NatToString(h);
    var rest := "h " + NatToString(m) + "m";
    NatToStringValue(h);
    assert DurationText(h, m) == sh + rest;
    ReadNatOfPrinted(sh, h, rest);
    MinutesPartRoundTrip(m);
  }

  /** Whole hours alone: "{h}h". */
  function HoursText(h: int): string {
    IntToString(h) + "h"
  }

  function ParseHours(t: string): Option<nat> {
    match ReadNat(t)
    case None => None
    case Some((h, rest)) => if rest == "h" then Some(h) else None
  }

  lemma HoursRoundTrip(h: nat)
    ensures ParseHours(HoursText(h)) == Some(h)
  {
    NatToStringValue(h);
    ReadNatOfPrinted(NatToString(h), h, "h");
  }
}
