// Interval arithmetic of `calculatePumpHours` and the `HH:MM` display of
// `minutesToTimeFormat`.

module PumpHours {
  import opened Telemetry

  /** 23:59:59.999, the value of `endOf('day')`, in milliseconds of the day. */
  const DayEndMs: int := MsPerDay - 1

  /**
   * Elapsed milliseconds between two bare times of one local date, as
   * `calculatePumpHours` computes them: a stop earlier than the start is moved
   * to the next day, the end is capped at the end of the start's day, and an
   * empty interval counts as zero.
   */
  function PumpHoursMs(start: TimeOfDay, stop: TimeOfDay): (ms: int)
    ensures 0 <= ms < MsPerDay
  {
    var stop' := if stop < start then stop + MsPerDay else stop;
    var cappedStart := if start < 0 then 0 else start;
    var cappedEnd := if stop' > DayEndMs then DayEndMs else stop';
    if cappedStart >= cappedEnd then 0 else cappedEnd - cappedStart
  }

  /**
   * The three outcomes of the interval: a forward interval is the plain
   * difference; a stop before the start (an overnight wrap) runs to the end
   * of the start's day; and the result is zero exactly for an empty interval
   * or a start at the very last millisecond of the day.
   */
  lemma PumpHoursMsCases(start: TimeOfDay, stop: TimeOfDay)
    ensures start <= stop ==> PumpHoursMs(start, stop) == stop - start
    ensures stop < start ==> PumpHoursMs(start, stop) == DayEndMs - start
    ensures PumpHoursMs(start, stop) == 0 <==> start == stop || start == DayEndMs
  {
  }

  /** The same interval in hours, the value `calculatePumpHours` returns. */
  function CalculatePumpHours(start: TimeOfDay, stop: TimeOfDay): (h: real)
    ensures 0.0 <= h < 24.0
    ensures h * 3_600_000.0 == PumpHoursMs(start, stop) as real
  {
    PumpHoursMs(start, stop) as real / 3_600_000.0
  }

  /** Minutes as the folds accumulate them (`hours * 60`), from milliseconds. */
  function MinutesOf(ms: int): (m: real)
    ensures m * 60_000.0 == ms as real
  {
    ms as real / 60_000.0
  }

  /**
   * Adding `hours * 60` for one more interval, as the folds do, is adding the
   * interval's milliseconds and converting once.
   */
  lemma AccumulateMinutes(acc: int, start: TimeOfDay, stop: TimeOfDay)
    ensures MinutesOf(acc) + CalculatePumpHours(start, stop) * 60.0 == MinutesOf(acc + PumpHoursMs(start, stop))
  {
  }

  /** `Math.round`: the nearest integer, halves rounded up. */
  function Round(x: real): (r: int)
    ensures r as real <= x + 0.5 < r as real + 1.0
  {
    (x + 0.5).Floor
  }

  /**
   * `Math.max(0, Math.round(minutes))`: 0 for anything that rounds below zero,
   * otherwise the whole number nearest to `m`, halves rounded up.
   */
  function TotalMinutes(m: real): (n: nat)
    ensures m < -0.5 ==> n == 0
    ensures m >= -0.5 ==> n as real <= m + 0.5 < n as real + 1.0
  {
    var r := Round(m);
    if r < 0 then 0 else r
  }

  /** For a whole number of milliseconds the rounded minutes are `(ms + 30000) / 60000`, floored at zero. */
  lemma TotalMinutesOfMs(ms: int)
    ensures Round(MinutesOf(ms)) == (ms + 30_000) / 60_000
    ensures TotalMinutes(MinutesOf(ms)) == if ms < -30_000 then 0 else (ms + 30_000) / 60_000
  {
    var q := (ms + 30_000) / 60_000;
    var r := (ms + 30_000) % 60_000;
    assert ms + 30_000 == 60_000 * q + r && 0 <= r < 60_000;
    var x := MinutesOf(ms) + 0.5;
    assert x * 60_000.0 == (ms + 30_000) as real;
    assert (60_000 * q + r) as real == 60_000.0 * q as real + r as real;
    assert x == q as real + r as real / 60_000.0;
    assert 0.0 <= r as real / 60_000.0 < 1.0;
    assert q as real <= x < q as real + 1.0;
    assert Round(MinutesOf(ms)) == q;
  }

  // ---------------------------------------------------------------------------
  // Decimal digits

  predicate IsDigit(c: char) {
    '0' <= c <= '9'
  }

  predicate AllDigits(s: string) {
    forall i :: 0 <= i < |s| ==> IsDigit(s[i])
  }

  function DigitChar(d: nat): (c: char)
    requires d < 10
    ensures IsDigit(c) && (c as int) - ('0' as int) == d
  {
    ((('0' as int) + d) as char)
  }

  function DigitValue(c: char): nat
    requires IsDigit(c)
  {
    (c as int) - ('0' as int)
  }

  /** `String(n)` for a natural number: its decimal digits, without leading zeros. */
  function NatToString(n: nat): (s: string)
    ensures 1 <= |s| && AllDigits(s)
    ensures |s| == 1 <==> n < 10
    ensures n < 100 ==> |s| <= 2
    ensures n >= 1 ==> s[0] != '0'
    decreases n
  {
    if n < 10 then [DigitChar(n)] else NatToString(n / 10) + [DigitChar(n % 10)]
  }

  /** The number a string of decimal digits denotes (empty denotes 0). */
  function DigitsValue(s: string): nat
    requires AllDigits(s)
  {
    DigitsPrefix(s, |s|)
  }

  /** The number the first `n` digits of `s` denote. */
  function DigitsPrefix(s: string, n: nat): nat
    requires n <= |s| && AllDigits(s)
  {
    if n == 0 then 0 else DigitsPrefix(s, n - 1) * 10 + DigitValue(s[n - 1])
  }

  /** Strings that agree on their first `n` characters agree on the value of those digits. */
  lemma {:induction false} PrefixAgree(a: string, b: string, n: nat)
    requires n <= |a| && n <= |b| && AllDigits(a) && AllDigits(b)
    requires forall i :: 0 <= i < n ==> a[i] == b[i]
    ensures DigitsPrefix(a, n) == DigitsPrefix(b, n)
  {
    if n > 0 {
      PrefixAgree(a, b, n - 1);
    }
  }

  /** A leading zero shifts the digits by one place and adds nothing. */
  lemma {:induction false} ZeroShift(s: string, k: nat)
    requires k <= |s| && AllDigits(s) && AllDigits("0" + s)
    ensures DigitsPrefix("0" + s, k + 1) == DigitsPrefix(s, k)
  {
    if k > 0 {
      ZeroShift(s, k - 1);
      assert ("0" + s)[k] == s[k - 1];
    }
  }

  lemma {:induction false} NatToStringValue(n: nat)
    ensures DigitsValue(NatToString(n)) == n
    decreases n
  {
    var s := NatToString(n);
    if n >= 10 {
      var t := NatToString(n / 10);
      NatToStringValue(n / 10);
      assert s == t + [DigitChar(n % 10)];
      PrefixAgree(s, t, |t|);
    }
  }

  lemma LeadingZeroValue(s: string)
    requires AllDigits(s)
    ensures AllDigits("0" + s) && DigitsValue("0" + s) == DigitsValue(s)
  {
    assert forall i :: 0 < i < |"0" + s| ==> ("0" + s)[i] == s[i - 1];
    ZeroShift(s, |s|);
  }

  /** `padStart(2, '0')` of a string of at least one character. */
  function PadTwo(s: string): string
    requires |s| >= 1
  {
    if |s| < 2 then "0" + s else s
  }

  /** `padStart(2, '0')` pads on the left with zeros to two characters and keeps the string in its tail. */
  lemma PadTwoShape(s: string)
    requires |s| >= 1
    ensures |PadTwo(s)| == if |s| < 2 then 2 else |s|
    ensures PadTwo(s)[|PadTwo(s)| - |s|..] == s
    ensures forall i :: 0 <= i < |PadTwo(s)| - |s| ==> PadTwo(s)[i] == '0'
  {
    if |s| < 2 {
      assert ("0" + s)[1..] == s;
    }
  }

  /**
   * `minutesToTimeFormat`: `max(0, round(minutes))` as zero-padded hours, a
   * colon and two-digit minutes.
   */
  function MinutesToTimeFormat(minutes: real): string {
    var total := TotalMinutes(minutes);
    var hours := total / 60;
    var mins := total % 60;
    PadTwo(NatToString(hours)) + ":" + PadTwo(NatToString(mins))
  }

  /**
   * Reads an `H:MM` display (one or more hour digits, a colon, two minute
   * digits) back as a number of minutes, rejecting minutes of 60 or more.
   */
  function ParseTimeFormat(s: string): Option<nat> {
    if |s| >= 4 && s[|s| - 3] == ':' then ParseFields(s[..|s| - 3], s[|s| - 2..]) else None
  }

  /** The hours and minutes fields of a display, as minutes. */
  function ParseFields(hs: string, ms: string): Option<nat> {
    if AllDigits(hs) && AllDigits(ms) && DigitsValue(ms) < 60
    then Some(DigitsValue(hs) * 60 + DigitsValue(ms))
    else None
  }

  /** Zero-padding does not change the value of a digit string. */
  lemma PadTwoValue(s: string)
    requires |s| >= 1 && AllDigits(s)
    ensures AllDigits(PadTwo(s)) && DigitsValue(PadTwo(s)) == DigitsValue(s)
  {
    if |s| < 2 { LeadingZeroValue(s); }
  }

  /** A zero-padded `String(n)`: at least two digits, exactly two below 100, denoting `n`. */
  lemma PaddedValue(n: nat)
    ensures |PadTwo(NatToString(n))| >= 2 && (n < 100 ==> |PadTwo(NatToString(n))| == 2)
    ensures AllDigits(PadTwo(NatToString(n))) && DigitsValue(PadTwo(NatToString(n))) == n
  {
    NatToStringValue(n);
    PadTwoValue(NatToString(n));
  }

  /** A joined display reads back through its two fields. */
  lemma JoinedParts(hs: string, ms: string)
    requires |hs| >= 1 && |ms| == 2
    ensures ParseTimeFormat(hs + ":" + ms) == ParseFields(hs, ms)
  {
    var s := hs + ":" + ms;
    assert s[..|s| - 3] == hs;
    assert s[|s| - 2..] == ms;
  }

  lemma ParseJoined(hs: string, ms: string)
    requires |hs| >= 2 && |ms| == 2 && AllDigits(hs) && AllDigits(ms)
    requires DigitsValue(ms) < 60
    ensures ParseTimeFormat(hs + ":" + ms) == Some(DigitsValue(hs) * 60 + DigitsValue(ms))
  {
    JoinedParts(hs, ms);
  }

  /** The display reads back as exactly `max(0, round(minutes))`: hours times 60 plus minutes under 60. */
  lemma FormatRoundTrip(minutes: real)
    ensures ParseTimeFormat(MinutesToTimeFormat(minutes)) == Some(TotalMinutes(minutes))
  {
    var total := TotalMinutes(minutes);
    var h, m := total / 60, total % 60;
    PaddedValue(h);
    PaddedValue(m);
    ParseJoined(PadTwo(NatToString(h)), PadTwo(NatToString(m)));
    assert h * 60 + m == total;
  }

  /**
   * The display's shape: zero-padded hours of at least two digits, a colon,
   * and two minute digits; hours beyond two digits carry no leading zero.
   */
  lemma FormatShape(minutes: real)
    ensures var s := MinutesToTimeFormat(minutes);
      |s| >= 5 && s[|s| - 3] == ':' && |s[..|s| - 3]| >= 2 &&
      AllDigits(s[..|s| - 3]) && AllDigits(s[|s| - 2..]) &&
      (|s[..|s| - 3]| > 2 ==> s[0] != '0')
  {
    var total := TotalMinutes(minutes);
    var hs := PadTwo(NatToString(total / 60));
    var ms := PadTwo(NatToString(total % 60));
    PadTwoValue(NatToString(total / 60));
    PadTwoValue(NatToString(total % 60));
    var s := hs + ":" + ms;
    assert |ms| == 2;
    assert s[..|s| - 3] == hs;
    assert s[|s| - 2..] == ms;
    assert s[0] == hs[0];
  }

  /** Whole-minute values print as expected: 480 minutes is "08:00". */
  lemma FormatEightHours()
    ensures MinutesToTimeFormat(480.0) == "08:00"
  {
    assert TotalMinutes(480.0) == 480;
  }
}
