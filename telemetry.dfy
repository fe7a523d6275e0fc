// Normalised telemetry observations of one pumping site, in the site's
// fixed local time zone (Asia/Kolkata, a fixed offset with no daylight saving).

module Telemetry {

  /** Milliseconds in one local civil day. */
  const MsPerDay: int := 86_400_000

  const MsPerHour: int := 3_600_000

  /** A time of day, in milliseconds since local midnight. */
  type TimeOfDay = t: int | 0 <= t < MsPerDay

  /** A local civil date (the `yyyy-MM-dd` key of the reports). */
  datatype Date = Date(year: int, month: int, day: int)

  /** A local year and month (the `yyyy-MM` key of the reports). */
  datatype Month = Month(year: int, month: int)

  function MonthOf(d: Date): Month {
    Month(d.year, d.month)
  }

  /** `a` is a strictly earlier civil date than `b`. */
  predicate DateBefore(a: Date, b: Date) {
    a.year < b.year ||
    (a.year == b.year && (a.month < b.month || (a.month == b.month && a.day < b.day)))
  }

  datatype Pump = P1 | P2

  /** The measurements one record carries for one pump. */
  datatype PumpReading = PumpReading(kwh: real, voltage: real, frequency: real, current: real, powerFactor: real)

  /** All-zero measurements, for records whose readings do not matter. */
  const Quiet: PumpReading := PumpReading(0.0, 0.0, 0.0, 0.0, 0.0)

  /**
   * One stored telemetry record: its local date and time of day, the three
   * status flags (`P1_ON_FB`, `P2_ON_FB` and the shared `P1_P2_ON_FB`), the
   * per-pump measurements and the `DAILY_FLOW` counter.
   */
  datatype Observation = Observation(
    date: Date,
    timeMs: TimeOfDay,
    p1OnFb: bool,
    p2OnFb: bool,
    sharedOnFb: bool,
    p1: PumpReading,
    p2: PumpReading,
    dailyFlow: real)

  /** The status pair of `getPumpStatus`. */
  datatype PumpStatus = PumpStatus(pump1: bool, pump2: bool)

  function GetPumpStatus(o: Observation): PumpStatus {
    PumpStatus(o.p1OnFb && o.sharedOnFb, o.p2OnFb && o.sharedOnFb)
  }

  /** The pump-specific field of a record's own flag. */
  function OwnFlag(o: Observation, p: Pump): bool {
    match p
    case P1 => o.p1OnFb
    case P2 => o.p2OnFb
  }

  /** Pump `p` is running in record `o`. */
  predicate IsActive(o: Observation, p: Pump) {
    match p
    case P1 => GetPumpStatus(o).pump1
    case P2 => GetPumpStatus(o).pump2
  }

  /** A pump reads as running exactly when its own flag and the shared flag are both set. */
  lemma ActiveIffBothFlags(o: Observation, p: Pump)
    ensures IsActive(o, p) <==> OwnFlag(o, p) && o.sharedOnFb
    ensures !o.sharedOnFb ==> !IsActive(o, P1) && !IsActive(o, P2)
  {
  }

  /** The per-pump measurements: the fixed field table `P1_*` / `P2_*`. */
  function ReadingOf(o: Observation, p: Pump): PumpReading {
    match p
    case P1 => o.p1
    case P2 => o.p2
  }

  function KwhOf(o: Observation, p: Pump): real {
    ReadingOf(o, p).kwh
  }

  /**
   * The record's time as it survives `toFormat('HH:mm:ss')` and the parse back
   * in `calculatePumpHours`: the time of day truncated to whole seconds.
   */
  function LogTime(o: Observation): (t: TimeOfDay)
    ensures t % 1000 == 0
    ensures t <= o.timeMs < t + 1000
  {
    o.timeMs / 1000 * 1000
  }

  /** Truncation to whole seconds keeps the order of times. */
  lemma LogTimeMonotone(a: Observation, b: Observation)
    requires a.timeMs <= b.timeMs
    ensures LogTime(a) <= LogTime(b)
  {
    assert a.timeMs / 1000 <= b.timeMs / 1000;
  }

  /** `b` is not stored earlier than `a`. */
  predicate NotBefore(a: Observation, b: Observation) {
    DateBefore(a.date, b.date) || (a.date == b.date && a.timeMs <= b.timeMs)
  }

  /** The order of `.sort({ timeStamp: 1 })`: no record is earlier than one before it. */
  predicate Sorted(s: seq<Observation>) {
    forall i, j :: 0 <= i <= j < |s| ==> NotBefore(s[i], s[j])
  }

  /** A record not earlier than every record of a sorted sequence extends it sorted. */
  lemma SortedSnoc(s: seq<Observation>, o: Observation)
    requires Sorted(s)
    requires forall j :: 0 <= j < |s| ==> NotBefore(s[j], o)
    ensures Sorted(s + [o])
  {
    forall i, j | 0 <= i <= j < |s| + 1
      ensures NotBefore((s + [o])[i], (s + [o])[j])
    {
      if j < |s| {
        assert (s + [o])[i] == s[i] && (s + [o])[j] == s[j];
      }
    }
  }

  function Last<T>(s: seq<T>): T
    requires s != []
  {
    s[|s| - 1]
  }

  /** All but the last element. */
  function Front<T>(s: seq<T>): seq<T>
    requires s != []
  {
    s[..|s| - 1]
  }

  lemma FrontLastSnoc<T>(s: seq<T>, x: T)
    ensures Front(s + [x]) == s && Last(s + [x]) == x
  {
    assert (s + [x])[..|s|] == s;
  }

  datatype Option<T> = None | Some(value: T)

  /** A report's answer: its rows, or the not-found message a report sends when it has nothing to show. */
  datatype Answer<T> = NotFound(message: string) | Rows(rows: seq<T>)

  /** The rows, or `message` when there are none (the `!results.length` check). */
  function Found<T>(rows: seq<T>, message: string): (a: Answer<T>)
    ensures a.Rows? <==> rows != []
    ensures a.Rows? ==> a.rows == rows
    ensures a.NotFound? ==> a.message == message
  {
    if rows == [] then NotFound(message) else Rows(rows)
  }
}
