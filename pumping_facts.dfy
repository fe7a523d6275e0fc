// Properties of the pumping model: bounds on the daily minutes, the day
// buckets of sorted input, worked examples, the monthly sums and the rows.

module PumpingFacts {
  import opened Telemetry
  import opened PumpHours
  import opened DayRuns
  import opened Pumping

  /**
   * The state machine over a sorted one-date day never credits more than it
   * has seen: an idle pump's total is within the span from the first to the
   * latest record, and a running pump started at a logged time of the day,
   * with its total within the span up to that start.
   */
  lemma {:induction false} FoldBound(day: seq<Observation>, p: Pump)
    requires day != [] && Sorted(day) && Uniform(day)
    ensures 0 <= Fold(day, p).ms
    ensures Fold(day, p).state.Idle? ==> Fold(day, p).ms <= LogTime(Last(day)) - LogTime(day[0])
    ensures Fold(day, p).state.Running? ==>
      Fold(day, p).state.sinceDate == day[0].date &&
      LogTime(day[0]) <= Fold(day, p).state.since <= LogTime(Last(day)) &&
      Fold(day, p).ms <= Fold(day, p).state.since - LogTime(day[0])
    decreases |day|
  {
    var o := Last(day);
    var init := day[..|day| - 1];
    assert Fold(day, p) == Step(Fold(init, p), o, p);
    if init != [] {
      assert Sorted(init) && Uniform(init) && init[0] == day[0];
      FoldBound(init, p);
      assert NotBefore(Last(init), o) && Last(init).date == o.date;
      LogTimeMonotone(Last(init), o);
      var t := Fold(init, p);
      if !IsActive(o, p) && t.state.Running? {
        StopGainSameDay(t.state.sinceDate, t.state.since, o);
      }
    }
  }

  /**
   * A pump's running time for one day of sorted records is never negative and
   * never exceeds the span between the day's first and last record, so it is
   * below one day (1440 minutes).
   */
  lemma DayMsBound(day: seq<Observation>, p: Pump)
    requires day != [] && Sorted(day) && Uniform(day)
    ensures 0 <= DayMs(day, p) <= LogTime(Last(day)) - LogTime(day[0]) < MsPerDay
    ensures 0.0 <= MinutesOf(DayMs(day, p)) < 1440.0
  {
    FoldBound(day, p);
    var t := Fold(day, p);
    if t.state.Running? {
      StopGainSameDay(t.state.sinceDate, t.state.since, Last(day));
    }
  }

  /** Every daily bucket of sorted records holds a running time within one day for both pumps. */
  lemma DailyTotalsBounded(s: seq<Observation>)
    requires Sorted(s)
    ensures forall k :: 0 <= k < |DailyTotals(s)| ==>
      0 <= DailyTotals(s)[k].ms1 < MsPerDay && 0 <= DailyTotals(s)[k].ms2 < MsPerDay
  {
    RunsSorted(s);
    RunsUniform(s);
    var rs: seq<seq<Observation>> := Runs(s);
    forall k | 0 <= k < |rs|
      ensures 0 <= DailyTotals(s)[k].ms1 < MsPerDay && 0 <= DailyTotals(s)[k].ms2 < MsPerDay
    {
      DayMsBound(rs[k], P1);
      DayMsBound(rs[k], P2);
    }
  }

  /**
   * On sorted records the daily buckets come in strictly increasing date
   * order, so no date has two buckets: a list of buckets is the
   * `groupedData` dictionary keyed by date.
   */
  lemma DailyTotalsDatesIncreasing(s: seq<Observation>)
    requires Sorted(s)
    ensures forall k, l :: 0 <= k < l < |DailyTotals(s)| ==> DateBefore(DailyTotals(s)[k].date, DailyTotals(s)[l].date)
  {
    RunDatesIncreasing(s);
  }

  // ---------------------------------------------------------------------------
  // Worked examples

  /** A record of one date in which pump 1 is on or off and pump 2 is off. */
  function Rec(d: Date, t: TimeOfDay, on: bool): Observation {
    Observation(d, t, on, false, true, Quiet, Quiet, 0.0)
  }

  /** The records of one date make one bucket: the summary of all of them. */
  lemma DailyTotalsOneDate(day: seq<Observation>)
    requires day != [] && Uniform(day)
    ensures DailyTotals(day) == [Summarise(day)]
  {
    RunsOneDate(day);
    SummariesSnoc([], day);
  }

  /** A pump that no record of a day shows running is credited nothing that day. */
  lemma {:induction false} FoldNeverActive(day: seq<Observation>, p: Pump)
    requires forall j :: 0 <= j < |day| ==> !IsActive(day[j], p)
    ensures Fold(day, p) == Fresh
    decreases |day|
  {
    if day != [] {
      FoldNeverActive(Front(day), p);
    }
  }

  /** Pump 1's state machine over ON 08:00, OFF 12:00, ON 14:00, OFF 18:00. */
  lemma FourEdgeFold(d: Date)
    ensures Fold([Rec(d, 8 * MsPerHour, true), Rec(d, 12 * MsPerHour, false), Rec(d, 14 * MsPerHour, true), Rec(d, 18 * MsPerHour, false)], P1)
      == PumpTally(Idle, 8 * MsPerHour)
  {
    var r0, r1, r2, r3 := Rec(d, 8 * MsPerHour, true), Rec(d, 12 * MsPerHour, false), Rec(d, 14 * MsPerHour, true), Rec(d, 18 * MsPerHour, false);
    assert [r0] == [] + [r0] && [r0, r1] == [r0] + [r1] && [r0, r1, r2] == [r0, r1] + [r2] && [r0, r1, r2, r3] == [r0, r1, r2] + [r3];
    FoldAppend([], r0, P1);
    assert Fold([r0], P1) == PumpTally(Running(d, 8 * MsPerHour), 0);
    FoldAppend([r0], r1, P1);
    PumpHoursMsCases(8 * MsPerHour, 12 * MsPerHour);
    assert Fold([r0, r1], P1) == PumpTally(Idle, 4 * MsPerHour);
    FoldAppend([r0, r1], r2, P1);
    assert Fold([r0, r1, r2], P1) == PumpTally(Running(d, 14 * MsPerHour), 4 * MsPerHour);
    FoldAppend([r0, r1, r2], r3, P1);
    PumpHoursMsCases(14 * MsPerHour, 18 * MsPerHour);
  }

  /** ON at 08:00, OFF at 12:00, ON at 14:00, OFF at 18:00 is eight hours for pump 1 and none for pump 2. */
  lemma FourEdgeDay(d: Date)
    ensures DailyTotals([Rec(d, 8 * MsPerHour, true), Rec(d, 12 * MsPerHour, false), Rec(d, 14 * MsPerHour, true), Rec(d, 18 * MsPerHour, false)])
      == [DayTotal(d, 8 * MsPerHour, 0)]
  {
    var day := [Rec(d, 8 * MsPerHour, true), Rec(d, 12 * MsPerHour, false), Rec(d, 14 * MsPerHour, true), Rec(d, 18 * MsPerHour, false)];
    DailyTotalsOneDate(day);
    FourEdgeFold(d);
    FoldNeverActive(day, P2);
  }

  /** Eight hours print as "08:00". */
  lemma EightHoursPrinted()
    ensures Hours(8 * MsPerHour) == "08:00"
  {
    assert MinutesOf(8 * MsPerHour) == 480.0;
    FormatEightHours();
  }

  /** A pump still on at the day's last record is closed at that record's time, not at 23:59:59. */
  lemma ClosedAtLastRecord(d: Date)
    ensures DailyTotals([Rec(d, 8 * MsPerHour, true), Rec(d, 20 * MsPerHour, true)]) == [DayTotal(d, 12 * MsPerHour, 0)]
  {
    var r0, r1 := Rec(d, 8 * MsPerHour, true), Rec(d, 20 * MsPerHour, true);
    DailyTotalsOneDate([r0, r1]);
    assert [r0] == [] + [r0] && [r0, r1] == [r0] + [r1];
    FoldAppend([], r0, P1);
    FoldAppend([r0], r1, P1);
    FoldAppend([], r0, P2);
    FoldAppend([r0], r1, P2);
    PumpHoursMsCases(8 * MsPerHour, 20 * MsPerHour);
  }

  /** A pump that turns on at the day's last record is credited nothing for that run. */
  lemma StartAtLastRecord(d: Date)
    ensures DailyTotals([Rec(d, 10 * MsPerHour, false), Rec(d, 23 * MsPerHour, true)]) == [DayTotal(d, 0, 0)]
  {
    var r0, r1 := Rec(d, 10 * MsPerHour, false), Rec(d, 23 * MsPerHour, true);
    DailyTotalsOneDate([r0, r1]);
    assert [r0] == [] + [r0] && [r0, r1] == [r0] + [r1];
    FoldAppend([], r0, P1);
    FoldAppend([r0], r1, P1);
    FoldAppend([], r0, P2);
    FoldAppend([r0], r1, P2);
    PumpHoursMsCases(23 * MsPerHour, 23 * MsPerHour);
  }

  /** The bucket of a single record: a pump switched on by it is closed at once, with nothing credited. */
  lemma SingleRecordDay(o: Observation)
    ensures Summarise([o]) == DayTotal(o.date, 0, 0)
  {
    assert [o] == [] + [o];
    FoldAppend([], o, P1);
    FoldAppend([], o, P2);
    PumpHoursMsCases(LogTime(o), LogTime(o));
  }

  /**
   * A run across midnight is lost: ON at 22:00 as one day's last record and
   * OFF at 02:00 the next day credit neither day.
   */
  lemma OvernightRunLost(d: Date, e: Date)
    requires d != e
    ensures DailyTotals([Rec(d, 22 * MsPerHour, true), Rec(e, 2 * MsPerHour, false)]) == [DayTotal(d, 0, 0), DayTotal(e, 0, 0)]
  {
    var r0, r1 := Rec(d, 22 * MsPerHour, true), Rec(e, 2 * MsPerHour, false);
    assert [r0] == [] + [r0] && [r0, r1] == [r0] + [r1];
    RunsNew([], r0);
    RunsNew([r0], r1);
    var rs := Runs([r0, r1]);
    assert rs == [[r0], [r1]];
    SingleRecordDay(r0);
    SingleRecordDay(r1);
    var ds := Summaries(rs);
    assert ds[0] == Summarise([r0]) && ds[1] == Summarise([r1]);
  }

  // ---------------------------------------------------------------------------
  // Monthly totals and rows

  /** A pump's total over the buckets of month `mo`. */
  function SumMonth(days: seq<DayTotal>, mo: Month, p: Pump): int {
    if days == [] then 0
    else SumMonth(Front(days), mo, p) + (if MonthOf(Last(days).date) == mo then MsFor(Last(days), p) else 0)
  }

  /**
   * The month table has an entry exactly for the months of the buckets, and
   * its joined value for any month and pump (zero when absent) is the sum of
   * that pump's daily figures in that month.
   */
  lemma {:induction false} MonthTableSums(days: seq<DayTotal>, mo: Month, p: Pump)
    ensures mo in MonthTable(days) <==> exists k :: 0 <= k < |days| && MonthOf(days[k].date) == mo
    ensures MonthMs(MonthTable(days), mo, p) == SumMonth(days, mo, p)
    decreases |days|
  {
    if days != [] {
      var init, d := Front(days), Last(days);
      MonthTableSums(init, mo, p);
      assert MonthTable(days) == Credit(MonthTable(init), MonthOf(d.date), d.ms1, d.ms2);
      if mo in MonthTable(days) && MonthOf(d.date) != mo {
        var k :| 0 <= k < |init| && MonthOf(init[k].date) == mo;
        assert days[k] == init[k];
      }
      if exists k :: 0 <= k < |days| && MonthOf(days[k].date) == mo {
        var k :| 0 <= k < |days| && MonthOf(days[k].date) == mo;
        if k < |init| {
          assert init[k] == days[k];
        }
      }
    }
  }

  /** The monthly fold's joined value for any month and pump is the sum of the daily buckets of that month. */
  lemma MonthlyPumpingSums(s: seq<Observation>, mo: Month, p: Pump)
    ensures MonthMs(MonthlyAt(s, |s|).acc, mo, p) == SumMonth(DailyTotals(s), mo, p)
  {
    MonthlyAtIsMonthTable(s);
    MonthTableSums(DailyTotals(s), mo, p);
  }

  /** A displayed figure reads back as its milliseconds rounded to whole minutes, floored at zero. */
  lemma HoursRoundTrip(ms: int)
    ensures ParseTimeFormat(Hours(ms)) == Some(if ms < -30_000 then 0 else (ms + 30_000) / 60_000)
  {
    FormatRoundTrip(MinutesOf(ms));
    TotalMinutesOfMs(ms);
  }

  /** Each of a day's rows is the row of one of its pumps that ran. */
  lemma DayRowsSound(d: DayTotal, monthly: map<Month, MsPair>)
    ensures forall r :: r in DayRows(d, monthly) ==> MsFor(d, r.pump) > 0 && r == RowFor(d, r.pump, monthly)
  {
  }

  /** Every row is the row of a bucket whose pump ran that day. */
  lemma {:induction false} PumpingRowsSound(days: seq<DayTotal>, monthly: map<Month, MsPair>)
    ensures forall r :: r in PumpingRows(days, monthly) ==>
      exists k :: 0 <= k < |days| && MsFor(days[k], r.pump) > 0 && r == RowFor(days[k], r.pump, monthly)
    decreases |days|
  {
    if days != [] {
      var init, d := Front(days), Last(days);
      var earlier, added := PumpingRows(init, monthly), DayRows(d, monthly);
      assert PumpingRows(days, monthly) == earlier + added;
      PumpingRowsSound(init, monthly);
      DayRowsSound(d, monthly);
      forall r: PumpingRow | r in earlier + added
        ensures exists k :: 0 <= k < |days| && MsFor(days[k], r.pump) > 0 && r == RowFor(days[k], r.pump, monthly)
      {
        if r in earlier {
          var k :| 0 <= k < |init| && MsFor(init[k], r.pump) > 0 && r == RowFor(init[k], r.pump, monthly);
          assert days[k] == init[k];
        } else {
          var k := |days| - 1;
          assert days[k] == d;
        }
      }
    }
  }

  /** A day's rows include the row of each pump that ran that day. */
  lemma DayRowsHave(d: DayTotal, p: Pump, monthly: map<Month, MsPair>)
    requires MsFor(d, p) > 0
    ensures RowFor(d, p, monthly) in DayRows(d, monthly)
  {
    var r := RowFor(d, p, monthly);
    if p == P1 {
      assert DayRows(d, monthly)[0] == r;
    } else {
      assert DayRows(d, monthly)[|DayRows(d, monthly)| - 1] == r;
    }
  }

  /** Every bucket and pump with a positive daily running time has its row. */
  lemma {:induction false} PumpingRowsComplete(days: seq<DayTotal>, monthly: map<Month, MsPair>)
    ensures forall k, p :: 0 <= k < |days| && MsFor(days[k], p) > 0 ==> RowFor(days[k], p, monthly) in PumpingRows(days, monthly)
    decreases |days|
  {
    if days != [] {
      var init, d := Front(days), Last(days);
      var rows := PumpingRows(days, monthly);
      PumpingRowsComplete(init, monthly);
      forall k, p | 0 <= k < |days| && MsFor(days[k], p) > 0
        ensures RowFor(days[k], p, monthly) in rows
      {
        if k < |init| {
          assert days[k] == init[k];
          assert RowFor(init[k], p, monthly) in PumpingRows(init, monthly);
        } else {
          assert k == |days| - 1;
          assert days[k] == d;
          DayRowsHave(d, p, monthly);
        }
      }
    }
  }
}
