// Properties of the energy model: what a daily figure is on sorted input,
// the rows of `EnergyConsumptionReport`, and worked examples.

module EnergyFacts {
  import opened Telemetry
  import opened PumpHours
  import opened DayRuns
  import opened Energy
  import opened EnergyMonth

  /** A pump has no samples over some records exactly when it runs in none of them. */
  lemma {:induction false} ActiveSamplesEmpty(s: seq<Observation>, p: Pump)
    ensures ActiveSamples(s, p) == [] <==> forall j :: 0 <= j < |s| ==> !IsActive(s[j], p)
    decreases |s|
  {
    if s != [] {
      ActiveSamplesEmpty(Front(s), p);
      assert s == Front(s) + [Last(s)];
      if ActiveSamples(s, p) == [] {
        forall j | 0 <= j < |s|
          ensures !IsActive(s[j], p)
        {
          if j < |s| - 1 {
            assert s[j] == Front(s)[j];
          }
        }
      }
    }
  }

  /**
   * On time-sorted records, figure `k` belongs to the `k`-th date (dates
   * strictly increase, so each date has one figure); a pump that never runs
   * that day has no figure, and one that runs has the reading of its last
   * running record minus that of its first, not clamped at zero.
   */
  lemma EnergyDaysOfSorted(s: seq<Observation>, k: nat, p: Pump)
    requires Sorted(s) && k < |EnergyDays(s)|
    ensures EnergyDays(s)[k].date == RunDate(Runs(s)[k])
    ensures KwhFor(EnergyDays(s)[k], p).None? <==> forall j :: 0 <= j < |Runs(s)[k]| ==> !IsActive(Runs(s)[k][j], p)
    ensures KwhFor(EnergyDays(s)[k], p).Some? ==>
      KwhFor(EnergyDays(s)[k], p).value == Last(ActiveSamples(Runs(s)[k], p)).kwh - ActiveSamples(Runs(s)[k], p)[0].kwh
  {
    var run := Runs(s)[k];
    RunsSorted(s);
    RunsUniform(s);
    ActiveSamplesEmpty(run, p);
    if ActiveSamples(run, p) != [] {
      DayEnergyOfSorted(run, p);
    }
  }

  /** Every row of `EnergyConsumptionReport` is a pump's figure of some day, with its month's total. */
  lemma {:induction false} ConsumptionRowsSound(days: seq<EnergyDay>, monthly: map<Month, KwhPair>)
    requires forall k :: 0 <= k < |days| ==> MonthOf(days[k].date) in monthly
    ensures forall r :: r in ConsumptionRows(days, monthly) ==>
      exists k :: (0 <= k < |days| && r.date == days[k].date && KwhFor(days[k], r.pump) == Some(r.dailyKwh) &&
        r.monthlyKwh == KwhPairFor(monthly[MonthOf(days[k].date)], r.pump))
    decreases |days|
  {
    if days != [] {
      var front := Front(days);
      ConsumptionRowsSound(front, monthly);
      forall r | r in ConsumptionRows(days, monthly)
        ensures exists k :: (0 <= k < |days| && r.date == days[k].date && KwhFor(days[k], r.pump) == Some(r.dailyKwh) &&
          r.monthlyKwh == KwhPairFor(monthly[MonthOf(days[k].date)], r.pump))
      {
        if r in ConsumptionRows(front, monthly) {
          var k :| 0 <= k < |front| && r.date == front[k].date && KwhFor(front[k], r.pump) == Some(r.dailyKwh) &&
            r.monthlyKwh == KwhPairFor(monthly[MonthOf(front[k].date)], r.pump);
          assert days[k] == front[k];
        } else {
          assert days[|days| - 1] == Last(days);
        }
      }
    }
  }

  /** Every figure of every day has its row. */
  lemma {:induction false} ConsumptionRowsComplete(days: seq<EnergyDay>, monthly: map<Month, KwhPair>)
    requires forall k :: 0 <= k < |days| ==> MonthOf(days[k].date) in monthly
    ensures forall k, p :: 0 <= k < |days| && KwhFor(days[k], p).Some? ==>
      ConsumptionRow(days[k].date, p, KwhFor(days[k], p).value, KwhPairFor(monthly[MonthOf(days[k].date)], p))
        in ConsumptionRows(days, monthly)
    decreases |days|
  {
    if days != [] {
      var front := Front(days);
      ConsumptionRowsComplete(front, monthly);
      forall k, p | 0 <= k < |days| && KwhFor(days[k], p).Some?
        ensures ConsumptionRow(days[k].date, p, KwhFor(days[k], p).value, KwhPairFor(monthly[MonthOf(days[k].date)], p))
          in ConsumptionRows(days, monthly)
      {
        if k < |front| {
          assert days[k] == front[k];
        } else {
          assert days[k] == Last(days);
          if p == P1 {
            assert PumpRow(Last(days), P1, monthly)[0] in PumpRow(Last(days), P1, monthly);
          }
        }
      }
    }
  }

  // ---------------------------------------------------------------------------
  // Worked examples

  /** A record with pump 1 running at the given counter reading, pump 2 idle. */
  function Metered(d: Date, t: TimeOfDay, kwh: real): Observation {
    Observation(d, t, true, false, true, PumpReading(kwh, 0.0, 0.0, 0.0, 0.0), Quiet, 0.0)
  }

  lemma TwoReadings(d: Date, a: real, b: real)
    ensures EnergyDays([Metered(d, 8 * MsPerHour, a), Metered(d, 12 * MsPerHour, b)]) == [EnergyDay(d, Some(b - a), None)]
  {
    var r0, r1 := Metered(d, 8 * MsPerHour, a), Metered(d, 12 * MsPerHour, b);
    var day := [r0, r1];
    assert day == [r0] + [r1];
    assert [r0] == [] + [r0];
    FrontLastSnoc([r0], r1);
    FrontLastSnoc([], r0);
    assert Uniform(day);
    RunsOneDate(day);
    var e1 := [SampleOf(r0, P1)];
    assert ActiveSamples([r0], P1) == e1;
    assert ActiveSamples(day, P1) == e1 + [SampleOf(r1, P1)];
    var x0, x1 := SampleOf(r0, P1), SampleOf(r1, P1);
    FrontLastSnoc(e1, x1);
    assert Earliest(e1) == x0 && Latest(e1) == x0;
    assert x0.timeMs == 8 * MsPerHour && x1.timeMs == 12 * MsPerHour;
    assert Earliest(e1 + [x1]) == x0;
    assert Latest(e1 + [x1]) == x1;
    assert DeltaOf(e1 + [x1]) == Some(b - a);
    ActiveSamplesEmpty(day, P2);
    assert DayEnergy(day) == EnergyDay(d, Some(b - a), None);
    FrontLastSnoc([], day);
    assert [day] == [] + [day];
  }

  /** Readings of 100.0 kWh at 08:00 and 145.5 kWh at 12:00 give a day's figure of 45.5 kWh for pump 1 and none for pump 2. */
  lemma DailyFigureExample(d: Date)
    ensures EnergyDays([Metered(d, 8 * MsPerHour, 100.0), Metered(d, 12 * MsPerHour, 145.5)]) == [EnergyDay(d, Some(45.5), None)]
  {
    TwoReadings(d, 100.0, 145.5);
  }

  /** A counter that went back from 100.0 to 5.0 kWh gives a negative figure: nothing clamps it. */
  lemma CounterResetExample(d: Date)
    ensures EnergyDays([Metered(d, 8 * MsPerHour, 100.0), Metered(d, 12 * MsPerHour, 5.0)]) == [EnergyDay(d, Some(-95.0), None)]
  {
    TwoReadings(d, 100.0, 5.0);
  }
}
