// The flow accumulation of `flowReport`: monthly totals per pump, and one
// row per date and pump at its first record with positive flow.

module Flow {
  import opened Telemetry

  /** Record `o` counts toward pump `p`'s flow: its `DAILY_FLOW` is positive and the pump is running. */
  predicate Qualifies(o: Observation, p: Pump) {
    o.dailyFlow > 0.0 && IsActive(o, p)
  }

  // ---------------------------------------------------------------------------
  // monthlyFlows

  /**
   * Pump `p`'s flow over the records: the sum of the flows of the records
   * that count toward it.
   */
  function FlowTotal(s: seq<Observation>, p: Pump): real {
    if s == [] then 0.0 else FlowTotal(Front(s), p) + (if Qualifies(Last(s), p) then Last(s).dailyFlow else 0.0)
  }

  /** Some record counts toward pump `p`. */
  predicate HasFlow(s: seq<Observation>, p: Pump) {
    exists j :: 0 <= j < |s| && Qualifies(s[j], p)
  }

  /**
   * `monthlyFlows`. The key `${month}-${pump.id}` reads a `month` field that
   * `getLogDateTime` does not return, so every key is `undefined-P1` or
   * `undefined-P2`: one total per pump over all the month-window records.
   */
  function MonthlyFlows(s: seq<Observation>): (m: map<Pump, real>)
    ensures forall p :: p in m <==> HasFlow(s, p)
    ensures forall p :: p in m ==> m[p] == FlowTotal(s, p)
  {
    map p | p in {P1, P2} && HasFlow(s, p) :: FlowTotal(s, p)
  }

  lemma FlowTotalSnoc(s: seq<Observation>, o: Observation, p: Pump)
    ensures FlowTotal(s + [o], p) == FlowTotal(s, p) + (if Qualifies(o, p) then o.dailyFlow else 0.0)
    ensures HasFlow(s + [o], p) <==> HasFlow(s, p) || Qualifies(o, p)
  {
    FrontLastSnoc(s, o);
    if HasFlow(s, p) {
      var j :| 0 <= j < |s| && Qualifies(s[j], p);
      assert (s + [o])[j] == s[j];
    }
    if HasFlow(s + [o], p) && !Qualifies(o, p) {
      var j :| 0 <= j < |s + [o]| && Qualifies((s + [o])[j], p);
      assert j < |s| && s[j] == (s + [o])[j];
    }
    assert Qualifies(o, p) ==> (s + [o])[|s|] == o;
  }

  /** One pump's step of the monthly loop: a record that counts adds its flow to the pump's total, from 0. */
  method AddMonthlyFlow(monthlyFlows: map<Pump, real>, o: Observation, p: Pump) returns (next: map<Pump, real>)
    requires o.dailyFlow > 0.0
    ensures next == if IsActive(o, p) then monthlyFlows[p := (if p in monthlyFlows then monthlyFlows[p] else 0.0) + o.dailyFlow] else monthlyFlows
  {
    next := monthlyFlows;
    if !IsActive(o, p) {
      return;
    }
    var previous := if p in next then next[p] else 0.0;
    next := next[p := previous + o.dailyFlow];
  }

  /** `m` holds, for each pump with a record that counts, its total over `s`, and nothing else. */
  ghost predicate TotalsOf(m: map<Pump, real>, s: seq<Observation>, p: Pump) {
    (p in m <==> HasFlow(s, p)) && (p in m ==> m[p] == FlowTotal(s, p))
  }

  lemma TotalsStep(m: map<Pump, real>, s: seq<Observation>, o: Observation, p: Pump)
    requires TotalsOf(m, s, p)
    ensures o.dailyFlow > 0.0 && IsActive(o, p) ==>
      TotalsOf(m[p := (if p in m then m[p] else 0.0) + o.dailyFlow], s + [o], p)
    ensures !(o.dailyFlow > 0.0 && IsActive(o, p)) ==> TotalsOf(m, s + [o], p)
  {
    FlowTotalSnoc(s, o, p);
    FlowTotalPositive(s, p);
  }

  /** A map holding both pumps' totals is `MonthlyFlows`. */
  lemma TotalsAre(m: map<Pump, real>, s: seq<Observation>)
    requires TotalsOf(m, s, P1) && TotalsOf(m, s, P2)
    ensures m == MonthlyFlows(s)
  {
    var spec := MonthlyFlows(s);
    forall p
      ensures (p in m <==> p in spec) && (p in m ==> m[p] == spec[p])
    {
      if p == P1 {
      } else {
        assert p == P2;
      }
    }
    assert m.Keys == spec.Keys;
  }

  /** The loop over the month-window records that builds `monthlyFlows`, skipping records without positive flow. */
  method MonthlyFlowLoop(monthlyReports: array<Observation>) returns (monthlyFlows: map<Pump, real>)
    ensures monthlyFlows == MonthlyFlows(monthlyReports[..])
  {
    monthlyFlows := map[];
    var i := 0;
    while i < monthlyReports.Length
      invariant i <= monthlyReports.Length
      invariant TotalsOf(monthlyFlows, monthlyReports[..i], P1)
      invariant TotalsOf(monthlyFlows, monthlyReports[..i], P2)
    {
      var report := monthlyReports[i];
      assert monthlyReports[..i + 1] == monthlyReports[..i] + [report];
      TotalsStep(monthlyFlows, monthlyReports[..i], report, P1);
      TotalsStep(monthlyFlows, monthlyReports[..i], report, P2);
      if report.dailyFlow > 0.0 {
        var afterP1 := AddMonthlyFlow(monthlyFlows, report, P1);
        TotalsStep(afterP1, monthlyReports[..i], report, P2);
        monthlyFlows := AddMonthlyFlow(afterP1, report, P2);
      }
      i := i + 1;
    }
    assert monthlyReports[..i] == monthlyReports[..];
    TotalsAre(monthlyFlows, monthlyReports[..]);
  }

  /** Positive flows add up to a positive total, so a pump's total is 0 only when nothing counted toward it. */
  lemma {:induction false} FlowTotalPositive(s: seq<Observation>, p: Pump)
    ensures 0.0 <= FlowTotal(s, p)
    ensures HasFlow(s, p) ==> 0.0 < FlowTotal(s, p)
    ensures !HasFlow(s, p) ==> FlowTotal(s, p) == 0.0
    decreases |s|
  {
    if s != [] {
      FlowTotalPositive(Front(s), p);
      FlowTotalSnoc(Front(s), Last(s), p);
      assert Front(s) + [Last(s)] == s;
    }
  }

  // ---------------------------------------------------------------------------
  // The rows

  /** The `${dateStr}-${pump.id}` key of `dailyFlows` and `seen`. */
  datatype DayKey = DayKey(date: Date, pump: Pump)

  /** A `flowReport` row: date, pump, the day's flow and the month's flow. */
  datatype FlowRow = FlowRow(date: Date, pump: Pump, dailyFlow: real, monthlyFlow: real)

  /** `monthlyFlows[monthKey] || dailyFlows[dayKey]`: the pump's total, or the day's flow when there is no total or it is 0. */
  function MonthlyFlowFor(monthly: map<Pump, real>, p: Pump, daily: real): real {
    if p in monthly && monthly[p] != 0.0 then monthly[p] else daily
  }

  /** Record `j` is the first of its date that counts toward pump `p`. */
  predicate FirstOfDay(s: seq<Observation>, j: nat, p: Pump)
    requires j < |s|
  {
    Qualifies(s[j], p) && forall i :: 0 <= i < j ==> !(Qualifies(s[i], p) && s[i].date == s[j].date)
  }

  /** The row record `j` emits for pump `p`: one when it is the first of its date for the pump. */
  function RowAt(s: seq<Observation>, j: nat, p: Pump, monthly: map<Pump, real>): seq<FlowRow>
    requires j < |s|
  {
    if FirstOfDay(s, j, p) then [FlowRow(s[j].date, p, s[j].dailyFlow, MonthlyFlowFor(monthly, p, s[j].dailyFlow))] else []
  }

  /**
   * The rows of `flowReport`, defined without the `seen` set: record by
   * record, pump 1 then pump 2, a row wherever a record is the first of its
   * date to count toward the pump.
   */
  function FlowRows(s: seq<Observation>, monthly: map<Pump, real>): seq<FlowRow> {
    if s == [] then [] else FlowRows(Front(s), monthly) + RowAt(s, |s| - 1, P1, monthly) + RowAt(s, |s| - 1, P2, monthly)
  }

  /** The keys `seen` holds after the records `s`: a date and pump for every record that counts toward the pump. */
  function SeenKeys(s: seq<Observation>): set<DayKey> {
    if s == [] then {}
    else
      var o := Last(s);
      SeenKeys(Front(s)) + (if Qualifies(o, P1) then {DayKey(o.date, P1)} else {}) + (if Qualifies(o, P2) then {DayKey(o.date, P2)} else {})
  }

  lemma {:induction false} SeenKeysMember(s: seq<Observation>, d: Date, p: Pump)
    ensures DayKey(d, p) in SeenKeys(s) <==> exists j :: 0 <= j < |s| && Qualifies(s[j], p) && s[j].date == d
    decreases |s|
  {
    if s != [] {
      var init, o := Front(s), Last(s);
      SeenKeysMember(init, d, p);
      assert s == init + [o];
      if exists j :: 0 <= j < |s| && Qualifies(s[j], p) && s[j].date == d {
        var j :| 0 <= j < |s| && Qualifies(s[j], p) && s[j].date == d;
        if j < |init| {
          assert init[j] == s[j];
        }
      }
      if exists j :: 0 <= j < |init| && Qualifies(init[j], p) && init[j].date == d {
        var j :| 0 <= j < |init| && Qualifies(init[j], p) && init[j].date == d;
        assert s[j] == init[j];
      }
    }
  }

  /** A record is the first of its date for a pump exactly when it counts and its key has not been seen. */
  lemma FirstOfDaySeen(s: seq<Observation>, j: nat, p: Pump)
    requires j < |s|
    ensures FirstOfDay(s, j, p) <==> Qualifies(s[j], p) && DayKey(s[j].date, p) !in SeenKeys(s[..j])
  {
    SeenKeysMember(s[..j], s[j].date, p);
    if !FirstOfDay(s, j, p) && Qualifies(s[j], p) {
      var i :| 0 <= i < j && Qualifies(s[i], p) && s[i].date == s[j].date;
      assert s[..j][i] == s[i];
    }
  }

  /**
   * One pump's step of the daily loop on a record with positive flow: a
   * running pump adds the flow to its day's `dailyFlows` entry and, if the
   * day's key is new to `seen`, records it and emits the row with the entry's
   * value and the monthly fallback.
   */
  method FlowPump(o: Observation, p: Pump, monthlyFlows: map<Pump, real>,
                  seen: set<DayKey>, dailyFlows: map<DayKey, real>, rows: seq<FlowRow>)
    returns (seen': set<DayKey>, dailyFlows': map<DayKey, real>, rows': seq<FlowRow>)
    requires o.dailyFlow > 0.0 && dailyFlows.Keys == seen
    ensures seen' == seen + (if IsActive(o, p) then {DayKey(o.date, p)} else {})
    ensures dailyFlows'.Keys == seen'
    ensures forall k :: k in dailyFlows' ==>
              dailyFlows'[k] == if IsActive(o, p) && k == DayKey(o.date, p)
                                then (if k in dailyFlows then dailyFlows[k] else 0.0) + o.dailyFlow
                                else dailyFlows[k]
    ensures rows' == rows + if IsActive(o, p) && DayKey(o.date, p) !in seen
      then [FlowRow(o.date, p, o.dailyFlow, MonthlyFlowFor(monthlyFlows, p, o.dailyFlow))] else []
  {
    seen', dailyFlows', rows' := seen, dailyFlows, rows;
    if !IsActive(o, p) {
      return;
    }
    var dayKey := DayKey(o.date, p);
    var previous := if dayKey in dailyFlows' then dailyFlows'[dayKey] else 0.0;
    dailyFlows' := dailyFlows'[dayKey := previous + o.dailyFlow];
    if dayKey in seen' {
      return;
    }
    seen' := seen' + {dayKey};
    var dailyFlow := dailyFlows'[dayKey];
    rows' := rows' + [FlowRow(o.date, p, dailyFlow, MonthlyFlowFor(monthlyFlows, p, dailyFlow))];
  }

  /** The loop over the day-window records that emits the rows, skipping records without positive flow. */
  method DailyFlowLoop(dailyReports: array<Observation>, monthlyFlows: map<Pump, real>) returns (rows: seq<FlowRow>)
    ensures rows == FlowRows(dailyReports[..], monthlyFlows)
  {
    var seen: set<DayKey> := {};
    var dailyFlows: map<DayKey, real> := map[];
    rows := [];
    var i := 0;
    while i < dailyReports.Length
      invariant i <= dailyReports.Length
      invariant seen == SeenKeys(dailyReports[..i]) && dailyFlows.Keys == seen
      invariant rows == FlowRows(dailyReports[..i], monthlyFlows)
    {
      var report := dailyReports[i];
      var s := dailyReports[..i + 1];
      assert s == dailyReports[..i] + [report];
      FrontLastSnoc(dailyReports[..i], report);
      assert s[..i] == dailyReports[..i];
      FirstOfDaySeen(s, i, P1);
      FirstOfDaySeen(s, i, P2);
      if report.dailyFlow > 0.0 {
        seen, dailyFlows, rows := FlowPump(report, P1, monthlyFlows, seen, dailyFlows, rows);
        seen, dailyFlows, rows := FlowPump(report, P2, monthlyFlows, seen, dailyFlows, rows);
      }
      i := i + 1;
    }
    assert dailyReports[..i] == dailyReports[..];
  }

  /**
   * `flowReport` after its queries: not found without day-window records;
   * otherwise the monthly totals over the month-window records and the rows
   * over the day-window records, or not found when no row results.
   */
  method FlowReport(dailyReports: array<Observation>, monthlyReports: array<Observation>)
    returns (answer: Answer<FlowRow>)
    ensures dailyReports.Length == 0 ==> answer == NotFound("No data available for the selected site and date range.")
    ensures dailyReports.Length > 0 ==>
      answer == Found(FlowRows(dailyReports[..], MonthlyFlows(monthlyReports[..])), "No active pump data available for the selected site.")
  {
    if dailyReports.Length == 0 {
      return NotFound("No data available for the selected site and date range.");
    }
    var monthlyFlows := MonthlyFlowLoop(monthlyReports);
    var rows := DailyFlowLoop(dailyReports, monthlyFlows);
    answer := Found(rows, "No active pump data available for the selected site.");
  }
}
