// Properties of the flow model: the rows are keyed by date and pump without
// repetition, each comes from the first record of its date that counts, every
// such record has its row, the monthly fallback, and skipped records.

module FlowFacts {
  import opened Telemetry
  import opened Flow

  /** Being the first of its date does not depend on the records after it. */
  lemma FirstOfDayPrefix(s: seq<Observation>, n: nat, j: nat, p: Pump)
    requires j < n <= |s|
    ensures FirstOfDay(s[..n], j, p) <==> FirstOfDay(s, j, p)
  {
    assert forall i :: 0 <= i <= j ==> s[..n][i] == s[i];
  }

  /** Every row is emitted by a record that is the first of its date to count toward the row's pump, with that record's flow. */
  lemma {:induction false} FlowRowsSound(s: seq<Observation>, monthly: map<Pump, real>)
    ensures forall r :: r in FlowRows(s, monthly) ==>
      exists j :: (0 <= j < |s| && FirstOfDay(s, j, r.pump) && r.date == s[j].date && r.dailyFlow == s[j].dailyFlow &&
        r.monthlyFlow == MonthlyFlowFor(monthly, r.pump, s[j].dailyFlow))
    decreases |s|
  {
    if s != [] {
      var init := Front(s);
      FlowRowsSound(init, monthly);
      forall r | r in FlowRows(s, monthly)
        ensures exists j :: (0 <= j < |s| && FirstOfDay(s, j, r.pump) && r.date == s[j].date && r.dailyFlow == s[j].dailyFlow &&
          r.monthlyFlow == MonthlyFlowFor(monthly, r.pump, s[j].dailyFlow))
      {
        if r in FlowRows(init, monthly) {
          var j :| 0 <= j < |init| && FirstOfDay(init, j, r.pump) && r.date == init[j].date && r.dailyFlow == init[j].dailyFlow &&
            r.monthlyFlow == MonthlyFlowFor(monthly, r.pump, init[j].dailyFlow);
          FirstOfDayPrefix(s, |s| - 1, j, r.pump);
          assert init[j] == s[j];
        } else {
          assert r in RowAt(s, |s| - 1, P1, monthly) || r in RowAt(s, |s| - 1, P2, monthly);
        }
      }
    }
  }

  /** A row's key was seen by the time its record was processed: its record counts toward the row's pump. */
  lemma FlowRowsSeen(s: seq<Observation>, monthly: map<Pump, real>)
    ensures forall r :: r in FlowRows(s, monthly) ==> DayKey(r.date, r.pump) in SeenKeys(s)
  {
    FlowRowsSound(s, monthly);
    forall r | r in FlowRows(s, monthly)
      ensures DayKey(r.date, r.pump) in SeenKeys(s)
    {
      SeenKeysMember(s, r.date, r.pump);
    }
  }

  /** No two rows share a date and a pump. */
  lemma {:induction false} FlowRowsUnique(s: seq<Observation>, monthly: map<Pump, real>)
    ensures forall i, j :: 0 <= i < j < |FlowRows(s, monthly)| ==>
      DayKey(FlowRows(s, monthly)[i].date, FlowRows(s, monthly)[i].pump) != DayKey(FlowRows(s, monthly)[j].date, FlowRows(s, monthly)[j].pump)
    decreases |s|
  {
    if s != [] {
      var init := Front(s);
      var n := |s| - 1;
      FlowRowsUnique(init, monthly);
      FlowRowsSeen(init, monthly);
      assert s[..n] == init;
      FirstOfDaySeen(s, n, P1);
      FirstOfDaySeen(s, n, P2);
      var earlier := FlowRows(init, monthly);
      var added := RowAt(s, n, P1, monthly) + RowAt(s, n, P2, monthly);
      var rows := FlowRows(s, monthly);
      assert rows == earlier + added;
      assert forall r :: r in added ==> DayKey(r.date, r.pump) !in SeenKeys(init);
      assert forall i, j :: 0 <= i < j < |added| ==> added[i].pump == P1 && added[j].pump == P2;
      forall i, j | 0 <= i < j < |rows|
        ensures DayKey(rows[i].date, rows[i].pump) != DayKey(rows[j].date, rows[j].pump)
      {
        if j < |earlier| {
          assert rows[i] == earlier[i] && rows[j] == earlier[j];
        } else if i < |earlier| {
          assert rows[i] == earlier[i] && earlier[i] in earlier;
          assert rows[j] == added[j - |earlier|] && added[j - |earlier|] in added;
        } else {
          assert rows[i] == added[i - |earlier|] && rows[j] == added[j - |earlier|];
        }
      }
    }
  }

  /** The first record of a date that counts toward a pump emits its row. */
  lemma {:induction false} FirstOfDayHasRow(s: seq<Observation>, j: nat, p: Pump, monthly: map<Pump, real>)
    requires j < |s| && FirstOfDay(s, j, p)
    ensures FlowRow(s[j].date, p, s[j].dailyFlow, MonthlyFlowFor(monthly, p, s[j].dailyFlow)) in FlowRows(s, monthly)
    decreases |s|
  {
    var init := Front(s);
    if j < |init| {
      FirstOfDayPrefix(s, |s| - 1, j, p);
      assert init[j] == s[j];
      FirstOfDayHasRow(init, j, p, monthly);
    } else {
      assert RowAt(s, j, p, monthly)[0] in RowAt(s, j, p, monthly);
    }
  }

  /** Among the records of its date that count toward a pump, a first one exists. */
  lemma {:induction false} FirstOfDayExists(s: seq<Observation>, j: nat, p: Pump)
    requires j < |s| && Qualifies(s[j], p)
    ensures exists i :: 0 <= i <= j && FirstOfDay(s, i, p) && s[i].date == s[j].date
    decreases j
  {
    if !FirstOfDay(s, j, p) {
      var i :| 0 <= i < j && Qualifies(s[i], p) && s[i].date == s[j].date;
      FirstOfDayExists(s, i, p);
    }
  }

  /** Every date and pump that some record counts toward has its row. */
  lemma FlowRowsComplete(s: seq<Observation>, monthly: map<Pump, real>, j: nat, p: Pump)
    requires j < |s| && Qualifies(s[j], p)
    ensures exists r :: r in FlowRows(s, monthly) && r.date == s[j].date && r.pump == p
  {
    FirstOfDayExists(s, j, p);
    var i :| 0 <= i <= j && FirstOfDay(s, i, p) && s[i].date == s[j].date;
    FirstOfDayHasRow(s, i, p, monthly);
  }

  /**
   * The monthly figure of a row: the pump's total over the month-window
   * records when one of them counts toward it, and the day's flow otherwise.
   */
  lemma MonthlyFallback(m: seq<Observation>, p: Pump, daily: real)
    ensures MonthlyFlowFor(MonthlyFlows(m), p, daily) == if HasFlow(m, p) then FlowTotal(m, p) else daily
  {
    FlowTotalPositive(m, p);
  }

  /** A record without positive flow changes neither the rows nor any total. */
  lemma NoFlowSkipped(s: seq<Observation>, o: Observation, monthly: map<Pump, real>, p: Pump)
    requires o.dailyFlow <= 0.0
    ensures FlowRows(s + [o], monthly) == FlowRows(s, monthly)
    ensures FlowTotal(s + [o], p) == FlowTotal(s, p)
  {
    FrontLastSnoc(s, o);
    FlowTotalSnoc(s, o, p);
  }

  /** A pump that is not running in a record gets neither a row nor flow from it. */
  lemma IdlePumpSkipped(s: seq<Observation>, o: Observation, monthly: map<Pump, real>, p: Pump)
    requires !IsActive(o, p)
    ensures forall r :: r in FlowRows(s + [o], monthly) && r.pump == p ==> r in FlowRows(s, monthly)
    ensures FlowTotal(s + [o], p) == FlowTotal(s, p)
  {
    FrontLastSnoc(s, o);
    FlowTotalSnoc(s, o, p);
  }

  function Flowing(d: Date, t: TimeOfDay, flow: real): Observation {
    Observation(d, t, true, false, true, Quiet, Quiet, flow)
  }

  /** Flows of 10.0 at 08:00 and 15.0 at 12:00 on one date give one pump 1 row, with the first record's 10.0. */
  lemma FirstRecordExample(d: Date, monthly: map<Pump, real>)
    ensures FlowRows([Flowing(d, 28_800_000, 10.0), Flowing(d, 43_200_000, 15.0)], monthly) ==
      [FlowRow(d, P1, 10.0, MonthlyFlowFor(monthly, P1, 10.0))]
  {
    var r0, r1 := Flowing(d, 28_800_000, 10.0), Flowing(d, 43_200_000, 15.0);
    var s := [r0, r1];
    FrontLastSnoc([r0], r1);
    FrontLastSnoc([], r0);
    assert s == [r0] + [r1];
    assert [r0] == [] + [r0];
    assert FirstOfDay([r0], 0, P1);
    var row := FlowRow(d, P1, 10.0, MonthlyFlowFor(monthly, P1, 10.0));
    assert RowAt([r0], 0, P1, monthly) == [row];
    assert RowAt([r0], 0, P2, monthly) == [];
    assert FlowRows([r0], monthly) == [row];
    assert !FirstOfDay(s, 1, P1) by {
      assert Qualifies(s[0], P1) && s[0].date == s[1].date;
    }
    assert RowAt(s, 1, P1, monthly) == [] && RowAt(s, 1, P2, monthly) == [];
  }
}
