// Energy figures: the per-record rows of `energyReport`, and the daily
// counter deltas of `EnergyConsumptionReport`.

module Energy {
  import opened Telemetry
  import opened PumpHours
  import opened DayRuns

  // ---------------------------------------------------------------------------
  // energyReport

  /** A pump's entry in an `energyReport` row: the pump and its measurements. */
  datatype PumpEntry = PumpEntry(pump: Pump, reading: PumpReading)

  /** An `energyReport` row: the record's date, its `HH:mm` time as minutes of the day, and the active pumps. */
  datatype EnergyRow = EnergyRow(date: Date, minute: int, pumps: seq<PumpEntry>)

  /** The `HH:mm` display of a record's time, as minutes since midnight. */
  function MinuteOfDay(o: Observation): (m: int)
    ensures 0 <= m < 1440
    ensures m * 60_000 <= o.timeMs < (m + 1) * 60_000
  {
    o.timeMs / 60_000
  }

  /** The entries of the running pumps, pump 1 first. */
  function PumpEntries(o: Observation): seq<PumpEntry> {
    (if IsActive(o, P1) then [PumpEntry(P1, ReadingOf(o, P1))] else []) +
    (if IsActive(o, P2) then [PumpEntry(P2, ReadingOf(o, P2))] else [])
  }

  function RowOf(o: Observation): EnergyRow {
    EnergyRow(o.date, MinuteOfDay(o), PumpEntries(o))
  }

  /** The rows of `energyReport`: one per record, dropping those with no running pump. */
  function EnergyReportRows(s: seq<Observation>): seq<EnergyRow> {
    if s == [] then []
    else EnergyReportRows(Front(s)) + (if PumpEntries(Last(s)) != [] then [RowOf(Last(s))] else [])
  }

  /**
   * A row lists exactly the running pumps, each once, pump 1 before pump 2,
   * each with its own measurements.
   */
  lemma PumpEntriesExact(o: Observation)
    ensures forall p :: IsActive(o, p) <==> exists j :: 0 <= j < |PumpEntries(o)| && PumpEntries(o)[j].pump == p
    ensures forall j :: 0 <= j < |PumpEntries(o)| ==> PumpEntries(o)[j].reading == ReadingOf(o, PumpEntries(o)[j].pump)
    ensures forall j, k :: 0 <= j < k < |PumpEntries(o)| ==> PumpEntries(o)[j].pump == P1 && PumpEntries(o)[k].pump == P2
  {
    var es := PumpEntries(o);
    forall p | IsActive(o, p)
      ensures exists j :: 0 <= j < |es| && es[j].pump == p
    {
      if p == P1 {
        assert es[0].pump == P1;
      } else {
        assert es[|es| - 1].pump == P2;
      }
    }
  }

  /** Every row comes from a record with a running pump. */
  lemma {:induction false} EnergyReportRowsSound(s: seq<Observation>)
    ensures forall r :: r in EnergyReportRows(s) ==> r.pumps != [] && exists j :: 0 <= j < |s| && r == RowOf(s[j])
    decreases |s|
  {
    if s != [] {
      var init, o := Front(s), Last(s);
      EnergyReportRowsSound(init);
      forall r | r in EnergyReportRows(s)
        ensures r.pumps != [] && exists j :: 0 <= j < |s| && r == RowOf(s[j])
      {
        if r in EnergyReportRows(init) {
          var j :| 0 <= j < |init| && r == RowOf(init[j]);
          assert s[j] == init[j];
        } else {
          assert s[|s| - 1] == o;
        }
      }
    }
  }

  /** Every record with a running pump has its row; a record with none has no row. */
  lemma {:induction false} EnergyReportRowsComplete(s: seq<Observation>)
    ensures forall j :: 0 <= j < |s| && (IsActive(s[j], P1) || IsActive(s[j], P2)) ==> RowOf(s[j]) in EnergyReportRows(s)
    decreases |s|
  {
    if s != [] {
      var init, o := Front(s), Last(s);
      EnergyReportRowsComplete(init);
      forall j | 0 <= j < |s| && (IsActive(s[j], P1) || IsActive(s[j], P2))
        ensures RowOf(s[j]) in EnergyReportRows(s)
      {
        if j < |init| {
          assert s[j] == init[j];
          assert RowOf(init[j]) in EnergyReportRows(init);
        } else {
          assert PumpEntries(o) != [] by {
            if IsActive(o, P1) {
              assert PumpEntries(o)[0].pump == P1;
            }
          }
        }
      }
    }
  }

  /** A record with no running pump adds no row. */
  lemma IdleRecordNoRow(s: seq<Observation>, o: Observation)
    requires !IsActive(o, P1) && !IsActive(o, P2)
    ensures EnergyReportRows(s + [o]) == EnergyReportRows(s)
  {
    FrontLastSnoc(s, o);
  }

  /** `energyReport` has a row exactly when some record has a running pump. */
  lemma EnergyReportRowsExist(s: seq<Observation>)
    ensures EnergyReportRows(s) != [] <==> exists j :: 0 <= j < |s| && (IsActive(s[j], P1) || IsActive(s[j], P2))
  {
    EnergyReportRowsSound(s);
    EnergyReportRowsComplete(s);
    var rows := EnergyReportRows(s);
    if rows != [] {
      assert rows[0] in rows;
      var j :| 0 <= j < |s| && rows[0] == RowOf(s[j]);
      assert PumpEntries(s[j]) != [];
    }
  }

  /**
   * `energyReport` after its query: not found without records; otherwise the
   * rows, or not found when no record has a running pump.
   */
  function EnergyReport(reports: seq<Observation>): (a: Answer<EnergyRow>)
    ensures reports == [] ==> a == NotFound("No data available for the selected site.")
    ensures reports != [] ==>
      (a.Rows? <==> exists j :: 0 <= j < |reports| && (IsActive(reports[j], P1) || IsActive(reports[j], P2)))
    ensures reports != [] && a.NotFound? ==> a.message == "No active pump data available for the selected site."
    ensures a.Rows? ==> a.rows == EnergyReportRows(reports)
  {
    if reports == [] then NotFound("No data available for the selected site.")
    else
      EnergyReportRowsExist(reports);
      Found(EnergyReportRows(reports), "No active pump data available for the selected site.")
  }

  // ---------------------------------------------------------------------------
  // Energy counter samples

  /** A pushed `{ kwh, timeStamp }` record; within one date group, the time of day orders them. */
  datatype KwhSample = KwhSample(kwh: real, timeMs: TimeOfDay)

  function SampleOf(o: Observation, p: Pump): KwhSample {
    KwhSample(KwhOf(o, p), o.timeMs)
  }

  /** The samples pushed for a pump that is running, in record order. */
  function Push(rs: seq<KwhSample>, o: Observation, p: Pump): seq<KwhSample> {
    if IsActive(o, p) then rs + [SampleOf(o, p)] else rs
  }

  /** The samples of pump `p` over the records `s`: one per record in which it runs. */
  function ActiveSamples(s: seq<Observation>, p: Pump): seq<KwhSample> {
    if s == [] then [] else Push(ActiveSamples(Front(s), p), Last(s), p)
  }

  /**
   * The first element after the stable sort by time: the earliest sample,
   * the first pushed among equal times.
   */
  function Earliest(rs: seq<KwhSample>): KwhSample
    requires rs != []
  {
    if |rs| == 1 then rs[0]
    else
      var e := Earliest(Front(rs));
      if Last(rs).timeMs < e.timeMs then Last(rs) else e
  }

  /** The last element after the stable sort by time: the latest sample, the last pushed among equal times. */
  function Latest(rs: seq<KwhSample>): KwhSample
    requires rs != []
  {
    if |rs| == 1 then rs[0]
    else
      var l := Latest(Front(rs));
      if Last(rs).timeMs >= l.timeMs then Last(rs) else l
  }

  /** The ends of the sort are samples of the group, and no sample lies outside their times. */
  lemma {:induction false} EndsBound(rs: seq<KwhSample>)
    requires rs != []
    ensures Earliest(rs) in rs && Latest(rs) in rs
    ensures forall j :: 0 <= j < |rs| ==> Earliest(rs).timeMs <= rs[j].timeMs <= Latest(rs).timeMs
    decreases |rs|
  {
    if |rs| > 1 {
      var init := Front(rs);
      EndsBound(init);
      assert rs == init + [Last(rs)];
      forall j | 0 <= j < |rs|
        ensures Earliest(rs).timeMs <= rs[j].timeMs <= Latest(rs).timeMs
      {
        if j < |init| {
          assert rs[j] == init[j];
        }
      }
    }
  }

  /** Samples pushed in time order need no sorting: the ends are the first and the last pushed. */
  lemma {:induction false} EndsOfOrdered(rs: seq<KwhSample>)
    requires rs != []
    requires forall j, k :: 0 <= j <= k < |rs| ==> rs[j].timeMs <= rs[k].timeMs
    ensures Earliest(rs) == rs[0] && Latest(rs) == Last(rs)
    decreases |rs|
  {
    if |rs| > 1 {
      var init := Front(rs);
      assert forall j, k :: 0 <= j <= k < |init| ==> init[j].timeMs <= init[k].timeMs by {
        forall j, k | 0 <= j <= k < |init|
          ensures init[j].timeMs <= init[k].timeMs
        {
          assert init[j] == rs[j] && init[k] == rs[k];
        }
      }
      EndsOfOrdered(init);
      assert init[0] == rs[0] && Last(init) == rs[|rs| - 2];
    }
  }

  /** `sortedRecords[last].kwh - sortedRecords[0].kwh`, with no sample the figure is absent. */
  function DeltaOf(rs: seq<KwhSample>): Option<real> {
    if rs == [] then None else Some(Latest(rs).kwh - Earliest(rs).kwh)
  }

  /** A day's energy figure for both pumps, absent for a pump with no running record that day. */
  datatype EnergyDay = EnergyDay(date: Date, kwh1: Option<real>, kwh2: Option<real>)

  function KwhFor(d: EnergyDay, p: Pump): Option<real> {
    match p
    case P1 => d.kwh1
    case P2 => d.kwh2
  }

  function DayEnergy(run: seq<Observation>): EnergyDay
    requires run != []
  {
    EnergyDay(RunDate(run), DeltaOf(ActiveSamples(run, P1)), DeltaOf(ActiveSamples(run, P2)))
  }

  /** One figure per run, in order. */
  function DayEnergies(rs: seq<seq<Observation>>): (ds: seq<EnergyDay>)
    requires forall k :: 0 <= k < |rs| ==> rs[k] != []
    ensures |ds| == |rs|
    ensures forall k :: 0 <= k < |rs| ==> ds[k] == DayEnergy(rs[k])
  {
    if rs == [] then [] else DayEnergies(Front(rs)) + [DayEnergy(Last(rs))]
  }

  /** The daily energy figures of a record sequence: one per maximal same-date run. */
  function EnergyDays(s: seq<Observation>): seq<EnergyDay> {
    DayEnergies(Runs(s))
  }

  lemma DayEnergiesSnoc(rs: seq<seq<Observation>>, r: seq<Observation>)
    requires forall k :: 0 <= k < |rs| ==> rs[k] != []
    requires r != []
    ensures DayEnergies(rs + [r]) == DayEnergies(rs) + [DayEnergy(r)]
  {
    FrontLastSnoc(rs, r);
  }

  /** Pushing a sample no earlier than those already pushed keeps them in time order. */
  lemma PushOrdered(rs: seq<KwhSample>, o: Observation, p: Pump)
    requires forall j, k :: 0 <= j <= k < |rs| ==> rs[j].timeMs <= rs[k].timeMs
    requires forall j :: 0 <= j < |rs| ==> rs[j].timeMs <= o.timeMs
    ensures forall j, k :: 0 <= j <= k < |Push(rs, o, p)| ==> Push(rs, o, p)[j].timeMs <= Push(rs, o, p)[k].timeMs
    ensures forall j :: 0 <= j < |Push(rs, o, p)| ==> Push(rs, o, p)[j].timeMs <= o.timeMs
  {
    if IsActive(o, p) {
      var rs' := rs + [SampleOf(o, p)];
      assert forall j :: 0 <= j < |rs| ==> rs'[j] == rs[j];
    }
  }

  /** A pump's samples over sorted records of one date are in time order. */
  lemma {:induction false} SamplesOrdered(day: seq<Observation>, p: Pump)
    requires day != [] && Sorted(day) && Uniform(day)
    ensures forall j, k :: 0 <= j <= k < |ActiveSamples(day, p)| ==>
      ActiveSamples(day, p)[j].timeMs <= ActiveSamples(day, p)[k].timeMs
    ensures forall j :: 0 <= j < |ActiveSamples(day, p)| ==> ActiveSamples(day, p)[j].timeMs <= Last(day).timeMs
    decreases |day|
  {
    var init, o := Front(day), Last(day);
    if init != [] {
      assert forall j :: 0 <= j < |init| ==> init[j] == day[j];
      assert Sorted(init) && Uniform(init);
      SamplesOrdered(init, p);
      assert Last(init) == day[|day| - 2];
      assert NotBefore(Last(init), o) && Last(init).date == o.date;
    }
    PushOrdered(ActiveSamples(init, p), o, p);
  }

  /**
   * On sorted records of one date the day's figure for a running pump is the
   * reading of its last running record minus that of its first, with no
   * clamping: a counter that went backwards gives a negative figure.
   */
  lemma DayEnergyOfSorted(day: seq<Observation>, p: Pump)
    requires day != [] && Sorted(day) && Uniform(day)
    requires ActiveSamples(day, p) != []
    ensures KwhFor(DayEnergy(day), p) == Some(Last(ActiveSamples(day, p)).kwh - ActiveSamples(day, p)[0].kwh)
  {
    SamplesOrdered(day, p);
    EndsOfOrdered(ActiveSamples(day, p));
  }

  // ---------------------------------------------------------------------------
  // The daily energy fold

  /** A date group of the daily fold: its date and both pumps' pushed samples. */
  datatype EnergyGroup = EnergyGroup(date: Date, r1: seq<KwhSample>, r2: seq<KwhSample>)

  /** The daily fold's accumulator: the finalised figures and the group still open, if any. */
  datatype EnergyPass = EnergyPass(closed: seq<EnergyDay>, open: Option<EnergyGroup>)

  /** The group for `o`: the open one, or a new one for its date with no samples. */
  function EnergyGroupFor(st: EnergyPass, o: Observation): EnergyGroup {
    match st.open
    case None => EnergyGroup(o.date, [], [])
    case Some(g) => g
  }

  /** Record `o` pushes a sample for each running pump. */
  function PushBoth(g: EnergyGroup, o: Observation): EnergyGroup {
    EnergyGroup(g.date, Push(g.r1, o, P1), Push(g.r2, o, P2))
  }

  /** The day close: each pump's figure from the ends of its sorted samples. */
  function CloseEnergy(g: EnergyGroup): EnergyDay {
    EnergyDay(g.date, DeltaOf(g.r1), DeltaOf(g.r2))
  }

  /** One call of the daily reduce callback. */
  function EnergyStep(st: EnergyPass, o: Observation, closes: bool): EnergyPass {
    var g := PushBoth(EnergyGroupFor(st, o), o);
    if closes then EnergyPass(st.closed + [CloseEnergy(g)], None) else EnergyPass(st.closed, Some(g))
  }

  /** The daily fold's accumulator after its first `i` records. */
  function EnergyPassAt(s: seq<Observation>, i: nat): EnergyPass
    requires i <= |s|
  {
    if i == 0 then EnergyPass([], None) else EnergyStep(EnergyPassAt(s, i - 1), s[i - 1], ClosesAt(s, i - 1))
  }

  /** The group of a run: its date and both pumps' samples over it. */
  function RunEnergyGroup(run: seq<Observation>): EnergyGroup
    requires run != []
  {
    EnergyGroup(RunDate(run), ActiveSamples(run, P1), ActiveSamples(run, P2))
  }

  lemma SamplesAppend(day: seq<Observation>, o: Observation, p: Pump)
    ensures ActiveSamples(day + [o], p) == Push(ActiveSamples(day, p), o, p)
  {
    FrontLastSnoc(day, o);
  }

  /** What the accumulator holds after the records `pre`, in terms of the runs of `pre`. */
  ghost predicate EnergyTracks(st: EnergyPass, pre: seq<Observation>) {
    match st.open
    case None => st.closed == EnergyDays(pre)
    case Some(g) => pre != [] && g.date == Last(pre).date && st.closed == DayEnergies(Front(Runs(pre))) && g == RunEnergyGroup(Last(Runs(pre)))
  }

  lemma EnergyTracksNew(st: EnergyPass, pre: seq<Observation>, o: Observation, closes: bool)
    requires st.open.None? && EnergyTracks(st, pre)
    requires pre == [] || Last(pre).date != o.date
    ensures EnergyTracks(EnergyStep(st, o, closes), pre + [o])
  {
    var rs: seq<seq<Observation>> := Runs(pre);
    RunsNew(pre, o);
    assert Runs(pre + [o]) == rs + [[o]];
    FrontLastSnoc(rs, [o]);
    FrontLastSnoc(pre, o);
    SamplesAppend([], o, P1);
    SamplesAppend([], o, P2);
    assert PushBoth(EnergyGroup(o.date, [], []), o) == RunEnergyGroup([o]);
    if closes {
      DayEnergiesSnoc(rs, [o]);
    }
  }

  lemma EnergyJoinRun(st: EnergyPass, pre: seq<Observation>, o: Observation)
    requires st.open.Some? && EnergyTracks(st, pre)
    requires Last(pre).date == o.date
    ensures Runs(pre) != []
    ensures Front(Runs(pre + [o])) == Front(Runs(pre))
    ensures Last(Runs(pre + [o])) == Last(Runs(pre)) + [o]
    ensures PushBoth(st.open.value, o) == RunEnergyGroup(Last(Runs(pre)) + [o])
  {
    var rs: seq<seq<Observation>> := Runs(pre);
    var prev := Last(rs);
    var run := prev + [o];
    RunsExtend(pre, o);
    FrontLastSnoc(Front(rs), run);
    SamplesAppend(prev, o, P1);
    SamplesAppend(prev, o, P2);
    assert RunDate(run) == RunDate(prev);
  }

  lemma EnergyTracksJoinClose(st: EnergyPass, pre: seq<Observation>, o: Observation)
    requires st.open.Some? && EnergyTracks(st, pre)
    requires Last(pre).date == o.date
    ensures EnergyTracks(EnergyStep(st, o, true), pre + [o])
  {
    EnergyJoinRun(st, pre, o);
    var run := Last(Runs(pre)) + [o];
    assert CloseEnergy(PushBoth(st.open.value, o)) == DayEnergy(run);
    DayEnergiesSnoc(Front(Runs(pre)), run);
    assert Runs(pre + [o]) == Front(Runs(pre)) + [run];
  }

  lemma EnergyTracksJoinKeep(st: EnergyPass, pre: seq<Observation>, o: Observation)
    requires st.open.Some? && EnergyTracks(st, pre)
    requires Last(pre).date == o.date
    ensures EnergyTracks(EnergyStep(st, o, false), pre + [o])
  {
    EnergyJoinRun(st, pre, o);
    FrontLastSnoc(pre, o);
  }

  lemma EnergyPassOpen(s: seq<Observation>, i: nat)
    requires i <= |s|
    ensures EnergyPassAt(s, i).open.Some? <==> 0 < i && !ClosesAt(s, i - 1)
  {
  }

  lemma EnergyTracksStep(st: EnergyPass, pre: seq<Observation>, o: Observation, closes: bool)
    requires EnergyTracks(st, pre)
    requires st.open.None? ==> pre == [] || Last(pre).date != o.date
    requires st.open.Some? ==> pre != [] && Last(pre).date == o.date
    ensures EnergyTracks(EnergyStep(st, o, closes), pre + [o])
  {
    if st.open.None? {
      EnergyTracksNew(st, pre, o, closes);
    } else if closes {
      EnergyTracksJoinClose(st, pre, o);
    } else {
      EnergyTracksJoinKeep(st, pre, o);
    }
  }

  lemma EnergyPassNext(s: seq<Observation>, j: nat)
    requires j < |s|
    ensures EnergyPassAt(s, j + 1) == EnergyStep(EnergyPassAt(s, j), s[j], ClosesAt(s, j))
  {
  }

  lemma EnergyTracksAt(s: seq<Observation>, i: nat)
    requires 0 < i <= |s| && EnergyTracks(EnergyPassAt(s, i - 1), s[..i - 1])
    ensures EnergyTracks(EnergyPassAt(s, i), s[..i])
  {
    var j := i - 1;
    var st := EnergyPassAt(s, j);
    var pre, o := s[..j], s[j];
    assert (st.open.None? ==> pre == [] || Last(pre).date != o.date) &&
           (st.open.Some? ==> pre != [] && Last(pre).date == o.date) by {
      EnergyPassOpen(s, j);
      StepPremises(s, j);
    }
    assert EnergyTracks(EnergyStep(st, o, ClosesAt(s, j)), pre + [o]) by {
      EnergyTracksStep(st, pre, o, ClosesAt(s, j));
    }
    assert EnergyPassAt(s, i) == EnergyStep(st, o, ClosesAt(s, j)) by {
      EnergyPassNext(s, j);
    }
    assert s[..i] == pre + [o];
  }

  lemma {:induction false} EnergyPassTracks(s: seq<Observation>, i: nat)
    requires i <= |s|
    ensures EnergyTracks(EnergyPassAt(s, i), s[..i])
    decreases i
  {
    if 0 < i {
      EnergyPassTracks(s, i - 1);
      EnergyTracksAt(s, i);
    } else {
      assert s[..i] == [] && Runs([]) == [];
    }
  }

  /** The daily energy fold finalises, in order, exactly the figures of the maximal same-date runs. */
  lemma EnergyPassIsEnergyDays(s: seq<Observation>)
    ensures EnergyPassAt(s, |s|).open == None
    ensures EnergyPassAt(s, |s|).closed == EnergyDays(s)
  {
    EnergyPassTracks(s, |s|);
    EnergyPassOpen(s, |s|);
    assert s[..|s|] == s;
  }

  /** One pump's figure at the day close: none without samples, else the sorted ends' difference. */
  method PumpDelta(records: seq<KwhSample>) returns (delta: Option<real>)
    ensures delta == DeltaOf(records)
  {
    if |records| > 0 {
      var first, last := Earliest(records), Latest(records);
      delta := Some(last.kwh - first.kwh);
    } else {
      delta := None;
    }
  }

  /**
   * The daily reduce callback of `EnergyConsumptionReport` on record `index`:
   * look up or create the date group, push a sample for each running pump,
   * and when the next record has another date (or there is none) compute
   * each pump's figure.
   */
  method EnergyRecord(reports: array<Observation>, index: nat, st: EnergyPass) returns (next: EnergyPass)
    requires index < reports.Length
    ensures next == EnergyStep(st, reports[index], ClosesAt(reports[..], index))
  {
    var o := reports[index];
    var group := EnergyGroupFor(st, o);
    var r1, r2 := group.r1, group.r2;
    if IsActive(o, P1) {
      r1 := r1 + [SampleOf(o, P1)];
    }
    if IsActive(o, P2) {
      r2 := r2 + [SampleOf(o, P2)];
    }
    group := EnergyGroup(group.date, r1, r2);
    var isLastReport := index == reports.Length - 1;
    if isLastReport || reports[index + 1].date != o.date {
      var kwh1 := PumpDelta(r1);
      var kwh2 := PumpDelta(r2);
      next := EnergyPass(st.closed + [EnergyDay(group.date, kwh1, kwh2)], None);
    } else {
      next := EnergyPass(st.closed, Some(group));
    }
  }

  /** The daily fold of `EnergyConsumptionReport` over the day-window records. */
  method DailyEnergy(reports: array<Observation>) returns (days: seq<EnergyDay>)
    ensures days == EnergyDays(reports[..])
  {
    var acc := EnergyPass([], None);
    var index := 0;
    while index < reports.Length
      invariant index <= reports.Length
      invariant acc == EnergyPassAt(reports[..], index)
    {
      acc := EnergyRecord(reports, index, acc);
      index := index + 1;
    }
    days := acc.closed;
    EnergyPassIsEnergyDays(reports[..]);
  }
}
