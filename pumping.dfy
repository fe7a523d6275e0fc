// Pump running hours (`pumpingReport`): the per-pump edge-triggered state
// machine, the daily fold with its day buckets, the monthly fold, and the
// assembled rows.

module Pumping {
  import opened Telemetry
  import opened PumpHours
  import opened DayRuns

  /** A pump's transient run state: idle, or running since a logged date and time. */
  datatype RunState = Idle | Running(sinceDate: Date, since: TimeOfDay)

  /** A pump's run state and the milliseconds credited to it so far in the day. */
  datatype PumpTally = PumpTally(state: RunState, ms: int)

  /** The state of both pumps when a day group is created. */
  const Fresh: PumpTally := PumpTally(Idle, 0)

  /**
   * Milliseconds credited when a run that began at `since` on `sinceDate` is
   * stopped by record `o`: the pump hours between the two logged times, but
   * only when the start was logged on the record's own date.
   */
  function StopGain(sinceDate: Date, since: TimeOfDay, o: Observation): (g: int)
    ensures 0 <= g < MsPerDay
    ensures sinceDate != o.date ==> g == 0
  {
    if sinceDate == o.date then PumpHoursMs(since, LogTime(o)) else 0
  }

  /** A run started earlier on the record's own date is credited exactly its elapsed time. */
  lemma StopGainSameDay(sinceDate: Date, since: TimeOfDay, o: Observation)
    requires sinceDate == o.date && since <= LogTime(o)
    ensures StopGain(sinceDate, since, o) == LogTime(o) - since
  {
    PumpHoursMsCases(since, LogTime(o));
  }

  /** One record's effect on a pump's run state: an OFF to ON edge records the start, an ON to OFF edge stops the run. */
  function NextState(st: RunState, o: Observation, p: Pump): RunState {
    if IsActive(o, p) then (if st.Idle? then Running(o.date, LogTime(o)) else st) else Idle
  }

  /** The milliseconds one record credits to a pump: the elapsed run on an ON to OFF edge, otherwise nothing. */
  function EdgeGain(st: RunState, o: Observation, p: Pump): int {
    if !IsActive(o, p) && st.Running? then StopGain(st.sinceDate, st.since, o) else 0
  }

  /** What the day close credits to a pump still running at the day's last record `o`. */
  function CloseGain(st: RunState, o: Observation): (g: int)
    ensures 0 <= g < MsPerDay
    ensures st.Idle? ==> g == 0
  {
    match st
    case Idle => 0
    case Running(d, since) => StopGain(d, since, o)
  }

  function Step(t: PumpTally, o: Observation, p: Pump): PumpTally {
    PumpTally(NextState(t.state, o, p), t.ms + EdgeGain(t.state, o, p))
  }

  /** The state machine run over the records of one day, from a fresh group. */
  function Fold(day: seq<Observation>, p: Pump): PumpTally {
    if day == [] then Fresh else Step(Fold(day[..|day| - 1], p), Last(day), p)
  }

  /** A pump's running milliseconds for one day: the fold, then the force-close at the day's last record. */
  function DayMs(day: seq<Observation>, p: Pump): int
    requires day != []
  {
    var t := Fold(day, p);
    t.ms + CloseGain(t.state, Last(day))
  }

  /** A finalised day bucket: the date and each pump's running milliseconds. */
  datatype DayTotal = DayTotal(date: Date, ms1: int, ms2: int)

  function MsFor(d: DayTotal, p: Pump): int {
    match p
    case P1 => d.ms1
    case P2 => d.ms2
  }

  function Summarise(day: seq<Observation>): DayTotal
    requires day != []
  {
    DayTotal(RunDate(day), DayMs(day, P1), DayMs(day, P2))
  }

  /** One finalised bucket per run, in order. */
  function Summaries(rs: seq<seq<Observation>>): (ds: seq<DayTotal>)
    requires forall k :: 0 <= k < |rs| ==> rs[k] != []
    ensures |ds| == |rs|
    ensures forall k :: 0 <= k < |rs| ==> ds[k] == Summarise(rs[k])
  {
    if rs == [] then [] else Summaries(rs[..|rs| - 1]) + [Summarise(Last(rs))]
  }

  /** The daily buckets of a record sequence: one per maximal same-date run. */
  function DailyTotals(s: seq<Observation>): seq<DayTotal> {
    Summaries(Runs(s))
  }

  lemma SummariesSnoc(rs: seq<seq<Observation>>, r: seq<Observation>)
    requires forall k :: 0 <= k < |rs| ==> rs[k] != []
    requires r != []
    ensures Summaries(rs + [r]) == Summaries(rs) + [Summarise(r)]
  {
    assert (rs + [r])[..|rs|] == rs;
  }

  /** A day group while its date is current: the date and both pumps' tallies. */
  datatype OpenDay = OpenDay(date: Date, t1: PumpTally, t2: PumpTally)

  /** The daily fold's accumulator: the finalised buckets and the group still open, if any. */
  datatype PassState = PassState(closed: seq<DayTotal>, open: Option<OpenDay>)

  /** Finalising a group at its last record `o`: each pump's tally plus the force-close at `o`. */
  function CloseDay(d: OpenDay, o: Observation): DayTotal {
    DayTotal(d.date, d.t1.ms + CloseGain(d.t1.state, o), d.t2.ms + CloseGain(d.t2.state, o))
  }

  /** The group `pumpingReport` creates for the date of `o`: both pumps idle, nothing credited. */
  function NewGroup(o: Observation): OpenDay {
    OpenDay(o.date, Fresh, Fresh)
  }

  /** The group with record `o` applied to both pumps. */
  function Extend(d: OpenDay, o: Observation): OpenDay {
    OpenDay(d.date, Step(d.t1, o, P1), Step(d.t2, o, P2))
  }

  /** `acc.groupedData[dateStr]`, created when absent: the open group, or a new one for the date of `o`. */
  function GroupFor(st: PassState, o: Observation): OpenDay {
    match st.open
    case None => NewGroup(o)
    case Some(g) => g
  }

  /** One call of the daily reduce callback: open a group if none is open, apply the record, close on the lookahead. */
  function DailyStep(st: PassState, o: Observation, closes: bool): PassState {
    var d := Extend(GroupFor(st, o), o);
    if closes then PassState(st.closed + [CloseDay(d, o)], None) else PassState(st.closed, Some(d))
  }

  /** The daily fold's accumulator after its first `i` records. */
  function DailyPass(s: seq<Observation>, i: nat): PassState
    requires i <= |s|
  {
    if i == 0 then PassState([], None) else DailyStep(DailyPass(s, i - 1), s[i - 1], ClosesAt(s, i - 1))
  }

  /** The open group of a run: its date and both pumps' folds over it. */
  function RunGroup(run: seq<Observation>): OpenDay
    requires run != []
  {
    OpenDay(RunDate(run), Fold(run, P1), Fold(run, P2))
  }

  lemma FoldAppend(day: seq<Observation>, o: Observation, p: Pump)
    ensures Fold(day + [o], p) == Step(Fold(day, p), o, p)
  {
    assert (day + [o])[..|day|] == day;
  }

  /**
   * What the daily accumulator `st` holds after the records `pre`: with no
   * group open, one bucket per run of `pre`; with a group open, buckets for
   * all runs but the last, and that run's group.
   */
  ghost predicate Tracks(st: PassState, pre: seq<Observation>) {
    match st.open
    case None => st.closed == DailyTotals(pre)
    case Some(g) => pre != [] && g.date == Last(pre).date && st.closed == Summaries(Front(Runs(pre))) && g == RunGroup(Last(Runs(pre)))
  }

  /** A group opened by `o` and given `o` is the group of the run `[o]`, and closing it at `o` is that run's bucket. */
  lemma SingleRun(o: Observation)
    ensures Extend(NewGroup(o), o) == RunGroup([o])
    ensures CloseDay(RunGroup([o]), o) == Summarise([o])
  {
    assert [o] == [] + [o];
    FoldAppend([], o, P1);
    FoldAppend([], o, P2);
  }

  /** A record with a new date opens the group of a new run. */
  lemma TracksNew(st: PassState, pre: seq<Observation>, o: Observation, closes: bool)
    requires st.open.None? && Tracks(st, pre)
    requires pre == [] || Last(pre).date != o.date
    ensures Tracks(DailyStep(st, o, closes), pre + [o])
  {
    var rs: seq<seq<Observation>> := Runs(pre);
    RunsNew(pre, o);
    assert Runs(pre + [o]) == rs + [[o]];
    SingleRun(o);
    FrontLastSnoc(rs, [o]);
    FrontLastSnoc(pre, o);
    if closes {
      SummariesSnoc(rs, [o]);
    }
  }

  /** The run of `pre` that a record with the open group's date joins, and what joining it makes of the runs. */
  lemma JoinRun(st: PassState, pre: seq<Observation>, o: Observation)
    requires st.open.Some? && Tracks(st, pre)
    requires Last(pre).date == o.date
    ensures Runs(pre) != []
    ensures Front(Runs(pre + [o])) == Front(Runs(pre))
    ensures Last(Runs(pre + [o])) == Last(Runs(pre)) + [o]
    ensures Extend(st.open.value, o) == RunGroup(Last(Runs(pre)) + [o])
  {
    var rs: seq<seq<Observation>> := Runs(pre);
    var prev := Last(rs);
    var run := prev + [o];
    RunsExtend(pre, o);
    FrontLastSnoc(Front(rs), run);
    FoldAppend(prev, o, P1);
    FoldAppend(prev, o, P2);
    assert RunDate(run) == RunDate(prev);
  }

  /** A record with the open group's date that the lookahead closes finalises the group of its run. */
  lemma TracksJoinClose(st: PassState, pre: seq<Observation>, o: Observation)
    requires st.open.Some? && Tracks(st, pre)
    requires Last(pre).date == o.date
    ensures Tracks(DailyStep(st, o, true), pre + [o])
  {
    JoinRun(st, pre, o);
    var run := Last(Runs(pre)) + [o];
    FrontLastSnoc(Last(Runs(pre)), o);
    assert CloseDay(Extend(st.open.value, o), o) == Summarise(run);
    SummariesSnoc(Front(Runs(pre)), run);
    assert Runs(pre + [o]) == Front(Runs(pre)) + [run];
  }

  /** A record with the open group's date that the lookahead keeps open extends the group of its run. */
  lemma TracksJoinKeep(st: PassState, pre: seq<Observation>, o: Observation)
    requires st.open.Some? && Tracks(st, pre)
    requires Last(pre).date == o.date
    ensures Tracks(DailyStep(st, o, false), pre + [o])
  {
    JoinRun(st, pre, o);
    FrontLastSnoc(pre, o);
  }

  /** A group is open after record `i - 1` exactly when the lookahead did not close it. */
  lemma DailyPassOpen(s: seq<Observation>, i: nat)
    requires i <= |s|
    ensures DailyPass(s, i).open.Some? <==> 0 < i && !ClosesAt(s, i - 1)
  {
  }

  /** One step of the daily fold keeps the accumulator tracking the runs. */
  lemma TracksStep(st: PassState, pre: seq<Observation>, o: Observation, closes: bool)
    requires Tracks(st, pre)
    requires st.open.None? ==> pre == [] || Last(pre).date != o.date
    requires st.open.Some? ==> pre != [] && Last(pre).date == o.date
    ensures Tracks(DailyStep(st, o, closes), pre + [o])
  {
    if st.open.None? {
      TracksNew(st, pre, o, closes);
    } else if closes {
      TracksJoinClose(st, pre, o);
    } else {
      TracksJoinKeep(st, pre, o);
    }
  }

  /** One more record is one more step of the daily fold. */
  lemma DailyPassNext(s: seq<Observation>, j: nat)
    requires j < |s|
    ensures DailyPass(s, j + 1) == DailyStep(DailyPass(s, j), s[j], ClosesAt(s, j))
  {
  }

  /** Record `i - 1` moves the tracking from `s[..i - 1]` to `s[..i]`. */
  lemma TracksAt(s: seq<Observation>, i: nat)
    requires 0 < i <= |s| && Tracks(DailyPass(s, i - 1), s[..i - 1])
    ensures Tracks(DailyPass(s, i), s[..i])
  {
    var j := i - 1;
    var st := DailyPass(s, j);
    var pre, o := s[..j], s[j];
    assert (st.open.None? ==> pre == [] || Last(pre).date != o.date) &&
                     (st.open.Some? ==> pre != [] && Last(pre).date == o.date) by {
      DailyPassOpen(s, j);
      StepPremises(s, j);
    }
    assert Tracks(DailyStep(st, o, ClosesAt(s, j)), pre + [o]) by {
      TracksStep(st, pre, o, ClosesAt(s, j));
    }
    assert DailyPass(s, i) == DailyStep(st, o, ClosesAt(s, j)) by {
      DailyPassNext(s, j);
    }
    assert s[..i] == pre + [o];
  }

  /** After `i` records the daily accumulator tracks the runs of `s[..i]`. */
  lemma {:induction false} DailyPassTracks(s: seq<Observation>, i: nat)
    requires i <= |s|
    ensures Tracks(DailyPass(s, i), s[..i])
    decreases i
  {
    if 0 < i {
      DailyPassTracks(s, i - 1);
      TracksAt(s, i);
    } else {
      assert s[..i] == [] && Runs([]) == [];
    }
  }

  /** The open group has the date of the record that comes next. */
  lemma OpenGroupDate(s: seq<Observation>, i: nat)
    requires i < |s| && DailyPass(s, i).open.Some?
    ensures DailyPass(s, i).open.value.date == s[i].date
  {
    DailyPassTracks(s, i);
    DailyPassOpen(s, i);
  }

  /** The daily fold finalises, in order, exactly the buckets of the maximal same-date runs. */
  lemma DailyPassIsDailyTotals(s: seq<Observation>)
    ensures DailyPass(s, |s|).open == None
    ensures DailyPass(s, |s|).closed == DailyTotals(s)
  {
    DailyPassTracks(s, |s|);
    DailyPassOpen(s, |s|);
    assert s[..|s|] == s;
  }

  /**
   * One pump's branch of the callbacks' `forEach`: an ON to OFF edge stops the
   * run, crediting its hours when it started on the record's date; an OFF to
   * ON edge records the start.
   */
  method PumpEdge(state: RunState, o: Observation, p: Pump) returns (next: RunState, gain: int)
    ensures next == NextState(state, o, p) && gain == EdgeGain(state, o, p)
  {
    var status := IsActive(o, p);
    next, gain := state, 0;
    if status && state.Idle? {
      next := Running(o.date, LogTime(o));
    } else if !status && state.Running? {
      if state.sinceDate == o.date {
        gain := PumpHoursMs(state.since, LogTime(o));
      }
      next := Idle;
    }
  }

  /**
   * The daily reduce callback on record `index`: look up or create the group,
   * apply the record to both pumps, and when the next record has another date
   * (or there is none) force-close the running pumps and finalise the group.
   */
  method DailyRecord(reports: array<Observation>, index: nat, days: seq<DayTotal>, group: Option<OpenDay>)
    returns (next: PassState)
    requires index < reports.Length
    ensures next == DailyStep(PassState(days, group), reports[index], ClosesAt(reports[..], index))
  {
    var o := reports[index];
    var g := if group.None? then NewGroup(o) else group.value;
    var s1, gain1 := PumpEdge(g.t1.state, o, P1);
    var s2, gain2 := PumpEdge(g.t2.state, o, P2);
    g := OpenDay(g.date, PumpTally(s1, g.t1.ms + gain1), PumpTally(s2, g.t2.ms + gain2));
    var isLastReport := index == reports.Length - 1;
    if isLastReport || reports[index + 1].date != o.date {
      next := PassState(days + [CloseDay(g, o)], None);
    } else {
      next := PassState(days, Some(g));
    }
  }

  /**
   * The daily fold of `pumpingReport`: the callback applied to every
   * day-window record in order, from no groups.
   */
  method DailyPumping(reports: array<Observation>) returns (days: seq<DayTotal>)
    ensures days == DailyPass(reports[..], reports.Length).closed
  {
    var acc := PassState([], None);
    var index := 0;
    while index < reports.Length
      invariant index <= reports.Length
      invariant acc == DailyPass(reports[..], index)
    {
      acc := DailyRecord(reports, index, acc.closed, acc.open);
      index := index + 1;
    }
    days := acc.closed;
  }

  // ---------------------------------------------------------------------------
  // Monthly totals

  /** Both pumps' milliseconds for one month. */
  datatype MsPair = MsPair(ms1: int, ms2: int)

  function PairFor(m: MsPair, p: Pump): int {
    match p
    case P1 => m.ms1
    case P2 => m.ms2
  }

  /** Adds to a month's entry, creating it at zero for both pumps when absent. */
  function Credit(m: map<Month, MsPair>, k: Month, a: int, b: int): (r: map<Month, MsPair>)
    ensures r.Keys == m.Keys + {k}
  {
    var prev := if k in m then m[k] else MsPair(0, 0);
    m[k := MsPair(prev.ms1 + a, prev.ms2 + b)]
  }

  /** The monthly table built from finalised day buckets, each credited to its month. */
  function MonthTable(days: seq<DayTotal>): map<Month, MsPair> {
    if days == [] then map[]
    else
      var d := Last(days);
      Credit(MonthTable(days[..|days| - 1]), MonthOf(d.date), d.ms1, d.ms2)
  }

  lemma CreditCreate(m: map<Month, MsPair>, k: Month)
    ensures (if k in m then m else m[k := MsPair(0, 0)]) == Credit(m, k, 0, 0)
  {
    if k in m {
      assert m[k := m[k]] == m;
    }
  }

  /** Adding to a month's entry that already exists, as `acc[monthKey][pumpId] += …` does. */
  lemma CreditAgain(m: map<Month, MsPair>, k: Month, a: int, b: int, c: int, d: int)
    ensures k in Credit(m, k, a, b)
    ensures Credit(m, k, a, b)[k := MsPair(Credit(m, k, a, b)[k].ms1 + c, Credit(m, k, a, b)[k].ms2 + d)] == Credit(m, k, a + c, b + d)
  {
  }

  lemma MonthTableSnoc(days: seq<DayTotal>, d: DayTotal)
    ensures MonthTable(days + [d]) == Credit(MonthTable(days), MonthOf(d.date), d.ms1, d.ms2)
  {
    assert (days + [d])[..|days|] == days;
  }

  /** The monthly fold's accumulator: the month table, both pumps' run states, and whether `acc.current` is set. */
  datatype MonthScan = MonthScan(acc: map<Month, MsPair>, s1: RunState, s2: RunState, open: bool)

  /** The start of the monthly callback: the record's month entry at zero when absent, and a fresh day state when none is current. */
  function OpenMonth(st: MonthScan, o: Observation): MonthScan {
    var k := MonthOf(o.date);
    MonthScan(if k in st.acc then st.acc else st.acc[k := MsPair(0, 0)],
              if st.open then st.s1 else Idle, if st.open then st.s2 else Idle, true)
  }

  /** The record's edges for both pumps, crediting stopped runs to the record's month entry. */
  function MonthEdges(st: MonthScan, o: Observation): MonthScan
    requires MonthOf(o.date) in st.acc
  {
    var k := MonthOf(o.date);
    var cur := st.acc[k];
    MonthScan(st.acc[k := MsPair(cur.ms1 + EdgeGain(st.s1, o, P1), cur.ms2 + EdgeGain(st.s2, o, P2))],
              NextState(st.s1, o, P1), NextState(st.s2, o, P2), st.open)
  }

  /** The day close: running pumps force-closed into the month entry, and the day state dropped. */
  function CloseMonth(st: MonthScan, o: Observation): MonthScan
    requires MonthOf(o.date) in st.acc
  {
    var k := MonthOf(o.date);
    var cur := st.acc[k];
    MonthScan(st.acc[k := MsPair(cur.ms1 + CloseGain(st.s1, o), cur.ms2 + CloseGain(st.s2, o))], Idle, Idle, false)
  }

  /** One call of the monthly reduce callback. */
  function MonthlyStep(st: MonthScan, o: Observation, closes: bool): MonthScan {
    var e := MonthEdges(OpenMonth(st, o), o);
    if closes then CloseMonth(e, o) else e
  }

  /** The monthly fold's accumulator after its first `i` records. */
  function MonthlyAt(s: seq<Observation>, i: nat): MonthScan
    requires i <= |s|
  {
    if i == 0 then MonthScan(map[], Idle, Idle, false) else MonthlyStep(MonthlyAt(s, i - 1), s[i - 1], ClosesAt(s, i - 1))
  }

  /** The monthly reduce callback on record `index`. */
  method MonthlyRecord(reports: array<Observation>, index: nat, acc: map<Month, MsPair>, s1: RunState, s2: RunState, open: bool)
    returns (next: MonthScan)
    requires index < reports.Length
    ensures next == MonthlyStep(MonthScan(acc, s1, s2, open), reports[index], ClosesAt(reports[..], index))
  {
    var o := reports[index];
    var monthKey := MonthOf(o.date);
    var table := acc;
    if monthKey !in table {
      table := table[monthKey := MsPair(0, 0)];
    }
    var p1, p2 := s1, s2;
    if !open {
      p1, p2 := Idle, Idle;
    }
    ghost var started := MonthScan(table, p1, p2, true);
    assert started == OpenMonth(MonthScan(acc, s1, s2, open), o);
    var gain1, gain2;
    p1, gain1 := PumpEdge(p1, o, P1);
    p2, gain2 := PumpEdge(p2, o, P2);
    table := table[monthKey := MsPair(table[monthKey].ms1 + gain1, table[monthKey].ms2 + gain2)];
    assert MonthScan(table, p1, p2, true) == MonthEdges(started, o);
    var isLastReport := index == reports.Length - 1;
    if isLastReport || reports[index + 1].date != o.date {
      table := table[monthKey := MsPair(table[monthKey].ms1 + CloseGain(p1, o), table[monthKey].ms2 + CloseGain(p2, o))];
      next := MonthScan(table, Idle, Idle, false);
    } else {
      next := MonthScan(table, p1, p2, true);
    }
  }

  /**
   * The monthly fold of `pumpingReport`: the callback applied to every
   * month-window record in order, from an empty table.
   */
  method MonthlyPumping(reports: array<Observation>) returns (monthly: map<Month, MsPair>)
    ensures monthly == MonthlyAt(reports[..], reports.Length).acc
  {
    var acc := MonthScan(map[], Idle, Idle, false);
    var index := 0;
    while index < reports.Length
      invariant index <= reports.Length
      invariant acc == MonthlyAt(reports[..], index)
    {
      acc := MonthlyRecord(reports, index, acc.acc, acc.s1, acc.s2, acc.open);
      index := index + 1;
    }
    monthly := acc.acc;
  }

  /**
   * The monthly fold's state mirrors the daily fold's: the same day is open
   * with the same run states, and the table is the month table of the
   * finalised days with the open day's running time credited so far.
   */
  ghost predicate Mirrors(pass: PassState, scan: MonthScan) {
    scan.open == pass.open.Some? &&
    match pass.open
    case None => scan.acc == MonthTable(pass.closed)
    case Some(g) =>
      scan.s1 == g.t1.state && scan.s2 == g.t2.state &&
      scan.acc == Credit(MonthTable(pass.closed), MonthOf(g.date), g.t1.ms, g.t2.ms)
  }

  /** The monthly state of an open day group `g` over the finalised buckets `closed`. */
  ghost predicate MirrorsGroup(closed: seq<DayTotal>, g: OpenDay, scan: MonthScan) {
    scan.open && scan.s1 == g.t1.state && scan.s2 == g.t2.state &&
    scan.acc == Credit(MonthTable(closed), MonthOf(g.date), g.t1.ms, g.t2.ms)
  }

  lemma MirrorsOpen(pass: PassState, scan: MonthScan, o: Observation)
    requires Mirrors(pass, scan)
    requires pass.open.Some? ==> pass.open.value.date == o.date
    ensures MirrorsGroup(pass.closed, GroupFor(pass, o), OpenMonth(scan, o))
  {
    var k := MonthOf(o.date);
    var table := MonthTable(pass.closed);
    if pass.open.None? {
      CreditCreate(table, k);
    } else {
      var g := pass.open.value;
      CreditAgain(table, k, g.t1.ms, g.t2.ms, 0, 0);
      assert Credit(table, k, g.t1.ms + 0, g.t2.ms + 0) == scan.acc;
    }
  }

  lemma MirrorsEdges(closed: seq<DayTotal>, g: OpenDay, scan: MonthScan, o: Observation)
    requires MirrorsGroup(closed, g, scan) && g.date == o.date
    ensures MonthOf(o.date) in scan.acc
    ensures MirrorsGroup(closed, Extend(g, o), MonthEdges(scan, o))
  {
    CreditAgain(MonthTable(closed), MonthOf(o.date), g.t1.ms, g.t2.ms, EdgeGain(g.t1.state, o, P1), EdgeGain(g.t2.state, o, P2));
  }

  lemma MirrorsClose(closed: seq<DayTotal>, d: OpenDay, scan: MonthScan, o: Observation)
    requires MirrorsGroup(closed, d, scan) && d.date == o.date
    ensures MonthOf(o.date) in scan.acc
    ensures CloseMonth(scan, o).acc == MonthTable(closed + [CloseDay(d, o)])
  {
    CreditAgain(MonthTable(closed), MonthOf(o.date), d.t1.ms, d.t2.ms, CloseGain(d.t1.state, o), CloseGain(d.t2.state, o));
    MonthTableSnoc(closed, CloseDay(d, o));
  }

  lemma MirrorsStep(pass: PassState, scan: MonthScan, o: Observation, closes: bool)
    requires Mirrors(pass, scan)
    requires pass.open.Some? ==> pass.open.value.date == o.date
    ensures Mirrors(DailyStep(pass, o, closes), MonthlyStep(scan, o, closes))
  {
    var g := GroupFor(pass, o);
    var started := OpenMonth(scan, o);
    MirrorsOpen(pass, scan, o);
    MirrorsEdges(pass.closed, g, started, o);
    var d := Extend(g, o);
    var e := MonthEdges(started, o);
    assert MonthlyStep(scan, o, closes) == if closes then CloseMonth(e, o) else e;
    if closes {
      MirrorsClose(pass.closed, d, e, o);
      assert DailyStep(pass, o, closes) == PassState(pass.closed + [CloseDay(d, o)], None);
    } else {
      assert DailyStep(pass, o, closes) == PassState(pass.closed, Some(d));
    }
  }

  lemma {:induction false} MirrorsAt(s: seq<Observation>, i: nat)
    requires i <= |s|
    ensures Mirrors(DailyPass(s, i), MonthlyAt(s, i))
    decreases i
  {
    if 0 < i {
      MirrorsAt(s, i - 1);
      if DailyPass(s, i - 1).open.Some? {
        OpenGroupDate(s, i - 1);
      }
      MirrorsStep(DailyPass(s, i - 1), MonthlyAt(s, i - 1), s[i - 1], ClosesAt(s, i - 1));
    }
  }

  /** The monthly fold's table is the month table of the daily buckets of the same records. */
  lemma MonthlyAtIsMonthTable(s: seq<Observation>)
    ensures MonthlyAt(s, |s|).acc == MonthTable(DailyTotals(s))
  {
    MirrorsAt(s, |s|);
    DailyPassIsDailyTotals(s);
  }

  // ---------------------------------------------------------------------------
  // Report rows

  /** A `pumpingReport` row: date, pump, and the daily and monthly hours as `HH:MM`. */
  datatype PumpingRow = PumpingRow(date: Date, pump: Pump, dailyHours: string, monthlyHours: string)

  /** `monthlyData[monthKey]?.[pumpId] || 0`, in milliseconds. */
  function MonthMs(monthly: map<Month, MsPair>, mo: Month, p: Pump): int {
    if mo in monthly then PairFor(monthly[mo], p) else 0
  }

  function Hours(ms: int): string {
    MinutesToTimeFormat(MinutesOf(ms))
  }

  function RowFor(d: DayTotal, p: Pump, monthly: map<Month, MsPair>): PumpingRow {
    PumpingRow(d.date, p, Hours(MsFor(d, p)), Hours(MonthMs(monthly, MonthOf(d.date), p)))
  }

  /** A day's rows: one per pump with positive daily minutes, pump 1 first. */
  function DayRows(d: DayTotal, monthly: map<Month, MsPair>): seq<PumpingRow> {
    (if d.ms1 > 0 then [RowFor(d, P1, monthly)] else []) +
    (if d.ms2 > 0 then [RowFor(d, P2, monthly)] else [])
  }

  function PumpingRows(days: seq<DayTotal>, monthly: map<Month, MsPair>): seq<PumpingRow> {
    if days == [] then [] else PumpingRows(days[..|days| - 1], monthly) + DayRows(Last(days), monthly)
  }

  /**
   * `pumpingReport` after its queries: not found without month-window
   * records or without day-window records; otherwise the monthly fold over
   * the month-window records, the daily fold over the day-window records, and
   * the joined rows, or not found when no pump ran.
   */
  method PumpingReport(monthlyReports: array<Observation>, reports: array<Observation>)
    returns (answer: Answer<PumpingRow>)
    requires Sorted(reports[..])
    ensures monthlyReports.Length == 0 ==> answer == NotFound("No data available")
    ensures monthlyReports.Length > 0 && reports.Length == 0 ==> answer == NotFound("No data available")
    ensures monthlyReports.Length > 0 && reports.Length > 0 ==>
      answer == Found(PumpingRows(DailyTotals(reports[..]), MonthTable(DailyTotals(monthlyReports[..]))), "No active pumps found")
  {
    if monthlyReports.Length == 0 {
      return NotFound("No data available");
    }
    var monthly := MonthlyPumping(monthlyReports);
    MonthlyAtIsMonthTable(monthlyReports[..]);
    if reports.Length == 0 {
      return NotFound("No data available");
    }
    var days := DailyPumping(reports);
    DailyPassIsDailyTotals(reports[..]);
    answer := Found(PumpingRows(days, monthly), "No active pumps found");
  }
}
