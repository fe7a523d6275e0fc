// The monthly totals of `EnergyConsumptionReport` and the rows that join
// them with the daily figures.

module EnergyMonth {
  import opened Telemetry
  import opened PumpHours
  import opened DayRuns
  import opened Energy

  // ---------------------------------------------------------------------------
  // groupedByDate

  /**
   * The month's `groupedByDate` object: the date groups keyed by date, and
   * the dates in the order they were first seen (the order of `Object.values`).
   */
  datatype Grouping = Grouping(order: seq<Date>, groups: map<Date, EnergyGroup>)

  /** One call of the grouping callback: find or create the record's date group and push its running pumps' samples. */
  function GroupRecord(g: Grouping, o: Observation): Grouping {
    if o.date in g.groups then Grouping(g.order, g.groups[o.date := PushBoth(g.groups[o.date], o)])
    else Grouping(g.order + [o.date], g.groups[o.date := PushBoth(EnergyGroup(o.date, [], []), o)])
  }

  /** `groupedByDate` over a month's records: every date once, in first-seen order. */
  function GroupByDate(s: seq<Observation>): (g: Grouping)
    ensures forall d :: d in g.order <==> d in g.groups
    ensures forall j, k :: 0 <= j < k < |g.order| ==> g.order[j] != g.order[k]
  {
    if s == [] then Grouping([], map[]) else GroupRecord(GroupByDate(Front(s)), Last(s))
  }

  function SamplesOf(g: EnergyGroup, p: Pump): seq<KwhSample> {
    match p
    case P1 => g.r1
    case P2 => g.r2
  }

  /** A figure as it is added to a total: a pump without samples adds nothing. */
  function Figure(x: Option<real>): real {
    match x
    case None => 0.0
    case Some(v) => v
  }

  /** The delta of each listed date group's samples of pump `p`, summed in order. */
  function SumGroups(order: seq<Date>, groups: map<Date, EnergyGroup>, p: Pump): real
    requires forall d :: d in order ==> d in groups
  {
    if order == [] then 0.0
    else SumGroups(Front(order), groups, p) + Figure(DeltaOf(SamplesOf(groups[Last(order)], p)))
  }

  /** The month's kWh for pump `p`: the deltas of all its date groups added up from 0. */
  function MonthKwh(s: seq<Observation>, p: Pump): real {
    var g := GroupByDate(s);
    SumGroups(g.order, g.groups, p)
  }

  /** `monthlyData[monthKey]`: both pumps' month totals. */
  datatype KwhPair = KwhPair(kwh1: real, kwh2: real)

  function KwhPairFor(pair: KwhPair, p: Pump): real {
    match p
    case P1 => pair.kwh1
    case P2 => pair.kwh2
  }

  function MonthFigures(s: seq<Observation>): KwhPair {
    KwhPair(MonthKwh(s, P1), MonthKwh(s, P2))
  }

  /** The grouping callback on one record, as it updates the `groupedByDate` object. */
  method AddToGroup(order: seq<Date>, groups: map<Date, EnergyGroup>, o: Observation)
    returns (order': seq<Date>, groups': map<Date, EnergyGroup>)
    ensures Grouping(order', groups') == GroupRecord(Grouping(order, groups), o)
  {
    order', groups' := order, groups;
    if o.date !in groups' {
      order' := order' + [o.date];
      groups' := groups'[o.date := EnergyGroup(o.date, [], [])];
    }
    var group := groups'[o.date];
    if IsActive(o, P1) {
      group := group.(r1 := group.r1 + [SampleOf(o, P1)]);
    }
    if IsActive(o, P2) {
      group := group.(r2 := group.r2 + [SampleOf(o, P2)]);
    }
    groups' := groups'[o.date := group];
  }

  /** The `reduce` that builds `groupedByDate` over a month's records. */
  method GroupMonth(reports: seq<Observation>) returns (order: seq<Date>, groups: map<Date, EnergyGroup>)
    ensures Grouping(order, groups) == GroupByDate(reports)
  {
    order, groups := [], map[];
    var i := 0;
    while i < |reports|
      invariant i <= |reports|
      invariant Grouping(order, groups) == GroupByDate(reports[..i])
    {
      order, groups := AddToGroup(order, groups, reports[i]);
      FrontLastSnoc(reports[..i], reports[i]);
      assert reports[..i + 1] == reports[..i] + [reports[i]];
      i := i + 1;
    }
    assert reports[..i] == reports;
  }

  lemma SumGroupsNext(order: seq<Date>, groups: map<Date, EnergyGroup>, n: nat, p: Pump)
    requires n < |order| && forall d :: d in order ==> d in groups
    ensures SumGroups(order[..n + 1], groups, p) == SumGroups(order[..n], groups, p) + Figure(DeltaOf(SamplesOf(groups[order[n]], p)))
  {
    FrontLastSnoc(order[..n], order[n]);
    assert order[..n + 1] == order[..n] + [order[n]];
  }

  /**
   * The monthly block for one month's records: group them by date, then add
   * each group's delta to the pump's total, which starts at 0.
   */
  method MonthEnergy(reports: seq<Observation>) returns (total: KwhPair)
    ensures total == MonthFigures(reports)
  {
    var order, groups := GroupMonth(reports);
    var kwh1, kwh2 := 0.0, 0.0;
    var n := 0;
    while n < |order|
      invariant n <= |order|
      invariant forall d :: d in order ==> d in groups
      invariant kwh1 == SumGroups(order[..n], groups, P1)
      invariant kwh2 == SumGroups(order[..n], groups, P2)
    {
      var group := groups[order[n]];
      if |group.r1| > 0 {
        kwh1 := kwh1 + (Latest(group.r1).kwh - Earliest(group.r1).kwh);
      }
      if |group.r2| > 0 {
        kwh2 := kwh2 + (Latest(group.r2).kwh - Earliest(group.r2).kwh);
      }
      SumGroupsNext(order, groups, n, P1);
      SumGroupsNext(order, groups, n, P2);
      n := n + 1;
    }
    assert order[..n] == order;
    total := KwhPair(kwh1, kwh2);
  }

  // ---------------------------------------------------------------------------
  // The month total is the sum of the daily figures

  /** A pump's daily figures over `days`, added up from 0. */
  function SumFigures(days: seq<EnergyDay>, p: Pump): real {
    if days == [] then 0.0 else SumFigures(Front(days), p) + Figure(KwhFor(Last(days), p))
  }

  function RunDates(rs: seq<seq<Observation>>): (ds: seq<Date>)
    requires forall k :: 0 <= k < |rs| ==> rs[k] != []
    ensures |ds| == |rs|
    ensures forall k :: 0 <= k < |rs| ==> ds[k] == RunDate(rs[k])
  {
    if rs == [] then [] else RunDates(Front(rs)) + [RunDate(Last(rs))]
  }

  /** The grouping holds, in order, one group per run, keyed by the run's date and holding its samples. */
  ghost predicate GroupsRuns(g: Grouping, rs: seq<seq<Observation>>)
    requires forall k :: 0 <= k < |rs| ==> rs[k] != []
  {
    g.order == RunDates(rs) &&
    forall k :: 0 <= k < |rs| ==> RunDate(rs[k]) in g.groups && g.groups[RunDate(rs[k])] == RunEnergyGroup(rs[k])
  }

  /** On sorted records, a record of the last record's date has the last run's date and no other run's. */
  lemma JoinDate(init: seq<Observation>, o: Observation)
    requires Sorted(init)
    requires init != [] && Last(init).date == o.date
    ensures RunDate(Last(Runs(init))) == o.date
    ensures forall k :: 0 <= k < |Runs(init)| - 1 ==> RunDate(Runs(init)[k]) != o.date
  {
    var rs: seq<seq<Observation>> := Runs(init);
    var prev := Last(rs);
    RunsUniform(init);
    RunDatesIncreasing(init);
    assert Uniform(prev) && Last(prev) == Last(init);
    forall k | 0 <= k < |rs| - 1
      ensures RunDate(rs[k]) != o.date
    {
      assert DateBefore(RunDate(rs[k]), RunDate(prev));
    }
  }

  /** A record of an existing group's date pushes its samples into that group and leaves the order alone. */
  lemma GroupExtend(init: seq<Observation>, o: Observation, run: seq<Observation>)
    requires run != [] && RunDate(run) == o.date
    requires o.date in GroupByDate(init).groups && GroupByDate(init).groups[o.date] == RunEnergyGroup(run)
    ensures GroupByDate(init + [o]) == Grouping(GroupByDate(init).order, GroupByDate(init).groups[o.date := RunEnergyGroup(run + [o])])
  {
    FrontLastSnoc(init, o);
    SamplesAppend(run, o, P1);
    SamplesAppend(run, o, P2);
    assert RunDate(run + [o]) == RunDate(run);
  }

  /** Pushing a record onto the last run's group keeps the grouping in step with the runs. */
  lemma JoinGroups(g: Grouping, front: seq<seq<Observation>>, prev: seq<Observation>, o: Observation)
    requires forall k :: 0 <= k < |front| ==> front[k] != []
    requires prev != [] && RunDate(prev) == o.date
    requires GroupsRuns(g, front + [prev])
    requires forall k :: 0 <= k < |front| ==> RunDate(front[k]) != o.date
    ensures GroupsRuns(Grouping(g.order, g.groups[o.date := RunEnergyGroup(prev + [o])]), front + [prev + [o]])
  {
    var rs, rs' := front + [prev], front + [prev + [o]];
    var groups' := g.groups[o.date := RunEnergyGroup(prev + [o])];
    FrontLastSnoc(front, prev);
    FrontLastSnoc(front, prev + [o]);
    assert RunDate(prev + [o]) == RunDate(prev);
    assert RunDates(rs') == RunDates(rs);
    forall k | 0 <= k < |rs'|
      ensures RunDate(rs'[k]) in groups' && groups'[RunDate(rs'[k])] == RunEnergyGroup(rs'[k])
    {
      if k < |front| {
        assert rs'[k] == rs[k] == front[k];
      } else {
        assert rs'[k] == prev + [o];
      }
    }
  }

  /** A record of the last run's date adds its samples to that run's group. */
  lemma GroupJoin(init: seq<Observation>, o: Observation)
    requires Sorted(init) && GroupsRuns(GroupByDate(init), Runs(init))
    requires init != [] && Last(init).date == o.date
    ensures GroupsRuns(GroupByDate(init + [o]), Runs(init + [o]))
  {
    var rs: seq<seq<Observation>> := Runs(init);
    var front, prev := Front(rs), Last(rs);
    JoinDate(init, o);
    assert rs == front + [prev] && rs[|rs| - 1] == prev;
    GroupExtend(init, o, prev);
    RunsExtend(init, o);
    forall k | 0 <= k < |front|
      ensures front[k] != [] && RunDate(front[k]) != o.date
    {
      assert front[k] == rs[k];
    }
    JoinGroups(GroupByDate(init), front, prev, o);
  }

  /** On sorted records, a record whose date differs from the last one's is later than every run's date. */
  lemma NewDateFresh(init: seq<Observation>, o: Observation)
    requires Sorted(init + [o])
    requires init != [] && Last(init).date != o.date
    ensures Sorted(init)
    ensures forall k :: 0 <= k < |Runs(init)| ==> RunDate(Runs(init)[k]) != o.date
  {
    var rs: seq<seq<Observation>> := Runs(init);
    RunsUniform(init);
    assert Sorted(init) by {
      forall i, j | 0 <= i <= j < |init|
        ensures NotBefore(init[i], init[j])
      {
        assert init[i] == (init + [o])[i] && init[j] == (init + [o])[j];
      }
    }
    RunDatesIncreasing(init);
    var prev := Last(rs);
    assert RunDate(prev) == Last(init).date by {
      assert Uniform(prev) && Last(prev) == Last(init);
    }
    assert NotBefore(Last(init), o) by {
      assert (init + [o])[|init| - 1] == Last(init) && (init + [o])[|init|] == o;
    }
    forall k | 0 <= k < |rs|
      ensures RunDate(rs[k]) != o.date
    {
      if k < |rs| - 1 {
        assert DateBefore(RunDate(rs[k]), RunDate(prev));
      }
    }
  }

  /** A record of a later date opens a new group at the end of the order. */
  lemma GroupNew(init: seq<Observation>, o: Observation)
    requires Sorted(init + [o]) && GroupsRuns(GroupByDate(init), Runs(init))
    requires init == [] || Last(init).date != o.date
    ensures GroupsRuns(GroupByDate(init + [o]), Runs(init + [o]))
  {
    var rs: seq<seq<Observation>> := Runs(init);
    var g := GroupByDate(init);
    RunsNew(init, o);
    FrontLastSnoc(init, o);
    FrontLastSnoc(rs, [o]);
    if init != [] {
      NewDateFresh(init, o);
    }
    assert forall k :: 0 <= k < |g.order| ==> g.order[k] != o.date;
    assert o.date !in g.groups;
    SamplesAppend([], o, P1);
    SamplesAppend([], o, P2);
    assert PushBoth(EnergyGroup(o.date, [], []), o) == RunEnergyGroup([o]);
  }

  lemma {:induction false} GroupByDateRuns(s: seq<Observation>)
    requires Sorted(s)
    ensures GroupsRuns(GroupByDate(s), Runs(s))
    decreases |s|
  {
    if s != [] {
      var init, o := Front(s), Last(s);
      assert s == init + [o];
      assert Sorted(init) by {
        forall i, j | 0 <= i <= j < |init|
          ensures NotBefore(init[i], init[j])
        {
          assert init[i] == s[i] && init[j] == s[j];
        }
      }
      GroupByDateRuns(init);
      if init != [] && Last(init).date == o.date {
        GroupJoin(init, o);
      } else {
        GroupNew(init, o);
      }
    }
  }

  lemma {:induction false} SumGroupsRuns(rs: seq<seq<Observation>>, groups: map<Date, EnergyGroup>, p: Pump)
    requires forall k :: 0 <= k < |rs| ==> rs[k] != []
    requires forall k :: 0 <= k < |rs| ==> RunDate(rs[k]) in groups && groups[RunDate(rs[k])] == RunEnergyGroup(rs[k])
    ensures SumGroups(RunDates(rs), groups, p) == SumFigures(DayEnergies(rs), p)
    decreases |rs|
  {
    if rs != [] {
      var front, r := Front(rs), Last(rs);
      SumGroupsRuns(front, groups, p);
      FrontLastSnoc(RunDates(front), RunDate(r));
      FrontLastSnoc(DayEnergies(front), DayEnergy(r));
      assert SamplesOf(RunEnergyGroup(r), p) == ActiveSamples(r, p);
    }
  }

  /**
   * On time-sorted records the month's kWh of a pump is the sum of the daily
   * figures the daily fold computes for the same records, one per date.
   */
  lemma MonthKwhIsSumOfDays(s: seq<Observation>, p: Pump)
    requires Sorted(s)
    ensures MonthKwh(s, p) == SumFigures(EnergyDays(s), p)
  {
    GroupByDateRuns(s);
    SumGroupsRuns(Runs(s), GroupByDate(s).groups, p);
  }

  // ---------------------------------------------------------------------------
  // The report

  /** A row of `EnergyConsumptionReport`: date, pump, the day's figure and the month's total. */
  datatype ConsumptionRow = ConsumptionRow(date: Date, pump: Pump, dailyKwh: real, monthlyKwh: real)

  /** The row of pump `p` for a day's figures, when the pump has records that day. */
  function PumpRow(d: EnergyDay, p: Pump, monthly: map<Month, KwhPair>): seq<ConsumptionRow>
    requires MonthOf(d.date) in monthly
  {
    match KwhFor(d, p)
    case None => []
    case Some(kwh) => [ConsumptionRow(d.date, p, kwh, KwhPairFor(monthly[MonthOf(d.date)], p))]
  }

  /** The `flatMap` over the daily groups: pump 1's row, then pump 2's, day after day. */
  function ConsumptionRows(days: seq<EnergyDay>, monthly: map<Month, KwhPair>): seq<ConsumptionRow>
    requires forall k :: 0 <= k < |days| ==> MonthOf(days[k].date) in monthly
  {
    if days == [] then []
    else ConsumptionRows(Front(days), monthly) + PumpRow(Last(days), P1, monthly) + PumpRow(Last(days), P2, monthly)
  }

  /** The `monthKeys` set: the month of every record. */
  function MonthsOf(s: seq<Observation>): (ms: set<Month>)
    ensures forall j :: 0 <= j < |s| ==> MonthOf(s[j].date) in ms
  {
    if s == [] then {} else MonthsOf(Front(s)) + {MonthOf(Last(s).date)}
  }

  /** Every month of the set is the month of some record: no month is queried without a record in it. */
  lemma {:induction false} MonthsOfFromRecords(s: seq<Observation>)
    ensures forall mo :: mo in MonthsOf(s) ==> exists j :: 0 <= j < |s| && MonthOf(s[j].date) == mo
  {
    if s != [] {
      MonthsOfFromRecords(Front(s));
      forall mo | mo in MonthsOf(s)
        ensures exists j :: 0 <= j < |s| && MonthOf(s[j].date) == mo
      {
        if mo == MonthOf(Last(s).date) {
          assert MonthOf(s[|s| - 1].date) == mo;
        } else {
          assert mo in MonthsOf(Front(s));
          var j :| 0 <= j < |Front(s)| && MonthOf(Front(s)[j].date) == mo;
          assert s[j] == Front(s)[j];
        }
      }
    }
  }

  /** `monthlyData`: each month's totals over the records `fetch` returns for it. */
  function MonthlyData(months: set<Month>, fetch: Month -> seq<Observation>): (m: map<Month, KwhPair>)
    ensures m.Keys == months
  {
    map mo | mo in months :: MonthFigures(fetch(mo))
  }

  /** Every daily figure lies in a month of the records, so the month lookup always succeeds. */
  lemma EnergyDaysMonths(s: seq<Observation>)
    ensures forall k :: 0 <= k < |EnergyDays(s)| ==> MonthOf(EnergyDays(s)[k].date) in MonthsOf(s)
  {
    RunsElements(s);
    forall k | 0 <= k < |EnergyDays(s)|
      ensures MonthOf(EnergyDays(s)[k].date) in MonthsOf(s)
    {
      var run := Runs(s)[k];
      assert run[0] in s;
    }
  }

  /**
   * `EnergyConsumptionReport`'s aggregation over the day-window records: no
   * records means not found; otherwise the totals of every month they touch
   * (over the records `fetch` returns for that month), the daily figures, and
   * the joined rows, or not found when no pump ran.
   */
  method EnergyConsumptionReport(dailyReports: array<Observation>, fetch: Month -> seq<Observation>)
    returns (answer: Answer<ConsumptionRow>)
    requires Sorted(dailyReports[..])
    ensures dailyReports.Length == 0 ==> answer == NotFound("No data available")
    ensures dailyReports.Length > 0 ==>
      EnergyDaysMonthsIn(dailyReports[..]) &&
      answer == Found(ConsumptionRows(EnergyDays(dailyReports[..]), MonthlyData(MonthsOf(dailyReports[..]), fetch)),
                      "No energy consumption data found")
  {
    if dailyReports.Length == 0 {
      return NotFound("No data available");
    }
    var monthKeys: set<Month> := {};
    var i := 0;
    while i < dailyReports.Length
      invariant i <= dailyReports.Length
      invariant monthKeys == MonthsOf(dailyReports[..i])
    {
      FrontLastSnoc(dailyReports[..i], dailyReports[i]);
      assert dailyReports[..i + 1] == dailyReports[..i] + [dailyReports[i]];
      monthKeys := monthKeys + {MonthOf(dailyReports[i].date)};
      i := i + 1;
    }
    assert dailyReports[..i] == dailyReports[..];
    var monthlyData: map<Month, KwhPair> := map[];
    var rest := monthKeys;
    while rest != {}
      invariant rest <= monthKeys
      invariant monthlyData.Keys == monthKeys - rest
      invariant forall mo :: mo in monthlyData ==> monthlyData[mo] == MonthFigures(fetch(mo))
      decreases rest
    {
      var monthKey :| monthKey in rest;
      var total := MonthEnergy(fetch(monthKey));
      monthlyData := monthlyData[monthKey := total];
      rest := rest - {monthKey};
    }
    assert monthlyData == MonthlyData(monthKeys, fetch);
    var days := DailyEnergy(dailyReports);
    EnergyDaysMonths(dailyReports[..]);
    answer := Found(ConsumptionRows(days, monthlyData), "No energy consumption data found");
  }

  /** The month lookup of every daily figure succeeds. */
  ghost predicate EnergyDaysMonthsIn(s: seq<Observation>) {
    forall k :: 0 <= k < |EnergyDays(s)| ==> MonthOf(EnergyDays(s)[k].date) in MonthsOf(s)
  }
}
