# Pump telemetry aggregation, modelled in Dafny

This project models the aggregation logic of a pumping-station reporting
service. Each site stores periodic telemetry records. A record holds:

- a timestamp;
- the run flags `P1_ON_FB`, `P2_ON_FB` and the shared flag `P1_P2_ON_FB`;
- per-pump energy counters (`P1_KWH`, `P2_KWH`) and electrical measurements;
- a `DAILY_FLOW` counter.

The report controller turns the time-sorted records of one site into four
reports:

- **energy report**: one row per record that has a running pump, listing the
  running pumps' measurements;
- **energy consumption report**: per date and pump, the day's kWh (the last
  running record's counter minus the first one's), plus each month's total of
  the daily figures over all of that month's records, which come from a query
  of their own;
- **pumping report**: per date and pump, the running time rebuilt from the
  on/off edges of the run flags, shown as `HH:MM`, plus the month's running time
  from its own fold over the month's records;
- **flow report**: per date and pump, the flow of the first record with
  positive flow, plus the pump's flow total over the month-window records.

The model covers everything between the database query and the JSON response:

- the pump gate;
- interval arithmetic and `HH:MM` formatting;
- the `reduce` and `for` folds with their one-record lookahead;
- the month and date grouping;
- the joining of rows;
- the not-found answers.

It then proves what those folds compute. Each report's folds are imperative
methods over the fetched records. They take an array where the source's
query result is one, and a sequence for the records `fetch` returns for a
month. `Energy.EnergyReport` has no accumulator and stays a function. Each method is proved equal to a functional
specification, and the properties are proved about that specification:

- Daily state (`DayRuns`). The input splits into maximal same-date runs. The
  daily folds of the pumping and consumption reports finalise exactly one
  figure per run, in order.
- Pumping: state machine (`Pumping`). `Fold` and `DayMs` give each day's
  running milliseconds. The callbacks are `DailyRecord` and `MonthlyRecord`.
- Pumping: monthly fold. It is proved equal to crediting each day's figure to
  its month (`MonthlyAtIsMonthTable`). So a month's pumping time is the sum of
  its days' (`PumpingFacts.MonthlyPumpingSums`).
- Pumping: bounds. On sorted input a day's minutes lie in `[0, 1440)`. They
  never exceed the span from the day's first record to its last.
- Energy: daily figure (`Energy`). The figure is the sorted ends' difference,
  and it is not clamped.
- Energy: monthly grouping (`EnergyMonth`). It is a date-keyed map with
  first-seen order. On sorted input a month's kWh is the sum of the daily
  figures (`MonthKwhIsSumOfDays`).
- Flow (`Flow`). Records without positive flow are skipped. Each date and pump
  gets exactly one row, at its first counting record. The monthly figure falls
  back to the day's flow when the pump has no monthly total.

Modules: `Telemetry` holds the data model, the gate and the answers.
`PumpHours` holds `calculatePumpHours` and `minutesToTimeFormat`. `DayRuns`
holds the same-date runs. `Pumping` and `PumpingFacts` cover the pumping
report. `Energy`, `EnergyMonth` and `EnergyFacts` cover the two energy reports.
`Flow` and `FlowFacts` cover the flow report.

Modelling choices:

- Times are local (Asia/Kolkata, a fixed offset): a civil date plus
  milliseconds since midnight.
- The `HH:mm:ss` strings that `pumpingReport` passes to `calculatePumpHours`
  are modelled as the time truncated to whole seconds (`Telemetry.LogTime`).
- Counters and flows are `real`; `Math.round` is `floor(x + 1/2)`.
- The daily folds of the pumping and consumption reports keep their
  date-keyed objects as an ordered list of closed days plus one open day.
  Records arrive sorted by timestamp (the `.sort({ timeStamp: 1 })` of every
  query), so a date never reappears once its day has closed. The list and the
  object then agree; this is the `Sorted` precondition of `PumpingReport` and
  `EnergyConsumptionReport`. `DayRuns.RunDatesIncreasing` proves that each
  date has one run.
- The monthly fold of the consumption report has no lookahead. It is modelled
  as a real map plus its insertion order (`EnergyMonth.GroupByDate`).

Where the code computes something other than what the reports are described as showing, the model follows the code:

- Negative energy deltas are not clamped to zero. A counter reset gives a
  negative daily figure (`EnergyFacts.CounterResetExample`).
- A pump still running at a day's last record is closed at that record's
  time (`PumpingFacts.ClosedAtLastRecord`), not at 23:59:59.999.
- A run that crosses midnight loses the part after its date's last record.
  The lookahead close at that record credits the run up to it and resets the
  pump. The next date's group starts idle, so its OFF record credits nothing.
  When the ON record is the date's last record, neither date gets anything
  (`PumpingFacts.OvernightRunLost`).
- `flowReport` builds its month key from a `month` field that
  `getLogDateTime` does not return. So there is one total per pump over all
  the month-window records (`Flow.MonthlyFlows`).

## Model

| member | source | states |
|---|---|---|
| `Telemetry.ActiveIffBothFlags` | controllers/reportController.js:5-8 | a pump reads as running iff its own flag and the shared `P1_P2_ON_FB` flag are both set; without the shared flag neither runs |
| `Telemetry.LogTime` | controllers/reportController.js:10-18 | the `HH:mm:ss` time of a record is its time of day truncated to a whole second: a multiple of 1000 within the same second |
| `Telemetry.LogTimeMonotone` | controllers/reportController.js:14 | truncating to seconds keeps the order of times |
| `Telemetry.Found` | controllers/reportController.js:465-467 | the `!results.length` check: not found with the message exactly when there are no rows, else the rows unchanged |
| `PumpHours.PumpHoursMs` | controllers/reportController.js:260-283 | the interval of `calculatePumpHours` is always in `[0, one day)` |
| `PumpHours.PumpHoursMsCases` | controllers/reportController.js:268-279 | forward interval = stop − start; a stop before the start (overnight) runs to 23:59:59.999 of the start's day; zero exactly when start = stop or the start is the day's last millisecond |
| `PumpHours.CalculatePumpHours` | controllers/reportController.js:281-282 | the hours returned lie in `[0, 24)` and are the interval's milliseconds over 3 600 000 |
| `PumpHours.MinutesOf` | controllers/reportController.js:424-425 | accumulated minutes (`hours * 60`) times 60 000 give back the milliseconds |
| `PumpHours.AccumulateMinutes` | controllers/reportController.js:424-425 | adding `hours * 60` for one more interval equals adding its milliseconds and converting once, so the folds may sum milliseconds |
| `PumpHours.Round` | controllers/reportController.js:286 | `Math.round` gives the integer `r` with `r <= x + 1/2 < r + 1` |
| `PumpHours.TotalMinutes` | controllers/reportController.js:286 | `Math.max(0, Math.round(m))`: 0 when `m < -1/2`, otherwise the whole number `n` with `n <= m + 1/2 < n + 1` |
| `PumpHours.TotalMinutesOfMs` | controllers/reportController.js:286 | for whole milliseconds the rounded minutes are `(ms + 30000) / 60000`, zero for an interval below −30 s |
| `PumpHours.NatToString` | controllers/reportController.js:289 | `String(n)`: at least one decimal digit, one digit exactly below 10, at most two below 100, and no leading zero unless `n` is 0 |
| `PumpHours.NatToStringValue` | controllers/reportController.js:289 | the digits of `String(n)` denote `n` |
| `PumpHours.PadTwoShape` | controllers/reportController.js:289 | `padStart(2, '0')` yields two characters, or as many as `s` has when longer: zeros on the left, then `s` unchanged in the tail |
| `PumpHours.PaddedValue` | controllers/reportController.js:289 | a padded `String(n)` has at least two digits, exactly two below 100, and denotes `n` |
| `PumpHours.PadTwoValue` | controllers/reportController.js:289 | zero-padding keeps the value of the digits |
| `PumpHours.FormatRoundTrip` | controllers/reportController.js:285-290 | reading the display back as hours × 60 + minutes gives exactly `max(0, round(minutes))`, with minutes under 60 |
| `PumpHours.FormatShape` | controllers/reportController.js:285-290 | the display is at least two hour digits, a colon, and exactly two minute digits; an hour field longer than two digits has no leading zero |
| `PumpHours.FormatEightHours` | controllers/reportController.js:285-290 | 480 minutes prints as `08:00` |
| `DayRuns.Runs` | controllers/reportController.js:402-436 | the same-date runs: none exactly for no records, none empty, at most one per record, the last run ends with the last record |
| `DayRuns.RunsUniform` | controllers/reportController.js:402-413 | every run holds records of a single date |
| `DayRuns.RunsFlatten` | controllers/reportController.js:394-451 | concatenated, the runs give back the records: nothing is lost or reordered |
| `DayRuns.RunsNeighbours` | controllers/reportController.js:433-436 | neighbouring runs have different dates, so no run could be extended |
| `DayRuns.RunsSorted` | controllers/reportController.js:384-387 | on time-sorted records every run is sorted |
| `DayRuns.RunDatesIncreasing` | controllers/reportController.js:384-387 | on time-sorted records the run dates strictly increase, so each date has exactly one run (the date-keyed object and the run list agree) |
| `DayRuns.RunsOneDate` | controllers/reportController.js:402-410 | records of one date make a single run |
| `Pumping.StopGain` | controllers/reportController.js:422-428 | an off edge credits less than a day, and nothing when the run started on another date |
| `Pumping.StopGainSameDay` | controllers/reportController.js:423-425 | an off edge on the start's date credits exactly the seconds-truncated stop minus the start |
| `Pumping.CloseGain` | controllers/reportController.js:436-446 | the day close credits less than a day, and nothing to an idle pump |
| `Pumping.Summaries` | controllers/reportController.js:394-451 | one daily total per run, in order, each the run's summary |
| `Pumping.PumpEdge` | controllers/reportController.js:415-431 | the per-pump callback is the method form of `NextState` and `EdgeGain`: it moves the state machine and credits exactly as they do |
| `Pumping.DailyRecord` | controllers/reportController.js:394-449 | the method form of `DailyStep`: one call of the daily `reduce` callback, including its lookahead close, does what that step does |
| `Pumping.DailyPumping` | controllers/reportController.js:394-451 | the daily fold over the array returns the specification's closed days |
| `Pumping.DailyPassOpen` | controllers/reportController.js:433-436 | after a record a day is still open exactly when the next record has the same date |
| `Pumping.OpenGroupDate` | controllers/reportController.js:402-413 | an open day always has the date of the next record, so the lookup by date finds it |
| `Pumping.DailyPassIsDailyTotals` | controllers/reportController.js:394-451 | the daily fold finalises exactly the summaries of the maximal same-date runs and leaves nothing open |
| `Pumping.Credit` | controllers/reportController.js:334-336 | crediting a month makes it a key of the table and adds no other key |
| `Pumping.CreditAgain` | controllers/reportController.js:356-360 | two credits to one month add up |
| `Pumping.MonthTableSnoc` | controllers/reportController.js:330-382 | crediting one more day updates only that day's month |
| `Pumping.MonthlyRecord` | controllers/reportController.js:330-381 | the method form of `MonthlyStep`: one call of the monthly `reduce` callback does what that step does |
| `Pumping.MonthlyPumping` | controllers/reportController.js:330-382 | the monthly fold over the array returns the specification's month table |
| `Pumping.MirrorsStep` | controllers/reportController.js:330-382 | the monthly fold's state machine moves in lockstep with the daily fold's |
| `Pumping.MonthlyAtIsMonthTable` | controllers/reportController.js:330-382 | the monthly fold equals crediting every daily total to its month |
| `Pumping.PumpingReport` | controllers/reportController.js:320-467 | not found without month-window records or without day-window records; otherwise exactly the rows joined from the daily totals and the month table, or not found when there are none |
| `PumpingFacts.FoldBound` | controllers/reportController.js:415-431 | over a sorted day, the credited time never exceeds the span of logged times seen so far; a running pump started within the day |
| `PumpingFacts.DayMsBound` | controllers/reportController.js:415-446 | a day's running time is between 0 and its first-to-last record span, below 1440 minutes |
| `PumpingFacts.DailyTotalsBounded` | controllers/reportController.js:394-451 | on sorted input every daily total of both pumps lies in `[0, one day)` |
| `PumpingFacts.DailyTotalsDatesIncreasing` | controllers/reportController.js:394-451 | on sorted input the daily totals' dates strictly increase |
| `PumpingFacts.FoldNeverActive` | controllers/reportController.js:415-431 | a pump never seen running is credited nothing |
| `PumpingFacts.FourEdgeDay` | controllers/reportController.js:394-451 | ON 08:00, OFF 12:00, ON 14:00, OFF 18:00 give 8 hours for pump 1 and none for pump 2 |
| `PumpingFacts.EightHoursPrinted` | controllers/reportController.js:460 | those 8 hours print as `08:00` |
| `PumpingFacts.ClosedAtLastRecord` | controllers/reportController.js:436-446 | a pump still running at the day's last record is closed at that record's time |
| `PumpingFacts.StartAtLastRecord` | controllers/reportController.js:418-446 | a start at the day's last record credits nothing |
| `PumpingFacts.SingleRecordDay` | controllers/reportController.js:415-446 | a day of one record credits nothing to either pump |
| `PumpingFacts.OvernightRunLost` | controllers/reportController.js:422-446 | a run switched on at 22:00, its date's last record, and off at 02:00 the next date is credited to neither date |
| `PumpingFacts.MonthTableSums` | controllers/reportController.js:453-462 | a month is in the table iff some day falls in it, and its figure is the sum of its days; a missing month reads as 0 |
| `PumpingFacts.MonthlyPumpingSums` | controllers/reportController.js:330-382 | the monthly fold's figure for a month and pump is the sum of the daily totals of that month |
| `PumpingFacts.HoursRoundTrip` | controllers/reportController.js:460-461 | a row's `HH:MM` reads back as the rounded minutes of the total |
| `PumpingFacts.DayRowsSound` | controllers/reportController.js:455-462 | a day's rows are rows of its pumps with positive minutes, each showing that day's and that month's hours |
| `PumpingFacts.PumpingRowsSound` | controllers/reportController.js:453-463 | every row is a day's pump with positive minutes, showing that day's and that month's hours |
| `PumpingFacts.PumpingRowsComplete` | controllers/reportController.js:453-463 | every day's pump with positive minutes has its row |
| `Energy.MinuteOfDay` | controllers/reportController.js:86 | the `HH:mm` of a record is the minute of the day containing its time |
| `Energy.PumpEntriesExact` | controllers/reportController.js:63-80 | a row lists exactly the running pumps, pump 1 before pump 2, each with its own measurements |
| `Energy.EnergyReportRowsSound` | controllers/reportController.js:56-89 | every row comes from a record and lists at least one pump |
| `Energy.EnergyReportRowsComplete` | controllers/reportController.js:56-89 | every record with a running pump has its row |
| `Energy.IdleRecordNoRow` | controllers/reportController.js:89 | a record with no running pump adds no row |
| `Energy.EnergyReportRowsExist` | controllers/reportController.js:89-92 | there is a row iff some record has a running pump |
| `Energy.EnergyReport` | controllers/reportController.js:51-93 | not found without records; rows exactly when some record has a running pump, and then the rows of the records; otherwise the second not-found message |
| `Energy.EndsBound` | controllers/reportController.js:225-227 | the ends of the sorted records are among them and bound every record's time |
| `Energy.EndsOfOrdered` | controllers/reportController.js:225-227 | records pushed in time order need no sort: the ends are the first and last pushed |
| `Energy.DayEnergies` | controllers/reportController.js:184-234 | one figure per run, in order |
| `Energy.SamplesOrdered` | controllers/reportController.js:204-216 | on sorted records of one date the pushed samples are in time order |
| `Energy.DayEnergyOfSorted` | controllers/reportController.js:221-230 | a day's figure is the last running record's kWh minus the first's, not clamped |
| `Energy.EnergyPassIsEnergyDays` | controllers/reportController.js:184-234 | the daily energy fold finalises exactly the figures of the maximal same-date runs |
| `Energy.PumpDelta` | controllers/reportController.js:224-229 | the method form of `DeltaOf`: none without records, else last − first after the sort |
| `Energy.EnergyRecord` | controllers/reportController.js:184-233 | the method form of `EnergyStep`: one call of the daily `reduce` callback does what that step does |
| `Energy.DailyEnergy` | controllers/reportController.js:184-234 | the daily fold over the array returns the figures of the same-date runs |
| `EnergyMonth.GroupByDate` | controllers/reportController.js:156-169 | `groupedByDate` holds each date once, its keys exactly the dates of its order |
| `EnergyMonth.AddToGroup` | controllers/reportController.js:157-168 | the method form of `GroupRecord`: the grouping callback finds or creates the date group and pushes the running pumps' samples |
| `EnergyMonth.GroupMonth` | controllers/reportController.js:156-169 | the grouping `reduce` returns `groupedByDate` |
| `EnergyMonth.MonthEnergy` | controllers/reportController.js:154-180 | the month's totals start at 0 for both pumps and add each date group's last − first |
| `EnergyMonth.GroupByDateRuns` | controllers/reportController.js:156-169 | on sorted records the date groups are the same-date runs, in order, each with the run's samples |
| `EnergyMonth.MonthKwhIsSumOfDays` | controllers/reportController.js:171-180 | on sorted records a month's kWh is the sum of the daily figures of the same records |
| `EnergyMonth.MonthsOf` | controllers/reportController.js:136-140 | `monthKeys` holds the month of every record |
| `EnergyMonth.MonthsOfFromRecords` | controllers/reportController.js:136-140 | every month in `monthKeys` is some record's month, so no month is queried without a record |
| `EnergyMonth.MonthlyData` | controllers/reportController.js:143-181 | `monthlyData` has exactly the months of `monthKeys` as keys |
| `EnergyMonth.EnergyDaysMonths` | controllers/reportController.js:236-244 | every daily figure's month is in `monthKeys`, so the lookup `monthlyData[monthKey]` never misses |
| `EnergyMonth.EnergyConsumptionReport` | controllers/reportController.js:126-250 | not found without records; otherwise the rows joined from the daily figures and each touched month's totals over that month's records, or not found when there are none |
| `EnergyFacts.ActiveSamplesEmpty` | controllers/reportController.js:224 | a pump has no records in a group iff it runs in none of the group's records |
| `EnergyFacts.EnergyDaysOfSorted` | controllers/reportController.js:184-239 | on sorted input figure k is the k-th date's; no figure iff the pump never ran that date, else last − first |
| `EnergyFacts.ConsumptionRowsSound` | controllers/reportController.js:236-246 | every row is a pump's daily figure with its month's total |
| `EnergyFacts.ConsumptionRowsComplete` | controllers/reportController.js:236-246 | every daily figure has its row |
| `EnergyFacts.DailyFigureExample` | controllers/reportController.js:221-230 | readings of 100.0 then 145.5 kWh give 45.5 for pump 1 and no figure for pump 2 |
| `EnergyFacts.CounterResetExample` | controllers/reportController.js:228 | a counter going back from 100.0 to 5.0 gives −95.0 |
| `Flow.MonthlyFlows` | controllers/reportController.js:527-547 | the reference for the monthly loop: one total per pump, present iff some month-window record counts toward it, and then the sum of those records' flows |
| `Flow.AddMonthlyFlow` | controllers/reportController.js:542-546 | the per-pump loop body: a running pump's total grows by the record's flow, from 0, and nothing else changes |
| `Flow.TotalsAre` | controllers/reportController.js:527-547 | a map holding each pump's total, keyed only by pumps with flow, is `MonthlyFlows` |
| `Flow.MonthlyFlowLoop` | controllers/reportController.js:527-547 | the monthly loop over the array returns `MonthlyFlows` |
| `Flow.FlowTotalPositive` | controllers/reportController.js:533-545 | a total is positive iff some record counted, else 0 |
| `Flow.SeenKeysMember` | controllers/reportController.js:578-579 | a date and pump are in `seen` iff some earlier record of that date counted toward the pump |
| `Flow.FirstOfDaySeen` | controllers/reportController.js:572-579 | a record is the first of its date for a pump iff it counts and its key is not yet in `seen` |
| `Flow.FlowPump` | controllers/reportController.js:567-587 | the per-pump loop body, whose rows are those of `FlowRows` one record at a time: adds the flow to its day key's `dailyFlows` entry (from 0 when absent), leaves every other entry unchanged, marks `seen` and emits the row only for a new key |
| `Flow.DailyFlowLoop` | controllers/reportController.js:549-588 | the daily loop over the array returns the rows of the first counting record of each date and pump |
| `Flow.FlowReport` | controllers/reportController.js:520-592 | not found without day-window records; otherwise those rows, or not found when there are none |
| `FlowFacts.FlowRowsSound` | controllers/reportController.js:575-586 | every row comes from the first record of its date counting toward its pump, with that record's flow |
| `FlowFacts.FlowRowsUnique` | controllers/reportController.js:578-579 | no two rows share a date and a pump |
| `FlowFacts.FlowRowsComplete` | controllers/reportController.js:553-588 | every date and pump that some record counts toward has its row |
| `FlowFacts.MonthlyFallback` | controllers/reportController.js:585 | the monthly figure is the pump's total when a month-window record counted, else the day's flow |
| `FlowFacts.NoFlowSkipped` | controllers/reportController.js:558-560 | a record without positive flow changes neither rows nor totals |
| `FlowFacts.IdlePumpSkipped` | controllers/reportController.js:567-570 | a pump not running in a record gets neither a row nor flow from it |
| `FlowFacts.FirstRecordExample` | controllers/reportController.js:575-586 | flows 10.0 then 15.0 on one date give one row with 10.0 |

## Left out

- HTTP handling is not modelled: query parameters, the 400 answers for missing or invalid dates and the site ID, `res.json`, and the 500 answers.
- Database access is not modelled. The fetched records are parameters: arrays for the day and month windows, and `fetch` for the per-month queries of `EnergyConsumptionReport`.
- Luxon and moment calendars are not modelled. Dates are `(year, month, day)` in the fixed local zone, and times are milliseconds of the day.
- The window skips inside the daily folds (lines 188 and 398) are not modelled. The day-window records come from a query bounded by the same window, so the skip never fires on them.
- `toFixed(2)`, `Number(...)`, `isNaN` and the `|| 0` defaults of the energy report's fields are floating-point display and coercion details. Values are `real`, and a record is assumed to carry every field.
- The `site`, `siteId`, `date` string and `HH:mm` string fields of energy report rows are not modelled. A row keeps the date and the minute of the day.
- The monthly fold of `pumpingReport` finds the next record by `indexOf` and tests whether a record is the last by object identity. Fetched documents are distinct, so both are modelled by the index.
- `Pumping.PumpingReport` and `EnergyMonth.EnergyConsumptionReport` require time-sorted day-window records. Their daily folds keep a list where the source keeps a date-keyed object, and the two agree only when dates do not reappear. The query sorts by timestamp, so this always holds.
- The site controller, the routes, the server entry point and the user model are not part of this model.
- PumpHours.CalculatePumpHours: the branch that returns 0 for unparsable times is not modelled. Its inputs are always times formatted from record timestamps, so they parse.
- PumpHours.Round: it rounds exact reals. The source rounds floating-point minutes, so results can differ in the last unit.
