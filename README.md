# Live-update engine of the merchant real-time sales dashboard

This project models, in Dafny, the engine that makes the sales dashboard look
"live": a virtual clock cursor, a 60-second auto-refresh countdown driven by a
1 Hz interval, a 30-bucket sliding window of per-minute ticket sales, a KPI
snapshot that only grows, and a passive filter record. It also covers the
generators behind them: the KPI baseline and its update, the composition
(pie) snapshot, the seeded window, the next bucket with its `HH:MM` label,
and the batch of table rows.

Modules, one per source file plus two helpers:

- `Wrappers` (`wrappers.dfy`): `Option`.
- `TimeLabel` (`time_label.dfy`): local time as integer milliseconds, the
  hour and minute derived arithmetically, the decimal and zero-padded
  formatting of `toString`/`padStart`, and the `HH:MM` bucket label. It also
  holds an independent parser of labels used to prove what a label means.
- `MockDataService` (`mock_data_service.dfy`): the generators and the KPI
  accumulator of `services/mockDataService.ts`. Every `Math.random()` call is
  a parameter of type `Rand`, a real in [0, 1), so each contract holds over
  all draws.
- `App` (`app.dfy`): the state of the `App` component as class `Dashboard`,
  with one method per handler (`Step` is `stepForward`). It also holds the
  pure countdown transition, the window slide and the filter merge these
  methods are proved against. The wall-clock reading `new Date()` is the
  parameter `now`.

Behaviour the model keeps exactly as the code has it:

- Every step resets the countdown to 60, manual steps included
  (App.tsx:47). One might expect a forced step to leave the countdown alone,
  but the code resets it, and so does the model.
- "Apply filters" and the header refresh run an auto-mode step. The
  "Simulate 1-Min Step" button runs a manual-mode step. The filter record is
  never read by any step.
- The sold increment is zero when the first draw is at most 0.3, and also
  when `floor(5 * draw)` is 0. So "nothing sold" has probability about 0.44,
  not 0.3. The 0..4 range, the short-circuit, and the exact condition for a zero
  increment (gate ≤ 0.3 or count < 0.2) are stated.
- An auto step right after manual steps jumps the cursor to wall-clock time.
  So window labels are contiguous only along manual steps, starting from a
  cursor in the same whole minute as the window-seeding time.
- The initial render reads the wall clock three separate times: for
  `lastUpdated` (App.tsx:13), inside `getBarDataInitial`
  (services/mockDataService.ts:36) and for the cursor (App.tsx:35). The
  constructor takes three timestamps.
- `prev.slice(1)` on an empty window gives `[]`, so `Slide` of an empty
  window has length one. Length is preserved for every non-empty window.
- Table rows can have `netRevenue` above `grossRevenue` (for example 124999
  against 50000). Unlike the KPI totals, the rows carry no such invariant.

## Model

| member | source | states |
|---|---|---|
| TimeLabel.MinuteOfDay | services/mockDataService.ts:39-40 | the local minute of the day of a timestamp is in 0..1439 |
| TimeLabel.MinuteOfDayShift | services/mockDataService.ts:39 | moving a timestamp by k whole minutes moves its minute of the day by k, modulo 1440 |
| TimeLabel.Hours | services/mockDataService.ts:40 | `getHours()` is in 0..23 |
| TimeLabel.Minutes | services/mockDataService.ts:40 | `getMinutes()` is in 0..59 |
| TimeLabel.DecimalString | services/mockDataService.ts:66 | `toString()` of a natural number below 10^21 (the model formats only values below 60) is a non-empty string of digits, one digit long exactly below 10 |
| TimeLabel.DecimalRoundTrip | services/mockDataService.ts:66 | reading back the digits `toString()` writes gives the number |
| TimeLabel.DecimalStringInjective | services/mockDataService.ts:66 | different numbers produce different decimal strings |
| TimeLabel.PadStart2 | services/mockDataService.ts:40 | `padStart(2, '0')` makes the string at least two chars long, keeps it as its suffix, and fills the front with zeros |
| TimeLabel.Label | services/mockDataService.ts:54 | a label is five characters: two digits, ':', two digits |
| TimeLabel.LabelIsPaddedFormat | services/mockDataService.ts:40 | the label is the padded hour, ':', the padded minute, as `padStart`/`toString` format them |
| TimeLabel.ParseLabel | services/mockDataService.ts:54 | a successfully parsed label is a minute of the day in 0..1439 |
| TimeLabel.LabelRoundTrip | services/mockDataService.ts:54 | parsing a timestamp's label gives back exactly its minute of the day |
| TimeLabel.LabelsEqualIff | services/mockDataService.ts:54 | two timestamps have the same label if and only if they fall in the same minute of the day |
| TimeLabel.LabelsDistinctWithinDay | App.tsx:43 | timestamps 0 < j - i < 1440 whole minutes apart get different labels |
| TimeLabel.NextLabel | App.tsx:43 | the label one minute later shows the next minute of the day, "23:59" wrapping to "00:00" |
| MockDataService.GenerateInitialKPIs | services/mockDataService.ts:6-10 | the baseline is 123456 sold, 120670000 gross, 100450000 net, and it is consistent |
| MockDataService.Increment | services/mockDataService.ts:13 | the sold increment is in 0..4; it is 0 if and only if the gate draw is at most 0.3 or the count draw is below 0.2 |
| MockDataService.GrossAdd | services/mockDataService.ts:16 | the gross delta of inc units lies in [500·inc, 1180·inc), and is 0 for inc = 0 |
| MockDataService.UpdateKPIs | services/mockDataService.ts:12-22 | a zero increment returns prev itself; otherwise sold grows by the increment, gross by a delta in [500·inc, 1180·inc), net by exactly 0.85 of that delta; all three never decrease |
| MockDataService.UpdateKeepsNetBelowGross | services/mockDataService.ts:16-21 | an update preserves net ≤ gross |
| MockDataService.UpdateKeepsConsistent | services/mockDataService.ts:16-21 | an update preserves totals at or above the baseline and net − 100450000 = 0.85·(gross − 120670000) |
| MockDataService.ConsistentNetBelowGross | services/mockDataService.ts:6-21 | every consistent snapshot has 0 ≤ net ≤ gross |
| MockDataService.AccumulateMonotone | services/mockDataService.ts:12-22 | along any sequence of updates from a consistent snapshot, the totals stay consistent and never decrease |
| MockDataService.PieData | services/mockDataService.ts:24-30 | five slices in fixed order: HK$1180 in [35,40), HK$680 in [25,30), HK$380 in [20,25), VIP Package 15, Other 5 |
| MockDataService.PieSharesNotNormalised | services/mockDataService.ts:24-30 | the shares total somewhere in [100, 115); the total is exactly 100 only when all three draws are 0 |
| MockDataService.SeedBucket | services/mockDataService.ts:39-47 | a seeded bucket is labelled from its timestamp, with counts in [100,399], [100,299] and [50,199] |
| MockDataService.NextBarPoint | services/mockDataService.ts:53-61 | the next bucket is labelled from the given time, with counts in [100,499], [100,399] and [50,249] |
| MockDataService.InitialWindow | services/mockDataService.ts:33-50 | the seeded window has exactly 30 buckets |
| MockDataService.InitialWindowShape | services/mockDataService.ts:38-47 | bucket j of the seeded window is labelled now − (29 − j) minutes, so the last label is now's and labels are consecutive minutes; every bucket has the seeded count ranges |
| MockDataService.BarDataInitial | services/mockDataService.ts:33-50 | the count-down loop from i = 29 to 0 builds exactly that window, bucket j using the j-th draws |
| MockDataService.WindowEndsAtSameMinute | App.tsx:35 | two timestamps in the same whole minute end exactly the same consecutively labelled windows |
| MockDataService.WindowLabelsDistinct | services/mockDataService.ts:33-50 | a window labelled with consecutive minutes and at most a day long has no repeated label |
| MockDataService.TableRowAt | services/mockDataService.ts:64-73 | row i: the special activity name for i = 0, else "Sample Event " + i; ticket type TICKET_TYPES[i mod 4]; date "2025/01/29 15:00"; sold in [200,699]; gross in [50000,149999]; net in [40000,124999]; pending in [0,49] |
| MockDataService.TableData | services/mockDataService.ts:63-74 | the batch has exactly 15 rows, row i built from the i-th draws |
| MockDataService.ActivityNamesDistinct | services/mockDataService.ts:66 | no two rows carry the same activity name |
| MockDataService.TicketTypesCycle | services/mockDataService.ts:67 | the ticket types of a batch repeat with period four |
| App.Overwrite | App.tsx:84 | a spread field takes the value of a present key, `undefined` included, and keeps the previous value when the key is absent |
| App.MergeFilters | App.tsx:83-85 | each of the nine filter fields is overwritten exactly when the update has that key, with the supplied value even if it is `undefined` |
| App.ClearingTicketTypeStoresUndefined | components/Filters.tsx:58-64 | clearing the ticket-type select (`{ ticketType: undefined }`) stores `undefined` in that field and changes no other |
| App.MergeNothing | App.tsx:83-85 | an update supplying no field leaves the filters unchanged |
| App.MergeIdempotent | App.tsx:83-85 | applying the same update twice equals applying it once |
| App.NextCountdown | App.tsx:71-77 | a tick seeing c ≤ 1 sets the countdown back to 60 (and fires); otherwise it yields c − 1 |
| App.TicksCompose | App.tsx:70-78 | a + b ticks are a ticks then b ticks, for both the countdown and the number of steps |
| App.CountdownRunsDown | App.tsx:71-77 | fewer than c ticks from countdown c only count down and fire no step |
| App.CountdownExpires | App.tsx:71-77 | from countdown c ≥ 1, exactly c ticks fire exactly one step and end at 60 |
| App.FullCycleFiresOnce | App.tsx:70-78 | from 60, none of the first 59 ticks fires; sixty ticks fire exactly one step and end at 60 |
| App.CyclesFire | App.tsx:70-78 | 60·m ticks from 60 fire exactly m steps and end at 60 |
| App.Slide | App.tsx:55-58 | the new window keeps a non-empty window's length; new[i] = old[i+1] for i < n−1; the last bucket is the new point |
| App.SlideContinuesWindow | App.tsx:43-44 | pushing the bucket of the next minute keeps a consecutively labelled window consecutive, ending one minute later |
| App.Dashboard.constructor | App.tsx:13-35 | the initial state: baseline KPIs, the seeded window, countdown 60, auto-refresh on, the default filters, the three clock readings; the window ends at the cursor whenever the cursor reading falls in the same whole minute as the seeding reading |
| App.Dashboard.Step | App.tsx:38-59 | a manual step sets cursor := cursor + 60000, an auto step sets cursor := now; every step sets lastUpdated := now and countdown := 60, updates the KPIs, replaces pie and table, and slides the window (new[i] = old[i+1], the last bucket labelled from the new cursor); manual steps keep a contiguous window contiguous |
| App.Dashboard.RefreshAll | App.tsx:62-64 | the header refresh is exactly an auto-mode step |
| App.Dashboard.SimulateStep | App.tsx:171-172 | the simulate button is exactly a manual-mode step, which continues a contiguous window |
| App.Dashboard.Tick | App.tsx:67-81 | while auto-refresh is off a tick changes nothing; while on, it fires exactly when the countdown is ≤ 1 (an auto step, countdown 60), and otherwise only decrements the countdown |
| App.Dashboard.ToggleAutoRefresh | App.tsx:154 | the toggle flips auto-refresh and changes no countdown, window, KPI, table, clock or filter |
| App.Dashboard.ShownCountdown | App.tsx:163-168 | the countdown is shown exactly while auto-refresh is on, and then it is the current value |
| App.Dashboard.HandleFilterChange | App.tsx:83-85 | filters become the merge of the old ones with the update; nothing else changes |
| App.Dashboard.ApplyFilters | App.tsx:87-90 | applying filters is exactly an auto-mode step; the filters are unchanged and feed no generated data |
| App.Dashboard.ResetFilters | App.tsx:92-104 | all nine fields become "", with no step and nothing else changed |

## Left out

- UI components (filter bar, charts, table, header): they render props through antd and echarts and hold no logic.
- `formatCurrency` in components/KPICards.tsx: it depends on floating-point `toFixed` and locale formatting.
- React plumbing: `useState`/`useEffect`, creating and clearing the interval, and batching. Also the nesting of `stepForward` inside the `setCountdown` updater, and StrictMode double calls. Each step and each tick is one atomic method.
- The sub-second phase of the interval: when auto-refresh is turned back on, a new interval starts. The model keeps only the countdown value, which the toggle leaves alone.
- `useState` initialisers (`getPieData()` and the others) run on every render, but only the first result is kept. Only the first render is modelled.
- `Math.random()`: every draw is a parameter in [0, 1). The contracts hold over all draws, not over any distribution.
- `Date`, timezones and daylight saving: a timestamp is an integer count of local milliseconds. Hours and minutes are derived arithmetically.
- IEEE-754 rounding of the KPI totals and of every generator expression: all of them are exact `real` arithmetic. In doubles, the upper bounds can be reached at the largest draw. For example, `35 + r * 5` rounds to 40 at r = 1 − 2^-52, and `Math.floor(100 + r * 200)` gives 300 at r = 1 − 2^-53. So the half-open pie ranges and the closed count ranges are exact-real facts, and each may be one higher in the source.
- Row `id` values (`row-${Math.random()}`): random strings whose uniqueness is not guaranteed.
- `console.log` in `applyFilters` and the export `alert`: output only.
- `BarChartItem`'s open `[key: string]` record: a bucket has exactly three counts, so it is modelled with three fields.
