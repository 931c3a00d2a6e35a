/**
 * The live-update engine held by the dashboard's top-level component: a
 * virtual clock cursor, the 60-second auto-refresh countdown, the sliding
 * window of per-minute buckets, the KPI snapshot and the (passive) filter
 * record.  Wall-clock readings (`new Date()`) and random draws are parameters
 * of the operations that make them.
 */
module App {
  import opened Wrappers
  import opened TimeLabel
  import opened MockDataService

  const CountdownStart: int := 60

  // ---------------------------------------------------------------- filters

  /** The value of one filter field; `None` is JavaScript's `undefined`. */
  type FilterValue = Option<string>

  /** The filter criteria shown in the filter bar. */
  datatype FilterState = FilterState(
    activity: FilterValue,
    date: FilterValue,
    time: FilterValue,
    ticketType: FilterValue,
    startTime: FilterValue,
    endTime: FilterValue,
    attribute4: FilterValue,
    attribute5: FilterValue,
    unitType: FilterValue)

  /**
   * A `Partial<FilterState>`: for each field, `None` when the key is absent,
   * `Some(v)` when the key is present with value `v`, which may itself be
   * `undefined` (the ticket-type select reports `undefined` when cleared).
   */
  datatype FilterUpdate = FilterUpdate(
    activity: Option<FilterValue>,
    date: Option<FilterValue>,
    time: Option<FilterValue>,
    ticketType: Option<FilterValue>,
    startTime: Option<FilterValue>,
    endTime: Option<FilterValue>,
    attribute4: Option<FilterValue>,
    attribute5: Option<FilterValue>,
    unitType: Option<FilterValue>)

  const InitialFilters: FilterState :=
    FilterState(Some("xxxx演唱会啦啦啦啦啦啦啦"), Some("2025-01-29"), Some("15:00"), Some(""),
      Some("15:00"), Some("23:59"), Some(""), Some(""), Some(""))

  const ClearedFilters: FilterState :=
    FilterState(Some(""), Some(""), Some(""), Some(""), Some(""), Some(""), Some(""), Some(""), Some(""))

  const NoUpdates: FilterUpdate := FilterUpdate(None, None, None, None, None, None, None, None, None)

  /**
   * A field after the spread: a present key's value wins, `undefined`
   * included; an absent key keeps the previous value.
   */
  function Overwrite(supplied: Option<FilterValue>, previous: FilterValue): (r: FilterValue)
    ensures supplied.Some? ==> r == supplied.value
    ensures supplied.None? ==> r == previous
  {
    match supplied
    case Some(v) => v
    case None => previous
  }

  /** `{ ...prev, ...updates }`. */
  function MergeFilters(prev: FilterState, u: FilterUpdate): (r: FilterState)
    ensures r.activity == Overwrite(u.activity, prev.activity)
    ensures r.date == Overwrite(u.date, prev.date)
    ensures r.time == Overwrite(u.time, prev.time)
    ensures r.ticketType == Overwrite(u.ticketType, prev.ticketType)
    ensures r.startTime == Overwrite(u.startTime, prev.startTime)
    ensures r.endTime == Overwrite(u.endTime, prev.endTime)
    ensures r.attribute4 == Overwrite(u.attribute4, prev.attribute4)
    ensures r.attribute5 == Overwrite(u.attribute5, prev.attribute5)
    ensures r.unitType == Overwrite(u.unitType, prev.unitType)
  {
    FilterState(
      Overwrite(u.activity, prev.activity),
      Overwrite(u.date, prev.date),
      Overwrite(u.time, prev.time),
      Overwrite(u.ticketType, prev.ticketType),
      Overwrite(u.startTime, prev.startTime),
      Overwrite(u.endTime, prev.endTime),
      Overwrite(u.attribute4, prev.attribute4),
      Overwrite(u.attribute5, prev.attribute5),
      Overwrite(u.unitType, prev.unitType))
  }

  /** Clearing the ticket-type select stores `undefined` there and leaves every other field alone. */
  lemma ClearingTicketTypeStoresUndefined(prev: FilterState)
    ensures MergeFilters(prev, NoUpdates.(ticketType := Some(None))) == prev.(ticketType := None)
  {
  }

  /** An update that supplies no field leaves the filters as they were. */
  lemma MergeNothing(prev: FilterState)
    ensures MergeFilters(prev, NoUpdates) == prev
  {
  }

  /** Applying the same update twice is the same as applying it once. */
  lemma MergeIdempotent(prev: FilterState, u: FilterUpdate)
    ensures MergeFilters(MergeFilters(prev, u), u) == MergeFilters(prev, u)
  {
  }

  // -------------------------------------------------------------- countdown

  /** Whether a tick of the running interval, seeing countdown `c`, fires a step. */
  predicate TickFires(c: int) {
    c <= 1
  }

  /** The countdown after one tick of the running interval. */
  function NextCountdown(c: int): (n: int)
    ensures TickFires(c) ==> n == CountdownStart
    ensures !TickFires(c) ==> n == c - 1
  {
    if TickFires(c) then CountdownStart else c - 1
  }

  /** The countdown after `n` ticks. */
  function CountdownAfter(c: int, n: nat): int
    decreases n
  {
    if n == 0 then c else CountdownAfter(NextCountdown(c), n - 1)
  }

  /** The number of steps `n` ticks fire. */
  function StepsDuring(c: int, n: nat): nat
    decreases n
  {
    if n == 0 then 0 else (if TickFires(c) then 1 else 0) + StepsDuring(NextCountdown(c), n - 1)
  }

  /** Ticks compose: `a + b` ticks are `a` ticks followed by `b` ticks. */
  lemma {:induction false} TicksCompose(c: int, a: nat, b: nat)
    ensures CountdownAfter(c, a + b) == CountdownAfter(CountdownAfter(c, a), b)
    ensures StepsDuring(c, a + b) == StepsDuring(c, a) + StepsDuring(CountdownAfter(c, a), b)
    decreases a
  {
    if a > 0 {
      TicksCompose(NextCountdown(c), a - 1, b);
      assert a + b - 1 == (a - 1) + b;
    }
  }

  /** Fewer than `c` ticks only count down from `c`, firing nothing. */
  lemma {:induction false} CountdownRunsDown(c: int, k: nat)
    requires k < c
    ensures CountdownAfter(c, k) == c - k
    ensures StepsDuring(c, k) == 0
    decreases k
  {
    if k > 0 {
      CountdownRunsDown(c - 1, k - 1);
    }
  }

  /** From countdown `c >= 1`, the `c`-th tick fires the one step and restores the countdown. */
  lemma CountdownExpires(c: int)
    requires c >= 1
    ensures CountdownAfter(c, c) == CountdownStart
    ensures StepsDuring(c, c) == 1
  {
    CountdownRunsDown(c, c - 1);
    TicksCompose(c, c - 1, 1);
  }

  /** A full cycle: from 60, exactly sixty ticks fire exactly one step and end at 60 again. */
  lemma FullCycleFiresOnce()
    ensures CountdownAfter(CountdownStart, CountdownStart) == CountdownStart
    ensures StepsDuring(CountdownStart, CountdownStart) == 1
    ensures forall k: nat :: k < CountdownStart ==> StepsDuring(CountdownStart, k) == 0
  {
    CountdownExpires(CountdownStart);
    forall k: nat | k < CountdownStart
      ensures StepsDuring(CountdownStart, k) == 0
    {
      CountdownRunsDown(CountdownStart, k);
    }
  }

  /** `60 * m` ticks from a fresh countdown fire exactly `m` steps. */
  lemma {:induction false} CyclesFire(m: nat)
    ensures CountdownAfter(CountdownStart, CountdownStart * m) == CountdownStart
    ensures StepsDuring(CountdownStart, CountdownStart * m) == m
    decreases m
  {
    if m > 0 {
      CyclesFire(m - 1);
      assert CountdownStart * m == CountdownStart * (m - 1) + CountdownStart;
      TicksCompose(CountdownStart, CountdownStart * (m - 1), CountdownStart);
      CountdownExpires(CountdownStart);
    }
  }

  // ---------------------------------------------------------------- window

  /** `[...prev.slice(1), point]`: evict the oldest bucket and append the new one. */
  function Slide(w: seq<BarChartItem>, point: BarChartItem): (r: seq<BarChartItem>)
    ensures |w| > 0 ==> |r| == |w|
    ensures |w| == 0 ==> r == [point]
    ensures forall i :: 0 <= i < |w| - 1 ==> r[i] == w[i + 1]
    ensures r[|r| - 1] == point
  {
    (if |w| == 0 then [] else w[1..]) + [point]
  }

  /** Pushing the bucket of the next minute keeps a window labelled with consecutive minutes. */
  lemma SlideContinuesWindow(w: seq<BarChartItem>, t: int, point: BarChartItem)
    requires |w| > 0 && WindowEndsAt(w, t)
    requires point.time == Label(t + MsPerMinute)
    ensures WindowEndsAt(Slide(w, point), t + MsPerMinute)
  {
    var r := Slide(w, point);
    forall i | 0 <= i < |r|
      ensures r[i].time == Label(MinutesBefore(t + MsPerMinute, |r| - 1 - i))
    {
      if i < |r| - 1 {
        assert r[i] == w[i + 1];
        assert MinutesBefore(t, |w| - 1 - (i + 1)) == MinutesBefore(t + MsPerMinute, |r| - 1 - i);
      } else {
        assert MinutesBefore(t + MsPerMinute, 0) == t + MsPerMinute;
      }
    }
    assert WindowEndsAt(r, t + MsPerMinute);
  }

  // ----------------------------------------------------------------- state

  /** The random draws of one step. */
  datatype StepDraws = StepDraws(kpi: KpiDraw, pie: CategoryDraw, rows: seq<RowDraw>, bar: CategoryDraw)

  /** The random draws made when the dashboard is first rendered. */
  datatype InitDraws = InitDraws(pie: CategoryDraw, bars: seq<CategoryDraw>, rows: seq<RowDraw>)

  /** The state of the dashboard component. */
  class Dashboard {
    var lastUpdated: int
    var countdown: int
    var isAutoRefresh: bool
    var filters: FilterState
    var kpiStats: KPIStats
    var pieData: seq<ChartDataItem>
    var barData: seq<BarChartItem>
    var tableData: seq<TableRow>
    /** The virtual clock cursor that labels the next bucket. */
    var virtualTime: int

    ghost predicate Valid()
      reads this
    {
      1 <= countdown <= CountdownStart &&
      |barData| == WindowSize &&
      KpiConsistent(kpiStats) &&
      |pieData| == 5 &&
      |tableData| == TableSize
    }

    /** What one step does to the state, `isAuto` choosing the clock-advance mode. */
    twostate predicate StepEffect(isAuto: bool, now: int, d: StepDraws)
      requires |d.rows| == TableSize
      reads this
    {
      virtualTime == (if isAuto then now else old(virtualTime) + MsPerMinute) &&
      lastUpdated == now &&
      countdown == CountdownStart &&
      kpiStats == UpdateKPIs(old(kpiStats), d.kpi) &&
      pieData == PieData(d.pie) &&
      tableData == TableData(d.rows) &&
      barData == Slide(old(barData), NextBarPoint(virtualTime, d.bar)) &&
      isAutoRefresh == old(isAutoRefresh) &&
      filters == old(filters)
    }

    /** Nothing but the countdown, the auto-refresh flag and the filters changed. */
    twostate predicate DataUnchanged()
      reads this
    {
      virtualTime == old(virtualTime) &&
      lastUpdated == old(lastUpdated) &&
      kpiStats == old(kpiStats) &&
      pieData == old(pieData) &&
      barData == old(barData) &&
      tableData == old(tableData)
    }

    /**
     * The first render.  The source reads the wall clock three times: for
     * `lastUpdated` (`clockNow`), inside `getBarDataInitial` (`windowNow`) and
     * for the virtual cursor (`cursorNow`).
     */
    constructor (clockNow: int, windowNow: int, cursorNow: int, d: InitDraws)
      requires |d.bars| == WindowSize && |d.rows| == TableSize
      ensures Valid()
      ensures lastUpdated == clockNow && virtualTime == cursorNow
      ensures countdown == CountdownStart && isAutoRefresh
      ensures filters == InitialFilters
      ensures kpiStats == GenerateInitialKPIs()
      ensures pieData == PieData(d.pie)
      ensures barData == InitialWindow(windowNow, d.bars)
      ensures tableData == TableData(d.rows)
      ensures cursorNow / MsPerMinute == windowNow / MsPerMinute ==> WindowEndsAt(barData, virtualTime)
    {
      var bars := BarDataInitial(windowNow, d.bars);
      InitialWindowShape(windowNow, d.bars);
      if cursorNow / MsPerMinute == windowNow / MsPerMinute {
        WindowEndsAtSameMinute(bars, windowNow, cursorNow);
      }
      lastUpdated := clockNow;
      countdown := CountdownStart;
      isAutoRefresh := true;
      filters := InitialFilters;
      kpiStats := GenerateInitialKPIs();
      pieData := PieData(d.pie);
      barData := bars;
      tableData := TableData(d.rows);
      virtualTime := cursorNow;
    }

    /**
     * `stepForward(isAuto)`: advance the cursor (to `now` in auto mode, by one
     * minute in manual mode), stamp `lastUpdated`, reset the countdown,
     * regenerate the KPIs, the composition and the table, and slide the window.
     */
    method Step(isAuto: bool, now: int, d: StepDraws)
      requires Valid() && |d.rows| == TableSize
      modifies this
      ensures Valid()
      ensures StepEffect(isAuto, now, d)
      ensures barData[WindowSize - 1].time == Label(virtualTime)
      ensures forall i :: 0 <= i < WindowSize - 1 ==> barData[i] == old(barData)[i + 1]
      ensures !isAuto && WindowEndsAt(old(barData), old(virtualTime)) ==> WindowEndsAt(barData, virtualTime)
    {
      var targetTime := if isAuto then now else virtualTime + MsPerMinute;
      virtualTime := targetTime;
      lastUpdated := now;
      countdown := CountdownStart;
      UpdateKeepsConsistent(kpiStats, d.kpi);
      kpiStats := UpdateKPIs(kpiStats, d.kpi);
      pieData := PieData(d.pie);
      tableData := TableData(d.rows);
      var nextPoint := NextBarPoint(targetTime, d.bar);
      if !isAuto && WindowEndsAt(barData, old(virtualTime)) {
        SlideContinuesWindow(barData, old(virtualTime), nextPoint);
      }
      barData := Slide(barData, nextPoint);
    }

    /** `refreshAll`, bound to the header's refresh button: an auto-mode step. */
    method RefreshAll(now: int, d: StepDraws)
      requires Valid() && |d.rows| == TableSize
      modifies this
      ensures Valid()
      ensures StepEffect(true, now, d)
    {
      Step(true, now, d);
    }

    /** The "Simulate 1-Min Step" button: a manual-mode step. */
    method SimulateStep(now: int, d: StepDraws)
      requires Valid() && |d.rows| == TableSize
      modifies this
      ensures Valid()
      ensures StepEffect(false, now, d)
      ensures WindowEndsAt(old(barData), old(virtualTime)) ==> WindowEndsAt(barData, virtualTime)
    {
      Step(false, now, d);
    }

    /**
     * One callback of the 1 Hz interval.  While auto-refresh is off no
     * interval exists, so a tick changes nothing.
     */
    method Tick(now: int, d: StepDraws) returns (fired: bool)
      requires Valid() && |d.rows| == TableSize
      modifies this
      ensures Valid()
      ensures fired == (old(isAutoRefresh) && TickFires(old(countdown)))
      ensures old(isAutoRefresh) ==> countdown == NextCountdown(old(countdown))
      ensures fired ==> StepEffect(true, now, d)
      ensures !fired ==> DataUnchanged() && isAutoRefresh == old(isAutoRefresh) && filters == old(filters)
      ensures !old(isAutoRefresh) ==> countdown == old(countdown)
    {
      if !isAutoRefresh {
        fired := false;
      } else if TickFires(countdown) {
        Step(true, now, d);
        countdown := CountdownStart;
        fired := true;
      } else {
        countdown := countdown - 1;
        fired := false;
      }
    }

    /** The auto-sync button: flips the flag and nothing else. */
    method ToggleAutoRefresh()
      requires Valid()
      modifies this
      ensures Valid()
      ensures isAutoRefresh == !old(isAutoRefresh)
      ensures DataUnchanged() && countdown == old(countdown) && filters == old(filters)
    {
      isAutoRefresh := !isAutoRefresh;
    }

    /** The countdown the status card shows: only while auto-refresh is on. */
    function ShownCountdown(): (r: Option<int>)
      reads this
      ensures r.Some? <==> isAutoRefresh
      ensures r.Some? ==> r.value == countdown
    {
      if isAutoRefresh then Some(countdown) else None
    }

    /** `handleFilterChange`: merge the supplied fields into the filters. */
    method HandleFilterChange(u: FilterUpdate)
      requires Valid()
      modifies this
      ensures Valid()
      ensures filters == MergeFilters(old(filters), u)
      ensures DataUnchanged() && countdown == old(countdown) && isAutoRefresh == old(isAutoRefresh)
    {
      filters := MergeFilters(filters, u);
    }

    /** `applyFilters`: an auto-mode step; the filters themselves take no part in it. */
    method ApplyFilters(now: int, d: StepDraws)
      requires Valid() && |d.rows| == TableSize
      modifies this
      ensures Valid()
      ensures StepEffect(true, now, d)
    {
      RefreshAll(now, d);
    }

    /** `resetFilters`: clear all nine fields, with no step. */
    method ResetFilters()
      requires Valid()
      modifies this
      ensures Valid()
      ensures filters == ClearedFilters
      ensures DataUnchanged() && countdown == old(countdown) && isAutoRefresh == old(isAutoRefresh)
    {
      filters := ClearedFilters;
    }
  }
}
