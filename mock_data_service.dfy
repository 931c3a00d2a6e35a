/**
 * The synthetic data generators and the KPI accumulator of the dashboard.
 *
 * Every `Math.random()` call of a generator is a parameter of type `Rand`,
 * a real in [0, 1), so each contract is stated over all possible draws.
 * Money is exact `real` arithmetic.
 */
module MockDataService {
  import opened TimeLabel

  /** One result of `Math.random()`. */
  type Rand = r: real | 0.0 <= r < 1.0

  const TicketTypes: seq<string> := ["HK$1180", "HK$680", "HK$380", "VIP Package"]

  /** Running totals of the dashboard's key figures. */
  datatype KPIStats = KPIStats(totalSold: int, totalGrossHKD: real, totalNetHKD: real)

  /** One slice of the sales composition chart. */
  datatype ChartDataItem = ChartDataItem(name: string, value: real)

  /** One per-minute bucket: its "HH:MM" label and a count per ticket category. */
  datatype BarChartItem = BarChartItem(time: string, hk1180: int, hk680: int, hk380: int)

  /** One detail row of the sales table (the random row id is not modelled). */
  datatype TableRow = TableRow(
    activityName: string,
    ticketType: string,
    dateTime: string,
    soldCount: int,
    grossRevenue: int,
    netRevenue: int,
    pendingCount: int)

  /** The draws `updateKPIs` makes: whether anything sold, how many, and the unit price. */
  datatype KpiDraw = KpiDraw(gate: Rand, count: Rand, price: Rand)

  /** The draws of one bucket or one composition snapshot, one per ticket category. */
  datatype CategoryDraw = CategoryDraw(hk1180: Rand, hk680: Rand, hk380: Rand)

  /** The draws of one table row. */
  datatype RowDraw = RowDraw(sold: Rand, gross: Rand, net: Rand, pending: Rand)

  const BaselineSold: int := 123456
  const BaselineGross: real := 120670000.0
  const BaselineNet: real := 100450000.0
  const NetShare: real := 0.85

  const WindowSize: nat := 30
  const TableSize: nat := 15
  const SpecialActivity: string := "xxxx演唱会啦啦啦啦"
  const TableDateTime: string := "2025/01/29 15:00"

  // ---------------------------------------------------------------- KPIs

  /** The totals every snapshot reachable from the baseline satisfies. */
  predicate KpiConsistent(k: KPIStats) {
    k.totalSold >= BaselineSold &&
    k.totalGrossHKD >= BaselineGross &&
    k.totalNetHKD - BaselineNet == NetShare * (k.totalGrossHKD - BaselineGross)
  }

  /** The fixed baseline the dashboard starts from. */
  function GenerateInitialKPIs(): (k: KPIStats)
    ensures k.totalSold == 123456
    ensures k.totalGrossHKD == 120670000.0 && k.totalNetHKD == 100450000.0
    ensures KpiConsistent(k)
  {
    KPIStats(123456, 120670000.0, 100450000.0)
  }

  /** Units sold in one step: zero unless the gate draw exceeds 0.3, else `floor(5 * count)`. */
  function Increment(d: KpiDraw): (inc: int)
    ensures 0 <= inc <= 4
    ensures inc == 0 <==> d.gate <= 0.3 || d.count < 0.2
  {
    if d.gate > 0.3 then (d.count * 5.0).Floor else 0
  }

  /** Gross revenue of `inc` units at a unit price drawn from [500, 1180). */
  function GrossAdd(inc: int, price: Rand): (g: real)
    requires inc >= 0
    ensures 500.0 * inc as real <= g
    ensures inc > 0 ==> g < 1180.0 * inc as real
    ensures inc == 0 ==> g == 0.0
  {
    inc as real * (500.0 + price * 680.0)
  }

  /** `updateKPIs`: a zero increment returns the previous snapshot itself. */
  function UpdateKPIs(prev: KPIStats, d: KpiDraw): (k: KPIStats)
    ensures Increment(d) == 0 ==> k == prev
    ensures k.totalSold == prev.totalSold + Increment(d)
    ensures Increment(d) > 0 ==>
      500.0 * Increment(d) as real <= k.totalGrossHKD - prev.totalGrossHKD < 1180.0 * Increment(d) as real
    ensures k.totalNetHKD - prev.totalNetHKD == NetShare * (k.totalGrossHKD - prev.totalGrossHKD)
    ensures k.totalSold >= prev.totalSold && k.totalGrossHKD >= prev.totalGrossHKD
    ensures k.totalNetHKD >= prev.totalNetHKD
  {
    var inc := Increment(d);
    if inc == 0 then prev
    else
      var grossAdd := GrossAdd(inc, d.price);
      KPIStats(prev.totalSold + inc, prev.totalGrossHKD + grossAdd, prev.totalNetHKD + grossAdd * NetShare)
  }

  /** An update never lets net revenue overtake gross revenue. */
  lemma UpdateKeepsNetBelowGross(prev: KPIStats, d: KpiDraw)
    requires prev.totalNetHKD <= prev.totalGrossHKD
    ensures UpdateKPIs(prev, d).totalNetHKD <= UpdateKPIs(prev, d).totalGrossHKD
  {
  }

  /** An update keeps a snapshot consistent with the baseline. */
  lemma UpdateKeepsConsistent(prev: KPIStats, d: KpiDraw)
    requires KpiConsistent(prev)
    ensures KpiConsistent(UpdateKPIs(prev, d))
  {
  }

  /** A consistent snapshot has non-negative totals and net at most gross. */
  lemma ConsistentNetBelowGross(k: KPIStats)
    requires KpiConsistent(k)
    ensures 0.0 <= k.totalNetHKD <= k.totalGrossHKD
  {
  }

  /** Applying the updates of `ds` in order, as successive steps do. */
  function Accumulate(k: KPIStats, ds: seq<KpiDraw>): KPIStats
    decreases |ds|
  {
    if |ds| == 0 then k else Accumulate(UpdateKPIs(k, ds[0]), ds[1..])
  }

  /** Along any sequence of updates the totals never decrease and stay consistent. */
  lemma {:induction false} AccumulateMonotone(k: KPIStats, ds: seq<KpiDraw>)
    requires KpiConsistent(k)
    ensures KpiConsistent(Accumulate(k, ds))
    ensures Accumulate(k, ds).totalSold >= k.totalSold
    ensures Accumulate(k, ds).totalGrossHKD >= k.totalGrossHKD
    ensures Accumulate(k, ds).totalNetHKD >= k.totalNetHKD
    decreases |ds|
  {
    if |ds| > 0 {
      UpdateKeepsConsistent(k, ds[0]);
      AccumulateMonotone(UpdateKPIs(k, ds[0]), ds[1..]);
    }
  }

  // ------------------------------------------------------ composition chart

  /** `getPieData`: five slices in a fixed order, three of them drawn. */
  function PieData(d: CategoryDraw): (r: seq<ChartDataItem>)
    ensures |r| == 5
    ensures r[0].name == "HK$1180" && 35.0 <= r[0].value < 40.0
    ensures r[1].name == "HK$680" && 25.0 <= r[1].value < 30.0
    ensures r[2].name == "HK$380" && 20.0 <= r[2].value < 25.0
    ensures r[3] == ChartDataItem("VIP Package", 15.0)
    ensures r[4] == ChartDataItem("Other", 5.0)
  {
    [ ChartDataItem("HK$1180", 35.0 + d.hk1180 * 5.0),
      ChartDataItem("HK$680", 25.0 + d.hk680 * 5.0),
      ChartDataItem("HK$380", 20.0 + d.hk380 * 5.0),
      ChartDataItem("VIP Package", 15.0),
      ChartDataItem("Other", 5.0) ]
  }

  function ShareTotal(r: seq<ChartDataItem>): real
    decreases |r|
  {
    if |r| == 0 then 0.0 else r[0].value + ShareTotal(r[1..])
  }

  /** The shares are not normalised: they total somewhere in [100, 115), exactly 100 only when all draws are 0. */
  lemma PieSharesNotNormalised(d: CategoryDraw)
    ensures 100.0 <= ShareTotal(PieData(d)) < 115.0
    ensures ShareTotal(PieData(d)) == 100.0 <==> d.hk1180 == 0.0 && d.hk680 == 0.0 && d.hk380 == 0.0
  {
    var r := PieData(d);
    assert ShareTotal(r[4..]) == 5.0 by { assert r[4..][1..] == []; }
    assert ShareTotal(r[3..]) == 20.0 by { assert r[3..][1..] == r[4..]; }
    assert ShareTotal(r[2..]) == r[2].value + 20.0 by { assert r[2..][1..] == r[3..]; }
    assert ShareTotal(r[1..]) == r[1].value + r[2].value + 20.0 by { assert r[1..][1..] == r[2..]; }
  }

  // ------------------------------------------------------------- bar window

  /** A bucket of the seeded window, labelled from `t`. */
  function SeedBucket(t: int, d: CategoryDraw): (b: BarChartItem)
    ensures b.time == Label(t)
    ensures 100 <= b.hk1180 <= 399 && 100 <= b.hk680 <= 299 && 50 <= b.hk380 <= 199
  {
    BarChartItem(Label(t),
      (100.0 + d.hk1180 * 300.0).Floor,
      (100.0 + d.hk680 * 200.0).Floor,
      (50.0 + d.hk380 * 150.0).Floor)
  }

  /** `getNextBarPoint`: the bucket pushed by a step, labelled from `currentTime`. */
  function NextBarPoint(currentTime: int, d: CategoryDraw): (b: BarChartItem)
    ensures b.time == Label(currentTime)
    ensures 100 <= b.hk1180 <= 499 && 100 <= b.hk680 <= 399 && 50 <= b.hk380 <= 249
  {
    BarChartItem(Label(currentTime),
      (100.0 + d.hk1180 * 400.0).Floor,
      (100.0 + d.hk680 * 300.0).Floor,
      (50.0 + d.hk380 * 200.0).Floor)
  }

  /** The timestamp `k` whole minutes before `t`. */
  function MinutesBefore(t: int, k: int): int {
    t - k * MsPerMinute
  }

  /** The buckets of `w` are labelled with consecutive minutes, the newest with the minute of `t`. */
  ghost predicate WindowEndsAt(w: seq<BarChartItem>, t: int) {
    forall i :: 0 <= i < |w| ==> w[i].time == Label(MinutesBefore(t, |w| - 1 - i))
  }

  /** The thirty seeded buckets, oldest first; bucket `j` uses draws `ds[j]`. */
  function InitialWindow(now: int, ds: seq<CategoryDraw>): (w: seq<BarChartItem>)
    requires |ds| == WindowSize
    ensures |w| == WindowSize
  {
    seq(WindowSize, j requires 0 <= j < WindowSize => SeedBucket(MinutesBefore(now, WindowSize - 1 - j), ds[j]))
  }

  /** The seeded window is labelled with the thirty minutes ending at `now`, with the seeded count ranges. */
  lemma InitialWindowShape(now: int, ds: seq<CategoryDraw>)
    requires |ds| == WindowSize
    ensures WindowEndsAt(InitialWindow(now, ds), now)
    ensures InitialWindow(now, ds)[WindowSize - 1].time == Label(now)
    ensures forall j :: 0 <= j < WindowSize ==>
      var b := InitialWindow(now, ds)[j];
      100 <= b.hk1180 <= 399 && 100 <= b.hk680 <= 299 && 50 <= b.hk380 <= 199
  {
    var w := InitialWindow(now, ds);
    assert MinutesBefore(now, 0) == now;
    forall j | 0 <= j < WindowSize
      ensures w[j] == SeedBucket(MinutesBefore(now, WindowSize - 1 - j), ds[j])
    {
    }
  }

  /**
   * `getBarDataInitial`: counts `i` down from 29 to 0 and pushes the bucket of
   * `now - i` minutes, so the window ends at the minute of `now`.
   */
  method BarDataInitial(now: int, ds: seq<CategoryDraw>) returns (data: seq<BarChartItem>)
    requires |ds| == WindowSize
    ensures data == InitialWindow(now, ds)
  {
    data := [];
    var i := WindowSize as int - 1;
    ghost var w := InitialWindow(now, ds);
    while i >= 0
      invariant -1 <= i <= WindowSize - 1
      invariant data == w[..WindowSize - 1 - i]
    {
      var timeLabel := MinutesBefore(now, i);
      assert w[WindowSize - 1 - i] == SeedBucket(timeLabel, ds[WindowSize - 1 - i]);
      assert w[..WindowSize - i] == w[..WindowSize - 1 - i] + [w[WindowSize - 1 - i]];
      data := data + [SeedBucket(timeLabel, ds[WindowSize - 1 - i])];
      i := i - 1;
    }
    assert w[..WindowSize] == w;
  }

  /** Timestamps in the same whole minute end the same consecutively labelled windows. */
  lemma WindowEndsAtSameMinute(w: seq<BarChartItem>, t: int, u: int)
    requires t / MsPerMinute == u / MsPerMinute
    ensures WindowEndsAt(w, t) <==> WindowEndsAt(w, u)
  {
    forall k: int
      ensures Label(MinutesBefore(t, k)) == Label(MinutesBefore(u, k))
    {
      DivShift(t, -k);
      DivShift(u, -k);
      assert MinutesBefore(t, k) == t + (-k) * MsPerMinute;
      assert MinutesBefore(u, k) == u + (-k) * MsPerMinute;
    }
  }

  /** A window labelled with consecutive minutes, no longer than a day, has no repeated label. */
  lemma WindowLabelsDistinct(w: seq<BarChartItem>, t: int, i: int, j: int)
    requires WindowEndsAt(w, t) && |w| <= MinutesPerDay
    requires 0 <= i < j < |w|
    ensures w[i].time != w[j].time
  {
    var base := MinutesBefore(t, |w| - 1);
    assert MinutesBefore(t, |w| - 1 - i) == base + i * MsPerMinute;
    assert MinutesBefore(t, |w| - 1 - j) == base + j * MsPerMinute;
    LabelsDistinctWithinDay(base, i, j);
  }

  // ---------------------------------------------------------------- table

  /** The activity name of row `i`. */
  function ActivityName(i: nat): string {
    if i == 0 then SpecialActivity else "Sample Event " + DecimalString(i)
  }

  /** Row `i` of `getTableData`. */
  function TableRowAt(i: nat, d: RowDraw): (row: TableRow)
    ensures row.activityName == ActivityName(i)
    ensures row.ticketType == TicketTypes[i % |TicketTypes|]
    ensures row.dateTime == TableDateTime
    ensures 200 <= row.soldCount <= 699 && 0 <= row.pendingCount <= 49
    ensures 50000 <= row.grossRevenue <= 149999 && 40000 <= row.netRevenue <= 124999
  {
    TableRow(
      ActivityName(i),
      TicketTypes[i % |TicketTypes|],
      TableDateTime,
      (200.0 + d.sold * 500.0).Floor,
      (50000.0 + d.gross * 100000.0).Floor,
      (40000.0 + d.net * 85000.0).Floor,
      (d.pending * 50.0).Floor)
  }

  /** `getTableData`: fifteen rows, row `i` built from draws `ds[i]`. */
  function TableData(ds: seq<RowDraw>): (rows: seq<TableRow>)
    requires |ds| == TableSize
    ensures |rows| == TableSize
    ensures forall i :: 0 <= i < |rows| ==> rows[i] == TableRowAt(i, ds[i])
  {
    seq(TableSize, i requires 0 <= i < TableSize => TableRowAt(i, ds[i]))
  }

  /** No two rows of a batch carry the same activity name. */
  lemma ActivityNamesDistinct(i: nat, j: nat)
    requires i < j
    ensures ActivityName(i) != ActivityName(j)
  {
    var prefix := "Sample Event ";
    if i == 0 {
      assert ActivityName(j)[0] == 'S' && SpecialActivity[0] == 'x';
    } else if ActivityName(i) == ActivityName(j) {
      assert DecimalString(i) == ActivityName(i)[|prefix|..];
      assert DecimalString(j) == ActivityName(j)[|prefix|..];
      DecimalStringInjective(i, j);
    }
  }

  /** The ticket types of a batch repeat with period four. */
  lemma TicketTypesCycle(ds: seq<RowDraw>, i: nat)
    requires |ds| == TableSize && i + |TicketTypes| < TableSize
    ensures TableData(ds)[i].ticketType == TableData(ds)[i + |TicketTypes|].ticketType
  {
  }
}
