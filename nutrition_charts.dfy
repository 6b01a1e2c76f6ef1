/**
 * The data-building part of the nutrition trend charts: from the aggregated
 * `date -> totals` map it builds one entry per day of the period (zero for a
 * day with no entry), counts the days with data, averages over them and, for
 * the month view, thins every series to every fifth day plus the last.
 *
 * Date keys and day labels come from the date library; they are supplied as
 * functions of "days ago", which is what the loop passes to `subDays`.
 */
module NutritionCharts {
  import opened Base

  datatype Period = Week | Month

  /** `period === 'week' ? 7 : 30` */
  function DayCount(p: Period): (n: nat)
    ensures n >= 7
  {
    if p == Week then 7 else 30
  }

  datatype DayTotals = DayTotals(calories: real, protein: real, carbs: real, fats: real)

  const NoData := DayTotals(0.0, 0.0, 0.0, 0.0)

  /** `aggregated[date] || { calories: 0, protein: 0, carbs: 0, fats: 0 }` */
  function DayData(aggregated: map<string, DayTotals>, date: string): DayTotals {
    if date in aggregated then aggregated[date] else NoData
  }

  /** The days of the period, oldest first: day `i` lies `days - 1 - i` days back. */
  function Series(aggregated: map<string, DayTotals>, dateKey: nat -> string, days: nat): (ds: seq<DayTotals>)
    ensures |ds| == days
  {
    seq(days, i requires 0 <= i < days => DayData(aggregated, dateKey(days - 1 - i)))
  }

  datatype Field = CaloriesField | ProteinField | CarbsField | FatsField

  function FieldValue(d: DayTotals, f: Field): real {
    match f
    case CaloriesField => d.calories
    case ProteinField => d.protein
    case CarbsField => d.carbs
    case FatsField => d.fats
  }

  /** One dataset: field `f` of every day. */
  function Column(ds: seq<DayTotals>, f: Field): (c: seq<real>)
    ensures |c| == |ds|
  {
    seq(|ds|, i requires 0 <= i < |ds| => FieldValue(ds[i], f))
  }

  /** The day labels, oldest first. */
  function DayLabels(dayLabel: nat -> string, days: nat): (ls: seq<string>)
    ensures |ls| == days
  {
    seq(days, i requires 0 <= i < days => dayLabel(days - 1 - i))
  }

  /** A day missing from the aggregated map contributes 0 to all four datasets. */
  lemma MissingDayIsZero(aggregated: map<string, DayTotals>, dateKey: nat -> string, days: nat, i: nat, f: Field)
    requires i < days && dateKey(days - 1 - i) !in aggregated
    ensures Column(Series(aggregated, dateKey, days), f)[i] == 0.0
  {
    var ds := Series(aggregated, dateKey, days);
    assert ds[i] == DayData(aggregated, dateKey(days - 1 - i)) == NoData;
    assert Column(ds, f)[i] == FieldValue(ds[i], f);
  }

  // ----- What the loop accumulates, as functions of the days seen so far ------------

  function CountWithData(ds: seq<DayTotals>): nat {
    if ds == [] then 0
    else CountWithData(ds[..|ds| - 1]) + (if ds[|ds| - 1].calories > 0.0 then 1 else 0)
  }

  function CaloriesWithData(ds: seq<DayTotals>): real {
    if ds == [] then 0.0
    else CaloriesWithData(ds[..|ds| - 1]) + (if ds[|ds| - 1].calories > 0.0 then ds[|ds| - 1].calories else 0.0)
  }

  function ProteinWithData(ds: seq<DayTotals>): real {
    if ds == [] then 0.0
    else ProteinWithData(ds[..|ds| - 1]) + (if ds[|ds| - 1].calories > 0.0 then ds[|ds| - 1].protein else 0.0)
  }

  /** The indices of the days that have data. */
  function DaysWithData(ds: seq<DayTotals>): set<nat> {
    set i: nat | i < |ds| && ds[i].calories > 0.0
  }

  /** The count is exactly the number of days with positive calories. */
  lemma {:induction false} CountIsDaysWithData(ds: seq<DayTotals>)
    ensures CountWithData(ds) == |DaysWithData(ds)|
    decreases |ds|
  {
    if ds != [] {
      var n := |ds| - 1;
      var prefix := ds[..n];
      CountIsDaysWithData(prefix);
      if ds[n].calories > 0.0 {
        assert DaysWithData(ds) == DaysWithData(prefix) + {n};
      } else {
        assert DaysWithData(ds) == DaysWithData(prefix);
      }
    }
  }

  /** `0 <= totalDays <= days`. */
  lemma {:induction false} CountBounded(ds: seq<DayTotals>)
    ensures CountWithData(ds) <= |ds|
    decreases |ds|
  {
    if ds != [] {
      CountBounded(ds[..|ds| - 1]);
    }
  }

  /** Days without data add nothing: with no day above zero, count and totals are zero. */
  lemma {:induction false} NoDataNoTotals(ds: seq<DayTotals>)
    requires forall i | 0 <= i < |ds| :: ds[i].calories <= 0.0
    ensures CountWithData(ds) == 0 && CaloriesWithData(ds) == 0.0 && ProteinWithData(ds) == 0.0
    decreases |ds|
  {
    if ds != [] {
      NoDataNoTotals(ds[..|ds| - 1]);
    }
  }

  // ----- The per-day loop -------------------------------------------------------------

  /** The arrays the loop fills and the accumulators it updates. */
  datatype DailySeries = DailySeries(
    labels: seq<string>,
    calories: seq<real>,
    protein: seq<real>,
    carbs: seq<real>,
    fats: seq<real>,
    totalCalories: real,
    totalProtein: real,
    daysWithData: nat)

  method BuildDailySeries(aggregated: map<string, DayTotals>, dateKey: nat -> string,
                          dayLabel: nat -> string, days: nat) returns (d: DailySeries)
    ensures d.labels == DayLabels(dayLabel, days)
    ensures d.calories == Column(Series(aggregated, dateKey, days), CaloriesField)
    ensures d.protein == Column(Series(aggregated, dateKey, days), ProteinField)
    ensures d.carbs == Column(Series(aggregated, dateKey, days), CarbsField)
    ensures d.fats == Column(Series(aggregated, dateKey, days), FatsField)
    ensures d.daysWithData == CountWithData(Series(aggregated, dateKey, days))
    ensures d.totalCalories == CaloriesWithData(Series(aggregated, dateKey, days))
    ensures d.totalProtein == ProteinWithData(Series(aggregated, dateKey, days))
  {
    ghost var ds := Series(aggregated, dateKey, days);
    ghost var allLabels := DayLabels(dayLabel, days);
    var labels, calories, protein, carbs, fats := [], [], [], [], [];
    var totalCalories, totalProtein := 0.0, 0.0;
    var daysWithData := 0;
    for i := 0 to days
      invariant labels == allLabels[..i]
      invariant calories == Column(ds[..i], CaloriesField)
      invariant protein == Column(ds[..i], ProteinField)
      invariant carbs == Column(ds[..i], CarbsField)
      invariant fats == Column(ds[..i], FatsField)
      invariant daysWithData == CountWithData(ds[..i])
      invariant totalCalories == CaloriesWithData(ds[..i])
      invariant totalProtein == ProteinWithData(ds[..i])
    {
      var dayData := DayData(aggregated, dateKey(days - 1 - i));
      assert ds[..i + 1][..i] == ds[..i] && ds[..i + 1][i] == dayData;
      assert allLabels[..i + 1] == allLabels[..i] + [dayLabel(days - 1 - i)];
      ColumnSnoc(ds[..i + 1]);
      labels := labels + [dayLabel(days - 1 - i)];
      calories := calories + [dayData.calories];
      protein := protein + [dayData.protein];
      carbs := carbs + [dayData.carbs];
      fats := fats + [dayData.fats];
      if dayData.calories > 0.0 {
        totalCalories := totalCalories + dayData.calories;
        totalProtein := totalProtein + dayData.protein;
        daysWithData := daysWithData + 1;
      }
    }
    assert ds[..days] == ds;
    assert allLabels[..days] == allLabels;
    d := DailySeries(labels, calories, protein, carbs, fats, totalCalories, totalProtein, daysWithData);
  }

  /** Each dataset grows by the new day's field. */
  lemma ColumnSnoc(ds: seq<DayTotals>)
    requires ds != []
    ensures forall f :: Column(ds, f) == Column(ds[..|ds| - 1], f) + [FieldValue(ds[|ds| - 1], f)]
  {
    forall f ensures Column(ds, f) == Column(ds[..|ds| - 1], f) + [FieldValue(ds[|ds| - 1], f)] {
      assert Column(ds, f)[..|ds| - 1] == Column(ds[..|ds| - 1], f);
    }
  }

  // ----- Month downsampling -----------------------------------------------------------

  /** `i % 5 === 0 || i === length - 1` */
  predicate Kept(i: nat, n: nat) {
    i % 5 == 0 || i == n - 1
  }

  /** The indices in `[from, n)` that the month filter keeps, in increasing order. */
  function KeptIndices(n: nat, from: nat): (ks: seq<nat>)
    ensures forall j | 0 <= j < |ks| :: from <= ks[j] < n
    decreases n - from
  {
    if from >= n then []
    else (if Kept(from, n) then [from] else []) + KeptIndices(n, from + 1)
  }

  /** The month filter keeps at most every position, and always the last one. */
  lemma {:induction false} KeptIndicesKeepLast(n: nat, from: nat)
    requires from <= n
    ensures |KeptIndices(n, from)| <= n - from
    ensures from < n ==> KeptIndices(n, from) != [] && KeptIndices(n, from)[|KeptIndices(n, from)| - 1] == n - 1
    decreases n - from
  {
    if from < n {
      KeptIndicesKeepLast(n, from + 1);
    }
  }

  /** The month filter keeps index `x` exactly when `Kept(x, n)`. */
  lemma {:induction false} KeptIndicesMembers(n: nat, from: nat, x: nat)
    ensures x in KeptIndices(n, from) <==> from <= x < n && Kept(x, n)
    decreases n - from
  {
    if from < n {
      KeptIndicesMembers(n, from + 1, x);
    }
  }

  predicate Increasing(ks: seq<nat>) {
    forall a, b | 0 <= a < b < |ks| :: ks[a] < ks[b]
  }

  /** The month filter keeps positions in their original order. */
  lemma {:induction false} KeptIndicesIncreasing(n: nat, from: nat)
    ensures Increasing(KeptIndices(n, from))
    decreases n - from
  {
    if from < n {
      KeptIndicesIncreasing(n, from + 1);
      var tail := KeptIndices(n, from + 1);
      var ks := KeptIndices(n, from);
      if Kept(from, n) {
        assert ks == [from] + tail;
        forall a, b | 0 <= a < b < |ks| ensures ks[a] < ks[b] {
          assert ks[b] == tail[b - 1];
          assert from + 1 <= tail[b - 1];
          if a > 0 {
            assert ks[a] == tail[a - 1];
          }
        }
      } else {
        assert ks == tail;
      }
    }
  }

  /** `period === 'month' ? s.filter((_, i) => i % 5 === 0 || i === s.length - 1) : s` */
  function Downsample<T>(p: Period, s: seq<T>): (r: seq<T>)
    ensures p == Week ==> r == s
    ensures |r| <= |s|
  {
    if p == Week then s
    else
      var ks := KeptIndices(|s|, 0);
      KeptIndicesKeepLast(|s|, 0);
      seq(|ks|, j requires 0 <= j < |ks| => s[ks[j]])
  }

  /** Both views always show the first and the last day of the period. */
  lemma DownsampleKeepsEnds<T>(p: Period, s: seq<T>)
    requires s != []
    ensures var r := Downsample(p, s); r != [] && r[0] == s[0] && r[|r| - 1] == s[|s| - 1]
  {
    KeptIndicesKeepLast(|s|, 0);
  }

  /** The month filter depends on positions only: series of equal length stay of equal length. */
  lemma DownsampleKeepsLengthsEqual<T, U>(p: Period, s: seq<T>, t: seq<U>)
    requires |s| == |t|
    ensures |Downsample(p, s)| == |Downsample(p, t)|
  {
  }

  /** A position the filter drops contributes nothing to the kept positions. */
  lemma SkipDropped(n: nat, x: nat)
    requires x < n && !Kept(x, n)
    ensures KeptIndices(n, x) == KeptIndices(n, x + 1)
  {
  }

  /** From a multiple of 5 with more than five positions left, the next kept index is 5 further on. */
  lemma SkipToNextFifth(n: nat, from: nat)
    requires from % 5 == 0 && from + 5 < n
    ensures KeptIndices(n, from) == [from] + KeptIndices(n, from + 5)
  {
    var q := from / 5;
    assert from == 5 * q;
    assert (from + 1) % 5 == 1 && (from + 2) % 5 == 2 && (from + 3) % 5 == 3 && (from + 4) % 5 == 4;
    SkipDropped(n, from + 4);
    SkipDropped(n, from + 3);
    SkipDropped(n, from + 2);
    SkipDropped(n, from + 1);
  }

  /** Of 30 positions the month filter keeps 0, 5, 10, 15, 20, 25 and 29. */
  lemma ThirtyDayIndices(n: nat)
    requires n == 30
    ensures KeptIndices(n, 0) == [0, 5, 10, 15, 20, 25, 29]
  {
    LastFiveOfThirty(n);
    SkipToNextFifth(n, 20);
    assert KeptIndices(n, 20) == [20, 25, 29];
    SkipToNextFifth(n, 15);
    assert KeptIndices(n, 15) == [15, 20, 25, 29];
    SkipToNextFifth(n, 10);
    assert KeptIndices(n, 10) == [10, 15, 20, 25, 29];
    SkipToNextFifth(n, 5);
    assert KeptIndices(n, 5) == [5, 10, 15, 20, 25, 29];
    SkipToNextFifth(n, 0);
  }

  /** Of positions 25 to 29 of 30, the filter keeps 25 and the last. */
  lemma LastFiveOfThirty(n: nat)
    requires n == 30
    ensures KeptIndices(n, 25) == [25, 29]
  {
    assert KeptIndices(n, n) == [];
    assert KeptIndices(n, 29) == [29] + KeptIndices(n, n);
    SkipDropped(n, 28);
    SkipDropped(n, 27);
    SkipDropped(n, 26);
    assert KeptIndices(n, 25) == [25] + KeptIndices(n, 26);
  }

  /** Over 30 days the month filter keeps days 0, 5, 10, 15, 20, 25 and 29. */
  lemma MonthKeepsSevenDays<T>(s: seq<T>)
    requires |s| == 30
    ensures Downsample(Month, s) == [s[0], s[5], s[10], s[15], s[20], s[25], s[29]]
  {
    ThirtyDayIndices(|s|);
  }

  /** The week view passes every series through. */
  lemma WeekKeepsAll<T>(s: seq<T>)
    ensures Downsample(Week, s) == s
  {
  }

  // ----- The chart data -----------------------------------------------------------------

  datatype Stats = Stats(avgCalories: int, avgProtein: int, totalDays: nat)

  /** The labels and datasets handed to both charts, and the summary statistics. */
  datatype ChartData = ChartData(
    labels: seq<string>,
    calories: seq<real>,
    protein: seq<real>,
    carbs: seq<real>,
    fats: seq<real>,
    stats: Stats)

  /** `daysWithData > 0 ? Math.round(total / daysWithData) : 0` */
  function Average(total: real, count: nat): (r: int)
    ensures count == 0 ==> r == 0
    ensures count > 0 ==> total / count as real - 0.5 < r as real <= total / count as real + 0.5
  {
    if count > 0 then Round(total / count as real) else 0
  }

  method LoadChartData(period: Period, aggregated: map<string, DayTotals>, dateKey: nat -> string,
                       dayLabel: nat -> string) returns (chart: ChartData)
    ensures var ds := Series(aggregated, dateKey, DayCount(period));
      && chart.labels == Downsample(period, DayLabels(dayLabel, DayCount(period)))
      && chart.calories == Downsample(period, Column(ds, CaloriesField))
      && chart.protein == Downsample(period, Column(ds, ProteinField))
      && chart.carbs == Downsample(period, Column(ds, CarbsField))
      && chart.fats == Downsample(period, Column(ds, FatsField))
      && chart.stats == Stats(Average(CaloriesWithData(ds), CountWithData(ds)),
                              Average(ProteinWithData(ds), CountWithData(ds)),
                              CountWithData(ds))
    ensures chart.stats.totalDays <= DayCount(period)
    ensures |chart.labels| == |chart.calories| == |chart.protein| == |chart.carbs| == |chart.fats| == 7
  {
    var days := DayCount(period);
    var d := BuildDailySeries(aggregated, dateKey, dayLabel, days);
    var labels, calories := d.labels, d.calories;
    // Ensure at least one data point: never taken, the loop has filled `days >= 7` entries.
    if |calories| == 0 {
      calories := calories + [0.0];
      labels := labels + ["Today"];
    }
    CountBounded(Series(aggregated, dateKey, days));
    if period == Month {
      MonthKeepsSevenDays(labels);
      MonthKeepsSevenDays(calories);
      MonthKeepsSevenDays(d.protein);
      MonthKeepsSevenDays(d.carbs);
      MonthKeepsSevenDays(d.fats);
    }
    chart := ChartData(
      Downsample(period, labels),
      Downsample(period, calories),
      Downsample(period, d.protein),
      Downsample(period, d.carbs),
      Downsample(period, d.fats),
      Stats(Average(d.totalCalories, d.daysWithData), Average(d.totalProtein, d.daysWithData), d.daysWithData));
  }
}
