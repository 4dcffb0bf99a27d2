/** DashboardMetrics: the six metric cards of the dashboard. For the selected date range each
    card gets a synthetic daily series (a random walk around its base value), its current value
    (the last point) and its trend (the change from the first to the last point, in percent).
    Dates are milliseconds since the epoch; `Math.random()` is replaced by a sequence of draws
    passed in by the caller; arithmetic is exact. */
module DashboardMetrics {
  import opened Types
  import opened Seqs

  /** `24 * 60 * 60 * 1000`. */
  const OneDay: int := 86400000

  /** `Math.round`: the nearest integer, halves rounded up. */
  function Round(x: real): (r: int)
    ensures r as real - 0.5 <= x < r as real + 0.5
  {
    (x + 0.5).Floor
  }

  function Abs(x: int): nat { if x < 0 then -x else x }

  /** `Math.round(Math.abs((end - start) / oneDay)) + 1`: the days of the range, both ends
      included. */
  function DiffDays(startMs: int, endMs: int): (r: int)
    ensures r >= 1
  {
    Round(Abs(endMs - startMs) as real / OneDay as real) + 1
  }

  /** `Math.max(diffDays, 2)`: a series always has room for a line. */
  function DaysToGenerate(startMs: int, endMs: int): (r: int)
    ensures r >= 2 && r >= DiffDays(startMs, endMs)
    ensures r == DiffDays(startMs, endMs) || r == 2
  {
    Max(DiffDays(startMs, endMs), 2)
  }

  /** `(Math.random() - 0.5) * (baseValue * 0.6)`. */
  function Fluctuation(random: real, baseValue: int): real {
    (random - 0.5) * (baseValue as real * 0.6)
  }

  /** For a draw of `Math.random()` (in [0, 1)) the fluctuation is at most 30% of a
      non-negative base value either way. */
  lemma FluctuationBound(random: real, baseValue: int)
    requires 0.0 <= random < 1.0
    requires baseValue >= 0
    ensures -0.3 * baseValue as real <= Fluctuation(random, baseValue) <= 0.3 * baseValue as real
  {
    var b := baseValue as real * 0.6;
    assert b >= 0.0;
    assert -0.5 <= random - 0.5 < 0.5;
    assert (random - 0.5) * b <= 0.5 * b;
    assert (random - 0.5) * b >= -0.5 * b;
  }

  /** `Math.max(0, Math.round(currentValue + fluctuation))`. */
  function NextValue(current: int, baseValue: int, random: real): (r: int)
    ensures r >= 0
    ensures r == 0 || r == Round(current as real + Fluctuation(random, baseValue))
  {
    Max(0, Round(current as real + Fluctuation(random, baseValue)))
  }

  /** The values of the random walk after taking the draws `random` in order: each step starts
      from the previous value (the first from the base value). */
  function SeriesValues(baseValue: int, random: seq<real>): (r: seq<int>)
    ensures |r| == |random|
    ensures forall k :: 0 <= k < |r| ==> r[k] >= 0
    decreases |random|
  {
    if random == [] then []
    else
      var prev := SeriesValues(baseValue, random[..|random| - 1]);
      var current := if prev == [] then baseValue else prev[|prev| - 1];
      prev + [NextValue(current, baseValue, random[|random| - 1])]
  }

  /** The series `generateGraphDataForRange` produces: point `i` stands for day `i` of the range
      and carries the walk's `i`-th value, using the first `daysToGenerate` draws. It always has
      two points or more, so the duplicate-point step leaves it as it is. */
  function GraphSpec(startMs: int, endMs: int, baseValue: int, random: seq<real>): (r: seq<GraphPoint>)
    requires |random| >= DaysToGenerate(startMs, endMs)
    ensures |r| == DaysToGenerate(startMs, endMs)
    ensures PadSingleDay(r, DiffDays(startMs, endMs)) == r
  {
    var n := DaysToGenerate(startMs, endMs);
    var values := SeriesValues(baseValue, random[..n]);
    seq(n, i requires 0 <= i < n => GraphPoint(DayLabel(startMs + i * OneDay, false), values[i]))
  }

  /** A single-day series gets a copy of its point with a space after the label. */
  function PadSingleDay(data: seq<GraphPoint>, diffDays: int): seq<GraphPoint> {
    if diffDays == 1 && |data| == 1 then data + [data[0].(name := data[0].name.(trailingSpace := true))]
    else data
  }

  /** The duplicate-point branch only fires on a one-point series. */
  lemma PadSingleDayOnlyOnOnePoint(data: seq<GraphPoint>, diffDays: int)
    ensures PadSingleDay(data, diffDays) != data <==> diffDays == 1 && |data| == 1
  {
  }

  /** `generateGraphDataForRange(startDate, endDate, baseValue)`. */
  method GenerateGraphDataForRange(startMs: int, endMs: int, baseValue: int, random: seq<real>)
    returns (data: seq<GraphPoint>)
    requires |random| >= DaysToGenerate(startMs, endMs)
    ensures data == GraphSpec(startMs, endMs, baseValue, random)
    ensures |data| == Max(DiffDays(startMs, endMs), 2) && |data| >= 2
    ensures forall i :: 0 <= i < |data| ==> data[i].value >= 0
    ensures forall i :: 0 <= i < |data| ==> data[i].name == DayLabel(startMs + i * OneDay, false)
    ensures DiffDays(startMs, endMs) == 1 ==>
      |data| == 2 && data[0].name.timeMs == startMs && data[1].name.timeMs == startMs + OneDay
  {
    data := [];
    var currentValue := baseValue;
    var diffDays := DiffDays(startMs, endMs);
    var daysToGenerate := Max(diffDays, 2);
    for i := 0 to daysToGenerate
      invariant |data| == i
      invariant forall k :: 0 <= k < i ==> data[k].name == DayLabel(startMs + k * OneDay, false)
      invariant forall k :: 0 <= k < i ==> data[k].value == SeriesValues(baseValue, random[..i])[k]
      invariant currentValue == if i == 0 then baseValue else data[i - 1].value
    {
      var fluctuation := Fluctuation(random[i], baseValue);
      currentValue := Max(0, Round(currentValue as real + fluctuation));
      assert random[..i + 1][..i] == random[..i];
      data := data + [GraphPoint(DayLabel(startMs + i * OneDay, false), currentValue)];
    }
    data := PadSingleDay(data, diffDays);
  }

  // ---------------------------------------------------------------------------------------
  // The metric derivation of the effect that runs when the date range changes.

  /** The trend once the series has two points: the relative change from the first to the
      last value in percent, 100 when the series starts at 0 and ends above it, else 0. */
  function Trend(first: int, last: int): real {
    if first > 0 then ((last - first) as real / first as real) * 100.0
    else if last > 0 then 100.0
    else 0.0
  }

  /** What the trend says about the series' ends. */
  lemma TrendProperties(first: int, last: int)
    ensures first > 0 && last >= 0 ==> Trend(first, last) >= -100.0
    ensures first > 0 ==> (Trend(first, last) >= 0.0 <==> last >= first)
    ensures first > 0 ==> Trend(first, last) * first as real == (last - first) as real * 100.0
    ensures first == 0 && last > 0 ==> Trend(first, last) == 100.0
    ensures first == 0 && last == 0 ==> Trend(first, last) == 0.0
    ensures first == last ==> Trend(first, last) == 0.0
  {
    if first > 0 {
      var f := first as real;
      var d := (last - first) as real;
      assert Trend(first, last) == (d / f) * 100.0;
      assert (d / f) * f == d;
      if last >= 0 {
        assert d >= -f;
        assert d / f >= -1.0;
      }
    }
  }

  /** The trend of a series: computed from its ends when it has at least two points, else 0. */
  function SeriesTrend(data: seq<GraphPoint>): real {
    if |data| >= 2 then Trend(data[0].value, data[|data| - 1].value) else 0.0
  }

  /** The current value shown on a card: the last point, or the base value for an empty
      series. */
  function CurrentValue(data: seq<GraphPoint>, baseValue: int): int {
    if |data| > 0 then data[|data| - 1].value else baseValue
  }

  datatype MetricConfig = MetricConfig(id: string, name: string, baseValue: int, icon: string, linkTo: Option<string>)

  const InitialMetricsConfig: seq<MetricConfig> := [
    MetricConfig("1", "Total Leads", 2500, "users", Some("leads")),
    MetricConfig("2", "Calls Analyzed", 1100, "phone", Some("calls")),
    MetricConfig("3", "Conversion Rate", 28, "target", Some("conversion")),
    MetricConfig("4", "Revenue", 800000, "dollar", None),
    MetricConfig("5", "Wins", 120, "check", Some("opportunities")),
    MetricConfig("6", "Losses", 35, "x", Some("opportunities"))
  ]

  /** `{ ...config, value: currentValue, trend, graphData }`. */
  function MetricFor(config: MetricConfig, graph: seq<GraphPoint>): (m: SalesMetric)
    ensures m.id == config.id && m.name == config.name && m.icon == config.icon && m.linkTo == config.linkTo
    ensures m.graphData == Some(graph)
  {
    SalesMetric(config.id, config.name, CurrentValue(graph, config.baseValue), SeriesTrend(graph),
                config.icon, config.linkTo, Some(graph))
  }

  /** On a generated series the card's value is the last point's value, never negative, and its
      trend is the trend of the series' two ends. */
  lemma MetricOfGeneratedSeries(config: MetricConfig, startMs: int, endMs: int, random: seq<real>)
    requires |random| >= DaysToGenerate(startMs, endMs)
    ensures var g := GraphSpec(startMs, endMs, config.baseValue, random);
      var m := MetricFor(config, g);
      && m.value == g[|g| - 1].value && m.value >= 0
      && m.trend == Trend(g[0].value, g[|g| - 1].value)
  {
    var n := DaysToGenerate(startMs, endMs);
    var values := SeriesValues(config.baseValue, random[..n]);
    var g := GraphSpec(startMs, endMs, config.baseValue, random);
    assert g[n - 1].value == values[n - 1];
  }

  /** The effect: one card per configuration entry, in order, each from its own draws. */
  method UpdatedMetrics(startMs: int, endMs: int, configs: seq<MetricConfig>, random: seq<seq<real>>)
    returns (metrics: seq<SalesMetric>)
    requires |random| == |configs|
    requires forall k :: 0 <= k < |random| ==> |random[k]| >= DaysToGenerate(startMs, endMs)
    ensures |metrics| == |configs|
    ensures forall k :: 0 <= k < |configs| ==>
      metrics[k] == MetricFor(configs[k], GraphSpec(startMs, endMs, configs[k].baseValue, random[k]))
    ensures forall k :: 0 <= k < |configs| ==>
      metrics[k].id == configs[k].id && metrics[k].name == configs[k].name
      && metrics[k].icon == configs[k].icon && metrics[k].linkTo == configs[k].linkTo
      && metrics[k].value >= 0
  {
    metrics := [];
    for k := 0 to |configs|
      invariant |metrics| == k
      invariant forall j :: 0 <= j < k ==>
        metrics[j] == MetricFor(configs[j], GraphSpec(startMs, endMs, configs[j].baseValue, random[j]))
      invariant forall j :: 0 <= j < k ==> metrics[j].value >= 0
    {
      var graph := GenerateGraphDataForRange(startMs, endMs, configs[k].baseValue, random[k]);
      MetricOfGeneratedSeries(configs[k], startMs, endMs, random[k]);
      metrics := metrics + [MetricFor(configs[k], graph)];
    }
  }
}
