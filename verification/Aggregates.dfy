/**
  The arithmetic of rule expressions (domain/rule_expression/evaluator.py): the window
  filter, the metric extraction and the aggregates, over real numbers.
 */
module Aggregates {
  import opened Wrappers

  datatype Error = UnknownMetric(metric: string) | NoData(metric: string) | IndexError

  /** A forecast point: its instant, if it has one, and the metrics it carries. */
  datatype Point = Point(time: Option<int>, metrics: map<string, real>)

  /** Both ends belong to the range. */
  datatype TimeRange = TimeRange(start: int, end: int)

  const ALLOWED_METRICS: set<string> := {
    "temperature_2m_c", "apparent_temperature_c", "precipitation_mm", "precipitation_probability_pct",
    "rain_mm", "snowfall_cm", "cloud_cover_pct", "wind_speed_10m_ms", "wind_gusts_10m_ms",
    "wind_direction_10m_deg", "pressure_msl_hpa", "relative_humidity_2m_pct", "weather_code"
  }

  // ---- Window and metric ------------------------------------------------------------

  /** A point without an instant is in every range. */
  predicate InRange(p: Point, range: TimeRange) {
    p.time.None? || range.start <= p.time.value <= range.end
  }

  function PointsInRange(points: seq<Point>, range: TimeRange): seq<Point> {
    if points == [] then []
    else
      var n := |points| - 1;
      PointsInRange(points[..n], range) + (if InRange(points[n], range) then [points[n]] else [])
  }

  function ValuesOf(points: seq<Point>, metric: string): seq<real> {
    if points == [] then []
    else
      var n := |points| - 1;
      ValuesOf(points[..n], metric) + (if metric in points[n].metrics then [points[n].metrics[metric]] else [])
  }

  function MetricValues(points: seq<Point>, metric: string, range: TimeRange): Result<seq<real>, Error> {
    if metric !in ALLOWED_METRICS then Err(UnknownMetric(metric))
    else Ok(ValuesOf(PointsInRange(points, range), metric))
  }

  method SelectPoints(points: seq<Point>, range: TimeRange) returns (selected: seq<Point>)
    ensures selected == PointsInRange(points, range)
    ensures forall p :: p in selected <==> p in points && InRange(p, range)
  {
    selected := [];
    for i := 0 to |points|
      invariant selected == PointsInRange(points[..i], range)
      invariant forall p :: p in selected <==> p in points[..i] && InRange(p, range)
    {
      assert points[..i + 1][..i] == points[..i];
      if points[i].time.None? {
        selected := selected + [points[i]];
        continue;
      }
      if range.start <= points[i].time.value <= range.end {
        selected := selected + [points[i]];
      }
    }
    assert points[..|points|] == points;
  }

  method CollectMetricValues(points: seq<Point>, metric: string, range: TimeRange)
    returns (r: Result<seq<real>, Error>)
    ensures r == MetricValues(points, metric, range)
    ensures r.Ok? ==> |r.value| <= |points|
  {
    if metric !in ALLOWED_METRICS {
      return Err(UnknownMetric(metric));
    }
    var selected := SelectPoints(points, range);
    SelectionIsNoLonger(points, range);
    var values: seq<real> := [];
    for i := 0 to |selected|
      invariant values == ValuesOf(selected[..i], metric) && |values| <= i
    {
      assert selected[..i + 1][..i] == selected[..i];
      if metric in selected[i].metrics {
        values := values + [selected[i].metrics[metric]];
      }
    }
    assert selected[..|selected|] == selected;
    r := Ok(values);
  }

  lemma {:induction false} SelectionIsNoLonger(points: seq<Point>, range: TimeRange)
    ensures |PointsInRange(points, range)| <= |points|
  {
    if points != [] {
      SelectionIsNoLonger(points[..|points| - 1], range);
    }
  }

  function RequireValues(values: Result<seq<real>, Error>, metric: string): (r: Result<seq<real>, Error>)
    ensures r.Ok? ==> values == r && |r.value| > 0
  {
    if values.Ok? && values.value == [] then Err(NoData(metric)) else values
  }

  // ---- Sum, minimum, maximum --------------------------------------------------------

  function Sum(s: seq<real>): real {
    if s == [] then 0.0 else Sum(s[..|s| - 1]) + s[|s| - 1]
  }

  /** `sum_metric`: an unknown metric or a window without a value is an error. */
  function SumMetric(points: seq<Point>, metric: string, range: TimeRange): Result<real, Error> {
    match RequireValues(MetricValues(points, metric, range), metric)
    case Err(e) => Err(e)
    case Ok(values) => Ok(Sum(values))
  }

  function Min(s: seq<real>): (m: real)
    requires |s| > 0
    ensures m in s && forall x :: x in s ==> m <= x
  {
    if |s| == 1 then s[0]
    else
      var n := |s| - 1;
      var m := Min(s[..n]);
      assert s == s[..n] + [s[n]];
      if s[n] < m then s[n] else m
  }

  function Max(s: seq<real>): (m: real)
    requires |s| > 0
    ensures m in s && forall x :: x in s ==> x <= m
  {
    if |s| == 1 then s[0]
    else
      var n := |s| - 1;
      var m := Max(s[..n]);
      assert s == s[..n] + [s[n]];
      if s[n] > m then s[n] else m
  }

  function Mean(s: seq<real>): real
    requires |s| > 0
  {
    Sum(s) / |s| as real
  }

  // ---- Sorting ----------------------------------------------------------------------

  ghost predicate Sorted(s: seq<real>) {
    forall i, j :: 0 <= i < j < |s| ==> s[i] <= s[j]
  }

  function Insert(s: seq<real>, x: real): seq<real> {
    if s == [] || s[|s| - 1] <= x then s + [x]
    else Insert(s[..|s| - 1], x) + [s[|s| - 1]]
  }

  /** `sorted(values)`. */
  function SortedCopy(s: seq<real>): (r: seq<real>)
    ensures |r| == |s|
  {
    SortedCopyFacts(s);
    SortFrom(s)
  }

  function SortFrom(s: seq<real>): seq<real> {
    if s == [] then [] else Insert(SortFrom(s[..|s| - 1]), s[|s| - 1])
  }

  lemma {:induction false} InsertKeepsBound(s: seq<real>, x: real, bound: real)
    requires forall i :: 0 <= i < |s| ==> s[i] <= bound
    requires x <= bound
    ensures forall i :: 0 <= i < |Insert(s, x)| ==> Insert(s, x)[i] <= bound
  {
    if s != [] && s[|s| - 1] > x {
      InsertKeepsBound(s[..|s| - 1], x, bound);
    }
  }

  lemma {:induction false} InsertSorts(s: seq<real>, x: real)
    requires Sorted(s)
    ensures Sorted(Insert(s, x))
  {
    if s != [] && s[|s| - 1] > x {
      var n := |s| - 1;
      InsertSorts(s[..n], x);
      InsertKeepsBound(s[..n], x, s[n]);
    }
  }

  lemma {:induction false} InsertAddsOne(s: seq<real>, x: real)
    ensures multiset(Insert(s, x)) == multiset(s) + multiset{x}
  {
    if s != [] && s[|s| - 1] > x {
      var n := |s| - 1;
      InsertAddsOne(s[..n], x);
      assert s == s[..n] + [s[n]];
    }
  }

  lemma {:induction false} SortedCopyFacts(s: seq<real>)
    ensures Sorted(SortFrom(s)) && multiset(SortFrom(s)) == multiset(s) && |SortFrom(s)| == |s|
  {
    if s != [] {
      var n := |s| - 1;
      SortedCopyFacts(s[..n]);
      InsertSorts(SortFrom(s[..n]), s[n]);
      InsertAddsOne(SortFrom(s[..n]), s[n]);
      assert s == s[..n] + [s[n]];
    }
    assert |multiset(SortFrom(s))| == |SortFrom(s)| && |multiset(s)| == |s|;
  }

  lemma LastIsGreatest(s: seq<real>, x: real)
    requires Sorted(s) && |s| > 0 && x in multiset(s)
    ensures x <= s[|s| - 1]
  {
    assert x in s;
  }

  lemma DropLast(s: seq<real>)
    requires |s| > 0
    ensures multiset(s[..|s| - 1]) == multiset(s) - multiset{s[|s| - 1]}
  {
    assert s == s[..|s| - 1] + [s[|s| - 1]];
  }

  lemma SameGreatest(a: seq<real>, b: seq<real>)
    requires Sorted(a) && Sorted(b) && multiset(a) == multiset(b) && |a| > 0
    ensures |a| == |b| && a[|a| - 1] == b[|b| - 1]
    ensures multiset(a[..|a| - 1]) == multiset(b[..|b| - 1])
  {
    assert |multiset(a)| == |a| && |multiset(b)| == |b|;
    assert a[|a| - 1] in multiset(a) && b[|b| - 1] in multiset(b);
    LastIsGreatest(b, a[|a| - 1]);
    LastIsGreatest(a, b[|b| - 1]);
    DropLast(a);
    DropLast(b);
  }

  /** A sorted list is determined by its multiset of values. */
  lemma {:induction false} SortedIsUnique(a: seq<real>, b: seq<real>)
    requires Sorted(a) && Sorted(b) && multiset(a) == multiset(b)
    ensures a == b
  {
    if a == [] {
      assert |multiset(b)| == |b|;
    } else {
      var n := |a| - 1;
      SameGreatest(a, b);
      SortedIsUnique(a[..n], b[..n]);
      forall i | 0 <= i < |a| ensures a[i] == b[i] {
        assert i < n ==> a[i] == a[..n][i] == b[..n][i] == b[i];
      }
    }
  }

  // ---- Percentile and median --------------------------------------------------------

  function Ceiling(x: real): (c: int)
    ensures c as real - 1.0 < x <= c as real
  {
    -((-x).Floor)
  }

  /** Python's list indexing: negative positions count from the end. */
  function At(s: seq<real>, i: int): Result<real, Error> {
    if 0 <= i < |s| then Ok(s[i])
    else if -|s| <= i < 0 then Ok(s[|s| + i])
    else Err(IndexError)
  }

  function Rank(n: nat, p: real): real {
    (p / 100.0) * (n - 1) as real
  }

  /** `low + fraction * (high - low)`. */
  function Blend(low: real, high: real, fraction: real): real {
    low + fraction * (high - low)
  }

  function Percentile(values: seq<real>, p: real): Result<real, Error> {
    var s := SortedCopy(values);
    var rank := Rank(|s|, p);
    var lower, upper := rank.Floor, Ceiling(rank);
    if lower == upper then At(s, lower)
    else
      match (At(s, lower), At(s, upper))
      case (Ok(low), Ok(high)) => Ok(Blend(low, high, rank - lower as real))
      case _ => Err(IndexError)
  }

  function Median(values: seq<real>): real
    requires |values| > 0
  {
    var s := SortedCopy(values);
    var mid := |s| / 2;
    if |s| % 2 == 0 then (s[mid - 1] + s[mid]) / 2.0 else s[mid]
  }

  // ---- Deviation --------------------------------------------------------------------

  function Square(x: real): real {
    x * x
  }

  function SquaredDeviations(s: seq<real>, c: real): real {
    if s == [] then 0.0
    else SquaredDeviations(s[..|s| - 1], c) + Square(s[|s| - 1] - c)
  }

  /** The population variance; the source returns its square root. */
  function Variance(s: seq<real>): real
    requires |s| > 0
  {
    SquaredDeviations(s, Mean(s)) / |s| as real
  }

  /** The value of `stddev_metric`: the non-negative square root of the variance. */
  ghost predicate IsDeviation(s: seq<real>, d: real)
    requires |s| > 0
  {
    d >= 0.0 && d * d == Variance(s)
  }
}
