/** Laws of the aggregates that relate independently coded ones. */
module AggregateLaws {
  import opened Wrappers
  import opened Aggregates
  import ChartSpec

  // ---- Metrics ----------------------------------------------------------------------

  /** The metrics rule expressions may use are the field names of the weather variables, which all differ. */
  lemma MetricsAreTheVariables(a: ChartSpec.WeatherVariable, b: ChartSpec.WeatherVariable, metric: string)
    ensures metric in ALLOWED_METRICS <==> exists v: ChartSpec.WeatherVariable :: ChartSpec.FieldName(v) == metric
    ensures ChartSpec.FieldName(a) == ChartSpec.FieldName(b) ==> a == b
  {
    assert ALLOWED_METRICS == {
      ChartSpec.FieldName(ChartSpec.Temperature), ChartSpec.FieldName(ChartSpec.ApparentTemperature),
      ChartSpec.FieldName(ChartSpec.Precipitation), ChartSpec.FieldName(ChartSpec.PrecipitationProbability),
      ChartSpec.FieldName(ChartSpec.Rain), ChartSpec.FieldName(ChartSpec.Snowfall),
      ChartSpec.FieldName(ChartSpec.CloudCover), ChartSpec.FieldName(ChartSpec.WindSpeed),
      ChartSpec.FieldName(ChartSpec.WindGusts), ChartSpec.FieldName(ChartSpec.WindDirection),
      ChartSpec.FieldName(ChartSpec.Pressure), ChartSpec.FieldName(ChartSpec.Humidity),
      ChartSpec.FieldName(ChartSpec.WeatherCode)
    };
  }

  // ---- Arithmetic used below --------------------------------------------------------

  lemma ProductNonNegative(a: real, b: real)
    requires a >= 0.0 && b >= 0.0
    ensures a * b >= 0.0
  {
  }

  lemma ProductMonotone(a: real, b: real, c: real)
    requires a <= b && c >= 0.0
    ensures a * c <= b * c
  {
    ProductNonNegative(b - a, c);
    assert (b - a) * c == b * c - a * c;
  }

  // A named product keeps the solver from rewriting squares away.
  function Product(a: real, b: real): real {
    a * b
  }

  lemma FractionOf(q: real, m: real)
    requires 0.0 <= q <= 1.0 && m >= 0.0
    ensures 0.0 <= Product(q, m) <= m
  {
    ProductNonNegative(q, m);
    ProductMonotone(q, 1.0, m);
  }

  lemma RankBounds(n: nat, p: real)
    requires n > 0 && 0.0 <= p <= 100.0
    ensures 0.0 <= Rank(n, p) <= (n - 1) as real
  {
    hide Rank, Product;
    RankIsProduct(n, p);
    FractionOf(p / 100.0, (n - 1) as real);
  }

  lemma RankIsProduct(n: nat, p: real)
    ensures Rank(n, p) == Product(p / 100.0, (n - 1) as real)
  {
  }

  lemma RankMonotone(n: nat, p: real, q: real)
    requires n > 0 && p <= q
    ensures Rank(n, p) <= Rank(n, q)
  {
    ProductMonotone(p / 100.0, q / 100.0, (n - 1) as real);
  }

  lemma BlendMonotone(low: real, high: real, t: real, u: real)
    requires low <= high && t <= u
    ensures Blend(low, high, t) <= Blend(low, high, u)
  {
    ProductMonotone(t, u, high - low);
  }

  lemma BlendEnds(low: real, high: real)
    ensures Blend(low, high, 0.0) == low && Blend(low, high, 1.0) == high
    ensures Blend(low, high, 0.5) == (low + high) / 2.0
  {
  }

  // ---- Percentiles ------------------------------------------------------------------

  /** The line through neighbouring sorted values, at a real-valued position. */
  function Interpolated(s: seq<real>, x: real): real
    requires 0.0 <= x <= (|s| - 1) as real
  {
    var i := x.Floor;
    if i == |s| - 1 then s[i] else Blend(s[i], s[i + 1], x - i as real)
  }

  lemma SegmentBounds(s: seq<real>, x: real)
    requires Sorted(s) && 0.0 <= x <= (|s| - 1) as real
    ensures var i := x.Floor;
            s[i] <= Interpolated(s, x) <= s[if i == |s| - 1 then i else i + 1]
  {
    hide Blend;
    var i := x.Floor;
    if i < |s| - 1 {
      BlendEnds(s[i], s[i + 1]);
      BlendMonotone(s[i], s[i + 1], 0.0, x - i as real);
      BlendMonotone(s[i], s[i + 1], x - i as real, 1.0);
    }
  }

  lemma InterpolatedMonotone(s: seq<real>, x: real, y: real)
    requires Sorted(s) && 0.0 <= x <= y <= (|s| - 1) as real
    ensures Interpolated(s, x) <= Interpolated(s, y)
  {
    hide Blend;
    var i, j := x.Floor, y.Floor;
    SegmentBounds(s, x);
    SegmentBounds(s, y);
    if i == j {
      if i < |s| - 1 {
        BlendMonotone(s[i], s[i + 1], x - i as real, y - i as real);
      }
    } else {
      assert s[i + 1] <= s[j];
    }
  }

  /** At a position inside the list the two indexed neighbours are the ends of its segment. */
  lemma NeighboursAreSegment(s: seq<real>, x: real)
    requires 0.0 <= x <= (|s| - 1) as real
    ensures var lower, upper := x.Floor, Ceiling(x);
            && 0 <= lower <= upper < |s|
            && (lower == upper ==> At(s, lower) == Ok(Interpolated(s, x)))
            && (lower != upper ==> Blend(s[lower], s[upper], x - lower as real) == Interpolated(s, x))
  {
    hide Blend;
    var lower, upper := x.Floor, Ceiling(x);
    if lower == upper {
      assert x == lower as real;
      if lower < |s| - 1 {
        BlendEnds(s[lower], s[lower + 1]);
      }
    } else {
      assert upper == lower + 1;
    }
  }

  /** Between 0 and 100 the percentile is the interpolated sorted list, without index errors. */
  lemma PercentileIsInterpolation(values: seq<real>, p: real)
    requires |values| > 0 && 0.0 <= p <= 100.0
    ensures 0.0 <= Rank(|values|, p) <= (|values| - 1) as real
    ensures Percentile(values, p) == Ok(Interpolated(SortedCopy(values), Rank(|values|, p)))
  {
    hide SortedCopy, Rank, Blend, Interpolated, Ceiling;
    RankBounds(|values|, p);
    NeighboursAreSegment(SortedCopy(values), Rank(|values|, p));
  }

  lemma PercentileMonotone(values: seq<real>, p: real, q: real)
    requires |values| > 0 && 0.0 <= p <= q <= 100.0
    ensures Percentile(values, p).Ok? && Percentile(values, q).Ok?
    ensures Percentile(values, p).value <= Percentile(values, q).value
  {
    hide Percentile, Interpolated, SortFrom, Rank;
    PercentileIsInterpolation(values, p);
    PercentileIsInterpolation(values, q);
    RankMonotone(|values|, p, q);
    SortedCopyFacts(values);
    InterpolatedMonotone(SortedCopy(values), Rank(|values|, p), Rank(|values|, q));
  }

  lemma EndsOfSorted(s: seq<real>, t: seq<real>)
    requires Sorted(s) && multiset(s) == multiset(t) && |s| == |t| > 0
    ensures s[0] == Min(t) && s[|s| - 1] == Max(t)
  {
    hide Min, Max;
    assert s[0] in multiset(s) && s[|s| - 1] in multiset(s);
    assert s[0] in t && s[|s| - 1] in t;
    assert Min(t) in multiset(t) && Max(t) in multiset(t);
    LastIsGreatest(s, Max(t));
    assert Min(t) in s;
    var i :| 0 <= i < |s| && s[i] == Min(t);
    assert s[0] <= s[i];
  }

  lemma SortedEnds(values: seq<real>)
    requires |values| > 0
    ensures SortedCopy(values)[0] == Min(values)
    ensures SortedCopy(values)[|values| - 1] == Max(values)
  {
    hide Min, Max, SortFrom;
    SortedCopyFacts(values);
    EndsOfSorted(SortedCopy(values), values);
  }

  lemma MiddleOfSorted(s: seq<real>)
    requires |s| > 0
    ensures 0.0 <= Rank(|s|, 50.0) <= (|s| - 1) as real
    ensures Interpolated(s, Rank(|s|, 50.0))
            == if |s| % 2 == 0 then (s[|s| / 2 - 1] + s[|s| / 2]) / 2.0 else s[|s| / 2]
  {
    hide Blend;
    var n, mid := |s|, |s| / 2;
    assert Rank(n, 50.0) == (n - 1) as real / 2.0;
    if n % 2 == 0 {
      assert n == 2 * mid;
      assert Rank(n, 50.0) == mid as real - 0.5;
      assert Rank(n, 50.0).Floor == mid - 1;
      BlendEnds(s[mid - 1], s[mid]);
    } else {
      assert n == 2 * mid + 1;
      assert Rank(n, 50.0) == mid as real;
      assert Rank(n, 50.0).Floor == mid;
      if mid < n - 1 {
        BlendEnds(s[mid], s[mid + 1]);
      }
    }
  }

  lemma RankLandmarks(n: nat)
    requires n > 0
    ensures Rank(n, 0.0) == 0.0 && Rank(n, 100.0) == (n - 1) as real
  {
  }

  /** The percentile meets the separately coded minimum, median and maximum. */
  lemma PercentileLandmarks(values: seq<real>)
    requires |values| > 0
    ensures Percentile(values, 0.0) == Ok(Min(values))
    ensures Percentile(values, 50.0) == Ok(Median(values))
    ensures Percentile(values, 100.0) == Ok(Max(values))
  {
    hide Min, Max, SortedCopy, Percentile, Rank, Blend;
    SortedEnds(values);
    RankLandmarks(|values|);
    PercentileIsInterpolation(values, 0.0);
    PercentileIsInterpolation(values, 100.0);
    PercentileIsInterpolation(values, 50.0);
    MiddleOfSorted(SortedCopy(values));
    if |values| > 1 {
      BlendEnds(SortedCopy(values)[0], SortedCopy(values)[1]);
    }
  }

  /** Percentile and median depend on the values only, not on their order. */
  lemma OrderDoesNotMatter(a: seq<real>, b: seq<real>, p: real)
    requires multiset(a) == multiset(b)
    ensures Percentile(a, p) == Percentile(b, p)
    ensures |a| > 0 ==> |b| > 0 && Median(a) == Median(b)
  {
    SameSortedCopy(a, b);
  }

  lemma SameSortedCopy(a: seq<real>, b: seq<real>)
    requires multiset(a) == multiset(b)
    ensures SortedCopy(a) == SortedCopy(b) && |a| == |b|
  {
    hide SortFrom;
    SortedCopyFacts(a);
    SortedCopyFacts(b);
    SortedIsUnique(SortedCopy(a), SortedCopy(b));
  }

  /** Exactly when the percentile of a non-empty list raises no index error. */
  lemma PercentileDefinedIff(values: seq<real>, p: real)
    requires |values| > 0
    ensures Percentile(values, p).Ok? <==>
              -(|values| as real) <= Rank(|values|, p) <= (|values| - 1) as real
  {
  }

  /** Below 0 the list is indexed from its end: one step below 0 gives the maximum. */
  lemma NegativePercentileWrapsAround(values: seq<real>)
    requires |values| > 1
    ensures Percentile(values, -100.0 / (|values| - 1) as real) == Ok(Max(values))
  {
    var d := (|values| - 1) as real;
    var p := -100.0 / d;
    assert p / 100.0 == -1.0 / d;
    assert (-1.0 / d) * d == -1.0;
    assert Rank(|values|, p) == -1.0;
    SortedEnds(values);
  }

  // ---- Mean and deviation -----------------------------------------------------------

  lemma {:induction false} SumBounds(s: seq<real>, low: real, high: real)
    requires forall i :: 0 <= i < |s| ==> low <= s[i] <= high
    ensures |s| as real * low <= Sum(s) <= |s| as real * high
  {
    if s != [] {
      SumBounds(s[..|s| - 1], low, high);
      var n := (|s| - 1) as real;
      assert |s| as real == n + 1.0;
      assert (n + 1.0) * low == n * low + low;
      assert (n + 1.0) * high == n * high + high;
    }
  }

  lemma QuotientBounds(sum: real, n: real, low: real, high: real)
    requires n > 0.0 && n * low <= sum <= n * high
    ensures low <= sum / n <= high
  {
    var q := sum / n;
    assert q * n == sum;
    assert (low - q) * n <= 0.0 && (q - high) * n <= 0.0;
    SignOfFactor(low - q, n);
    SignOfFactor(q - high, n);
  }

  lemma SignOfFactor(a: real, n: real)
    requires n > 0.0 && a * n <= 0.0
    ensures a <= 0.0
  {
  }

  lemma MeanBetweenExtremes(s: seq<real>)
    requires |s| > 0
    ensures Min(s) <= Mean(s) <= Max(s)
  {
    hide Min, Max, Sum;
    assert forall i :: 0 <= i < |s| ==> s[i] in s;
    SumBounds(s, Min(s), Max(s));
    QuotientBounds(Sum(s), |s| as real, Min(s), Max(s));
  }

  /** The value at `x` of the line with value `a` at `c` and the given slope. */
  function Chord(x: real, c: real, a: real, slope: real): real {
    a + (x - c) * slope
  }

  /** For a value between m and M: (x - c)^2 is at most (M - c)(c - m) + (x - c)(M + m - 2c). */
  lemma SquareUnderChord(x: real, c: real, low: real, high: real)
    requires low <= x <= high
    ensures Square(x - c) <= Chord(x, c, (high - c) * (c - low), high + low - 2.0 * c)
  {
    ProductNonNegative(high - x, x - low);
    var y, u, v := x - c, high - c, c - low;
    assert (high - x) * (x - low) == (u - y) * (v + y);
    assert (u - y) * (v + y) == u * v + u * y - y * v - y * y;
    assert y * (u - v) == u * y - y * v;
    assert high + low - 2.0 * c == u - v;
  }

  /** `m` values of total `sum`, all on the chord. */
  function ChordTotal(m: real, a: real, sum: real, c: real, slope: real): real {
    m * a + (sum - m * c) * slope
  }

  lemma ChordTotalStep(m: real, a: real, sum: real, x: real, c: real, slope: real)
    ensures ChordTotal(m + 1.0, a, sum + x, c, slope) == ChordTotal(m, a, sum, c, slope) + Chord(x, c, a, slope)
    ensures ChordTotal(0.0, a, 0.0, c, slope) == 0.0
  {
    assert (m + 1.0) * a == m * a + a;
    var u, v := sum - m * c, x - c;
    assert sum + x - (m + 1.0) * c == u + v;
    assert (u + v) * slope == u * slope + v * slope;
  }

  lemma {:induction false} DeviationsUnderChord(s: seq<real>, c: real, a: real, slope: real)
    requires forall i :: 0 <= i < |s| ==> Square(s[i] - c) <= Chord(s[i], c, a, slope)
    ensures SquaredDeviations(s, c) <= ChordTotal(|s| as real, a, Sum(s), c, slope)
  {
    hide Square, Chord, ChordTotal;
    if s == [] {
      ChordTotalStep(0.0, a, 0.0, 0.0, c, slope);
    } else {
      var n := |s| - 1;
      DeviationsUnderChord(s[..n], c, a, slope);
      ChordTotalStep(n as real, a, Sum(s[..n]), s[n], c, slope);
      assert |s| as real == n as real + 1.0;
    }
  }

  lemma SquareIsProduct(y: real)
    ensures Square(y) == Product(y, y)
  {
  }

  lemma SameSignProduct(a: real, b: real)
    requires (a > 0.0 && b > 0.0) || (a < 0.0 && b < 0.0)
    ensures Product(a, b) > 0.0
  {
  }

  lemma ZeroProduct(b: real)
    ensures Product(0.0, b) == 0.0
  {
  }

  lemma SquarePositive(y: real)
    ensures Square(y) >= 0.0
    ensures y != 0.0 ==> Square(y) > 0.0
  {
    hide Square, Product;
    SquareIsProduct(y);
    if y == 0.0 {
      ZeroProduct(y);
    } else {
      SameSignProduct(y, y);
    }
  }

  lemma {:induction false} DeviationsNonNegative(s: seq<real>, c: real)
    ensures SquaredDeviations(s, c) >= 0.0
    ensures forall i :: 0 <= i < |s| && s[i] != c ==> SquaredDeviations(s, c) > 0.0
  {
    hide Square;
    if s != [] {
      var n := |s| - 1;
      DeviationsNonNegative(s[..n], c);
      SquarePositive(s[n] - c);
      assert forall i :: 0 <= i < n ==> s[..n][i] == s[i];
    }
  }

  /** A product of two parts is at most a quarter of the square of their sum. */
  lemma ProductUnderQuarterSquare(u: real, v: real)
    ensures u * v <= (u + v) * (u + v) / 4.0
  {
    SquarePositive(u - v);
    assert (u + v) * (u + v) - 4.0 * (u * v) == Square(u - v);
  }

  /** The variance is at most (max - mean)(mean - min), hence at most a quarter of the squared range. */
  lemma VarianceBounds(s: seq<real>)
    requires |s| > 0
    ensures 0.0 <= Variance(s) <= (Max(s) - Mean(s)) * (Mean(s) - Min(s))
    ensures Variance(s) <= (Max(s) - Min(s)) * (Max(s) - Min(s)) / 4.0
  {
    hide Min, Max, Sum, SquaredDeviations, Square, Chord, ChordTotal;
    var n, c, low, high := |s| as real, Mean(s), Min(s), Max(s);
    var a := (high - c) * (c - low);
    assert forall i :: 0 <= i < |s| ==> s[i] in s;
    var slope := high + low - 2.0 * c;
    forall i | 0 <= i < |s| ensures Square(s[i] - c) <= Chord(s[i], c, a, slope) {
      SquareUnderChord(s[i], c, low, high);
    }
    DeviationsUnderChord(s, c, a, slope);
    DeviationsNonNegative(s, c);
    VarianceFromChord(SquaredDeviations(s, c), Sum(s), n, c, slope, a);
    ProductUnderQuarterSquare(high - c, c - low);
  }

  lemma VarianceFromChord(deviations: real, sum: real, n: real, c: real, slope: real, a: real)
    requires n > 0.0 && c == sum / n && deviations >= 0.0
    requires deviations <= ChordTotal(n, a, sum, c, slope)
    ensures 0.0 <= deviations / n <= a
  {
    assert sum - n * c == 0.0;
    assert (sum - n * c) * slope == 0.0;
    QuotientBounds(deviations, n, 0.0, a);
  }

  ghost predicate Constant(s: seq<real>) {
    forall i, j :: 0 <= i < |s| && 0 <= j < |s| ==> s[i] == s[j]
  }

  /** The variance is zero exactly when all values are equal. */
  lemma ZeroVarianceIffConstant(s: seq<real>)
    requires |s| > 0
    ensures Variance(s) == 0.0 <==> Constant(s)
  {
    hide Min, Max, Sum, SquaredDeviations;
    if Variance(s) == 0.0 {
      assert SquaredDeviations(s, Mean(s)) == Variance(s) * |s| as real;
      DeviationsNonNegative(s, Mean(s));
    }
    if Constant(s) {
      VarianceBounds(s);
      assert Min(s) == Max(s);
    }
  }

  /** The standard deviation is at most half the range, and zero exactly for equal values. */
  lemma DeviationAtMostHalfTheRange(s: seq<real>, d: real)
    requires |s| > 0 && IsDeviation(s, d)
    ensures d <= (Max(s) - Min(s)) / 2.0
    ensures d == 0.0 <==> Constant(s)
  {
    hide Min, Max, Variance, Mean;
    VarianceBounds(s);
    ZeroVarianceIffConstant(s);
    var r := Max(s) - Min(s);
    assert r >= 0.0;
    assert r * r / 4.0 == (r / 2.0) * (r / 2.0);
    SmallerSquare(d, r / 2.0);
    SquarePositive(d);
  }

  lemma SmallerSquare(d: real, h: real)
    requires d >= 0.0 && h >= 0.0 && d * d <= h * h
    ensures d <= h
  {
    assert (d - h) * (d + h) == d * d - h * h;
    if d + h > 0.0 {
      SignOfFactor(d - h, d + h);
    }
  }

  // ---- Splitting a window -----------------------------------------------------------

  predicate Untimed(p: Point) {
    p.time.None?
  }

  function UntimedPoints(points: seq<Point>): seq<Point> {
    if points == [] then []
    else UntimedPoints(points[..|points| - 1])
         + (if Untimed(points[|points| - 1]) then [points[|points| - 1]] else [])
  }

  function WindowSum(points: seq<Point>, metric: string, range: TimeRange): real {
    Sum(ValuesOf(PointsInRange(points, range), metric))
  }

  lemma ValuesSnoc(points: seq<Point>, p: Point, metric: string)
    ensures Sum(ValuesOf(points + [p], metric))
            == Sum(ValuesOf(points, metric)) + (if metric in p.metrics then p.metrics[metric] else 0.0)
  {
    var q := points + [p];
    assert q[..|q| - 1] == points;
    var v := ValuesOf(q, metric);
    if metric in p.metrics {
      assert v[..|v| - 1] == ValuesOf(points, metric);
    } else {
      assert v == ValuesOf(points, metric);
    }
  }

  /**
    A window cut after the instant `cut`: the two parts add up to the whole, except that points
    without an instant belong to every window and are counted twice.
   */
  lemma {:induction false} SplitWindowSum(points: seq<Point>, metric: string, start: int, cut: int, end: int)
    requires start <= cut <= end
    ensures WindowSum(points, metric, TimeRange(start, cut)) + WindowSum(points, metric, TimeRange(cut + 1, end))
            == WindowSum(points, metric, TimeRange(start, end)) + Sum(ValuesOf(UntimedPoints(points), metric))
  {
    if points != [] {
      var n := |points| - 1;
      SplitWindowSum(points[..n], metric, start, cut, end);
      hide WindowSum, UntimedPoints, ValuesOf, Sum;
      WindowStep(points, metric, TimeRange(start, cut));
      WindowStep(points, metric, TimeRange(cut + 1, end));
      WindowStep(points, metric, TimeRange(start, end));
      UntimedStep(points, metric);
    } else {
      assert UntimedPoints(points) == [];
    }
  }

  function Share(p: Point, metric: string): real {
    if metric in p.metrics then p.metrics[metric] else 0.0
  }

  lemma WindowStep(points: seq<Point>, metric: string, range: TimeRange)
    requires points != []
    ensures var n := |points| - 1;
            WindowSum(points, metric, range)
            == WindowSum(points[..n], metric, range) + (if InRange(points[n], range) then Share(points[n], metric) else 0.0)
  {
    hide ValuesOf, Sum, InRange;
    var n := |points| - 1;
    ValuesSnoc(PointsInRange(points[..n], range), points[n], metric);
    PlusNothing(PointsInRange(points[..n], range));
  }

  lemma UntimedStep(points: seq<Point>, metric: string)
    requires points != []
    ensures var n := |points| - 1;
            Sum(ValuesOf(UntimedPoints(points), metric))
            == Sum(ValuesOf(UntimedPoints(points[..n]), metric)) + (if Untimed(points[n]) then Share(points[n], metric) else 0.0)
  {
    hide ValuesOf, Sum;
    var n := |points| - 1;
    ValuesSnoc(UntimedPoints(points[..n]), points[n], metric);
    PlusNothing(UntimedPoints(points[..n]));
  }

  lemma PlusNothing<T>(s: seq<T>)
    ensures s + [] == s
  {
  }

  /** Some point of the window carries the metric. */
  ghost predicate HoldsValue(points: seq<Point>, metric: string, range: TimeRange) {
    exists k :: 0 <= k < |points| && InRange(points[k], range) && metric in points[k].metrics
  }

  lemma {:induction false} ValuesOfWindow(points: seq<Point>, metric: string, range: TimeRange)
    ensures ValuesOf(PointsInRange(points, range), metric) != [] <==> HoldsValue(points, metric, range)
  {
    if points == [] {
      assert PointsInRange(points, range) == [];
    } else {
      var n := |points| - 1;
      var before, p := PointsInRange(points[..n], range), points[n];
      ValuesOfWindow(points[..n], metric, range);
      assert HoldsValue(points, metric, range) <==>
          HoldsValue(points[..n], metric, range) || (InRange(p, range) && metric in p.metrics) by {
        assert forall k :: 0 <= k < n ==> points[..n][k] == points[k];
      }
      if InRange(p, range) {
        var q := before + [p];
        assert q[..|q| - 1] == before;
      } else {
        assert before + [] == before;
      }
    }
  }

  /** The sum over a window is defined exactly for an allowed metric that some selected point carries. */
  lemma SumMetricMeaning(points: seq<Point>, metric: string, range: TimeRange)
    ensures SumMetric(points, metric, range)
            == if metric !in ALLOWED_METRICS then Err(UnknownMetric(metric))
               else if HoldsValue(points, metric, range) then Ok(WindowSum(points, metric, range))
               else Err(NoData(metric))
  {
    hide ValuesOf, PointsInRange, HoldsValue, Sum;
    ValuesOfWindow(points, metric, range);
  }

  /** All three sums are defined, and the halves add up to the whole. */
  predicate AddUp(left: Result<real, Error>, right: Result<real, Error>, whole: Result<real, Error>) {
    left.Ok? && right.Ok? && whole.Ok? && left.value + right.value == whole.value
  }

  /**
    The sums over two abutting windows and over the whole are all defined and add up exactly
    when the metric is allowed, each half holds a value and the untimed points carry a zero
    total, which they do when there are none.
   */
  lemma WindowsAddUpIff(points: seq<Point>, metric: string, start: int, cut: int, end: int)
    requires start <= cut <= end
    ensures AddUp(SumMetric(points, metric, TimeRange(start, cut)), SumMetric(points, metric, TimeRange(cut + 1, end)),
                  SumMetric(points, metric, TimeRange(start, end)))
            <==> metric in ALLOWED_METRICS
                 && HoldsValue(points, metric, TimeRange(start, cut))
                 && HoldsValue(points, metric, TimeRange(cut + 1, end))
                 && Sum(ValuesOf(UntimedPoints(points), metric)) == 0.0
    ensures (forall i :: 0 <= i < |points| ==> !Untimed(points[i])) ==>
              Sum(ValuesOf(UntimedPoints(points), metric)) == 0.0
  {
    hide SumMetric, WindowSum;
    SplitWindowSum(points, metric, start, cut, end);
    SumMetricMeaning(points, metric, TimeRange(start, cut));
    SumMetricMeaning(points, metric, TimeRange(cut + 1, end));
    SumMetricMeaning(points, metric, TimeRange(start, end));
    if HoldsValue(points, metric, TimeRange(start, cut)) {
      var k :| 0 <= k < |points| && InRange(points[k], TimeRange(start, cut)) && metric in points[k].metrics;
      assert InRange(points[k], TimeRange(start, end));
    }
    if forall i :: 0 <= i < |points| ==> !Untimed(points[i]) {
      AllTimed(points);
    }
  }

  lemma {:induction false} AllTimed(points: seq<Point>)
    requires forall i :: 0 <= i < |points| ==> !Untimed(points[i])
    ensures UntimedPoints(points) == []
  {
    if points != [] {
      AllTimed(points[..|points| - 1]);
    }
  }
}
