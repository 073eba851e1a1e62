/**
  Time axes of forecast charts (llm/tools/chart_time_axes.py): the tick instants for a
  range, and the axis defaults written into every temporal `time` x-encoding of a spec.

  Instants are wall-clock microseconds; a day always has 24 hours here.  The text of an
  instant is a parameter `stamp`.
 */
module TimeAxes {
  import opened Durations

  // ---- Ticks ------------------------------------------------------------------------

  /** Hours between ticks, by the length of the range. */
  function IntervalHours(duration: int): (h: int)
    ensures h > 0
  {
    if duration <= 12 * HOUR then 1
    else if duration <= DAY then 2
    else if duration <= 2 * DAY then 3
    else if duration <= 3 * DAY then 6
    else 12
  }

  function FloorHour(t: int): (r: int)
    ensures r <= t < r + HOUR && r % HOUR == 0
  {
    t - t % HOUR
  }

  /** The first whole hour at or after `start`. */
  function FirstTick(start: int): (r: int)
    ensures start <= r < start + HOUR && r % HOUR == 0
  {
    if FloorHour(start) < start then FloorHour(start) + HOUR else FloorHour(start)
  }

  /** The instant `i` intervals after the first tick. */
  function TickAt(start: int, interval: int, i: int): int {
    FirstTick(start) + i * (interval * HOUR)
  }

  function TickCount(start: int, end: int, interval: int): (n: nat)
    requires interval > 0
    ensures forall i: int :: 0 <= i < n <==> 0 <= i && TickAt(start, interval, i) <= end
  {
    var gap, step := end - FirstTick(start), interval * HOUR;
    CountFits(start, end, interval);
    if gap < 0 then 0 else gap / step + 1
  }

  lemma CountFits(start: int, end: int, interval: int)
    requires interval > 0
    ensures var gap, step := end - FirstTick(start), interval * HOUR;
            forall i: int :: 0 <= i ==> (TickAt(start, interval, i) <= end <==> gap >= 0 && i <= gap / step)
  {
    hide FirstTick;
    var gap, step := end - FirstTick(start), interval * HOUR;
    forall i: int | 0 <= i ensures TickAt(start, interval, i) <= end <==> gap >= 0 && i <= gap / step {
      if gap >= 0 {
        QuotientIsLast(gap, step, i);
      } else {
        MultiplesGrow(0, i, step);
      }
    }
  }

  lemma QuotientIsLast(gap: int, step: int, i: int)
    requires gap >= 0 && step > 0
    ensures i <= gap / step <==> i * step <= gap
  {
    var q := gap / step;
    assert q * step <= gap < q * step + step;
    if i <= q {
      MultiplesGrow(i, q, step);
    } else {
      MultiplesGrow(q + 1, i, step);
      assert (q + 1) * step == q * step + step;
    }
  }

  lemma MultiplesGrow(a: int, b: int, step: int)
    requires a <= b && 0 < step
    ensures a * step <= b * step
  {
  }

  /** The arithmetic progression of ticks. */
  function Ticks(start: int, end: int, interval: int): (r: seq<int>)
    requires interval > 0
  {
    seq(TickCount(start, end, interval), i => TickAt(start, interval, i))
  }

  function Texts(stamp: int -> string, ticks: seq<int>): (r: seq<string>)
    ensures |r| == |ticks| && forall i :: 0 <= i < |ticks| ==> r[i] == stamp(ticks[i])
  {
    seq(|ticks|, i requires 0 <= i < |ticks| => stamp(ticks[i]))
  }

  method TimeAxisValues(stamp: int -> string, start: int, end: int, interval: int) returns (values: seq<string>)
    requires interval > 0
    ensures values == Texts(stamp, Ticks(start, end, interval))
  {
    var current := FloorHour(start);
    if current < start {
      current := current + HOUR;
    }
    values := [];
    ghost var ticks := Ticks(start, end, interval);
    while current <= end
      invariant |values| <= |ticks|
      invariant current == TickAt(start, interval, |values|)
      invariant forall i :: 0 <= i < |values| ==> values[i] == stamp(ticks[i])
      decreases end - current
    {
      values := values + [stamp(current)];
      assert current == ticks[|values| - 1];
      assert TickAt(start, interval, |values|) == TickAt(start, interval, |values| - 1) + interval * HOUR;
      current := current + interval * HOUR;
    }
    assert |values| == |ticks|;
  }

  /** A wall-clock instant is a tick exactly when it lies in the range, a whole number of intervals after the first. */
  lemma TicksAreExactlyTheProgression(start: int, end: int, interval: int, t: int)
    requires interval > 0
    ensures t in Ticks(start, end, interval) <==>
              FirstTick(start) <= t <= end && (t - FirstTick(start)) % (interval * HOUR) == 0
    ensures t in Ticks(start, end, interval) ==> t % HOUR == 0 && start <= t
  {
    hide TickAt;
    var first, step := FirstTick(start), interval * HOUR;
    var ticks := Ticks(start, end, interval);
    if t in ticks {
      var i :| 0 <= i < |ticks| && ticks[i] == t;
      TickIsOnTheHour(start, interval, i);
    }
    if first <= t <= end && (t - first) % step == 0 {
      var i := WholeIntervals(start, interval, t);
      assert ticks[i] == t;
    }
  }

  lemma TickIsOnTheHour(start: int, interval: int, i: nat)
    requires interval > 0
    ensures var t := TickAt(start, interval, i);
            FirstTick(start) <= t && (t - FirstTick(start)) % (interval * HOUR) == 0 && t % HOUR == 0
  {
    var first := FirstTick(start);
    hide FirstTick;
    MultiplesGrow(0, i, interval * HOUR);
    MultipleHasNoRemainder(i, interval * HOUR);
    MultipleHasNoRemainder(i * interval, HOUR);
    Regroup(i, interval, HOUR);
    SumHasNoRemainder(first, (i * interval) * HOUR);
  }

  lemma Regroup(i: int, interval: int, hour: int)
    ensures i * (interval * hour) == (i * interval) * hour
  {
  }

  lemma WholeIntervals(start: int, interval: int, t: int) returns (i: nat)
    requires interval > 0 && FirstTick(start) <= t && (t - FirstTick(start)) % (interval * HOUR) == 0
    ensures TickAt(start, interval, i) == t
  {
    hide FirstTick;
    var gap, step := t - FirstTick(start), interval * HOUR;
    QuotientIsExact(gap, step);
    i := gap / step;
  }

  lemma QuotientIsExact(gap: nat, step: int)
    requires step > 0 && gap % step == 0
    ensures gap / step >= 0 && (gap / step) * step == gap
  {
  }

  lemma MultipleHasNoRemainder(i: int, step: int)
    requires step > 0
    ensures (i * step) % step == 0
  {
    var q, r := (i * step) / step, (i * step) % step;
    assert (i - q) * step == r;
    MultipleSize(i - q, step);
  }

  lemma MultipleSize(k: int, step: int)
    requires step > 0
    ensures k >= 1 ==> k * step >= step
    ensures k <= -1 ==> k * step <= -step
  {
  }

  lemma SumHasNoRemainder(a: int, b: int)
    requires a % HOUR == 0 && b % HOUR == 0
    ensures (a + b) % HOUR == 0
  {
  }

  /** Any range the validator accepts, up to seven days, has at most 17 ticks. */
  lemma AtMostSeventeenTicks(start: int, end: int)
    requires end - start <= 7 * DAY
    ensures |Ticks(start, end, IntervalHours(end - start))| <= 17
  {
    var h := IntervalHours(end - start);
    assert TickAt(start, h, 17) > end;
    assert TickCount(start, end, h) <= 17;
  }

  /** The longest range, in hours, drawn with each interval below twelve hours. */
  const LONGEST: map<int, int> := map[1 := 12, 2 := 24, 3 := 48, 6 := 72]

  /** The interval is the shortest one that serves the range; twelve hours serve any. */
  lemma IntervalIsTheShortest(duration: int)
    ensures var h := IntervalHours(duration);
            && (h == 12 || (h in LONGEST && duration <= LONGEST[h] * HOUR))
            && forall i :: i in LONGEST && i < h ==> duration > LONGEST[i] * HOUR
  {
  }

  /** The bound is reached: two days from a whole hour have 17 ticks. */
  lemma SeventeenTicksHappen(start: int)
    requires start % HOUR == 0
    ensures |Ticks(start, start + 2 * DAY, IntervalHours(2 * DAY))| == 17
  {
    var n := TickCount(start, start + 2 * DAY, 3);
    assert FirstTick(start) == start;
    assert TickAt(start, 3, 16) <= start + 2 * DAY < TickAt(start, 3, 17);
  }
}
