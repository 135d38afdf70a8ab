/**
 * StatisticsRepository.swift: the statistics and chart of one period,
 * computed from the stored workouts. The workouts the exercise repository
 * answers with (or its failure), the calendar's period bounds and the date
 * formatter are inputs.
 */
module StatisticsStore {
  import opened Base
  import opened Workouts
  import opened Seqs
  import opened StatisticsModel

  /**
   * The instants the calendar gives for `now`: seven days before it, the
   * start of its month and of the next month, the start of its year and of
   * the next year.
   */
  datatype PeriodBounds = PeriodBounds(
    now: Date,
    sevenDaysAgo: Date,
    startOfMonth: Date,
    startOfNextMonth: Date,
    startOfYear: Date,
    startOfNextYear: Date)

  /**
   * `filterExercises`'s test: the last seven days up to now, both ends
   * included; the calendar month and the calendar year, start included and
   * end excluded.
   */
  predicate InPeriod(period: TimePeriod, d: Date, b: PeriodBounds) {
    match period
    case Weekly => b.sevenDaysAgo <= d <= b.now
    case Monthly => b.startOfMonth <= d < b.startOfNextMonth
    case Yearly => b.startOfYear <= d < b.startOfNextYear
  }

  /** `filterExercises(_:for:)`: the workouts that started within the period, in their order. */
  function FilterExercises(exercises: seq<Exercise>, period: TimePeriod, b: PeriodBounds): (r: seq<Exercise>)
    ensures forall i :: 0 <= i < |r| ==> r[i] in exercises && InPeriod(period, r[i].startDate, b)
    ensures forall i :: 0 <= i < |exercises| && InPeriod(period, exercises[i].startDate, b) ==> exercises[i] in r
    ensures forall e :: multiset(r)[e] == if InPeriod(period, e.startDate, b) then multiset(exercises)[e] else 0
  {
    var keep := (e: Exercise) => InPeriod(period, e.startDate, b);
    forall e
      ensures multiset(Filter(exercises, keep))[e] == if keep(e) then multiset(exercises)[e] else 0
    {
      FilterCounts(exercises, keep, e);
    }
    Filter(exercises, keep)
  }

  /** The workouts kept keep their order: filtering two lists one after the other filters their concatenation. */
  lemma FilterExercisesAppend(a: seq<Exercise>, c: seq<Exercise>, period: TimePeriod, b: PeriodBounds)
    ensures FilterExercises(a + c, period, b) == FilterExercises(a, period, b) + FilterExercises(c, period, b)
  {
    FilterAppend(a, c, (e: Exercise) => InPeriod(period, e.startDate, b));
  }

  /** The figures `reduce` adds up. */
  function Distance(e: Exercise): real { e.distance }
  function Duration(e: Exercise): real { e.duration }
  function Calories(e: Exercise): real { e.calories }
  function Pace(e: Exercise): real { e.pace }

  /** `exercises.reduce(0) { $0 + field($1) }`, added up from the first workout on. */
  function SumOf(exercises: seq<Exercise>, field: Exercise -> real): real {
    if |exercises| == 0 then 0.0
    else SumOf(exercises[..|exercises| - 1], field) + field(exercises[|exercises| - 1])
  }

  /** The total distance of the statistics is the one the tiers are computed from. */
  lemma {:induction false} SumOfDistance(exercises: seq<Exercise>)
    ensures SumOf(exercises, Distance) == TotalDistance(exercises)
    decreases |exercises|
  {
    if |exercises| > 0 {
      SumOfDistance(exercises[..|exercises| - 1]);
    }
  }

  /** A sum of non-negative figures is non-negative and no smaller than any one of them. */
  lemma {:induction false} SumOfNonNegative(exercises: seq<Exercise>, field: Exercise -> real)
    requires forall i :: 0 <= i < |exercises| ==> field(exercises[i]) >= 0.0
    ensures SumOf(exercises, field) >= 0.0
    ensures forall i :: 0 <= i < |exercises| ==> SumOf(exercises, field) >= field(exercises[i])
    decreases |exercises|
  {
    if |exercises| > 0 {
      SumOfNonNegative(exercises[..|exercises| - 1], field);
    }
  }

  /** The workout types that occur in a list. */
  function TypesOf(exercises: seq<Exercise>): set<string> {
    set i | 0 <= i < |exercises| :: exercises[i].exerciseType
  }

  /** The number of workouts of type `t`. */
  function CountOfType(exercises: seq<Exercise>, t: string): nat {
    |Filter(exercises, (e: Exercise) => e.exerciseType == t)|
  }

  /**
   * The dictionary the `workoutsByType` loop builds: a key for each type
   * that occurs, holding the number of workouts of that type.
   */
  function CountByType(exercises: seq<Exercise>): map<string, int> {
    if |exercises| == 0 then map[]
    else
      var m := CountByType(exercises[..|exercises| - 1]);
      var t := exercises[|exercises| - 1].exerciseType;
      m[t := (if t in m then m[t] else 0) + 1]
  }

  /** The keys are exactly the types that occur, each counted at least once. */
  lemma {:induction false} CountByTypeKeys(exercises: seq<Exercise>)
    ensures CountByType(exercises).Keys == TypesOf(exercises)
    ensures forall t :: t in CountByType(exercises) ==> CountByType(exercises)[t] >= 1
    decreases |exercises|
  {
    if |exercises| > 0 {
      var init := exercises[..|exercises| - 1];
      var last := exercises[|exercises| - 1];
      CountByTypeKeys(init);
      assert TypesOf(exercises) == TypesOf(init) + {last.exerciseType} by {
        assert exercises == init + [last];
      }
    }
  }

  /** Each count is the number of workouts of that type. */
  lemma {:induction false} CountByTypeCounts(exercises: seq<Exercise>, t: string)
    requires t in CountByType(exercises)
    ensures CountByType(exercises)[t] == CountOfType(exercises, t)
    decreases |exercises|
  {
    var init := exercises[..|exercises| - 1];
    var last := exercises[|exercises| - 1];
    assert CountOfType(exercises, t) == CountOfType(init, t) + (if last.exerciseType == t then 1 else 0);
    if t in CountByType(init) {
      CountByTypeCounts(init, t);
    } else {
      CountByTypeKeys(init);
      CountOfAbsentType(init, t);
    }
  }

  /** A type that does not occur has no workouts. */
  lemma {:induction false} CountOfAbsentType(exercises: seq<Exercise>, t: string)
    requires t !in TypesOf(exercises)
    ensures CountOfType(exercises, t) == 0
    decreases |exercises|
  {
    if |exercises| > 0 {
      var init := exercises[..|exercises| - 1];
      assert TypesOf(init) <= TypesOf(exercises);
      CountOfAbsentType(init, t);
    }
  }

  /** One more workout counted by the loop. */
  lemma CountByTypeStep(exercises: seq<Exercise>, i: nat)
    requires i < |exercises|
    ensures var m := CountByType(exercises[..i]);
      var t := exercises[i].exerciseType;
      CountByType(exercises[..i + 1]) == m[t := (if t in m then m[t] else 0) + 1]
  {
    assert exercises[..i + 1][..i] == exercises[..i];
  }

  /** Some key of a non-empty dictionary. */
  ghost function SomeKey(m: map<string, int>): (k: string)
    requires m != map[]
    ensures k in m
  {
    var k :| k in m; k
  }

  /** The sum of a dictionary's values. */
  ghost function MapTotal(m: map<string, int>): int
    decreases |m.Keys|
  {
    if m == map[] then 0
    else
      var k := SomeKey(m);
      assert |(m - {k}).Keys| < |m.Keys| by {
        assert (m - {k}).Keys == m.Keys - {k};
      }
      m[k] + MapTotal(m - {k})
  }

  /** The sum does not depend on the key taken out first. */
  lemma {:induction false} MapTotalRemove(m: map<string, int>, k: string)
    requires k in m
    ensures MapTotal(m) == m[k] + MapTotal(m - {k})
    decreases |m.Keys|
  {
    var j := SomeKey(m);
    if j != k {
      assert (m - {j}).Keys == m.Keys - {j};
      assert (m - {k}).Keys == m.Keys - {k};
      MapTotalRemove(m - {j}, k);
      MapTotalRemove(m - {k}, j);
      assert m - {j} - {k} == m - {k} - {j};
    }
  }

  /** Adding `delta` to one key, present or not, adds `delta` to the sum. */
  lemma MapTotalBump(m: map<string, int>, k: string, delta: int)
    ensures MapTotal(m[k := (if k in m then m[k] else 0) + delta]) == MapTotal(m) + delta
  {
    var m' := m[k := (if k in m then m[k] else 0) + delta];
    MapTotalRemove(m', k);
    assert m' - {k} == m - {k};
    if k in m {
      MapTotalRemove(m, k);
    } else {
      assert m - {k} == m;
    }
  }

  /** The per-type counts add up to the number of workouts. */
  lemma {:induction false} CountsSumToWorkoutCount(exercises: seq<Exercise>)
    ensures MapTotal(CountByType(exercises)) == |exercises|
    decreases |exercises|
  {
    if |exercises| > 0 {
      var init := exercises[..|exercises| - 1];
      var t := exercises[|exercises| - 1].exerciseType;
      var m := CountByType(init);
      assert CountByType(exercises) == m[t := (if t in m then m[t] else 0) + 1];
      calc {
        MapTotal(CountByType(exercises));
        == { MapTotalBump(m, t, 1); }
        MapTotal(m) + 1;
        == { CountsSumToWorkoutCount(init); }
        |init| + 1;
      }
    }
  }

  /**
   * The statistics of the filtered workouts: sums, the count, the average
   * distance (0 without workouts), the average pace over at least one
   * workout, and the counts per type.
   */
  function StatisticsOf(filtered: seq<Exercise>): (s: Statistics)
    ensures s.workoutCount == |filtered|
    ensures s.totalDistance == TotalDistance(filtered)
    ensures s.totalTime == SumOf(filtered, Duration) && s.totalCalories == SumOf(filtered, Calories)
    ensures s.workoutCount > 0 ==> s.averageDistance * s.workoutCount as real == s.totalDistance
    ensures s.workoutCount > 0 ==> s.averagePace * s.workoutCount as real == SumOf(filtered, Pace)
    ensures s.workoutCount == 0 ==> s.averageDistance == 0.0 && s.averagePace == 0.0
    ensures s.workoutsByType == CountByType(filtered)
  {
    SumOfDistance(filtered);
    var totalDistance := SumOf(filtered, Distance);
    var count := |filtered|;
    var averageDistance := if count > 0 then totalDistance / count as real else 0.0;
    var averagePace := SumOf(filtered, Pace) / (if count > 1 then count else 1) as real;
    Statistics(totalDistance, SumOf(filtered, Duration), SumOf(filtered, Calories), count,
      averageDistance, averagePace, CountByType(filtered))
  }

  /**
   * `getStatistics(for:)`: the statistics of the workouts in the period; a
   * failed fetch is passed on.
   */
  method GetStatistics(exercises: Option<seq<Exercise>>, period: TimePeriod, b: PeriodBounds)
    returns (r: Option<Statistics>)
    ensures exercises.None? ==> r.None?
    ensures exercises.Some? ==> r == Some(StatisticsOf(FilterExercises(exercises.value, period, b)))
  {
    if exercises.None? {
      return None;
    }
    var filtered := FilterExercises(exercises.value, period, b);
    SumOfDistance(filtered);
    var totalDistance := SumOf(filtered, Distance);
    var totalTime := SumOf(filtered, Duration);
    var totalCalories := SumOf(filtered, Calories);
    var workoutCount := |filtered|;
    var averageDistance := if workoutCount > 0 then totalDistance / workoutCount as real else 0.0;
    var averagePace := SumOf(filtered, Pace) / (if workoutCount > 1 then workoutCount else 1) as real;
    var workoutsByType := CountWorkoutsByType(filtered);
    r := Some(Statistics(totalDistance, totalTime, totalCalories, workoutCount,
      averageDistance, averagePace, workoutsByType));
  }

  /** The `workoutsByType` loop of `getStatistics`: one more for each workout's type. */
  method CountWorkoutsByType(filtered: seq<Exercise>) returns (workoutsByType: map<string, int>)
    ensures workoutsByType == CountByType(filtered)
  {
    workoutsByType := map[];
    assert filtered[..0] == [];
    for i := 0 to |filtered|
      invariant workoutsByType == CountByType(filtered[..i])
    {
      var t := filtered[i].exerciseType;
      CountByTypeStep(filtered, i);
      workoutsByType := workoutsByType[t := (if t in workoutsByType then workoutsByType[t] else 0) + 1];
    }
    assert filtered[..|filtered|] == filtered;
  }

  /** Swift's `<` on the date keys: lexicographic by character. */
  predicate StringLess(a: string, b: string)
    decreases |a|
  {
    if |a| == 0 then |b| > 0
    else if |b| == 0 then false
    else a[0] < b[0] || (a[0] == b[0] && StringLess(a[1..], b[1..]))
  }

  lemma {:induction false} StringLessIrreflexive(a: string)
    ensures !StringLess(a, a)
    decreases |a|
  {
    if |a| > 0 {
      StringLessIrreflexive(a[1..]);
    }
  }

  lemma {:induction false} StringLessTrichotomy(a: string, b: string)
    ensures a == b || StringLess(a, b) || StringLess(b, a)
    decreases |a|
  {
    if |a| > 0 && |b| > 0 && a[0] == b[0] {
      StringLessTrichotomy(a[1..], b[1..]);
      if a[1..] == b[1..] {
        assert a == [a[0]] + a[1..] && b == [b[0]] + b[1..];
      }
    }
  }

  lemma {:induction false} StringLessTransitive(a: string, b: string, c: string)
    requires StringLess(a, b) && StringLess(b, c)
    ensures StringLess(a, c)
    decreases |a|
  {
    if |a| > 0 && a[0] == b[0] && b[0] == c[0] {
      StringLessTransitive(a[1..], b[1..], c[1..]);
    }
  }

  /** The chart's labels strictly increase: sorted, and no label twice. */
  ghost predicate StrictlyAscending(chart: seq<ChartData>) {
    forall i, j :: 0 <= i < j < |chart| ==> StringLess(chart[i].caption, chart[j].caption)
  }

  /** The labels of a chart. */
  function Captions(chart: seq<ChartData>): set<string> {
    set i | 0 <= i < |chart| :: chart[i].caption
  }

  /** The sum of a chart's values. */
  function SumValues(chart: seq<ChartData>): real {
    if |chart| == 0 then 0.0 else chart[0].value + SumValues(chart[1..])
  }

  /** The value a chart shows for `key` (0 when it has no such bar). */
  function ValueOf(chart: seq<ChartData>, key: string): real {
    if |chart| == 0 then 0.0
    else (if chart[0].caption == key then chart[0].value else 0.0) + ValueOf(chart[1..], key)
  }

  /**
   * `dataByDate[key, default: 0] += value`, on the dictionary kept as its
   * entries in ascending key order: the bar for `key` grows by `value`, or a
   * bar is inserted where the order puts it.
   */
  function AddToChart(chart: seq<ChartData>, key: string, value: real): (r: seq<ChartData>)
    ensures SumValues(r) == SumValues(chart) + value
    ensures forall k :: ValueOf(r, k) == ValueOf(chart, k) + (if k == key then value else 0.0)
    decreases |chart|
  {
    if |chart| == 0 then
      var r := [ChartData(key, value)];
      assert ValueOf(r, key) == value by { assert r[1..] == []; }
      r
    else if chart[0].caption == key then
      var r := [chart[0].(value := chart[0].value + value)] + chart[1..];
      assert r[1..] == chart[1..];
      r
    else if StringLess(key, chart[0].caption) then
      var r := [ChartData(key, value)] + chart;
      assert r[1..] == chart;
      r
    else
      var rest := AddToChart(chart[1..], key, value);
      var r := [chart[0]] + rest;
      assert r[1..] == rest;
      r
  }

  /** Adding to the chart adds the key to its labels. */
  lemma {:induction false} AddToChartCaptions(chart: seq<ChartData>, key: string, value: real)
    ensures Captions(AddToChart(chart, key, value)) == Captions(chart) + {key}
    decreases |chart|
  {
    var r := AddToChart(chart, key, value);
    if |chart| == 0 {
      assert Captions(r) == {key} by { assert r[0].caption == key; }
    } else if chart[0].caption == key {
      assert forall i :: 0 <= i < |r| ==> r[i].caption == chart[i].caption;
    } else if StringLess(key, chart[0].caption) {
      CaptionsCons(ChartData(key, value), chart);
    } else {
      var rest := AddToChart(chart[1..], key, value);
      AddToChartCaptions(chart[1..], key, value);
      assert r == [chart[0]] + rest;
      CaptionsCons(chart[0], rest);
      CaptionsCons(chart[0], chart[1..]);
      assert chart == [chart[0]] + chart[1..];
    }
  }

  lemma CaptionsCons(bar: ChartData, chart: seq<ChartData>)
    ensures Captions([bar] + chart) == {bar.caption} + Captions(chart)
  {
    var whole := [bar] + chart;
    assert forall i :: 0 <= i < |chart| ==> whole[i + 1] == chart[i];
    assert Captions(whole) <= {bar.caption} + Captions(chart) by {
      forall c | c in Captions(whole)
        ensures c in {bar.caption} + Captions(chart)
      {
        var i :| 0 <= i < |whole| && whole[i].caption == c;
        if i > 0 {
          assert chart[i - 1].caption == c;
        }
      }
    }
    assert whole[0].caption == bar.caption;
    forall c | c in Captions(chart)
      ensures c in Captions(whole)
    {
      var i :| 0 <= i < |chart| && chart[i].caption == c;
      assert whole[i + 1].caption == c;
    }
  }

  /** Adding to a sorted chart keeps it sorted. */
  lemma {:induction false} AddToChartAscending(chart: seq<ChartData>, key: string, value: real)
    requires StrictlyAscending(chart)
    ensures StrictlyAscending(AddToChart(chart, key, value))
    decreases |chart|
  {
    var r := AddToChart(chart, key, value);
    if |chart| == 0 {
    } else if chart[0].caption == key {
      assert forall i :: 0 <= i < |r| ==> r[i].caption == chart[i].caption;
    } else if StringLess(key, chart[0].caption) {
      forall j | 0 < j < |r|
        ensures StringLess(r[0].caption, r[j].caption)
      {
        if j > 1 {
          StringLessTransitive(key, chart[0].caption, chart[j - 1].caption);
        }
      }
    } else {
      StringLessTrichotomy(key, chart[0].caption);
      var tail := chart[1..];
      var rest := AddToChart(tail, key, value);
      AddToChartAscending(tail, key, value);
      AddToChartCaptions(tail, key, value);
      assert r == [chart[0]] + rest;
      forall j | 0 < j < |r|
        ensures StringLess(r[0].caption, r[j].caption)
      {
        assert rest[j - 1].caption in Captions(rest);
        if rest[j - 1].caption != key {
          var i :| 0 <= i < |tail| && tail[i].caption == rest[j - 1].caption;
          assert tail[i] == chart[i + 1];
        }
      }
    }
  }

  /** `formatter.dateFormat` for the period. */
  function DateFormat(period: TimePeriod): (f: string)
    ensures period == Weekly ==> f == "M/d"
    ensures period == Monthly ==> f == "d일"
    ensures period == Yearly ==> f == "M월"
  {
    match period
    case Weekly => "M/d"
    case Monthly => "d일"
    case Yearly => "M월"
  }

  /** The distance of the workouts whose date key is `key`. */
  function DistanceOnKey(exercises: seq<Exercise>, dateKey: Date -> string, key: string): real {
    if |exercises| == 0 then 0.0
    else
      var last := exercises[|exercises| - 1];
      DistanceOnKey(exercises[..|exercises| - 1], dateKey, key) + (if dateKey(last.startDate) == key then last.distance else 0.0)
  }

  /** The date keys of the workouts. */
  function KeysOf(exercises: seq<Exercise>, dateKey: Date -> string): set<string> {
    set i | 0 <= i < |exercises| :: dateKey(exercises[i].startDate)
  }

  /**
   * The chart `getChartData` returns for the filtered workouts: one bar per
   * date key that occurs, in ascending key order, holding the distance of
   * the workouts with that key; the bars add up to the total distance.
   */
  function ChartOf(exercises: seq<Exercise>, dateKey: Date -> string): (chart: seq<ChartData>)
    ensures StrictlyAscending(chart)
    ensures SumValues(chart) == TotalDistance(exercises)
  {
    if |exercises| == 0 then []
    else
      var init := exercises[..|exercises| - 1];
      var last := exercises[|exercises| - 1];
      var previous := ChartOf(init, dateKey);
      AddToChartAscending(previous, dateKey(last.startDate), last.distance);
      AddToChart(previous, dateKey(last.startDate), last.distance)
  }

  /** The chart of one more workout adds its distance under its key. */
  lemma ChartOfStep(exercises: seq<Exercise>, dateKey: Date -> string)
    requires |exercises| > 0
    ensures var last := exercises[|exercises| - 1];
      ChartOf(exercises, dateKey) == AddToChart(ChartOf(exercises[..|exercises| - 1], dateKey), dateKey(last.startDate), last.distance)
  {
  }

  /** The chart has a bar for each date key that occurs, and no other. */
  lemma {:induction false} ChartCaptions(exercises: seq<Exercise>, dateKey: Date -> string)
    ensures Captions(ChartOf(exercises, dateKey)) == KeysOf(exercises, dateKey)
    decreases |exercises|
  {
    if |exercises| > 0 {
      var init := exercises[..|exercises| - 1];
      var last := exercises[|exercises| - 1];
      ChartCaptions(init, dateKey);
      ChartOfStep(exercises, dateKey);
      AddToChartCaptions(ChartOf(init, dateKey), dateKey(last.startDate), last.distance);
      KeysOfStep(exercises, dateKey);
    }
  }

  /** One more workout adds its date key to the keys. */
  lemma KeysOfStep(exercises: seq<Exercise>, dateKey: Date -> string)
    requires |exercises| > 0
    ensures KeysOf(exercises, dateKey)
      == KeysOf(exercises[..|exercises| - 1], dateKey) + {dateKey(exercises[|exercises| - 1].startDate)}
  {
    var init := exercises[..|exercises| - 1];
    var key := dateKey(exercises[|exercises| - 1].startDate);
    forall c | c in KeysOf(exercises, dateKey)
      ensures c in KeysOf(init, dateKey) + {key}
    {
      var i :| 0 <= i < |exercises| && dateKey(exercises[i].startDate) == c;
      if i < |init| {
        assert dateKey(init[i].startDate) == c;
      }
    }
    forall c | c in KeysOf(init, dateKey) + {key}
      ensures c in KeysOf(exercises, dateKey)
    {
      if c != key {
        var i :| 0 <= i < |init| && dateKey(init[i].startDate) == c;
        assert dateKey(exercises[i].startDate) == c;
      } else {
        assert dateKey(exercises[|exercises| - 1].startDate) == c;
      }
    }
  }

  /** Each bar holds the distance of the workouts with its date key, and a key without workouts has no value. */
  lemma {:induction false} ChartValues(exercises: seq<Exercise>, dateKey: Date -> string, key: string)
    ensures ValueOf(ChartOf(exercises, dateKey), key) == DistanceOnKey(exercises, dateKey, key)
    decreases |exercises|
  {
    if |exercises| > 0 {
      var init := exercises[..|exercises| - 1];
      var last := exercises[|exercises| - 1];
      ChartValues(init, dateKey, key);
      ChartOfStep(exercises, dateKey);
    }
  }

  /** No label appears twice in the chart. */
  lemma ChartLabelsUnique(exercises: seq<Exercise>, dateKey: Date -> string)
    ensures var chart := ChartOf(exercises, dateKey);
      forall i, j :: 0 <= i < |chart| && 0 <= j < |chart| && i != j ==> chart[i].caption != chart[j].caption
  {
    var chart := ChartOf(exercises, dateKey);
    forall i, j | 0 <= i < |chart| && 0 <= j < |chart| && i != j
      ensures chart[i].caption != chart[j].caption
    {
      if i < j {
        StringLessIrreflexive(chart[i].caption);
      } else {
        StringLessIrreflexive(chart[j].caption);
      }
    }
  }

  /**
   * `getChartData(for:)`: the distances of the workouts in the period
   * added up per date key, the key being the formatter's text for the
   * period's format; a failed fetch is passed on.
   */
  method GetChartData(exercises: Option<seq<Exercise>>, period: TimePeriod, b: PeriodBounds,
                      format: (string, Date) -> string)
    returns (r: Option<seq<ChartData>>)
    ensures exercises.None? ==> r.None?
    ensures exercises.Some? ==>
      r == Some(ChartOf(FilterExercises(exercises.value, period, b), (d: Date) => format(DateFormat(period), d)))
  {
    if exercises.None? {
      return None;
    }
    var filtered := FilterExercises(exercises.value, period, b);
    var dateKey := (d: Date) => format(DateFormat(period), d);
    var dataByDate: seq<ChartData> := [];
    for i := 0 to |filtered|
      invariant dataByDate == ChartOf(filtered[..i], dateKey)
    {
      assert filtered[..i + 1][..i] == filtered[..i];
      var exercise := filtered[i];
      var key := format(DateFormat(period), exercise.startDate);
      dataByDate := AddToChart(dataByDate, key, exercise.distance);
    }
    assert filtered[..|filtered|] == filtered;
    r := Some(dataByDate);
  }
}
