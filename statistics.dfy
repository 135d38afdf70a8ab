/**
 * Statistics.swift: the totals shown for a period, their hour/minute and
 * pace labels, chart points, and the period names.
 */
module StatisticsModel {
  import opened SwiftNum
  import opened TimeFormat

  /** `PeriodStatistics.TimePeriod`. */
  datatype TimePeriod = Weekly | Monthly | Yearly

  /** `displayName`. */
  function DisplayName(p: TimePeriod): (name: string)
    ensures p == Weekly ==> name == "주간"
    ensures p == Monthly ==> name == "월간"
    ensures p == Yearly ==> name == "연간"
  {
    match p
    case Weekly => "주간"
    case Monthly => "월간"
    case Yearly => "연간"
  }

  /** Each period has its own name. */
  lemma DisplayNamesDistinct(a: TimePeriod, b: TimePeriod)
    requires a != b
    ensures DisplayName(a) != DisplayName(b)
  {
  }

  /** `Statistics`: distances in metres, time in seconds, pace in seconds per km. */
  datatype Statistics = Statistics(
    totalDistance: real,
    totalTime: real,
    totalCalories: real,
    workoutCount: int,
    averageDistance: real,
    averagePace: real,
    workoutsByType: map<string, int>)

  /** `ChartData`: one bar of the chart; `caption` is the source's `label`, a reserved word in Dafny. */
  datatype ChartData = ChartData(caption: string, value: real)

  /** `PeriodStatistics`. */
  datatype PeriodStatistics = PeriodStatistics(period: TimePeriod, statistics: Statistics, chartData: seq<ChartData>)

  /**
   * `totalTimeFormatted`: hours and minutes of the whole seconds, seconds
   * dropped; the hours shown only from one hour on.
   */
  function TotalTimeLabel(s: Statistics): (l: HourMinuteLabel)
    ensures l.HoursMinutes? <==> Trunc(s.totalTime) >= 3600
    ensures l.HoursMinutes? ==> l.hours == Trunc(s.totalTime) / 3600
    ensures s.totalTime >= 0.0 ==> 0 <= l.minutes < 60 && 0 <= Trunc(s.totalTime) - HourMinuteSeconds(l) < 60
  {
    var l := HourMinuteLabelOf(s.totalTime);
    HourMinuteHours(s.totalTime);
    l
  }

  /** From an hour on the label's hours are the whole hours of the time. */
  lemma HourMinuteHours(t: real)
    ensures HourMinuteLabelOf(t).HoursMinutes? ==> HourMinuteLabelOf(t).hours == Trunc(t) / 3600
  {
    var n := Trunc(t);
    if n >= 3600 {
      assert Quot(n, 3600) == n / 3600;
    }
  }

  /** `averagePaceFormatted`: "--:--" exactly when the average pace is not positive, else minutes and seconds. */
  function AveragePaceLabel(s: Statistics): (l: PaceLabel)
    ensures l.NoPace? <==> s.averagePace <= 0.0
    ensures l.MinSec? ==> 0 <= l.seconds < 60 && l.minutes * 60 + l.seconds == Trunc(s.averagePace)
  {
    PaceLabelOf(s.averagePace)
  }
}
