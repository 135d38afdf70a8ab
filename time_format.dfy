/**
 * The integer hour/minute/second and minute/second decompositions behind
 * the app's `String(format:)` labels. The model keeps the numbers and the
 * choice of layout; the printf rendering itself is not modelled.
 */
module TimeFormat {
  import opened SwiftNum

  /** `paceFormatted` / `averagePaceFormatted`: "--:--" or "%d:%02d". */
  datatype PaceLabel = NoPace | MinSec(minutes: int, seconds: int)

  /** `durationFormatted` / `timeFormatted`: "%d:%02d:%02d" or "%02d:%02d". */
  datatype ClockLabel = HourMinSec(hours: int, minutes: int, seconds: int) | MinSecOnly(minutes: int, seconds: int)

  /** `totalTimeFormatted` and the Korean `durationFormatted`s: "%d시간 %d분" or "%d분". */
  datatype HourMinuteLabel = HoursMinutes(hours: int, minutes: int) | MinutesOnly(minutes: int)

  /**
   * Pace in seconds per km shown as minutes and seconds:
   * minutes = Int(pace / 60), seconds = Int(pace.truncatingRemainder(dividingBy: 60)).
   * The label reads exactly the whole seconds of the pace.
   */
  function PaceLabelOf(pace: real): (l: PaceLabel)
    ensures l.NoPace? <==> pace <= 0.0
    ensures l.MinSec? ==> 0 <= l.minutes && 0 <= l.seconds < 60
    ensures l.MinSec? ==> l.minutes * 60 + l.seconds == Trunc(pace)
  {
    if pace <= 0.0 then NoPace
    else
      var m := Trunc(pace / 60.0);
      var r := TruncRem(pace, 60.0);
      PaceSplit(pace, m, r);
      MinSec(m, Trunc(r))
  }

  lemma PaceSplit(pace: real, m: int, r: real)
    requires pace > 0.0 && m == Trunc(pace / 60.0) && r == pace - 60.0 * m as real
    requires 0.0 <= r < 60.0
    ensures m >= 0 && m * 60 + Trunc(r) == Trunc(pace)
  {
    var s := Trunc(r);
    assert s as real <= r < s as real + 1.0;
    var n := m * 60 + s;
    assert n as real <= pace < n as real + 1.0;
    assert (m * 60 + s) as real == m as real * 60.0 + s as real;
  }

  /** Hours of a whole number of seconds: `n / 3600`. */
  function Hours(n: int): int { Quot(n, 3600) }

  /** Exercise.swift's minutes: `(n % 3600) / 60`. */
  function MinutesOfHour(n: int): int { Quot(Rem(n, 3600), 60) }

  /** WorkoutSession/WorkoutStats' minutes: `n / 60 % 60`. */
  function MinutesOfHourAlt(n: int): int { Rem(Quot(n, 60), 60) }

  /** Seconds of the minute: `n % 60`. */
  function SecondsOfMinute(n: int): int { Rem(n, 60) }

  /**
   * `Exercise.durationFormatted`: the whole seconds of the duration split into
   * hours, minutes and seconds, the hours shown only when positive.
   */
  function ExerciseClock(duration: real): (l: ClockLabel)
    ensures l.HourMinSec? <==> Trunc(duration) >= 3600
    ensures -60 < l.minutes < 60 && -60 < l.seconds < 60
    ensures duration >= 0.0 ==> ClockSeconds(l) == Trunc(duration) && 0 <= l.minutes && 0 <= l.seconds
  {
    var n := Trunc(duration);
    var h, m, s := Hours(n), MinutesOfHour(n), SecondsOfMinute(n);
    HmsRanges(n);
    if h > 0 then HourMinSec(h, m, s) else MinSecOnly(m, s)
  }

  /** Signs and ranges of the three components. */
  lemma HmsRanges(n: int)
    ensures Hours(n) * 3600 + MinutesOfHour(n) * 60 + SecondsOfMinute(n) == n
    ensures Hours(n) > 0 <==> n >= 3600
    ensures -60 < MinutesOfHour(n) < 60 && -60 < SecondsOfMinute(n) < 60
    ensures n >= 0 ==> 0 <= MinutesOfHour(n) && 0 <= SecondsOfMinute(n)
  {
    HmsSplit(n);
    var r := Rem(n, 3600);
    assert n >= 0 ==> 0 <= r < 3600;
    assert n < 0 ==> -3600 < r <= 0;
  }

  /**
   * `WorkoutSession.durationFormatted` and `WorkoutStats.timeFormatted`
   * (both copies): the same split with minutes computed as `n / 60 % 60`.
   */
  function SessionClock(duration: real): (l: ClockLabel)
    ensures l.HourMinSec? <==> Trunc(duration) >= 3600
    ensures -60 < l.minutes < 60 && -60 < l.seconds < 60
  {
    var n := Trunc(duration);
    var h, m, s := Hours(n), MinutesOfHourAlt(n), SecondsOfMinute(n);
    if h > 0 then HourMinSec(h, m, s) else MinSecOnly(m, s)
  }

  /** The seconds a clock label stands for. */
  function ClockSeconds(l: ClockLabel): int {
    match l
    case HourMinSec(h, m, s) => h * 3600 + m * 60 + s
    case MinSecOnly(m, s) => m * 60 + s
  }

  /** `n = 3600 h + 60 m + s` with Exercise.swift's formulas, for every Int. */
  lemma HmsSplit(n: int)
    ensures Hours(n) * 3600 + MinutesOfHour(n) * 60 + SecondsOfMinute(n) == n
    ensures Rem(Rem(n, 3600), 60) == SecondsOfMinute(n)
  {
    var r := Rem(n, 3600);
    var q := Quot(n, 3600);
    assert n == q * 3600 + r;
    var m := Quot(r, 60);
    var s := Rem(r, 60);
    assert r == m * 60 + s;
    assert n == (q * 60 + m) * 60 + s;
    RemUnique(n, q * 60 + m, s);
  }

  /** Truncated division is the unique split whose remainder has the dividend's sign. */
  lemma RemUnique(n: int, q: int, s: int)
    requires n == q * 60 + s
    requires n >= 0 ==> 0 <= s < 60
    requires n < 0 ==> -60 < s <= 0
    ensures Rem(n, 60) == s && Quot(n, 60) == q
  {
    var q0 := Quot(n, 60);
    var s0 := Rem(n, 60);
    assert (q - q0) * 60 == s0 - s;
  }

  /**
   * The two minute formulas of the source agree on every whole number of
   * seconds, so the two WorkoutSession copies and Exercise show the same clock.
   */
  lemma {:induction false} MinuteFormulasAgree(n: int)
    ensures MinutesOfHour(n) == MinutesOfHourAlt(n)
  {
    var q := Quot(n, 3600);
    var r := Rem(n, 3600);
    var m := Quot(r, 60);
    var s := Rem(r, 60);
    assert r == m * 60 + s;
    HmsSplit(n);
    RemUnique(n, q * 60 + m, s);
    assert Quot(n, 60) == q * 60 + m;
    RemUniqueHour(q * 60 + m, q, m);
  }

  lemma RemUniqueHour(k: int, q: int, m: int)
    requires k == q * 60 + m
    requires k >= 0 ==> 0 <= m < 60
    requires k < 0 ==> -60 < m <= 0
    ensures Rem(k, 60) == m
  {
    RemUnique(k, q, m);
  }

  /** Both clock labels of one duration are the same label. */
  lemma ClocksAgree(duration: real)
    ensures ExerciseClock(duration) == SessionClock(duration)
  {
    MinuteFormulasAgree(Trunc(duration));
  }

  /**
   * "%d시간 %d분" when at least an hour, else "%d분"; seconds are dropped.
   * Used by Statistics.totalTimeFormatted, ExerciseSummary.durationFormatted
   * and FeedWorkout.durationFormatted, which share the formula.
   */
  function HourMinuteLabelOf(t: real): (l: HourMinuteLabel)
    ensures l.HoursMinutes? <==> Trunc(t) >= 3600
    ensures -60 < l.minutes < 60
    ensures t >= 0.0 ==> 0 <= l.minutes && 0 <= Trunc(t) - HourMinuteSeconds(l) < 60
  {
    var n := Trunc(t);
    HmsSplit(n);
    if Hours(n) > 0 then HoursMinutes(Hours(n), MinutesOfHour(n)) else MinutesOnly(MinutesOfHour(n))
  }

  /** The seconds an hour/minute label stands for. */
  function HourMinuteSeconds(l: HourMinuteLabel): int {
    match l
    case HoursMinutes(h, m) => h * 3600 + m * 60
    case MinutesOnly(m) => m * 60
  }
}
