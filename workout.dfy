/**
 * Exercise.swift and WorkoutModels.swift: the workout types, route points,
 * stored exercises, live sessions and live statistics. The two files
 * declare the same types; they are modelled once.
 */
module Workouts {
  import opened Base
  import opened SwiftNum
  import opened TimeFormat

  /** `WorkoutType`. */
  datatype WorkoutType = Running | Cycling | Walking | Hiking

  /** `WorkoutType.rawValue`. */
  function WorkoutTypeName(t: WorkoutType): string {
    match t
    case Running => "러닝"
    case Cycling => "사이클"
    case Walking => "워킹"
    case Hiking => "등산"
  }

  /** The raw values are distinct, so a stored type name identifies its type. */
  lemma WorkoutTypeNamesDistinct(a: WorkoutType, b: WorkoutType)
    ensures WorkoutTypeName(a) == WorkoutTypeName(b) <==> a == b
  {
  }

  /** `WorkoutType.icon`. */
  function WorkoutTypeIcon(t: WorkoutType): (icon: string)
    ensures t == Running <==> icon == "figure.run"
    ensures t == Cycling <==> icon == "bicycle"
    ensures t == Walking <==> icon == "figure.walk"
    ensures t == Hiking <==> icon == "figure.hiking"
  {
    match t
    case Running => "figure.run"
    case Cycling => "bicycle"
    case Walking => "figure.walk"
    case Hiking => "figure.hiking"
  }

  /** A `CLLocation` sample as the app reads it. */
  datatype Location = Location(latitude: real, longitude: real, altitude: real, timestamp: Date, speed: real)

  /** `RoutePoint`. */
  datatype RoutePoint = RoutePoint(id: Uuid, latitude: real, longitude: real, altitude: real, timestamp: Date, speed: real)

  /** `RoutePoint(location:)`, with the fresh `UUID()` as an input. */
  function RoutePointOf(location: Location, id: Uuid): (p: RoutePoint)
    ensures p.id == id
    ensures p.latitude == location.latitude && p.longitude == location.longitude && p.altitude == location.altitude
    ensures p.timestamp == location.timestamp && p.speed == location.speed
  {
    RoutePoint(id, location.latitude, location.longitude, location.altitude, location.timestamp, location.speed)
  }

  /** `Exercise`: a stored workout; distance in metres, pace in seconds per km. */
  datatype Exercise = Exercise(
    id: Uuid,
    exerciseType: string,
    startDate: Date,
    endDate: Option<Date>,
    duration: real,
    distance: real,
    calories: real,
    pace: real,
    notes: Option<string>)

  /** The Core Data `ExerciseSession` record, whose optional attributes may be missing. */
  datatype ExerciseSession = ExerciseSession(
    id: Option<Uuid>,
    exerciseType: Option<string>,
    startDate: Option<Date>,
    endDate: Option<Date>,
    duration: real,
    distance: real,
    calories: real,
    pace: real,
    notes: Option<string>)

  /**
   * `Exercise(session:)`: copies the record, with a fresh id, "운동" and now
   * standing in for a missing id, type and start date.
   */
  function ExerciseOf(session: ExerciseSession, freshId: Uuid, now: Date): (e: Exercise)
    ensures e.duration == session.duration && e.distance == session.distance
    ensures e.calories == session.calories && e.pace == session.pace
    ensures e.notes == session.notes && e.endDate == session.endDate
    ensures e.exerciseType == (if session.exerciseType.Some? then session.exerciseType.value else "운동")
    ensures e.id == (if session.id.Some? then session.id.value else freshId)
    ensures e.startDate == (if session.startDate.Some? then session.startDate.value else now)
  {
    Exercise(
      session.id.GetOr(freshId),
      session.exerciseType.GetOr("운동"),
      session.startDate.GetOr(now),
      session.endDate,
      session.duration,
      session.distance,
      session.calories,
      session.pace,
      session.notes)
  }

  /** `Exercise.paceFormatted`: "--:--" exactly when the pace is not positive, else M:SS. */
  function ExercisePaceLabel(e: Exercise): (l: PaceLabel)
    ensures l.NoPace? <==> e.pace <= 0.0
    ensures l.MinSec? ==> 0 <= l.seconds < 60 && l.minutes * 60 + l.seconds == Trunc(e.pace)
  {
    PaceLabelOf(e.pace)
  }

  /** `Exercise.durationFormatted`: H:MM:SS from an hour on, else MM:SS, covering the whole seconds. */
  function ExerciseDurationLabel(e: Exercise): (l: ClockLabel)
    ensures l.HourMinSec? <==> Trunc(e.duration) >= 3600
    ensures e.duration >= 0.0 ==> ClockSeconds(l) == Trunc(e.duration) && 0 <= l.minutes < 60 && 0 <= l.seconds < 60
  {
    ExerciseClock(e.duration)
  }

  /** `exercises.reduce(0) { $0 + $1.distance }`: the distances added from the front. */
  function TotalDistance(exercises: seq<Exercise>): real {
    if |exercises| == 0 then 0.0
    else TotalDistance(exercises[..|exercises| - 1]) + exercises[|exercises| - 1].distance
  }

  /** Every exercise covers a non-negative distance. */
  ghost predicate DistancesNonNegative(exercises: seq<Exercise>) {
    forall i :: 0 <= i < |exercises| ==> exercises[i].distance >= 0.0
  }

  /** With non-negative distances the total is non-negative and no prefix total exceeds it. */
  lemma {:induction false} TotalDistancePrefix(exercises: seq<Exercise>, k: nat)
    requires DistancesNonNegative(exercises) && k <= |exercises|
    ensures 0.0 <= TotalDistance(exercises[..k]) <= TotalDistance(exercises)
    decreases |exercises|
  {
    if k < |exercises| {
      var init := exercises[..|exercises| - 1];
      assert exercises[..k] == init[..k];
      TotalDistancePrefix(init, k);
    } else {
      assert exercises[..k] == exercises;
      if |exercises| > 0 {
        var init := exercises[..|exercises| - 1];
        assert init[..|init|] == init;
        TotalDistancePrefix(init, |init|);
      }
    }
  }

  /** `WorkoutSession`: a live session; distance in metres, pace in seconds per km. */
  datatype WorkoutSession = WorkoutSession(
    id: Uuid,
    workoutType: WorkoutType,
    startDate: Date,
    endDate: Option<Date>,
    route: seq<RoutePoint>,
    distance: real,
    duration: real,
    calories: real,
    averageSpeed: real,
    averagePace: real)

  /** `WorkoutSession(type:)`: starts now with an empty route, zero metrics and no end. */
  function NewWorkoutSession(workoutType: WorkoutType, id: Uuid, now: Date): (s: WorkoutSession)
    ensures s.id == id && s.workoutType == workoutType && s.startDate == now && s.endDate.None?
    ensures s.route == [] && s.distance == 0.0 && s.duration == 0.0 && s.calories == 0.0
    ensures s.averageSpeed == 0.0 && s.averagePace == 0.0
  {
    WorkoutSession(id, workoutType, now, None, [], 0.0, 0.0, 0.0, 0.0, 0.0)
  }

  /** `WorkoutSession.paceFormatted`: "--:--" exactly when the average pace is not positive. */
  function SessionPaceLabel(s: WorkoutSession): (l: PaceLabel)
    ensures l.NoPace? <==> s.averagePace <= 0.0
    ensures l.MinSec? ==> 0 <= l.seconds < 60 && l.minutes * 60 + l.seconds == Trunc(s.averagePace)
  {
    PaceLabelOf(s.averagePace)
  }

  /** `WorkoutSession.durationFormatted`: the same clock as `Exercise.durationFormatted`. */
  function SessionDurationLabel(s: WorkoutSession): (l: ClockLabel)
    ensures l.HourMinSec? <==> Trunc(s.duration) >= 3600
    ensures l == ExerciseClock(s.duration)
    ensures s.duration >= 0.0 ==> ClockSeconds(l) == Trunc(s.duration) && 0 <= l.minutes < 60 && 0 <= l.seconds < 60
  {
    ClocksAgree(s.duration);
    SessionClock(s.duration)
  }

  /** `WorkoutStats`: the live figures of a tracking session. */
  datatype WorkoutStats = WorkoutStats(
    currentDistance: real,
    currentSpeed: real,
    currentPace: real,
    elapsedTime: real,
    calories: real)

  /** `WorkoutStats()`: every figure zero. */
  const ZeroStats: WorkoutStats := WorkoutStats(0.0, 0.0, 0.0, 0.0, 0.0)

  /** `WorkoutStats.paceFormatted`: "--:--" exactly when the current pace is not positive. */
  function StatsPaceLabel(s: WorkoutStats): (l: PaceLabel)
    ensures l.NoPace? <==> s.currentPace <= 0.0
    ensures l.MinSec? ==> 0 <= l.seconds < 60 && l.minutes * 60 + l.seconds == Trunc(s.currentPace)
  {
    PaceLabelOf(s.currentPace)
  }

  /** `WorkoutStats.timeFormatted`: the session clock of the elapsed time. */
  function StatsTimeLabel(s: WorkoutStats): (l: ClockLabel)
    ensures l.HourMinSec? <==> Trunc(s.elapsedTime) >= 3600
    ensures l == ExerciseClock(s.elapsedTime)
    ensures s.elapsedTime >= 0.0 ==> ClockSeconds(l) == Trunc(s.elapsedTime) && 0 <= l.minutes < 60 && 0 <= l.seconds < 60
  {
    ClocksAgree(s.elapsedTime);
    SessionClock(s.elapsedTime)
  }
}
