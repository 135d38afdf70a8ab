/**
 * WorkoutSaveHelper.swift: turning a finished tracking session into a
 * stored workout record and its route data points. The Core Data calls
 * are replaced by returning what they would be given.
 */
module WorkoutSaving {
  import opened Base
  import opened Workouts
  import opened Tracking

  const DefaultNotes: string := "운동을 완료했습니다"

  /** The arguments of `createExerciseSession`. */
  datatype SessionRecord = SessionRecord(
    exerciseType: string,
    duration: real,
    distance: real,
    calories: real,
    pace: real,
    startDate: Date,
    endDate: Date,
    notes: string)

  /** The arguments of one `addDataPoint` call. */
  datatype DataPoint = DataPoint(latitude: real, longitude: real, altitude: real, speed: real, timestamp: Date)

  /**
   * The record saved for the figures `stats`: the distance in kilometres,
   * the pace in seconds per kilometre (0 without distance), the start
   * `duration` seconds before `now`, and the default notes when none are
   * given.
   */
  function RecordOf(workoutType: WorkoutType, stats: WorkoutStats, notes: Option<string>, now: Date): (r: SessionRecord)
    ensures r.exerciseType == WorkoutTypeName(workoutType)
    ensures r.distance * 1000.0 == stats.currentDistance
    ensures r.duration == stats.elapsedTime && r.calories == stats.calories
    ensures r.distance > 0.0 ==> r.pace * r.distance == r.duration
    ensures r.distance <= 0.0 ==> r.pace == 0.0
    ensures r.endDate == now && r.endDate - r.startDate == r.duration
    ensures r.notes == (if notes.Some? then notes.value else DefaultNotes)
  {
    var duration := stats.elapsedTime;
    var distance := stats.currentDistance / 1000.0;
    var pace := if distance > 0.0 then duration / distance else 0.0;
    SessionRecord(WorkoutTypeName(workoutType), duration, distance, stats.calories, pace,
      now - duration, now, if notes.Some? then notes.value else DefaultNotes)
  }

  /** The stored point of a route point: the same place and time, a negative speed stored as 0. */
  function DataPointOf(p: RoutePoint): (d: DataPoint)
    ensures d.latitude == p.latitude && d.longitude == p.longitude && d.altitude == p.altitude
    ensures d.timestamp == p.timestamp
    ensures d.speed >= 0.0 && (p.speed >= 0.0 ==> d.speed == p.speed)
  {
    DataPoint(p.latitude, p.longitude, p.altitude, if p.speed >= 0.0 then p.speed else 0.0, p.timestamp)
  }

  /** The stored points of a route, one per route point, in route order. */
  function DataPointsOf(route: seq<RoutePoint>): (points: seq<DataPoint>)
    ensures |points| == |route|
    ensures forall i :: 0 <= i < |route| ==> points[i] == DataPointOf(route[i])
  {
    if |route| == 0 then [] else DataPointsOf(route[..|route| - 1]) + [DataPointOf(route[|route| - 1])]
  }

  /** No stored point has a negative speed. */
  lemma DataPointSpeedsNonNegative(route: seq<RoutePoint>)
    ensures forall i :: 0 <= i < |route| ==> DataPointsOf(route)[i].speed >= 0.0
  {
  }

  /**
   * `saveWorkout(type:locationManager:notes:)`: the session record and,
   * from the copy loop, the data points in route order.
   */
  method SaveWorkout(workoutType: WorkoutType, m: LocationManager, notes: Option<string>, now: Date)
    returns (record: SessionRecord, points: seq<DataPoint>)
    ensures record == RecordOf(workoutType, m.stats, notes, now)
    ensures points == DataPointsOf(m.route)
  {
    record := RecordOf(workoutType, m.stats, notes, now);
    points := [];
    var route := m.route;
    for i := 0 to |route|
      invariant points == DataPointsOf(route[..i])
    {
      assert route[..i + 1][..i] == route[..i];
      var point := route[i];
      points := points + [DataPoint(point.latitude, point.longitude, point.altitude,
        if point.speed >= 0.0 then point.speed else 0.0, point.timestamp)];
    }
    assert route[..|route|] == route;
  }
}
