/**
 * LocationManager.swift: the live tracking session. The platform's
 * location service, its permission prompt and the one-second timer are not
 * modelled; the permission status, the location samples, fresh ids and
 * "now" are inputs, and `CLLocation.distance(from:)` is a function given
 * to the manager that never returns a negative distance.
 */
module Tracking {
  import opened Base
  import opened Workouts

  /** `CLAuthorizationStatus`. */
  datatype AuthorizationStatus = NotDetermined | Restricted | Denied | AuthorizedAlways | AuthorizedWhenInUse

  /** The statuses under which tracking may start. */
  predicate IsAuthorized(s: AuthorizationStatus) {
    s == AuthorizedWhenInUse || s == AuthorizedAlways
  }

  /** `calculatePace(distance:time:)`: seconds per km, 0 without distance. */
  function CalculatePace(distance: real, time: real): (pace: real)
    ensures distance <= 0.0 ==> pace == 0.0
    ensures distance > 0.0 ==> pace * (distance / 1000.0) == time
    ensures distance > 0.0 && time >= 0.0 ==> pace >= 0.0
  {
    if distance > 0.0 then time / (distance / 1000.0) else 0.0
  }

  /** `calculateCalories(distance:)` with the default weight of 70 kg: one kcal per kg and km. */
  function CalculateCalories(distance: real): (calories: real)
    ensures calories * 1000.0 == distance * 70.0
    ensures distance >= 0.0 ==> calories >= 0.0
  {
    distance / 1000.0 * 70.0
  }

  /** More distance never means fewer calories. */
  lemma CaloriesMonotone(d1: real, d2: real)
    requires d1 <= d2
    ensures CalculateCalories(d1) <= CalculateCalories(d2)
  {
  }

  /** `LocationManager`. */
  class LocationManager {
    var authorizationStatus: AuthorizationStatus
    var currentLocation: Option<Location>
    var isTracking: bool
    var route: seq<RoutePoint>
    var stats: WorkoutStats
    var startTime: Option<Date>
    var lastLocation: Option<Location>
    var pendingTrackingStart: bool
    /** Whether location updates were last started rather than stopped. */
    var updatingLocation: bool
    /** Whether the one-second timer is scheduled (`timer != nil`). */
    var timerRunning: bool
    /** `CLLocation.distance(from:)`. */
    const distance: (Location, Location) -> NonNegReal

    /**
     * What every operation keeps: distance and speed are never negative,
     * calories follow the distance, and there is no last location exactly
     * when nothing has been recorded since tracking started.
     */
    ghost predicate Valid()
      reads this
    {
      && stats.currentDistance >= 0.0
      && stats.currentSpeed >= 0.0
      && stats.calories == CalculateCalories(stats.currentDistance)
      && (lastLocation.None? <==> route == [])
    }

    /** `init`: the current permission status, nothing tracked. */
    constructor (status: AuthorizationStatus, distance: (Location, Location) -> NonNegReal)
      ensures Valid()
      ensures authorizationStatus == status && this.distance == distance
      ensures currentLocation.None? && !isTracking && route == [] && stats == ZeroStats
      ensures startTime.None? && lastLocation.None? && !pendingTrackingStart
      ensures !updatingLocation && !timerRunning
    {
      authorizationStatus := status;
      this.distance := distance;
      currentLocation := None;
      isTracking := false;
      route := [];
      stats := ZeroStats;
      startTime := None;
      lastLocation := None;
      pendingTrackingStart := false;
      updatingLocation := false;
      timerRunning := false;
    }

    /**
     * `startTracking`: with permission undetermined the start is deferred;
     * without permission nothing happens; otherwise a fresh session begins
     * at `now`.
     */
    method StartTracking(now: Date)
      requires Valid()
      modifies this
      ensures Valid()
      ensures authorizationStatus == old(authorizationStatus) && currentLocation == old(currentLocation)
      ensures old(authorizationStatus) == NotDetermined ==>
        pendingTrackingStart && isTracking == old(isTracking) && route == old(route) && stats == old(stats)
        && startTime == old(startTime) && lastLocation == old(lastLocation)
        && updatingLocation == old(updatingLocation) && timerRunning == old(timerRunning)
      ensures old(authorizationStatus) != NotDetermined && !IsAuthorized(old(authorizationStatus)) ==>
        pendingTrackingStart == old(pendingTrackingStart) && isTracking == old(isTracking) && route == old(route)
        && stats == old(stats) && startTime == old(startTime) && lastLocation == old(lastLocation)
        && updatingLocation == old(updatingLocation) && timerRunning == old(timerRunning)
      ensures IsAuthorized(old(authorizationStatus)) ==>
        pendingTrackingStart == old(pendingTrackingStart)
        && isTracking && startTime == Some(now) && route == [] && stats == ZeroStats && lastLocation.None?
        && updatingLocation && timerRunning
    {
      if authorizationStatus == NotDetermined {
        pendingTrackingStart := true;
        return;
      }
      if !IsAuthorized(authorizationStatus) {
        return;
      }
      isTracking := true;
      startTime := Some(now);
      route := [];
      stats := ZeroStats;
      lastLocation := None;
      updatingLocation := true;
      timerRunning := true;
    }

    /** `stopTracking`: tracking and the timer stop; the route and figures stay. */
    method StopTracking()
      requires Valid()
      modifies this
      ensures Valid()
      ensures !isTracking && !updatingLocation && !timerRunning
      ensures route == old(route) && stats == old(stats) && startTime == old(startTime)
      ensures lastLocation == old(lastLocation) && pendingTrackingStart == old(pendingTrackingStart)
      ensures authorizationStatus == old(authorizationStatus) && currentLocation == old(currentLocation)
    {
      isTracking := false;
      updatingLocation := false;
      timerRunning := false;
    }

    /** `pauseTracking`: the same effect as stopping. */
    method PauseTracking()
      requires Valid()
      modifies this
      ensures Valid()
      ensures !isTracking && !updatingLocation && !timerRunning
      ensures route == old(route) && stats == old(stats) && startTime == old(startTime)
      ensures lastLocation == old(lastLocation) && pendingTrackingStart == old(pendingTrackingStart)
      ensures authorizationStatus == old(authorizationStatus) && currentLocation == old(currentLocation)
    {
      isTracking := false;
      updatingLocation := false;
      timerRunning := false;
    }

    /**
     * `resumeTracking`: tracking and the timer run again; the start time,
     * route, figures and last location are kept, so the next sample adds the
     * distance from the last sample before the pause.
     */
    method ResumeTracking()
      requires Valid()
      modifies this
      ensures Valid()
      ensures isTracking && updatingLocation && timerRunning
      ensures route == old(route) && stats == old(stats) && startTime == old(startTime)
      ensures lastLocation == old(lastLocation) && pendingTrackingStart == old(pendingTrackingStart)
      ensures authorizationStatus == old(authorizationStatus) && currentLocation == old(currentLocation)
    {
      isTracking := true;
      updatingLocation := true;
      timerRunning := true;
    }

    /** The timer's tick: elapsed time is measured from the start, paused time included. */
    method Tick(now: Date)
      requires Valid() && timerRunning
      modifies this
      ensures Valid()
      ensures startTime.Some? ==> stats == old(stats).(elapsedTime := now - startTime.value)
      ensures startTime.None? ==> stats == old(stats)
      ensures route == old(route) && startTime == old(startTime) && lastLocation == old(lastLocation)
      ensures isTracking == old(isTracking) && timerRunning == old(timerRunning) && updatingLocation == old(updatingLocation)
      ensures pendingTrackingStart == old(pendingTrackingStart)
      ensures authorizationStatus == old(authorizationStatus) && currentLocation == old(currentLocation)
    {
      if startTime.Some? {
        stats := stats.(elapsedTime := now - startTime.value);
      }
    }

    /**
     * `locationManagerDidChangeAuthorization`: the new status is taken; a
     * deferred start is dropped, and carried out when the status allows it.
     */
    method DidChangeAuthorization(status: AuthorizationStatus, now: Date)
      requires Valid()
      modifies this
      ensures Valid()
      ensures authorizationStatus == status && currentLocation == old(currentLocation)
      ensures old(pendingTrackingStart) ==> !pendingTrackingStart
      ensures !old(pendingTrackingStart) ==> pendingTrackingStart == old(pendingTrackingStart)
      ensures old(pendingTrackingStart) && IsAuthorized(status) ==>
        isTracking && startTime == Some(now) && route == [] && stats == ZeroStats && lastLocation.None?
        && updatingLocation && timerRunning
      ensures !(old(pendingTrackingStart) && IsAuthorized(status)) ==>
        isTracking == old(isTracking) && route == old(route) && stats == old(stats)
        && startTime == old(startTime) && lastLocation == old(lastLocation)
        && updatingLocation == old(updatingLocation) && timerRunning == old(timerRunning)
    {
      authorizationStatus := status;
      if pendingTrackingStart {
        pendingTrackingStart := false;
        if IsAuthorized(authorizationStatus) {
          StartTracking(now);
        }
      }
    }

    /**
     * `locationManager(_:didUpdateLocations:)`: the last sample becomes the
     * current location; while tracking it is appended to the route, the
     * distance from the previous sample is added, a valid speed is taken,
     * and pace and calories are derived again. `pointId` is the new route
     * point's id.
     */
    method DidUpdateLocations(locations: seq<Location>, pointId: Uuid)
      requires Valid()
      modifies this
      ensures Valid()
      ensures |locations| == 0 ==>
        currentLocation == old(currentLocation) && route == old(route) && stats == old(stats) && lastLocation == old(lastLocation)
      ensures |locations| > 0 ==> currentLocation == Some(locations[|locations| - 1])
      ensures |locations| > 0 && !old(isTracking) ==>
        route == old(route) && stats == old(stats) && lastLocation == old(lastLocation)
      ensures |locations| > 0 && old(isTracking) ==>
        var location := locations[|locations| - 1];
        var added := if old(lastLocation).Some? then distance(old(lastLocation).value, location) as real else 0.0;
        && route == old(route) + [RoutePointOf(location, pointId)]
        && lastLocation == Some(location)
        && stats.currentDistance == old(stats).currentDistance + added
        && stats.currentSpeed == (if location.speed >= 0.0 then location.speed else old(stats).currentSpeed)
        && stats.currentPace == (if old(stats).elapsedTime > 0.0 then CalculatePace(stats.currentDistance, stats.elapsedTime) else old(stats).currentPace)
        && stats.elapsedTime == old(stats).elapsedTime
      ensures stats.currentDistance >= old(stats).currentDistance
      ensures isTracking == old(isTracking) && startTime == old(startTime) && pendingTrackingStart == old(pendingTrackingStart)
      ensures authorizationStatus == old(authorizationStatus) && timerRunning == old(timerRunning) && updatingLocation == old(updatingLocation)
    {
      if |locations| == 0 {
        return;
      }
      var location := locations[|locations| - 1];
      currentLocation := Some(location);
      if !isTracking {
        return;
      }
      route := route + [RoutePointOf(location, pointId)];
      if lastLocation.Some? {
        var step := distance(lastLocation.value, location);
        stats := stats.(currentDistance := stats.currentDistance + step as real);
      }
      if location.speed >= 0.0 {
        stats := stats.(currentSpeed := location.speed);
      }
      if stats.elapsedTime > 0.0 {
        stats := stats.(currentPace := CalculatePace(stats.currentDistance, stats.elapsedTime));
      }
      stats := stats.(calories := CalculateCalories(stats.currentDistance));
      lastLocation := Some(location);
    }

    /**
     * `getCurrentSession(type:)`: a session of that type holding the route
     * and figures so far; `WorkoutSession(type:)` dates its start at the
     * moment of the call, which is also its end.
     */
    function CurrentSession(workoutType: WorkoutType, id: Uuid, now: Date): (s: WorkoutSession)
      reads this
      ensures s.id == id && s.workoutType == workoutType && s.startDate == now && s.endDate == Some(now)
      ensures s.route == route && s.distance == stats.currentDistance && s.duration == stats.elapsedTime
      ensures s.calories == stats.calories && s.averageSpeed == stats.currentSpeed && s.averagePace == stats.currentPace
    {
      NewWorkoutSession(workoutType, id, now).(route := route, distance := stats.currentDistance,
        duration := stats.elapsedTime, calories := stats.calories, averageSpeed := stats.currentSpeed,
        averagePace := stats.currentPace, endDate := Some(now))
    }
  }

  /** A session taken from a valid manager has non-negative distance, speed and calories. */
  lemma SessionFiguresNonNegative(m: LocationManager, workoutType: WorkoutType, id: Uuid, now: Date)
    requires m.Valid()
    ensures var s := m.CurrentSession(workoutType, id, now);
      s.distance >= 0.0 && s.averageSpeed >= 0.0 && s.calories >= 0.0
  {
  }
}
