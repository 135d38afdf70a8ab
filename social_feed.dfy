/**
 * SocialFeed.swift: the home screen's feed items, their users and workouts.
 */
module SocialFeed {
  import opened Base
  import opened SwiftNum
  import opened TimeFormat
  import opened Tiers

  /** `FeedUser`. */
  datatype FeedUser = FeedUser(id: Uuid, nickname: string, profileImageURL: Option<string>, tier: Tier)

  /** `FeedUser(nickname:)`: no image, Bronze 4. */
  function NewFeedUser(id: Uuid, nickname: string): (u: FeedUser)
    ensures u.id == id && u.nickname == nickname && u.profileImageURL.None? && u.tier == Tier(Bronze, Four)
  {
    FeedUser(id, nickname, None, Tier(Bronze, Four))
  }

  /** `FeedWorkout`: distance in metres, duration in seconds. */
  datatype FeedWorkout = FeedWorkout(workoutType: string, distance: real, duration: real, calories: real)

  /** `FeedItem`. */
  datatype FeedItem = FeedItem(
    id: Uuid,
    user: FeedUser,
    workout: FeedWorkout,
    content: Option<string>,
    createdAt: Date,
    likeCount: int,
    commentCount: int,
    isLiked: bool)

  /** `FeedItem(user:workout:)`: no content, zero counts, not liked, created now. */
  function NewFeedItem(id: Uuid, user: FeedUser, workout: FeedWorkout, now: Date): (item: FeedItem)
    ensures item.id == id && item.user == user && item.workout == workout && item.createdAt == now
    ensures item.content.None? && item.likeCount == 0 && item.commentCount == 0 && !item.isLiked
  {
    FeedItem(id, user, workout, None, now, 0, 0, false)
  }

  /** `FeedWorkout.durationFormatted`: "H시간 M분" from an hour on, else "M분". */
  function FeedDurationLabel(w: FeedWorkout): (l: HourMinuteLabel)
    ensures l.HoursMinutes? <==> Trunc(w.duration) >= 3600
    ensures w.duration >= 0.0 ==> 0 <= l.minutes < 60 && 0 <= Trunc(w.duration) - HourMinuteSeconds(l) < 60
  {
    HourMinuteLabelOf(w.duration)
  }

  /** `Character.lowercased()` on the ASCII letters. */
  function LowerChar(c: char): (d: char)
    ensures 'A' <= c <= 'Z' ==> d as int == c as int + 32
    ensures !('A' <= c <= 'Z') ==> d == c
    ensures !('A' <= d <= 'Z')
  {
    if 'A' <= c <= 'Z' then (c as int + 32) as char else c
  }

  /** `String.lowercased()` on the ASCII letters. */
  function Lower(s: string): (t: string)
    ensures |t| == |s|
    ensures forall i :: 0 <= i < |s| ==> t[i] == LowerChar(s[i])
  {
    if |s| == 0 then [] else Lower(s[..|s| - 1]) + [LowerChar(s[|s| - 1])]
  }

  /** Lower-casing twice is lower-casing once. */
  lemma LowerIdempotent(s: string)
    ensures Lower(Lower(s)) == Lower(s)
  {
  }

  /** The type names the feed recognises, in lower case. */
  const RunningNames: set<string> := {"running", "러닝", "달리기"}
  const CyclingNames: set<string> := {"cycling", "사이클링", "자전거"}
  const WalkingNames: set<string> := {"walking", "걷기"}

  /** `FeedWorkout.icon`: the symbol of the lower-cased type, figure.mixed.cardio when unrecognised. */
  function FeedWorkoutIcon(w: FeedWorkout): (icon: string)
    ensures Lower(w.workoutType) in RunningNames <==> icon == "figure.run"
    ensures Lower(w.workoutType) in CyclingNames <==> icon == "figure.outdoor.cycle"
    ensures Lower(w.workoutType) in WalkingNames <==> icon == "figure.walk"
    ensures icon == "figure.mixed.cardio" <==> Lower(w.workoutType) !in RunningNames + CyclingNames + WalkingNames
  {
    var t := Lower(w.workoutType);
    if t in RunningNames then "figure.run"
    else if t in CyclingNames then "figure.outdoor.cycle"
    else if t in WalkingNames then "figure.walk"
    else "figure.mixed.cardio"
  }

  /** The icon ignores ASCII case: "Running" and "running" show the same symbol. */
  lemma {:induction false} FeedIconIgnoresCase(w: FeedWorkout, other: string)
    requires Lower(other) == Lower(w.workoutType)
    ensures FeedWorkoutIcon(w.(workoutType := other)) == FeedWorkoutIcon(w)
  {
  }

  /**
   * `FeedItem.mockItems`, the feed the home screen shows: ids and
   * creation times (now minus 5 minutes, 1, 2 and 4 hours) are inputs.
   */
  function MockFeedItems(ids: seq<Uuid>, now: Date): (items: seq<FeedItem>)
    requires |ids| == 8
    ensures |items| == 4
    ensures forall i :: 0 <= i < |items| ==> items[i].id == ids[i] && !items[i].isLiked && items[i].likeCount >= 0
    ensures forall i, j :: 0 <= i < j < |items| ==> items[j].createdAt < items[i].createdAt
  {
    [
      FeedItem(ids[0], FeedUser(ids[4], "러너김철수", None, Tier(Gold, Two)),
        FeedWorkout("러닝", 10230.0, 3600.0, 650.0), Some("오늘 10km 완주! 🔥 날씨가 좋아서 기분 최고"), now - 300.0, 12, 3, false),
      FeedItem(ids[1], FeedUser(ids[5], "싸이클박영희", None, Tier(Platinum, One)),
        FeedWorkout("사이클링", 35000.0, 5400.0, 890.0), Some("한강 라이딩 완료 🚴 반포대교에서 잠실까지!"), now - 3600.0, 8, 1, false),
      FeedItem(ids[2], FeedUser(ids[6], "마라토너이민수", None, Tier(Diamond, Three)),
        FeedWorkout("러닝", 21097.0, 6900.0, 1350.0), Some("하프 마라톤 훈련 완료 💪"), now - 7200.0, 24, 7, false),
      FeedItem(ids[3], FeedUser(ids[7], "걷기왕최수진", None, Tier(Silver, One)),
        FeedWorkout("걷기", 8500.0, 5400.0, 320.0), None, now - 14400.0, 5, 0, false)
    ]
  }
}
