/**
 * UserProfile.swift: the user's profile, the tier history entries drawn on
 * the growth graph with their numeric level, and follow relations.
 */
module Profiles {
  import opened Base
  import opened Tiers
  import opened TierLaws
  import opened SocialFeed

  /** `UserProfile`. */
  datatype UserProfile = UserProfile(
    id: Uuid,
    nickname: string,
    username: string,
    bio: Option<string>,
    profileImageURL: Option<string>,
    tier: Tier,
    totalDistance: real,
    joinDate: Date,
    followerCount: int,
    followingCount: int,
    postCount: int)

  /** `UserProfile()` with every default: "러너"/"runner", Bronze 4, no distance, zero counts, joined now. */
  function DefaultProfile(id: Uuid, now: Date): (p: UserProfile)
    ensures p.id == id && p.nickname == "러너" && p.username == "runner"
    ensures p.bio.None? && p.profileImageURL.None? && p.joinDate == now
    ensures p.tier == Tier(Bronze, Four) && p.totalDistance == 0.0
    ensures p.followerCount == 0 && p.followingCount == 0 && p.postCount == 0
  {
    UserProfile(id, "러너", "runner", None, None, Tier(Bronze, Four), 0.0, now, 0, 0, 0)
  }

  /** `UserProfile.mock`: "나"/"me", Bronze 4 with zero distance and counts; the join date is an input. */
  function MockProfile(id: Uuid, joinDate: Date): (p: UserProfile)
    ensures p.id == id && p.nickname == "나" && p.username == "me" && p.joinDate == joinDate
    ensures p.bio == Some("매일 달리는 게 목표! 🏃‍♂️") && p.profileImageURL.None?
    ensures p.tier == Tier(Bronze, Four) && p.totalDistance == 0.0
    ensures p.followerCount == 0 && p.followingCount == 0 && p.postCount == 0
  {
    UserProfile(id, "나", "me", Some("매일 달리는 게 목표! 🏃‍♂️"), None, Tier(Bronze, Four), 0.0, joinDate, 0, 0, 0)
  }

  /** `TierHistory`: the tier reached, when, and the lifetime distance at that moment. */
  datatype TierHistory = TierHistory(tier: Tier, achievedAt: Date, totalDistance: real)

  /** `TierHistory.tierLevel`: 4 per grade plus 0 for division 4 up to 3 for division 1. */
  function TierLevel(t: Tier): (level: int)
    ensures 0 <= level <= 31
    ensures level == 4 * GradeIndex(t.grade) + DivisionIndex(t.division)
  {
    var gradeValue := match t.grade
      case Bronze => 0
      case Silver => 4
      case Gold => 8
      case Platinum => 12
      case Diamond => 16
      case RedDiamond => 20
      case Master => 24
      case GrandMaster => 28;
    gradeValue + (4 - DivisionValue(t.division))
  }

  /** Distinct tiers get distinct levels. */
  lemma TierLevelInjective(a: Tier, b: Tier)
    ensures TierLevel(a) == TierLevel(b) <==> a == b
  {
    if TierLevel(a) == TierLevel(b) {
      assert GradeIndex(a.grade) == GradeIndex(b.grade);
      assert a.grade == b.grade by {
        assert AllGrades[GradeIndex(a.grade)] == a.grade;
        assert AllGrades[GradeIndex(b.grade)] == b.grade;
      }
      assert DivisionValue(a.division) == DivisionValue(b.division);
    }
  }

  /** The lowest and highest levels. */
  lemma TierLevelExtremes()
    ensures TierLevel(Tier(Bronze, Four)) == 0 && TierLevel(Tier(GrandMaster, One)) == 31
  {
  }

  /** The level follows the calculator's order of tiers, in both directions. */
  lemma TierLevelOrder(a: Tier, b: Tier)
    ensures AtMost(a, b) <==> TierLevel(a) <= TierLevel(b)
  {
    if TierLevel(a) <= TierLevel(b) && !AtMost(a, b) {
      AtMostTotal(a, b);
      TierLevelInjective(a, b);
    }
  }

  /** The next tier calculateProgress reports is one level up. */
  lemma NextTierIsOneLevelUp(meters: real)
    ensures var p := ProgressFor(meters);
      p.nextTier.Some? ==> TierLevel(p.nextTier.value) == TierLevel(p.currentTier) + 1
  {
    NextTierRules(meters);
  }

  /** A larger distance never has a lower level (for non-negative distances). */
  lemma TierLevelMonotone(d1: real, d2: real)
    requires 0.0 <= d1 <= d2
    ensures TierLevel(TierFor(d1)) <= TierLevel(TierFor(d2))
  {
    TierMonotone(d1, d2);
    TierLevelOrder(TierFor(d1), TierFor(d2));
  }

  /** `TierHistory.mockHistory`; the six calendar dates are inputs. */
  function MockHistory(dates: seq<Date>): (h: seq<TierHistory>)
    requires |dates| == 6
    ensures |h| == 6
    ensures forall i :: 0 <= i < 6 ==> h[i].achievedAt == dates[i]
  {
    [
      TierHistory(Tier(Bronze, Four), dates[0], 0.0),
      TierHistory(Tier(Bronze, One), dates[1], 40000.0),
      TierHistory(Tier(Silver, Three), dates[2], 75000.0),
      TierHistory(Tier(Silver, One), dates[3], 130000.0),
      TierHistory(Tier(Gold, Three), dates[4], 200000.0),
      TierHistory(Tier(Gold, Two), dates[5], 285000.0)
    ]
  }

  /** The mock history agrees with the calculator and climbs strictly. */
  lemma MockHistoryConsistent(dates: seq<Date>)
    requires |dates| == 6
    ensures var h := MockHistory(dates);
      && (forall i :: 0 <= i < |h| ==> h[i].tier == TierFor(h[i].totalDistance))
      && (forall i :: 0 < i < |h| ==> TierLevel(h[i - 1].tier) < TierLevel(h[i].tier))
  {
    TierInRow(0.0, 0);
    TierInRow(40000.0, 0);
    TierInRow(75000.0, 1);
    TierInRow(130000.0, 1);
    TierInRow(200000.0, 2);
    TierInRow(285000.0, 2);
  }

  /** `Follow`. */
  datatype Follow = Follow(id: Uuid, user: FeedUser, followedAt: Date, isFollowing: bool)

  /** `Follow.mockFollowers`; ids and "now" are inputs. */
  function MockFollowers(ids: seq<Uuid>, now: Date): (f: seq<Follow>)
    requires |ids| == 6
    ensures |f| == 3 && forall i :: 0 <= i < |f| ==> f[i].isFollowing && f[i].id == ids[i]
  {
    [
      Follow(ids[0], FeedUser(ids[3], "러너박영희", None, Tier(Platinum, One)), now, true),
      Follow(ids[1], FeedUser(ids[4], "마라토너이민수", None, Tier(Diamond, Three)), now, true),
      Follow(ids[2], FeedUser(ids[5], "걷기왕최수진", None, Tier(Silver, One)), now, true)
    ]
  }

  /** `Follow.mockFollowing`; ids and "now" are inputs. */
  function MockFollowing(ids: seq<Uuid>, now: Date): (f: seq<Follow>)
    requires |ids| == 4
    ensures |f| == 2 && forall i :: 0 <= i < |f| ==> f[i].isFollowing && f[i].id == ids[i]
  {
    [
      Follow(ids[0], FeedUser(ids[2], "싸이클박영희", None, Tier(Platinum, One)), now, true),
      Follow(ids[1], FeedUser(ids[3], "마라토너이민수", None, Tier(Diamond, Three)), now, true)
    ]
  }
}
