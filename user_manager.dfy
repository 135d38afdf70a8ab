/**
 * UserManager.swift: the app-wide holder of the current user's profile and
 * its field-by-field updates. Persistence to UserDefaults is not modelled;
 * the saved profile, if any, is an input of the constructor.
 */
module Users {
  import opened Base
  import opened Tiers
  import opened Profiles

  /** The profile after `updateProfile(nickname:username:bio:)`: each given field replaced, the rest kept. */
  function WithProfileEdits(p: UserProfile, nickname: Option<string>, username: Option<string>, bio: Option<string>): (r: UserProfile)
    ensures r.nickname == (if nickname.Some? then nickname.value else p.nickname)
    ensures r.username == (if username.Some? then username.value else p.username)
    ensures r.bio == (if bio.Some? then bio else p.bio)
    ensures r.id == p.id && r.profileImageURL == p.profileImageURL && r.tier == p.tier
    ensures r.totalDistance == p.totalDistance && r.joinDate == p.joinDate
    ensures r.followerCount == p.followerCount && r.followingCount == p.followingCount && r.postCount == p.postCount
  {
    var p1 := if nickname.Some? then p.(nickname := nickname.value) else p;
    var p2 := if username.Some? then p1.(username := username.value) else p1;
    if bio.Some? then p2.(bio := bio) else p2
  }

  /** With every argument nil, updateProfile changes nothing. */
  lemma NoEditsNoChange(p: UserProfile)
    ensures WithProfileEdits(p, None, None, None) == p
  {
  }

  /** `UserManager`. */
  class UserManager {
    var currentUser: UserProfile

    /** `UserManager.init`: the saved profile, else `UserProfile.mock` (whose id and join date are inputs). */
    constructor (saved: Option<UserProfile>, mockId: Uuid, mockJoinDate: Date)
      ensures saved.Some? ==> currentUser == saved.value
      ensures saved.None? ==> currentUser == MockProfile(mockId, mockJoinDate)
      ensures saved.None? ==>
        currentUser.tier == Tier(Bronze, Four) && currentUser.postCount == 0
        && currentUser.followerCount == 0 && currentUser.followingCount == 0
    {
      if saved.Some? {
        currentUser := saved.value;
      } else {
        currentUser := MockProfile(mockId, mockJoinDate);
      }
    }

    /** `updateProfile`: only the fields given a value change. */
    method UpdateProfile(nickname: Option<string>, username: Option<string>, bio: Option<string>)
      modifies this
      ensures currentUser == WithProfileEdits(old(currentUser), nickname, username, bio)
    {
      if nickname.Some? {
        currentUser := currentUser.(nickname := nickname.value);
      }
      if username.Some? {
        currentUser := currentUser.(username := username.value);
      }
      if bio.Some? {
        currentUser := currentUser.(bio := bio);
      }
    }

    /** `updateTier`: the tier and total distance, nothing else. */
    method UpdateTier(tier: Tier, totalDistance: real)
      modifies this
      ensures currentUser == old(currentUser).(tier := tier, totalDistance := totalDistance)
    {
      currentUser := currentUser.(tier := tier);
      currentUser := currentUser.(totalDistance := totalDistance);
    }

    /** `updatePostCount`: the post count alone. */
    method UpdatePostCount(count: int)
      modifies this
      ensures currentUser == old(currentUser).(postCount := count)
    {
      currentUser := currentUser.(postCount := count);
    }

    /** `updateFollowerCount`: the follower count alone. */
    method UpdateFollowerCount(count: int)
      modifies this
      ensures currentUser == old(currentUser).(followerCount := count)
    {
      currentUser := currentUser.(followerCount := count);
    }

    /** `updateFollowingCount`: the following count alone. */
    method UpdateFollowingCount(count: int)
      modifies this
      ensures currentUser == old(currentUser).(followingCount := count)
    {
      currentUser := currentUser.(followingCount := count);
    }
  }
}
