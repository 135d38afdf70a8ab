/**
 * ProfileViewModel.swift: the profile screen's state. The view model talks
 * to the repositories through their protocols; what they answer (the
 * workouts, the posts, whether a call failed) is an input here, and the
 * updatePost calls it makes are returned.
 */
module ProfileScreen {
  import opened Base
  import opened Tiers
  import opened Workouts
  import opened Posts
  import opened Profiles
  import opened TierHistories
  import opened Users
  import opened PostStore
  import opened LikeToggles
  import Seqs

  const LoadFailurePrefix: string := "데이터 로드 실패: "
  const UpdateFailurePrefix: string := "프로필 업데이트 실패: "

  /** `isMyPost`: written under the user's nickname or username, or under the placeholder "나"/"me". */
  predicate IsMyPost(post: Post, user: UserProfile) {
    post.authorNickname == user.nickname || post.authorUsername == user.username
    || post.authorNickname == "나" || post.authorUsername == "me"
  }

  /**
   * `isMyPost` reads only the author's names: a placeholder post is every
   * user's, a post that is not the user's carries neither of their names,
   * and two users with the same nickname and username claim the same posts.
   */
  lemma IsMyPostByNames(post: Post, a: UserProfile, b: UserProfile)
    ensures post.authorNickname == "나" || post.authorUsername == "me" ==> IsMyPost(post, a)
    ensures !IsMyPost(post, a) ==> post.authorNickname != a.nickname && post.authorUsername != a.username
    ensures a.nickname == b.nickname && a.username == b.username ==> (IsMyPost(post, a) <==> IsMyPost(post, b))
  {
  }

  /** A post shown with the author's current nickname, username and tier. */
  function Restamped(post: Post, user: UserProfile, tier: Tier): (r: Post)
    ensures IsMyPost(r, user) && ToTier(r.authorTier) == tier
    ensures r.(authorNickname := post.authorNickname, authorUsername := post.authorUsername, authorTier := post.authorTier) == post
  {
    TierDataRoundTrip(tier);
    post.(authorNickname := user.nickname, authorUsername := user.username, authorTier := TierDataOf(tier))
  }

  /** The `myPosts` loadData builds: the user's posts, in order, restamped. */
  function MyPostsOf(all: seq<Post>, user: UserProfile, tier: Tier): (r: seq<Post>)
    ensures |r| <= |all|
    ensures forall i :: 0 <= i < |r| ==> IsMyPost(r[i], user) && ToTier(r[i].authorTier) == tier
  {
    if |all| == 0 then []
    else
      var last := all[|all| - 1];
      MyPostsOf(all[..|all| - 1], user, tier) + (if IsMyPost(last, user) then [Restamped(last, user, tier)] else [])
  }

  /** The user's posts are taken in the order they come: the selection distributes over concatenation. */
  lemma {:induction false} MyPostsOfAppend(a: seq<Post>, b: seq<Post>, user: UserProfile, tier: Tier)
    ensures MyPostsOf(a + b, user, tier) == MyPostsOf(a, user, tier) + MyPostsOf(b, user, tier)
    decreases |b|
  {
    if |b| == 0 {
      assert a + b == a;
    } else {
      var init := b[..|b| - 1];
      assert (a + b)[..|a + b| - 1] == a + init;
      MyPostsOfAppend(a, init, user, tier);
    }
  }

  /** Every post of the user appears, restamped, among myPosts. */
  lemma {:induction false} MyPostsComplete(all: seq<Post>, user: UserProfile, tier: Tier, i: nat)
    requires i < |all| && IsMyPost(all[i], user)
    ensures Restamped(all[i], user, tier) in MyPostsOf(all, user, tier)
  {
    var init := all[..|all| - 1];
    if i < |all| - 1 {
      MyPostsComplete(init, user, tier, i);
    }
  }

  /** The `likedPosts` loadData builds: the liked posts, in order, the user's own restamped. */
  function LikedPostsOf(all: seq<Post>, user: UserProfile, tier: Tier): (r: seq<Post>)
    ensures |r| <= |all|
    ensures forall i :: 0 <= i < |r| ==> r[i].isLiked
  {
    if |all| == 0 then []
    else
      var last := all[|all| - 1];
      var shown := if IsMyPost(last, user) then Restamped(last, user, tier) else last;
      LikedPostsOf(all[..|all| - 1], user, tier) + (if last.isLiked then [shown] else [])
  }

  /** Every liked post appears among likedPosts, restamped when it is the user's and as it is otherwise. */
  lemma {:induction false} LikedPostsComplete(all: seq<Post>, user: UserProfile, tier: Tier, i: nat)
    requires i < |all| && all[i].isLiked
    ensures IsMyPost(all[i], user) ==> Restamped(all[i], user, tier) in LikedPostsOf(all, user, tier)
    ensures !IsMyPost(all[i], user) ==> all[i] in LikedPostsOf(all, user, tier)
  {
    var init := all[..|all| - 1];
    if i < |all| - 1 {
      LikedPostsComplete(init, user, tier, i);
    }
  }

  /** The posts updateProfile sends back with the new names: those `isMyPost` accepts for `me`. */
  function PostsToRename(all: seq<Post>, me: UserProfile, nickname: string, username: string): (r: seq<Post>)
    ensures |r| <= |all|
    ensures forall i :: 0 <= i < |r| ==> r[i].authorNickname == nickname && r[i].authorUsername == username
  {
    if |all| == 0 then []
    else
      var last := all[|all| - 1];
      PostsToRename(all[..|all| - 1], me, nickname, username)
        + (if IsMyPost(last, me) then [last.(authorNickname := nickname, authorUsername := username)] else [])
  }

  /**
   * Every post written under the identity `me` is renamed, and the renamed
   * post is recognised as the renamed user's own.
   */
  lemma {:induction false} RenameCoversOwnPosts(all: seq<Post>, me: UserProfile, nickname: string, username: string, bio: Option<string>, i: nat)
    requires i < |all| && IsMyPost(all[i], me)
    ensures all[i].(authorNickname := nickname, authorUsername := username) in PostsToRename(all, me, nickname, username)
    ensures IsMyPost(all[i].(authorNickname := nickname, authorUsername := username), WithProfileEdits(me, Some(nickname), Some(username), bio))
  {
    if i < |all| - 1 {
      RenameCoversOwnPosts(all[..|all| - 1], me, nickname, username, bio, i);
    }
  }

  /** The renamed posts are taken in the order they come: the selection distributes over concatenation. */
  lemma {:induction false} PostsToRenameAppend(a: seq<Post>, b: seq<Post>, me: UserProfile, nickname: string, username: string)
    ensures PostsToRename(a + b, me, nickname, username) == PostsToRename(a, me, nickname, username) + PostsToRename(b, me, nickname, username)
    decreases |b|
  {
    if |b| == 0 {
      assert a + b == a;
    } else {
      var init := b[..|b| - 1];
      assert (a + b)[..|a + b| - 1] == a + init;
      PostsToRenameAppend(a, init, me, nickname, username);
    }
  }

  /** The selection looks at the user's nickname and username only. */
  lemma {:induction false} PostsToRenameByNames(all: seq<Post>, me: UserProfile, other: UserProfile, nickname: string, username: string)
    requires me.nickname == other.nickname && me.username == other.username
    ensures PostsToRename(all, me, nickname, username) == PostsToRename(all, other, nickname, username)
  {
    if |all| > 0 {
      PostsToRenameByNames(all[..|all| - 1], me, other, nickname, username);
    }
  }

  /**
   * updateProfile as written: `isMyPost` runs after the profile change, so
   * against the new names; a post is sent back when it already carries the
   * new nickname or username, or the placeholder author.
   */
  function PostsToRenameAsWritten(all: seq<Post>, before: UserProfile, nickname: string, username: string, bio: Option<string>): (r: seq<Post>)
    ensures |r| <= |all|
    ensures forall i :: 0 <= i < |r| ==> r[i].authorNickname == nickname && r[i].authorUsername == username
  {
    PostsToRename(all, WithProfileEdits(before, Some(nickname), Some(username), bio), nickname, username)
  }

  /** As written, the names held before the change play no part in which posts are sent back. */
  lemma RenameAsWrittenIgnoresPreviousNames(all: seq<Post>, before: UserProfile, other: UserProfile,
                                            nickname: string, username: string, bio: Option<string>, otherBio: Option<string>)
    ensures PostsToRenameAsWritten(all, before, nickname, username, bio) == PostsToRenameAsWritten(all, other, nickname, username, otherBio)
  {
    PostsToRenameByNames(all, WithProfileEdits(before, Some(nickname), Some(username), bio),
                         WithProfileEdits(other, Some(nickname), Some(username), otherBio), nickname, username);
  }

  /**
   * As written, a post under names other than the new ones and the
   * placeholder is left out: the posts sent back are those sent back for
   * the list without it.
   */
  lemma RenameAsWrittenSkips(all: seq<Post>, before: UserProfile, nickname: string, username: string, bio: Option<string>, i: nat)
    requires i < |all|
    requires all[i].authorNickname != nickname && all[i].authorUsername != username
    requires all[i].authorNickname != "나" && all[i].authorUsername != "me"
    ensures PostsToRenameAsWritten(all, before, nickname, username, bio)
         == PostsToRenameAsWritten(all[..i] + all[i + 1..], before, nickname, username, bio)
  {
    var me := WithProfileEdits(before, Some(nickname), Some(username), bio);
    assert all == (all[..i] + [all[i]]) + all[i + 1..];
    PostsToRenameAppend(all[..i] + [all[i]], all[i + 1..], me, nickname, username);
    PostsToRenameAppend(all[..i], [all[i]], me, nickname, username);
    PostsToRenameAppend(all[..i], all[i + 1..], me, nickname, username);
    assert [all[i]][..0] == [];
  }

  /** As written, a post under either new name or the placeholder author is sent back, renamed. */
  lemma RenameAsWrittenSelects(all: seq<Post>, before: UserProfile, nickname: string, username: string, bio: Option<string>, i: nat)
    requires i < |all|
    requires all[i].authorNickname == nickname || all[i].authorUsername == username
          || all[i].authorNickname == "나" || all[i].authorUsername == "me"
    ensures all[i].(authorNickname := nickname, authorUsername := username) in PostsToRenameAsWritten(all, before, nickname, username, bio)
  {
    RenameCoversOwnPosts(all, WithProfileEdits(before, Some(nickname), Some(username), bio), nickname, username, bio, i);
  }

  /**
   * A post written under the previous, non-placeholder names is not renamed
   * as written, although it is the user's own.
   */
  lemma RenameMissesPreviousNames(post: Post, before: UserProfile, nickname: string, username: string, bio: Option<string>)
    requires post.authorNickname == before.nickname && post.authorUsername == before.username
    requires before.nickname != nickname && before.username != username
    requires before.nickname != "나" && before.username != "me"
    ensures PostsToRenameAsWritten([post], before, nickname, username, bio) == []
    ensures PostsToRename([post], before, nickname, username) == [post.(authorNickname := nickname, authorUsername := username)]
  {
    assert [post][..0] == [];
  }

  /**
   * The `likedPosts` half of togglePostLike as written: a successful unlike
   * removes the entry, but after a failed unlike the argument is inserted
   * again at the index while the toggled entry is still there, and the
   * rollback then lands on the inserted copy. Every other case ends as the
   * corrected toggle does.
   */
  function ToggleLikedListAsWritten(liked: seq<Post>, post: Post, succeeded: bool): (r: seq<Post>)
    ensures IndexOfPost(liked, post.id).None? ==> r == liked
    ensures IndexOfPost(liked, post.id).Some? ==>
      var i := IndexOfPost(liked, post.id).value;
      && (succeeded && liked[i].isLiked ==> r == liked[..i] + liked[i + 1..])
      && (succeeded && !liked[i].isLiked ==> r == liked[i := ToggledPost(liked[i])])
      && (!succeeded && !liked[i].isLiked ==> r == liked)
      && (!succeeded && liked[i].isLiked ==>
            |r| == |liked| + 1 && r == liked[..i] + [RolledBack(post, true), ToggledPost(liked[i])] + liked[i + 1..])
  {
    var index := IndexOfPost(liked, post.id);
    if index.None? then liked
    else
      var i := index.value;
      var wasLiked := liked[i].isLiked;
      var toggled := liked[i := ToggledPost(liked[i])];
      if succeeded then
        if wasLiked then toggled[..i] + toggled[i + 1..] else toggled
      else
        var restored := if wasLiked then toggled[..i] + [post] + toggled[i..] else toggled;
        var rollbackIndex := IndexOfPost(restored, post.id);
        assert rollbackIndex == Some(i) by {
          assert forall j :: 0 <= j < i ==> restored[j] == liked[j];
          assert restored[i].id == post.id;
        }
        RollbackRestores(liked[i]);
        var j := rollbackIndex.value;
        restored[j := RolledBack(restored[j], wasLiked)]
  }

  /** The source and the corrected toggle disagree exactly on a failed unlike of a listed post. */
  lemma ToggleLikedDiffersOnFailedUnlike(liked: seq<Post>, post: Post, succeeded: bool)
    ensures var index := IndexOfPost(liked, post.id);
      var failedUnlike := index.Some? && !succeeded && liked[index.value].isLiked;
      (ToggleLikedListAsWritten(liked, post, succeeded) == ToggleLikedList(liked, post.id, succeeded)) <==> !failedUnlike
  {
    var index := IndexOfPost(liked, post.id);
    if index.Some? && !succeeded && liked[index.value].isLiked {
      assert |ToggleLikedListAsWritten(liked, post, succeeded)| != |ToggleLikedList(liked, post.id, succeeded)|;
    }
  }

  /** A failed unlike of a liked post leaves two entries for it, the copy counted once too many. */
  lemma FailedUnlikeDuplicates(p: Post)
    requires p.isLiked
    ensures var r := ToggleLikedListAsWritten([p], p, false);
      |r| == 2 && r[0].id == p.id && r[1].id == p.id
      && r[0].likeCount == p.likeCount + 1 && r[1] == ToggledPost(p)
  {
    var toggled := [ToggledPost(p)];
    var restored := toggled[..0] + [p] + toggled[0..];
    assert restored == [p, ToggledPost(p)];
    assert IndexOfPost(restored, p.id) == Some(0);
  }

  /**
   * The `likedPosts` half of togglePostLike as intended: a successful unlike
   * removes the entry, a successful like toggles it, and a failed call
   * rolls the toggled entry back; nothing is inserted.
   */
  function ToggleLikedList(liked: seq<Post>, postId: Uuid, succeeded: bool): (r: seq<Post>)
    ensures !succeeded ==> r == liked
    ensures IndexOfPost(liked, postId).None? ==> r == liked
    ensures succeeded && IndexOfPost(liked, postId).Some? ==>
      var i := IndexOfPost(liked, postId).value;
      if liked[i].isLiked then r == liked[..i] + liked[i + 1..] else r == liked[i := ToggledPost(liked[i])]
  {
    var index := IndexOfPost(liked, postId);
    if index.None? then liked
    else
      var i := index.value;
      var wasLiked := liked[i].isLiked;
      var toggled := liked[i := ToggledPost(liked[i])];
      if succeeded then
        if wasLiked then toggled[..i] + toggled[i + 1..] else toggled
      else
        var rollbackIndex := IndexOfPost(toggled, postId);
        assert rollbackIndex == Some(i) by {
          assert forall j :: 0 <= j < i ==> toggled[j] == liked[j];
          assert toggled[i].id == postId;
        }
        RollbackRestores(liked[i]);
        toggled[i := RolledBack(toggled[i], wasLiked)]
  }

  /** `ProfileViewModel`. */
  class ProfileViewModel {
    var profile: UserProfile
    var tierHistory: seq<TierHistory>
    var myPosts: seq<Post>
    var likedPosts: seq<Post>
    var followers: seq<Follow>
    var following: seq<Follow>
    var isLoading: bool
    var errorMessage: Option<string>
    const userManager: UserManager

    /** `init`: the profile starts as the manager's current user; the first load is a separate call. */
    constructor (userManager: UserManager)
      ensures this.userManager == userManager && profile == userManager.currentUser
      ensures tierHistory == [] && myPosts == [] && likedPosts == [] && followers == [] && following == []
      ensures !isLoading && errorMessage.None?
    {
      this.userManager := userManager;
      profile := userManager.currentUser;
      tierHistory := [];
      myPosts := [];
      likedPosts := [];
      followers := [];
      following := [];
      isLoading := false;
      errorMessage := None;
    }

    /**
     * The state `loadData` leaves when it starts with `user` in the manager
     * and `shown` on the screen: a failed workout fetch keeps everything but
     * the message; otherwise the tier of the summed distance goes to the
     * manager and the profile and the history is rebuilt, ending at that
     * tier; a failed post fetch then stops with the message, and otherwise
     * myPosts, likedPosts, the post count and the mock follow lists follow.
     */
    twostate predicate LoadedFrom(user: UserProfile, shown: UserProfile, exercises: Option<seq<Exercise>>, allPosts: Option<seq<Post>>,
                                  failure: string, now: Date, followerIds: seq<Uuid>, followingIds: seq<Uuid>)
      requires |followerIds| == 6 && |followingIds| == 4
      reads this, userManager
    {
      && !isLoading
      && (exercises.None? ==>
        && errorMessage == Some(LoadFailurePrefix + failure)
        && userManager.currentUser == user
        && profile == shown && tierHistory == old(tierHistory)
        && myPosts == old(myPosts) && likedPosts == old(likedPosts)
        && followers == old(followers) && following == old(following))
      && (exercises.Some? ==>
        var total := TotalDistance(exercises.value);
        var tier := TierFor(total);
        var updated := user.(tier := tier, totalDistance := total);
        && tierHistory == HistoryFor(exercises.value, now)
        && (|exercises.value| > 0 ==> LastTier(tierHistory) == Some(tier))
        && (allPosts.None? ==>
          && errorMessage == Some(LoadFailurePrefix + failure)
          && userManager.currentUser == updated && profile == updated
          && myPosts == old(myPosts) && likedPosts == old(likedPosts)
          && followers == old(followers) && following == old(following))
        && (allPosts.Some? ==>
          && errorMessage.None?
          && myPosts == MyPostsOf(allPosts.value, updated, tier)
          && likedPosts == LikedPostsOf(allPosts.value, updated, tier)
          && userManager.currentUser == updated.(postCount := |myPosts|) && profile == userManager.currentUser
          && followers == MockFollowers(followerIds, now) && following == MockFollowing(followingIds, now)))
    }

    /** `loadData`: see LoadedFrom. */
    method LoadData(exercises: Option<seq<Exercise>>, allPosts: Option<seq<Post>>, failure: string,
                    now: Date, followerIds: seq<Uuid>, followingIds: seq<Uuid>)
      requires |followerIds| == 6 && |followingIds| == 4
      modifies this, userManager
      ensures LoadedFrom(old(userManager.currentUser), old(profile), exercises, allPosts, failure, now, followerIds, followingIds)
    {
      isLoading := true;
      errorMessage := None;
      if exercises.None? {
        errorMessage := Some(LoadFailurePrefix + failure);
        isLoading := false;
        return;
      }
      var tier := ApplyWorkouts(exercises.value, now);
      if allPosts.None? {
        errorMessage := Some(LoadFailurePrefix + failure);
        isLoading := false;
        return;
      }
      ApplyFetchedPosts(allPosts.value, tier, now, followerIds, followingIds);
      isLoading := false;
    }

    /**
     * The step of `loadData` after the workouts arrive: the tier of their
     * summed distance goes to the manager and the profile, and the history
     * is rebuilt, ending at that tier; the post lists, the follow lists, the
     * loading flag and the message are left as they were.
     */
    method ApplyWorkouts(workouts: seq<Exercise>, now: Date) returns (tier: Tier)
      modifies this, userManager
      ensures tier == TierFor(TotalDistance(workouts))
      ensures userManager.currentUser == old(userManager.currentUser).(tier := tier, totalDistance := TotalDistance(workouts))
      ensures profile == userManager.currentUser
      ensures tierHistory == HistoryFor(workouts, now)
      ensures |workouts| > 0 ==> LastTier(tierHistory) == Some(tier)
      ensures myPosts == old(myPosts) && likedPosts == old(likedPosts)
      ensures followers == old(followers) && following == old(following)
      ensures isLoading == old(isLoading) && errorMessage == old(errorMessage)
    {
      var totalDistance := TotalDistance(workouts);
      tier := CalculateTier(totalDistance);
      userManager.UpdateTier(tier, totalDistance);
      profile := userManager.currentUser;
      tierHistory := GenerateTierHistory(workouts, now);
      if |workouts| > 0 {
        HistoryEndsAtCurrentTier(workouts, now);
      }
    }

    /**
     * The step of `loadData` after the posts arrive: myPosts and likedPosts
     * are derived for the manager's current user, the post count follows
     * myPosts, and the mock follow lists are set; the history, the loading
     * flag and the message are left as they were.
     */
    method ApplyFetchedPosts(allPosts: seq<Post>, tier: Tier, now: Date, followerIds: seq<Uuid>, followingIds: seq<Uuid>)
      requires |followerIds| == 6 && |followingIds| == 4
      modifies this, userManager
      ensures var user := old(userManager.currentUser);
        && myPosts == MyPostsOf(allPosts, user, tier)
        && likedPosts == LikedPostsOf(allPosts, user, tier)
        && userManager.currentUser == user.(postCount := |myPosts|) && profile == userManager.currentUser
        && followers == MockFollowers(followerIds, now) && following == MockFollowing(followingIds, now)
      ensures tierHistory == old(tierHistory) && isLoading == old(isLoading) && errorMessage == old(errorMessage)
    {
      var user := userManager.currentUser;
      myPosts := MyPostsOf(allPosts, user, tier);
      userManager.UpdatePostCount(|myPosts|);
      profile := userManager.currentUser;
      likedPosts := LikedPostsOf(allPosts, user, tier);
      followers := MockFollowers(followerIds, now);
      following := MockFollowing(followingIds, now);
    }

    /**
     * `updateProfile`: the manager takes the new nickname and username (and
     * the bio when one is given); the posts `isMyPost` accepts, asked after
     * the change and so against the new names, are sent back under the new
     * names, in order, and the screen reloads. A failed fetch shows a
     * message and changes nothing else.
     */
    method UpdateProfile(nickname: string, username: string, bio: Option<string>,
                         fetched: Option<seq<Post>>, failure: string,
                         exercises: Option<seq<Exercise>>, allPosts: Option<seq<Post>>,
                         now: Date, followerIds: seq<Uuid>, followingIds: seq<Uuid>)
      returns (updates: seq<Post>)
      requires |followerIds| == 6 && |followingIds| == 4
      modifies this, userManager
      ensures var edited := WithProfileEdits(old(userManager.currentUser), Some(nickname), Some(username), bio);
        && (fetched.None? ==>
          && updates == []
          && userManager.currentUser == edited && profile == edited
          && errorMessage == Some(UpdateFailurePrefix + failure) && isLoading == old(isLoading)
          && tierHistory == old(tierHistory) && myPosts == old(myPosts) && likedPosts == old(likedPosts)
          && followers == old(followers) && following == old(following))
        && (fetched.Some? ==>
          && updates == PostsToRenameAsWritten(fetched.value, old(userManager.currentUser), nickname, username, bio)
          && LoadedFrom(edited, edited, exercises, allPosts, failure, now, followerIds, followingIds))
    {
      userManager.UpdateProfile(Some(nickname), Some(username), bio);
      profile := userManager.currentUser;
      if fetched.None? {
        errorMessage := Some(UpdateFailurePrefix + failure);
        return [];
      }
      var posts := fetched.value;
      updates := [];
      for k := 0 to |posts|
        invariant updates == PostsToRename(posts[..k], userManager.currentUser, nickname, username)
      {
        assert posts[..k + 1][..k] == posts[..k];
        var post := posts[k];
        if IsMyPost(post, userManager.currentUser) {
          updates := updates + [post.(authorNickname := nickname, authorUsername := username)];
        }
      }
      assert posts[..|posts|] == posts;
      LoadData(exercises, allPosts, failure, now, followerIds, followingIds);
    }

    /**
     * `togglePostLike`: the post is toggled in myPosts and in likedPosts,
     * each with its own repository call; `mineSucceeded` and
     * `likedSucceeded` say how those calls ended. likedPosts follows the
     * source, re-insert after a failed unlike included.
     */
    method TogglePostLike(post: Post, mineSucceeded: bool, likedSucceeded: bool)
      modifies this
      ensures myPosts == ToggleInList(old(myPosts), post.id, mineSucceeded)
      ensures likedPosts == ToggleLikedListAsWritten(old(likedPosts), post, likedSucceeded)
      ensures profile == old(profile) && tierHistory == old(tierHistory)
      ensures followers == old(followers) && following == old(following)
      ensures isLoading == old(isLoading) && errorMessage == old(errorMessage)
    {
      myPosts := ToggleInList(myPosts, post.id, mineSucceeded);
      likedPosts := ToggleLikedListAsWritten(likedPosts, post, likedSucceeded);
    }

    /**
     * `toggleFollow`: the first matching entry of `following` flips, and the
     * manager's following count becomes the screen's count one lower or
     * higher; the screen then takes the manager's profile.
     */
    method ToggleFollow(follow: Follow)
      modifies this, userManager
      ensures var index := FirstFollow(old(following), follow.id);
        && (index.None? ==> following == old(following) && profile == old(profile)
                            && userManager.currentUser == old(userManager.currentUser))
        && (index.Some? ==>
          var i := index.value;
          var nowFollowing := !old(following)[i].isFollowing;
          && following == old(following)[i := old(following)[i].(isFollowing := nowFollowing)]
          && userManager.currentUser == old(userManager.currentUser).(followingCount := old(profile).followingCount + (if nowFollowing then 1 else -1))
          && profile == userManager.currentUser)
      ensures myPosts == old(myPosts) && likedPosts == old(likedPosts)
      ensures tierHistory == old(tierHistory) && followers == old(followers)
      ensures isLoading == old(isLoading) && errorMessage == old(errorMessage)
    {
      var index := FirstFollow(following, follow.id);
      if index.Some? {
        var i := index.value;
        following := following[i := following[i].(isFollowing := !following[i].isFollowing)];
        if !following[i].isFollowing {
          userManager.UpdateFollowingCount(profile.followingCount - 1);
        } else {
          userManager.UpdateFollowingCount(profile.followingCount + 1);
        }
        profile := userManager.currentUser;
      }
    }
  }

  /** `following.firstIndex(where: { $0.id == follow.id })`. */
  function FirstFollow(following: seq<Follow>, id: Uuid): (r: Option<nat>)
    ensures r.Some? ==> r.value < |following| && following[r.value].id == id
    ensures r.Some? ==> forall i :: 0 <= i < r.value ==> following[i].id != id
    ensures r.None? ==> forall i :: 0 <= i < |following| ==> following[i].id != id
  {
    Seqs.FirstIndex(following, (f: Follow) => f.id == id)
  }
}
