/**
 * FeedViewModel.swift: the social feed, loaded a page of 20 posts at a
 * time, with the current user's own posts shown at the tier of their
 * lifetime distance. What the repositories answer is an input.
 */
module FeedScreen {
  import opened Base
  import opened Tiers
  import opened Workouts
  import opened Posts
  import opened Seqs
  import opened PostStore
  import opened LikeToggles

  /** `pageSize`. */
  const PageSize: nat := 20

  const FeedLoadFailure: string := "피드를 불러오는데 실패했습니다."
  const DeleteFailure: string := "게시물 삭제에 실패했습니다."

  /** The feed's test for the user's own post: the placeholder author "나" or "me". */
  predicate IsPlaceholderAuthor(post: Post) {
    post.authorNickname == "나" || post.authorUsername == "me"
  }

  /**
   * `applyCurrentTierToMyPosts`: with a known tier, the user's own posts
   * carry it; every other post, and every post when no tier is known, is
   * left as it is.
   */
  function ApplyCurrentTier(posts: seq<Post>, tier: Option<Tier>): (r: seq<Post>)
    ensures |r| == |posts|
    ensures tier.None? ==> r == posts
    ensures forall i :: 0 <= i < |r| && !IsPlaceholderAuthor(posts[i]) ==> r[i] == posts[i]
    ensures forall i :: 0 <= i < |r| && tier.Some? && IsPlaceholderAuthor(posts[i]) ==>
      r[i] == posts[i].(authorTier := TierDataOf(tier.value))
  {
    if |posts| == 0 then []
    else
      var last := posts[|posts| - 1];
      var shown := if tier.Some? && IsPlaceholderAuthor(last) then last.(authorTier := TierDataOf(tier.value)) else last;
      ApplyCurrentTier(posts[..|posts| - 1], tier) + [shown]
  }

  /** Each of the user's posts then reads back as the current tier. */
  lemma ApplyCurrentTierShowsTier(posts: seq<Post>, tier: Tier)
    ensures forall i :: 0 <= i < |posts| && IsPlaceholderAuthor(posts[i]) ==>
      ToTier(ApplyCurrentTier(posts, Some(tier))[i].authorTier) == tier
  {
    TierDataRoundTrip(tier);
  }

  /** Applying the tier twice is applying it once. */
  lemma ApplyCurrentTierIdempotent(posts: seq<Post>, tier: Option<Tier>)
    ensures ApplyCurrentTier(ApplyCurrentTier(posts, tier), tier) == ApplyCurrentTier(posts, tier)
  {
    var once := ApplyCurrentTier(posts, tier);
    var twice := ApplyCurrentTier(once, tier);
    forall i | 0 <= i < |posts|
      ensures twice[i] == once[i]
    {
      assert IsPlaceholderAuthor(once[i]) == IsPlaceholderAuthor(posts[i]);
    }
  }

  /** Pages are handled one by one: applying the tier to two pages is applying it to their concatenation. */
  lemma {:induction false} ApplyCurrentTierAppend(a: seq<Post>, b: seq<Post>, tier: Option<Tier>)
    ensures ApplyCurrentTier(a + b, tier) == ApplyCurrentTier(a, tier) + ApplyCurrentTier(b, tier)
  {
    if |b| == 0 {
      assert a + b == a;
    } else {
      var init := b[..|b| - 1];
      assert (a + b)[..|a + b| - 1] == a + init;
      assert (a + b)[|a + b| - 1] == b[|b| - 1];
      ApplyCurrentTierAppend(a, init, tier);
    }
  }

  /** The tier `loadCurrentUserTier` settles on: that of the summed distances, Bronze 4 when the fetch fails. */
  function CurrentUserTier(exercises: Option<seq<Exercise>>): (t: Tier)
    ensures exercises.None? ==> t == Tier(Bronze, Four)
    ensures exercises.Some? ==> t == TierFor(TotalDistance(exercises.value))
  {
    if exercises.Some? then TierFor(TotalDistance(exercises.value)) else Tier(Bronze, Four)
  }

  /** `FeedViewModel`. */
  class FeedViewModel {
    var posts: seq<Post>
    var isLoading: bool
    var isLoadingMore: bool
    var errorMessage: Option<string>
    var hasMorePosts: bool
    var currentUserTier: Option<Tier>
    var currentOffset: int

    /** `init`: an empty feed that may have more posts; the first load is a separate call. */
    constructor ()
      ensures posts == [] && !isLoading && !isLoadingMore && errorMessage.None?
      ensures hasMorePosts && currentUserTier.None? && currentOffset == 0
    {
      posts := [];
      isLoading := false;
      isLoadingMore := false;
      errorMessage := None;
      hasMorePosts := true;
      currentUserTier := None;
      currentOffset := 0;
    }

    /** `loadCurrentUserTier`. */
    method LoadCurrentUserTier(exercises: Option<seq<Exercise>>)
      modifies this
      ensures currentUserTier == Some(CurrentUserTier(exercises))
      ensures posts == old(posts) && currentOffset == old(currentOffset) && hasMorePosts == old(hasMorePosts)
      ensures isLoading == old(isLoading) && isLoadingMore == old(isLoadingMore) && errorMessage == old(errorMessage)
    {
      if exercises.Some? {
        var totalDistance := TotalDistance(exercises.value);
        var tier := CalculateTier(totalDistance);
        currentUserTier := Some(tier);
      } else {
        currentUserTier := Some(Tier(Bronze, Four));
      }
    }

    /**
     * `loadPosts`: the offset goes back to 0, the user's tier is settled,
     * and the first page replaces the feed; a full page means there may be
     * more. A failed fetch keeps the old posts and shows a message.
     */
    method LoadPosts(exercises: Option<seq<Exercise>>, fetched: Option<seq<Post>>)
      modifies this
      ensures !isLoading && isLoadingMore == old(isLoadingMore)
      ensures currentUserTier == Some(CurrentUserTier(exercises))
      ensures fetched.None? ==>
        posts == old(posts) && errorMessage == Some(FeedLoadFailure)
        && currentOffset == 0 && hasMorePosts == old(hasMorePosts)
      ensures fetched.Some? ==>
        && posts == ApplyCurrentTier(fetched.value, currentUserTier)
        && errorMessage.None?
        && hasMorePosts == (|fetched.value| >= PageSize)
        && currentOffset == |posts|
    {
      isLoading := true;
      errorMessage := None;
      currentOffset := 0;
      LoadCurrentUserTier(exercises);
      if fetched.Some? {
        var fetchedPosts := ApplyCurrentTier(fetched.value, currentUserTier);
        posts := fetchedPosts;
        hasMorePosts := |fetchedPosts| >= PageSize;
        currentOffset := |fetchedPosts|;
      } else {
        errorMessage := Some(FeedLoadFailure);
      }
      isLoading := false;
    }

    /**
     * `loadMorePosts`: nothing happens while a page is loading or when the
     * last page was short; otherwise the next page is appended and the
     * offset moves past it. A failed fetch is ignored.
     */
    method LoadMorePosts(fetched: Option<seq<Post>>)
      modifies this
      ensures old(isLoadingMore) || !old(hasMorePosts) ==>
        posts == old(posts) && currentOffset == old(currentOffset) && hasMorePosts == old(hasMorePosts)
        && isLoadingMore == old(isLoadingMore)
      ensures !old(isLoadingMore) && old(hasMorePosts) ==>
        && !isLoadingMore
        && (fetched.None? ==> posts == old(posts) && currentOffset == old(currentOffset) && hasMorePosts)
        && (fetched.Some? ==>
          && posts == old(posts) + ApplyCurrentTier(fetched.value, currentUserTier)
          && hasMorePosts == (|fetched.value| >= PageSize)
          && currentOffset == old(currentOffset) + |fetched.value|)
      ensures errorMessage == old(errorMessage) && currentUserTier == old(currentUserTier) && isLoading == old(isLoading)
    {
      if isLoadingMore || !hasMorePosts {
        return;
      }
      isLoadingMore := true;
      if fetched.Some? {
        var fetchedPosts := ApplyCurrentTier(fetched.value, currentUserTier);
        posts := posts + fetchedPosts;
        hasMorePosts := |fetchedPosts| >= PageSize;
        currentOffset := currentOffset + |fetchedPosts|;
      }
      isLoadingMore := false;
    }

    /** `refresh`: the same as `loadPosts`. */
    method Refresh(exercises: Option<seq<Exercise>>, fetched: Option<seq<Post>>)
      modifies this
      ensures !isLoading && isLoadingMore == old(isLoadingMore)
      ensures currentUserTier == Some(CurrentUserTier(exercises))
      ensures fetched.None? ==>
        posts == old(posts) && errorMessage == Some(FeedLoadFailure)
        && currentOffset == 0 && hasMorePosts == old(hasMorePosts)
      ensures fetched.Some? ==>
        && posts == ApplyCurrentTier(fetched.value, currentUserTier)
        && errorMessage.None?
        && hasMorePosts == (|fetched.value| >= PageSize)
        && currentOffset == |posts|
    {
      LoadPosts(exercises, fetched);
    }

    /** `toggleLike(for:)`: the optimistic toggle, rolled back when the call fails. */
    method ToggleLike(post: Post, succeeded: bool)
      modifies this
      ensures posts == ToggleInList(old(posts), post.id, succeeded)
      ensures currentOffset == old(currentOffset) && hasMorePosts == old(hasMorePosts) && errorMessage == old(errorMessage)
      ensures isLoading == old(isLoading) && isLoadingMore == old(isLoadingMore) && currentUserTier == old(currentUserTier)
    {
      posts := ToggleInList(posts, post.id, succeeded);
    }

    /**
     * `deletePost`: on success every post with that id leaves the feed, on
     * failure a message is shown. The offset is left as it is either way, so
     * after a shown post is deleted it runs one past the feed (see
     * DeleteThenLoadMoreSkips).
     */
    method DeletePost(post: Post, succeeded: bool)
      modifies this
      ensures succeeded ==> posts == Filter(old(posts), (p: Post) => p.id != post.id) && errorMessage == old(errorMessage)
      ensures !succeeded ==> posts == old(posts) && errorMessage == Some(DeleteFailure)
      ensures currentOffset == old(currentOffset) && hasMorePosts == old(hasMorePosts)
      ensures isLoading == old(isLoading) && isLoadingMore == old(isLoadingMore) && currentUserTier == old(currentUserTier)
    {
      if succeeded {
        posts := Filter(posts, (p: Post) => p.id != post.id);
      } else {
        errorMessage := Some(DeleteFailure);
      }
    }
  }

  /** The offset after `removed` shown posts are deleted. */
  function ClampedOffset(offset: int, removed: int): (r: int)
    ensures r >= 0
    ensures offset - removed >= 0 ==> r == offset - removed
    ensures offset - removed < 0 ==> r == 0
  {
    if offset - removed > 0 then offset - removed else 0
  }

  /**
   * Paging keeps step with the repository: after the first page and any
   * number of further pages, with no deletion, the feed is the repository's
   * newest-first list up to the offset.
   */
  lemma PagesConcatenate(s: seq<Post>, offset: nat)
    requires offset <= |s|
    ensures Page(s, 0, offset) + Page(s, offset, PageSize) == Page(s, 0, offset + |Page(s, offset, PageSize)|)
  {
    var a := Page(s, 0, offset);
    var b := Page(s, offset, PageSize);
    var c := Page(s, 0, offset + |b|);
    forall i | 0 <= i < |c|
      ensures (a + b)[i] == c[i]
    {
      if i >= offset {
        assert b[i - offset] == s[offset + (i - offset)];
      }
    }
  }

  /** Posts with pairwise different ids, as the repository's UUIDs are. */
  ghost predicate DistinctIds(s: seq<Post>) {
    forall i, j :: 0 <= i < j < |s| ==> s[i].id != s[j].id
  }

  /**
   * The feed shows the first `offset` posts of the repository's newest-first
   * list `s`, and the shown post `s[d]` is deleted from the repository and
   * from the feed: the posts the feed keeps are the first `offset - 1` posts
   * of the shortened list.
   */
  lemma DeleteShownPost(s: seq<Post>, d: nat, offset: nat)
    requires d < offset <= |s| && DistinctIds(s)
    ensures var after := s[..d] + s[d + 1..];
      Filter(Page(s, 0, offset), (p: Post) => p.id != s[d].id) == Page(after, 0, offset - 1)
  {
    var pre, mid := s[..d], s[d + 1..offset];
    assert Page(s, 0, offset) == pre + [s[d]] + mid;
    assert Page(s[..d] + s[d + 1..], 0, offset - 1) == pre + mid;
    forall i | 0 <= i < |pre|
      ensures pre[i].id != s[d].id
    {
      assert pre[i] == s[i];
    }
    forall i | 0 <= i < |mid|
      ensures mid[i].id != s[d].id
    {
      assert mid[i] == s[d + 1 + i];
    }
    FilterDropsOne(pre, s[d], mid, (p: Post) => p.id != s[d].id);
  }

  /**
   * deletePost as written leaves the offset alone. After the shown post
   * `s[d]` is deleted, the feed keeps the first `offset - 1` posts of the
   * shortened list (DeleteShownPost), but the next page is asked for at the
   * unchanged offset and starts with `s[offset + 1]`: `s[offset]`, which
   * now sits between them, is in neither, and is never shown.
   */
  lemma DeleteThenLoadMoreSkips(s: seq<Post>, d: nat, offset: nat)
    requires d < offset && offset + 1 < |s| && DistinctIds(s)
    ensures var after := s[..d] + s[d + 1..];
      var kept := Page(after, 0, offset - 1);
      var next := Page(after, offset, PageSize);
      && kept + [s[offset]] + next == Page(after, 0, offset + |next|)
      && |next| > 0 && next[0] == s[offset + 1]
      && s[offset] !in kept && s[offset] !in next
  {
    var after := s[..d] + s[d + 1..];
    var kept := Page(after, 0, offset - 1);
    var next := Page(after, offset, PageSize);
    assert kept + [s[offset]] + next == Page(after, 0, offset + |next|) by {
      assert after[offset - 1] == s[offset];
    }
    assert s[offset] !in kept by {
      assert kept == s[..d] + s[d + 1..offset];
      OutsideStretch(s, offset, 0, d);
      OutsideStretch(s, offset, d + 1, offset);
    }
    assert s[offset] !in next by {
      assert next == s[offset + 1..offset + 1 + |next|];
      OutsideStretch(s, offset, offset + 1, offset + 1 + |next|);
    }
  }

  /** With distinct ids, a post is not found in a stretch of the list that does not hold its position. */
  lemma OutsideStretch(s: seq<Post>, j: nat, lo: nat, hi: nat)
    requires j < |s| && lo <= hi <= |s| && (j < lo || hi <= j) && DistinctIds(s)
    ensures s[j] !in s[lo..hi]
  {
    forall i | lo <= i < hi
      ensures s[i] != s[j]
    {
      assert s[i].id != s[j].id;
    }
  }

  /**
   * With the offset lowered by the number of posts removed, the next page
   * starts right after the kept posts: the kept posts followed by the next
   * page are a prefix of the shortened list. That is the lemma's point; the
   * first conjunct only records that the lowered offset, by ClampedOffset's
   * arithmetic, is the number of posts kept.
   */
  lemma DeleteThenLoadMoreCorrected(s: seq<Post>, d: nat, offset: nat)
    requires d < offset <= |s|
    ensures var after := s[..d] + s[d + 1..];
      var kept := Page(after, 0, offset - 1);
      var lowered := ClampedOffset(offset, offset - |kept|);
      var next := Page(after, lowered, PageSize);
      && lowered == |kept|
      && kept + next == Page(after, 0, lowered + |next|)
  {
    PagesConcatenate(s[..d] + s[d + 1..], offset - 1);
  }
}
