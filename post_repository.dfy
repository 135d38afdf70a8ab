/**
 * PostRepository.swift, `LocalPostRepository`: posts, comments and likes
 * kept as three stored lists. Each operation loads a list, edits it and
 * writes it back; here each list is a field that the operation reassigns.
 */
module PostStore {
  import opened Base
  import opened Sorting
  import opened Seqs
  import opened Posts

  /** The sort key of `sort { $0.createdAt > $1.createdAt }` (newest first). */
  function Recency(p: Post): real { -p.createdAt }

  /** The sort key of `sorted { $0.createdAt < $1.createdAt }` on comments (oldest first). */
  function CommentAge(c: Comment): real { c.createdAt }

  /** Posts in order of creation time, newest first. */
  ghost predicate NewestFirst(s: seq<Post>) {
    forall i, j :: 0 <= i < j < |s| ==> s[i].createdAt >= s[j].createdAt
  }

  /** The posts sorted newest first. */
  function ByRecency(posts: seq<Post>): (r: seq<Post>)
    ensures multiset(r) == multiset(posts)
    ensures NewestFirst(r)
  {
    var r := SortBy(posts, Recency);
    assert forall i, j :: 0 <= i < j < |r| ==> Recency(r[i]) <= Recency(r[j]);
    r
  }

  /** `Array(posts[min(offset, n)..<min(offset + limit, n)])`: at most `limit` posts from position `offset` on. */
  function Page(s: seq<Post>, offset: nat, limit: nat): (r: seq<Post>)
    ensures |r| <= limit
    ensures |r| == if offset >= |s| then 0 else if offset + limit <= |s| then limit else |s| - offset
    ensures forall i :: 0 <= i < |r| ==> r[i] == s[offset + i]
  {
    var startIndex := if offset < |s| then offset else |s|;
    var endIndex := if offset + limit < |s| then offset + limit else |s|;
    s[startIndex..endIndex]
  }

  /** A page of a newest-first list is newest first. */
  lemma PageNewestFirst(s: seq<Post>, offset: nat, limit: nat)
    requires NewestFirst(s)
    ensures NewestFirst(Page(s, offset, limit))
  {
    var r := Page(s, offset, limit);
    forall i, j | 0 <= i < j < |r|
      ensures r[i].createdAt >= r[j].createdAt
    {
      assert r[i] == s[offset + i] && r[j] == s[offset + j];
    }
  }

  /** Consecutive pages neither overlap nor skip: page 1 then page 2 is the double-length page. */
  lemma PagesAdjoin(s: seq<Post>, offset: nat, limit: nat)
    ensures Page(s, offset, limit) + Page(s, offset + |Page(s, offset, limit)|, limit) == Page(s, offset, 2 * limit)
      || |Page(s, offset, limit)| < limit
  {
    var a := Page(s, offset, limit);
    if |a| == limit {
      var b := Page(s, offset + limit, limit);
      var c := Page(s, offset, 2 * limit);
      assert |a + b| == |c|;
      forall i | 0 <= i < |c|
        ensures (a + b)[i] == c[i]
      {
        if i >= limit {
          assert b[i - limit] == s[offset + limit + (i - limit)];
        }
      }
    }
  }

  /**
   * `Post.mockFeedPosts`: the four seed posts. Their ids and author ids are
   * inputs; they were created 5 minutes, 1, 2 and 4 hours before `now`.
   */
  function MockFeedPosts(ids: seq<Uuid>, now: Date): (posts: seq<Post>)
    requires |ids| == 8
    ensures |posts| == 4 && NewestFirst(posts)
    ensures forall i :: 0 <= i < |posts| ==> posts[i].id == ids[i] && posts[i].authorId == ids[4 + i]
    ensures forall i :: 0 <= i < |posts| ==> !posts[i].isLiked && posts[i].visibility == Public
  {
    [
      Post(ids[0], ids[4], "러너김철수", "runner_kim", TierData("골드", 2), None,
        "오늘 10km 완주! 🔥 날씨가 좋아서 기분 최고", None, Public, now - 300.0, now, 12, 3, false,
        Some(ExerciseSummary("러닝", 10230.0, 3600.0, 650.0, now - 300.0))),
      Post(ids[1], ids[5], "싸이클박영희", "cycle_park", TierData("플래티넘", 1), None,
        "한강 라이딩 완료 🚴 반포대교에서 잠실까지!", None, Public, now - 3600.0, now, 8, 1, false,
        Some(ExerciseSummary("사이클", 35000.0, 5400.0, 890.0, now - 3600.0))),
      Post(ids[2], ids[6], "마라토너이민수", "marathon_lee", TierData("다이아", 3), None,
        "하프 마라톤 훈련 완료 💪 목표는 서브 2!", None, Public, now - 7200.0, now, 24, 7, false,
        Some(ExerciseSummary("러닝", 21097.0, 6900.0, 1350.0, now - 7200.0))),
      Post(ids[3], ids[7], "걷기왕최수진", "walking_choi", TierData("실버", 1), None,
        "퇴근 후 산책 🌙 오늘도 만보 달성!", None, Public, now - 14400.0, now, 5, 0, false,
        Some(ExerciseSummary("워킹", 8500.0, 5400.0, 320.0, now - 14400.0)))
    ]
  }

  /** `posts.firstIndex(where: { $0.id == id })`. */
  function IndexOfPost(posts: seq<Post>, id: Uuid): (r: Option<nat>)
    ensures r.Some? ==> r.value < |posts| && posts[r.value].id == id
    ensures r.Some? ==> forall i :: 0 <= i < r.value ==> posts[i].id != id
    ensures r.None? ==> forall i :: 0 <= i < |posts| ==> posts[i].id != id
  {
    FirstIndex(posts, (p: Post) => p.id == id)
  }

  /** The like records left after `unlikePost`: every record of that user on that target removed. */
  function LikesWithout(likes: seq<Like>, userId: Uuid, postId: Uuid): (r: seq<Like>)
    ensures forall i :: 0 <= i < |r| ==> !(r[i].userId == userId && r[i].targetId == postId) && r[i] in likes
    ensures forall i :: 0 <= i < |likes| && !(likes[i].userId == userId && likes[i].targetId == postId) ==> likes[i] in r
  {
    Filter(likes, (l: Like) => !(l.userId == userId && l.targetId == postId))
  }

  /** The ids of the posts a user liked: `likes.filter { ... }.map { $0.targetId }`. */
  function LikedPostIds(likes: seq<Like>, userId: Uuid): (ids: seq<Uuid>)
    ensures forall i :: 0 <= i < |likes| && likes[i].userId == userId && likes[i].targetType == PostTarget ==> likes[i].targetId in ids
    ensures forall id :: id in ids ==>
      exists i :: 0 <= i < |likes| && likes[i].userId == userId && likes[i].targetType == PostTarget && likes[i].targetId == id
  {
    if |likes| == 0 then []
    else
      var rest := LikedPostIds(likes[..|likes| - 1], userId);
      var l := likes[|likes| - 1];
      assert forall i :: 0 <= i < |likes| - 1 ==> likes[..|likes| - 1][i] == likes[i];
      if l.userId == userId && l.targetType == PostTarget then rest + [l.targetId] else rest
  }

  /** `posts.filter { ids.contains($0.id) }`. */
  function PostsWithIds(posts: seq<Post>, ids: seq<Uuid>): (r: seq<Post>)
    ensures forall i :: 0 <= i < |r| ==> r[i] in posts && r[i].id in ids
    ensures forall i :: 0 <= i < |posts| && posts[i].id in ids ==> posts[i] in r
  {
    Filter(posts, (p: Post) => p.id in ids)
  }

  /** `LocalPostRepository`. */
  class LocalPostRepository {
    var posts: seq<Post>
    var comments: seq<Comment>
    var likes: seq<Like>
    /** The `currentUserId` drawn when the repository is made; the repository never reads it. */
    const currentUserId: Uuid
    /** `Post.mockFeedPosts`, fixed once for the program run. */
    const mockFeedPosts: seq<Post>

    /** The repository over the stored lists (empty when nothing is stored). */
    constructor (storedPosts: seq<Post>, storedComments: seq<Comment>, storedLikes: seq<Like>,
                 userId: Uuid, mockIds: seq<Uuid>, mockTime: Date)
      requires |mockIds| == 8
      ensures posts == storedPosts && comments == storedComments && likes == storedLikes
      ensures currentUserId == userId && mockFeedPosts == MockFeedPosts(mockIds, mockTime)
    {
      posts := storedPosts;
      comments := storedComments;
      likes := storedLikes;
      currentUserId := userId;
      mockFeedPosts := MockFeedPosts(mockIds, mockTime);
    }

    /**
     * `fetchPosts(limit:offset:)`: an empty store is first seeded with the
     * mock posts; the result is the page of the posts sorted newest first.
     */
    method FetchPosts(limit: nat, offset: nat) returns (page: seq<Post>)
      modifies this
      ensures posts == (if old(posts) == [] then mockFeedPosts else old(posts))
      ensures comments == old(comments) && likes == old(likes)
      ensures page == Page(ByRecency(posts), offset, limit)
      ensures |page| <= limit && NewestFirst(page)
    {
      var all := posts;
      if |all| == 0 {
        all := mockFeedPosts;
        posts := all;
      }
      var sorted := ByRecency(all);
      page := Page(sorted, offset, limit);
      PageNewestFirst(sorted, offset, limit);
    }

    /** `fetchMyPosts(userId:)`: the user's posts, newest first. */
    method FetchMyPosts(userId: Uuid) returns (r: seq<Post>)
      ensures NewestFirst(r)
      ensures multiset(r) == multiset(Filter(posts, (p: Post) => p.authorId == userId))
      ensures forall i :: 0 <= i < |r| ==> r[i].authorId == userId && r[i] in posts
    {
      var mine := Filter(posts, (p: Post) => p.authorId == userId);
      r := ByRecency(mine);
      forall i | 0 <= i < |r|
        ensures r[i].authorId == userId && r[i] in posts
      {
        assert r[i] in multiset(mine);
      }
    }

    /** `fetchPost(by:)`: the first post with that id, or nil. */
    method FetchPost(id: Uuid) returns (r: Option<Post>)
      ensures r.Some? <==> exists i :: 0 <= i < |posts| && posts[i].id == id
      ensures r.Some? ==> r.value.id == id && r.value in posts
      ensures r.Some? ==> IndexOfPost(posts, id).Some? && r.value == posts[IndexOfPost(posts, id).value]
    {
      var index := IndexOfPost(posts, id);
      if index.Some? {
        r := Some(posts[index.value]);
      } else {
        r := None;
      }
    }

    /** `createPost`: the new post goes first; the others keep their order. */
    method CreatePost(post: Post) returns (r: Post)
      modifies this
      ensures posts == [post] + old(posts)
      ensures comments == old(comments) && likes == old(likes)
      ensures r == post
    {
      posts := [post] + posts;
      r := post;
    }

    /** `updatePost`: replaces the first post with the same id, if any; always returns its argument. */
    method UpdatePost(post: Post) returns (r: Post)
      modifies this
      ensures IndexOfPost(old(posts), post.id).Some? ==> posts == old(posts)[IndexOfPost(old(posts), post.id).value := post]
      ensures IndexOfPost(old(posts), post.id).None? ==> posts == old(posts)
      ensures comments == old(comments) && likes == old(likes)
      ensures r == post
    {
      var index := IndexOfPost(posts, post.id);
      if index.Some? {
        posts := posts[index.value := post];
      }
      r := post;
    }

    /** `deletePost`: every post with that id and every comment on it go; nothing else changes. */
    method DeletePost(post: Post)
      modifies this
      ensures posts == Filter(old(posts), (p: Post) => p.id != post.id)
      ensures comments == Filter(old(comments), (c: Comment) => c.postId != post.id)
      ensures likes == old(likes)
    {
      posts := Filter(posts, (p: Post) => p.id != post.id);
      comments := Filter(comments, (c: Comment) => c.postId != post.id);
    }

    /**
     * `likePost`: the first post with that id is marked liked and counted;
     * a like record is appended in every case, even for a missing post or a
     * repeated like.
     */
    method LikePost(postId: Uuid, userId: Uuid, likeId: Uuid, now: Date)
      modifies this
      ensures var index := IndexOfPost(old(posts), postId);
        && (index.Some? ==> posts == old(posts)[index.value := old(posts)[index.value].(isLiked := true, likeCount := old(posts)[index.value].likeCount + 1)])
        && (index.None? ==> posts == old(posts))
      ensures likes == old(likes) + [Like(likeId, userId, PostTarget, postId, now)]
      ensures comments == old(comments)
    {
      var index := IndexOfPost(posts, postId);
      if index.Some? {
        var i := index.value;
        posts := posts[i := posts[i].(isLiked := true)];
        posts := posts[i := posts[i].(likeCount := posts[i].likeCount + 1)];
      }
      likes := likes + [Like(likeId, userId, PostTarget, postId, now)];
    }

    /**
     * `unlikePost`: the first post with that id is unmarked and its count
     * lowered but never below zero; every like of that user on it goes.
     */
    method UnlikePost(postId: Uuid, userId: Uuid)
      modifies this
      ensures var index := IndexOfPost(old(posts), postId);
        && (index.Some? ==> posts == old(posts)[index.value := old(posts)[index.value].(isLiked := false, likeCount := ClampedDecrement(old(posts)[index.value].likeCount))])
        && (index.None? ==> posts == old(posts))
      ensures likes == LikesWithout(old(likes), userId, postId)
      ensures comments == old(comments)
    {
      var index := IndexOfPost(posts, postId);
      if index.Some? {
        var i := index.value;
        posts := posts[i := posts[i].(isLiked := false)];
        posts := posts[i := posts[i].(likeCount := ClampedDecrement(posts[i].likeCount))];
      }
      likes := LikesWithout(likes, userId, postId);
    }

    /** `fetchLikedPosts(userId:)`: the posts the user has a like record on, newest first. */
    method FetchLikedPosts(userId: Uuid) returns (r: seq<Post>)
      ensures NewestFirst(r)
      ensures multiset(r) == multiset(PostsWithIds(posts, LikedPostIds(likes, userId)))
      ensures forall i :: 0 <= i < |r| ==> r[i] in posts && r[i].id in LikedPostIds(likes, userId)
    {
      var likedIds := LikedPostIds(likes, userId);
      var liked := PostsWithIds(posts, likedIds);
      r := ByRecency(liked);
      forall i | 0 <= i < |r|
        ensures r[i] in posts && r[i].id in likedIds
      {
        assert r[i] in multiset(liked);
      }
    }

    /** `fetchComments(postId:)`: the post's comments, oldest first. */
    method FetchComments(postId: Uuid) returns (r: seq<Comment>)
      ensures SortedBy(r, CommentAge)
      ensures multiset(r) == multiset(Filter(comments, (c: Comment) => c.postId == postId))
      ensures forall i :: 0 <= i < |r| ==> r[i].postId == postId && r[i] in comments
    {
      var onPost := Filter(comments, (c: Comment) => c.postId == postId);
      r := SortBy(onPost, CommentAge);
      forall i | 0 <= i < |r|
        ensures r[i].postId == postId && r[i] in comments
      {
        assert r[i] in multiset(onPost);
      }
    }

    /** `createComment`: appended, and the first post with that id counts one more comment. */
    method CreateComment(comment: Comment) returns (r: Comment)
      modifies this
      ensures comments == old(comments) + [comment]
      ensures var index := IndexOfPost(old(posts), comment.postId);
        && (index.Some? ==> posts == old(posts)[index.value := old(posts)[index.value].(commentCount := old(posts)[index.value].commentCount + 1)])
        && (index.None? ==> posts == old(posts))
      ensures likes == old(likes) && r == comment
    {
      comments := comments + [comment];
      var index := IndexOfPost(posts, comment.postId);
      if index.Some? {
        var i := index.value;
        posts := posts[i := posts[i].(commentCount := posts[i].commentCount + 1)];
      }
      r := comment;
    }

    /**
     * `deleteComment`: every comment with that id goes, and the post's count
     * drops by one but not below zero, whether or not a comment was removed.
     */
    method DeleteComment(comment: Comment)
      modifies this
      ensures comments == Filter(old(comments), (c: Comment) => c.id != comment.id)
      ensures var index := IndexOfPost(old(posts), comment.postId);
        && (index.Some? ==> posts == old(posts)[index.value := old(posts)[index.value].(commentCount := ClampedDecrement(old(posts)[index.value].commentCount))])
        && (index.None? ==> posts == old(posts))
      ensures likes == old(likes)
    {
      comments := Filter(comments, (c: Comment) => c.id != comment.id);
      var index := IndexOfPost(posts, comment.postId);
      if index.Some? {
        var i := index.value;
        posts := posts[i := posts[i].(commentCount := ClampedDecrement(posts[i].commentCount))];
      }
    }
  }

  /** `max(0, n - 1)`. */
  function ClampedDecrement(n: int): (r: int)
    ensures r >= 0
    ensures n >= 1 ==> r == n - 1
    ensures n <= 1 ==> r == 0
  {
    if n - 1 > 0 then n - 1 else 0
  }
}
