/**
 * FeedView.swift: the edits the post detail sheet makes to the feed, the
 * post editor's save rule and rebuilt post, and PostDetailViewModel's
 * comments. Whether a repository call succeeds is an input.
 */
module PostDetail {
  import opened Base
  import opened Posts
  import opened Seqs
  import opened PostStore
  import opened FeedScreen

  const UpdateFailure: string := "게시물 수정에 실패했습니다."

  /** The tier every comment written from the detail sheet carries: Gold 2. */
  const CommentTier: TierData := TierData("골드", 2)

  /** `onPostUpdated`'s edit: the first post with the updated post's id is replaced by it. */
  function ReplaceFirst(posts: seq<Post>, updated: Post): (r: seq<Post>)
    ensures |r| == |posts|
    ensures IndexOfPost(posts, updated.id).None? ==> r == posts
    ensures IndexOfPost(posts, updated.id).Some? ==>
      var i := IndexOfPost(posts, updated.id).value;
      r[i] == updated && forall j :: 0 <= j < |posts| && j != i ==> r[j] == posts[j]
  {
    var index := IndexOfPost(posts, updated.id);
    if index.Some? then posts[index.value := updated] else posts
  }

  /** Replacing twice is replacing once: the replaced post is still the first with that id. */
  lemma ReplaceFirstIdempotent(posts: seq<Post>, updated: Post)
    ensures ReplaceFirst(ReplaceFirst(posts, updated), updated) == ReplaceFirst(posts, updated)
  {
    var once := ReplaceFirst(posts, updated);
    var index := IndexOfPost(posts, updated.id);
    if index.Some? {
      assert forall j :: 0 <= j < index.value ==> once[j] == posts[j];
      assert IndexOfPost(once, updated.id) == index;
    }
  }

  /** `onPostUpdated`, on the feed's view model; paging is untouched. */
  method OnPostUpdated(feed: FeedViewModel, updated: Post)
    modifies feed
    ensures feed.posts == ReplaceFirst(old(feed.posts), updated)
    ensures feed.currentOffset == old(feed.currentOffset) && feed.hasMorePosts == old(feed.hasMorePosts)
    ensures feed.errorMessage == old(feed.errorMessage) && feed.currentUserTier == old(feed.currentUserTier)
    ensures feed.isLoading == old(feed.isLoading) && feed.isLoadingMore == old(feed.isLoadingMore)
  {
    var index := IndexOfPost(feed.posts, updated.id);
    if index.Some? {
      feed.posts := feed.posts[index.value := updated];
    }
  }

  /**
   * `onPostDeleted`, on the feed's view model: every post with that id is
   * removed, the rest kept in order; the offset is left as it is.
   */
  method OnPostDeleted(feed: FeedViewModel, deleted: Post)
    modifies feed
    ensures feed.posts == Filter(old(feed.posts), (p: Post) => p.id != deleted.id)
    ensures forall i :: 0 <= i < |feed.posts| ==> feed.posts[i].id != deleted.id
    ensures forall i :: 0 <= i < |old(feed.posts)| && old(feed.posts)[i].id != deleted.id ==> old(feed.posts)[i] in feed.posts
    ensures feed.currentOffset == old(feed.currentOffset) && feed.hasMorePosts == old(feed.hasMorePosts)
    ensures feed.errorMessage == old(feed.errorMessage) && feed.currentUserTier == old(feed.currentUserTier)
    ensures feed.isLoading == old(feed.isLoading) && feed.isLoadingMore == old(feed.isLoadingMore)
  {
    feed.posts := Filter(feed.posts, (p: Post) => p.id != deleted.id);
  }

  /**
   * The editor's save button is disabled for empty content, and when
   * neither the content nor the visibility differs from the original.
   */
  predicate SaveDisabled(content: string, visibility: PostVisibility, original: Post) {
    content == [] || (content == original.content && visibility == original.visibility)
  }

  /** An enabled save always carries non-empty content and a real change. */
  lemma SaveEnabledMeansChange(content: string, visibility: PostVisibility, original: Post)
    ensures !SaveDisabled(content, visibility, original) <==>
      content != [] && (content != original.content || visibility != original.visibility)
  {
  }

  /**
   * `updatePost`'s rebuilt post: the original with the new content and
   * visibility, updated now; every other field, counts and like included,
   * is the original's.
   */
  function EditedPost(original: Post, content: string, visibility: PostVisibility, now: Date): (p: Post)
    ensures p.content == content && p.visibility == visibility && p.updatedAt == now
    ensures p.(content := original.content, visibility := original.visibility, updatedAt := original.updatedAt) == original
  {
    Post(original.id, original.authorId, original.authorNickname, original.authorUsername, original.authorTier,
      original.exerciseId, content, original.imageURL, visibility, original.createdAt, now,
      original.likeCount, original.commentCount, original.isLiked, original.exerciseSummary)
  }

  /** The edited post is still found in the feed under its id, so the feed shows the edit in place. */
  lemma EditedPostReplacesOriginal(posts: seq<Post>, i: nat, content: string, visibility: PostVisibility, now: Date)
    requires i < |posts| && IndexOfPost(posts, posts[i].id) == Some(i)
    ensures var r := ReplaceFirst(posts, EditedPost(posts[i], content, visibility, now));
      |r| == |posts| && r[i].id == posts[i].id && r[i].content == content
      && forall j :: 0 <= j < |posts| && j != i ==> r[j] == posts[j]
  {
  }

  /**
   * `EditPostView.updatePost`: on success the feed shows the saved post
   * and the sheet is dismissed; on failure a message, and the feed is as
   * it was.
   */
  method SaveEdit(feed: FeedViewModel, original: Post, content: string, visibility: PostVisibility, now: Date, succeeded: bool)
    returns (dismissed: bool, errorMessage: Option<string>)
    modifies feed
    ensures dismissed <==> succeeded
    ensures succeeded ==> errorMessage.None? && feed.posts == ReplaceFirst(old(feed.posts), EditedPost(original, content, visibility, now))
    ensures !succeeded ==> errorMessage == Some(UpdateFailure) && feed.posts == old(feed.posts)
    ensures feed.currentOffset == old(feed.currentOffset) && feed.hasMorePosts == old(feed.hasMorePosts)
    ensures feed.errorMessage == old(feed.errorMessage) && feed.currentUserTier == old(feed.currentUserTier)
    ensures feed.isLoading == old(feed.isLoading) && feed.isLoadingMore == old(feed.isLoadingMore)
    ensures !succeeded ==> unchanged(feed)
  {
    var updatedPost := EditedPost(original, content, visibility, now);
    if succeeded {
      OnPostUpdated(feed, updatedPost);
      return true, None;
    }
    return false, Some(UpdateFailure);
  }

  /** The comment the detail sheet writes: by "나"/"me", at Gold 2, on the shown post. */
  function MyComment(postId: Uuid, id: Uuid, authorId: Uuid, content: string, now: Date): (c: Comment)
    ensures c.postId == postId && c.id == id && c.content == content && c.createdAt == now
    ensures c.authorNickname == "나" && c.authorUsername == "me" && c.authorTier == CommentTier
    ensures c.likeCount == 0 && !c.isLiked
  {
    NewComment(id, postId, authorId, "나", "me", content, now).(authorTier := CommentTier)
  }

  /** `PostDetailViewModel`. */
  class PostDetailViewModel {
    var comments: seq<Comment>
    var isLoading: bool
    const post: Post

    /** `init`: no comments yet; the first load is a separate call. */
    constructor (shown: Post)
      ensures post == shown && comments == [] && !isLoading
    {
      post := shown;
      comments := [];
      isLoading := false;
    }

    /** `loadComments`: the fetched comments, or none when the fetch fails. */
    method LoadComments(fetched: Option<seq<Comment>>)
      modifies this
      ensures fetched.Some? ==> comments == fetched.value
      ensures fetched.None? ==> comments == []
      ensures !isLoading
    {
      isLoading := true;
      if fetched.Some? {
        comments := fetched.value;
      } else {
        comments := [];
      }
      isLoading := false;
    }

    /**
     * `addComment(content:)`: exactly one comment by the user is appended
     * when the repository stores it; a failure is silent.
     */
    method AddComment(content: string, id: Uuid, authorId: Uuid, now: Date, succeeded: bool)
      modifies this
      ensures succeeded ==> comments == old(comments) + [MyComment(post.id, id, authorId, content, now)]
      ensures !succeeded ==> comments == old(comments)
      ensures isLoading == old(isLoading)
    {
      var comment := MyComment(post.id, id, authorId, content, now);
      if succeeded {
        comments := comments + [comment];
      }
    }
  }
}
