/**
 * The optimistic like toggle the view models apply to a post or feed item
 * (`isLiked.toggle()` then `likeCount += isLiked ? 1 : -1`) and the
 * rollback they apply when the repository call fails.
 */
module LikeToggles {
  import opened Base
  import opened Posts
  import opened SocialFeed
  import opened PostStore

  /** The optimistic update of a like flag and count: the flag flips and the count follows it by one. */
  function ToggledLike(isLiked: bool, likeCount: int): (r: (bool, int))
    ensures r.0 == !isLiked
    ensures r.0 ==> r.1 == likeCount + 1
    ensures !r.0 ==> r.1 == likeCount - 1
  {
    var liked := !isLiked;
    (liked, likeCount + (if liked then 1 else -1))
  }

  /** The optimistic update on a post: the flag flips and the count follows it by one. */
  function ToggledPost(p: Post): (r: Post)
    ensures r.isLiked == !p.isLiked
    ensures r.isLiked ==> r.likeCount == p.likeCount + 1
    ensures !r.isLiked ==> r.likeCount == p.likeCount - 1
    ensures r.(isLiked := p.isLiked, likeCount := p.likeCount) == p
  {
    var toggled := ToggledLike(p.isLiked, p.likeCount);
    p.(isLiked := toggled.0, likeCount := toggled.1)
  }

  /** The rollback: `isLiked = wasLiked; likeCount += wasLiked ? 1 : -1`. */
  function RolledBack(p: Post, wasLiked: bool): (r: Post)
    ensures r.isLiked == wasLiked
    ensures r.likeCount == p.likeCount + (if wasLiked then 1 else -1)
    ensures r.(isLiked := p.isLiked, likeCount := p.likeCount) == p
  {
    p.(isLiked := wasLiked, likeCount := p.likeCount + (if wasLiked then 1 else -1))
  }

  /** A failed call leaves the post as it was before the toggle. */
  lemma RollbackRestores(p: Post)
    ensures RolledBack(ToggledPost(p), p.isLiked) == p
  {
  }

  /** Two toggles give back the original post. */
  lemma ToggleTwice(p: Post)
    ensures ToggledPost(ToggledPost(p)) == p
  {
  }

  /** HomeViewModel's toggle on a feed item: the same update of its flag and count as on a post. */
  function ToggledItem(item: FeedItem): (r: FeedItem)
    ensures (r.isLiked, r.likeCount) == ToggledLike(item.isLiked, item.likeCount)
    ensures r.(isLiked := item.isLiked, likeCount := item.likeCount) == item
  {
    var toggled := ToggledLike(item.isLiked, item.likeCount);
    item.(isLiked := toggled.0, likeCount := toggled.1)
  }

  /** Two toggles give back the original item. */
  lemma ToggleItemTwice(item: FeedItem)
    ensures ToggledItem(ToggledItem(item)) == item
  {
  }

  /**
   * `toggleLike(for:)` on a list of posts (FeedViewModel, and the `myPosts`
   * half of ProfileViewModel.togglePostLike): the first post with that id
   * is toggled, then rolled back if the repository call failed.
   */
  function ToggleInList(posts: seq<Post>, postId: Uuid, succeeded: bool): (r: seq<Post>)
    ensures |r| == |posts|
    ensures !succeeded ==> r == posts
    ensures IndexOfPost(posts, postId).None? ==> r == posts
    ensures succeeded && IndexOfPost(posts, postId).Some? ==>
      var i := IndexOfPost(posts, postId).value;
      r[i] == ToggledPost(posts[i]) && forall j :: 0 <= j < |r| && j != i ==> r[j] == posts[j]
  {
    var index := IndexOfPost(posts, postId);
    if index.None? then posts
    else
      var i := index.value;
      var wasLiked := posts[i].isLiked;
      var toggled := posts[i := ToggledPost(posts[i])];
      if succeeded then toggled
      else
        RollbackRestores(posts[i]);
        toggled[i := RolledBack(toggled[i], wasLiked)]
  }

  /** A successful toggle twice over leaves the list as it was. */
  lemma ToggleInListTwice(posts: seq<Post>, postId: Uuid)
    ensures ToggleInList(ToggleInList(posts, postId, true), postId, true) == posts
  {
    var once := ToggleInList(posts, postId, true);
    var index := IndexOfPost(posts, postId);
    if index.Some? {
      var i := index.value;
      assert once == posts[i := ToggledPost(posts[i])];
      assert IndexOfPost(once, postId) == index by {
        assert forall j :: 0 <= j < i ==> once[j] == posts[j];
      }
      ToggleTwice(posts[i]);
    }
  }
}
