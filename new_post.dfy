/**
 * NewPostView.swift: composing a post as the current user. Whether the
 * repository stores it is an input.
 */
module NewPostScreen {
  import opened Base
  import opened Tiers
  import opened Workouts
  import opened Posts
  import opened Profiles
  import opened Users

  const CreateFailure: string := "게시물 작성에 실패했습니다."

  /** The post button is disabled while the content is empty. */
  predicate PostButtonDisabled(content: string) {
    content == []
  }

  /**
   * The post `createPost` builds: the current user's nickname, username
   * and tier, the chosen visibility, and the exercise's id and summary when
   * one is attached; the other fields take their defaults.
   */
  function ComposedPost(user: UserProfile, content: string, exercise: Option<Exercise>, visibility: PostVisibility,
                        id: Uuid, authorId: Uuid, now: Date): (p: Post)
    ensures p.authorNickname == user.nickname && p.authorUsername == user.username
    ensures ToTier(p.authorTier) == user.tier
    ensures p.content == content && p.visibility == visibility
    ensures p.exerciseSummary.Some? <==> exercise.Some?
    ensures exercise.Some? ==> p.exerciseId == Some(exercise.value.id) && p.exerciseSummary == Some(SummaryOf(exercise.value))
    ensures exercise.None? ==> p.exerciseId.None?
    ensures p.likeCount == 0 && p.commentCount == 0 && !p.isLiked && p.imageURL.None?
    ensures p.createdAt == now && p.updatedAt == now
  {
    TierDataRoundTrip(user.tier);
    var summary := if exercise.Some? then Some(SummaryOf(exercise.value)) else None;
    var exerciseId := if exercise.Some? then Some(exercise.value.id) else None;
    NewPost(id, authorId, user.nickname, user.username, content, now).(
      authorTier := TierDataOf(user.tier), exerciseId := exerciseId,
      visibility := visibility, exerciseSummary := summary)
  }

  /**
   * The button guards the content: it is enabled exactly for the contents
   * whose composed post has a non-empty text, so `createPost` is never
   * reached with an empty post from this screen.
   */
  lemma PostButtonGuardsContent(user: UserProfile, content: string, exercise: Option<Exercise>, visibility: PostVisibility,
                                id: Uuid, authorId: Uuid, now: Date)
    ensures !PostButtonDisabled(content) <==> ComposedPost(user, content, exercise, visibility, id, authorId, now).content != []
  {
  }

  /** `NewPostViewModel`. */
  class NewPostViewModel {
    var isLoading: bool
    var errorMessage: Option<string>
    const userManager: UserManager

    constructor (manager: UserManager)
      ensures userManager == manager && !isLoading && errorMessage.None?
    {
      userManager := manager;
      isLoading := false;
      errorMessage := None;
    }

    /**
     * `createPost(content:exercise:visibility:)`: the post handed to the
     * repository; the message is cleared exactly when it is stored.
     */
    method CreatePost(content: string, exercise: Option<Exercise>, visibility: PostVisibility,
                      id: Uuid, authorId: Uuid, now: Date, succeeded: bool)
      returns (post: Post)
      modifies this
      ensures post == ComposedPost(userManager.currentUser, content, exercise, visibility, id, authorId, now)
      ensures errorMessage.None? <==> succeeded
      ensures !succeeded ==> errorMessage == Some(CreateFailure)
      ensures !isLoading
    {
      isLoading := true;
      errorMessage := None;
      var summary: Option<ExerciseSummary> := None;
      if exercise.Some? {
        summary := Some(SummaryOf(exercise.value));
      }
      var currentUser := userManager.currentUser;
      var tierData := TierDataOf(currentUser.tier);
      post := NewPost(id, authorId, currentUser.nickname, currentUser.username, content, now).(
        authorTier := tierData, exerciseId := if exercise.Some? then Some(exercise.value.id) else None,
        visibility := visibility, exerciseSummary := summary);
      if !succeeded {
        errorMessage := Some(CreateFailure);
      }
      isLoading := false;
    }
  }
}
