/**
 * HomeViewModel.swift: the home screen's tier progress, most recent
 * workout and mock social feed. The workouts the repository answers with,
 * or its failure, are inputs.
 */
module HomeScreen {
  import opened Base
  import opened Tiers
  import opened TierLaws
  import opened Workouts
  import opened SocialFeed
  import opened LikeToggles
  import Seqs

  const LoadFailurePrefix: string := "데이터 로드 실패: "

  /** `feedItems.firstIndex(where: { $0.id == item.id })`. */
  function FirstItem(items: seq<FeedItem>, id: Uuid): (r: Option<nat>)
    ensures r.Some? ==> r.value < |items| && items[r.value].id == id
    ensures r.Some? ==> forall i :: 0 <= i < r.value ==> items[i].id != id
    ensures r.None? ==> forall i :: 0 <= i < |items| ==> items[i].id != id
  {
    Seqs.FirstIndex(items, (f: FeedItem) => f.id == id)
  }

  /** `HomeViewModel`. */
  class HomeViewModel {
    var tierProgress: Option<TierProgress>
    var recentExercise: Option<Exercise>
    var feedItems: seq<FeedItem>
    var isLoading: bool
    var errorMessage: Option<string>

    /** `init`: nothing loaded yet; the first load is a separate call. */
    constructor ()
      ensures tierProgress.None? && recentExercise.None? && feedItems == []
      ensures !isLoading && errorMessage.None?
    {
      tierProgress := None;
      recentExercise := None;
      feedItems := [];
      isLoading := false;
      errorMessage := None;
    }

    /**
     * `loadData`: the progress within the tier of the summed distances, the
     * first workout the repository lists, and the mock feed. A failed fetch
     * leaves them as they were and shows a message.
     */
    method LoadData(exercises: Option<seq<Exercise>>, failure: string, mockIds: seq<Uuid>, mockTime: Date)
      requires |mockIds| == 8
      modifies this
      ensures !isLoading
      ensures exercises.None? ==>
        errorMessage == Some(LoadFailurePrefix + failure) && tierProgress == old(tierProgress)
        && recentExercise == old(recentExercise) && feedItems == old(feedItems)
      ensures exercises.Some? ==>
        && errorMessage.None?
        && tierProgress == Some(ProgressFor(TotalDistance(exercises.value)))
        && tierProgress.value.currentTier == TierFor(TotalDistance(exercises.value))
        && (recentExercise.Some? <==> |exercises.value| > 0)
        && (recentExercise.Some? ==> recentExercise.value == exercises.value[0])
        && feedItems == MockFeedItems(mockIds, mockTime)
    {
      isLoading := true;
      errorMessage := None;
      if exercises.None? {
        errorMessage := Some(LoadFailurePrefix + failure);
        isLoading := false;
        return;
      }
      var workouts := exercises.value;
      var totalDistance := TotalDistance(workouts);
      var progress := CalculateProgress(totalDistance);
      ProgressTier(totalDistance);
      tierProgress := Some(progress);
      recentExercise := if |workouts| > 0 then Some(workouts[0]) else None;
      feedItems := MockFeedItems(mockIds, mockTime);
      isLoading := false;
    }

    /** `toggleLike(for:)`: the first item with that id is toggled; there is no server call and no rollback. */
    method ToggleLike(item: FeedItem)
      modifies this
      ensures var index := FirstItem(old(feedItems), item.id);
        && (index.None? ==> feedItems == old(feedItems))
        && (index.Some? ==> feedItems == old(feedItems)[index.value := ToggledItem(old(feedItems)[index.value])])
      ensures tierProgress == old(tierProgress) && recentExercise == old(recentExercise)
      ensures isLoading == old(isLoading) && errorMessage == old(errorMessage)
    {
      var index := FirstItem(feedItems, item.id);
      if index.Some? {
        feedItems := feedItems[index.value := ToggledItem(feedItems[index.value])];
      }
    }
  }

  /** Liking an item twice on the home screen leaves the feed as it was. */
  lemma ToggleFeedItemTwice(items: seq<FeedItem>, id: Uuid)
    requires FirstItem(items, id).Some?
    ensures var i := FirstItem(items, id).value;
      var once := items[i := ToggledItem(items[i])];
      FirstItem(once, id) == Some(i) && once[i := ToggledItem(once[i])] == items
  {
    var i := FirstItem(items, id).value;
    var once := items[i := ToggledItem(items[i])];
    assert forall j :: 0 <= j < i ==> once[j] == items[j];
    assert once[i].id == id;
    ToggleItemTwice(items[i]);
  }
}
