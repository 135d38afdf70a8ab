# Motra core, modelled in Dafny

Motra is a SwiftUI fitness tracker. It records runs, rides, walks and hikes with live GPS tracking. It ranks the user by lifetime distance in a tier ladder (Bronze 4 up to GrandMaster 1), aggregates per-period statistics, and keeps a local social feed of posts, comments and likes behind a local e-mail/password account store.

This project models the deterministic core of the app and proves what that code promises:

- **Tier engine** (`tier.dfy`, `tier_laws.dfy`, `tier_history.dfy`, `profile.dfy`):
  - the eight-row kilometre table and the classification of a distance into a grade and a quarter-of-row division;
  - the division's distance window and the next-tier rule;
  - the tier-change history replayed over the workouts in date order;
  - the linear tier level.
- **Live tracking session** (`location_manager.dfy`, `workout_save.dfy`):
  - the `LocationManager` state machine: start (including the start deferred until permission is decided), pause, resume, stop, location samples and timer ticks;
  - the conversion of a finished session into a stored record.
- **Local post store and the screens around it** (`post_repository.dfy`, `feed_view_model.dfy`, `home_view_model.dfy`, `profile_view_model.dfy`, `feed_view.dfy`, `new_post.dfy`, `likes.dfy`):
  - paging, creating, editing and deleting posts, likes and comments;
  - optimistic like toggling with rollback when the store refuses.
- **Statistics** (`statistics.dfy`, `statistics_repository.dfy`):
  - period filtering, sums, guarded averages and per-type counts;
  - the per-label distance chart.
- **Local accounts** (`local_auth.dfy`, `auth_view_model.dfy`, `sign_up_view.dfy`, `user_manager.dfy`):
  - ordered sign-up validation, sign-in, sign-out and account deletion;
  - the sign-in state machine, the sign-up form predicate and the profile field updates.
- **Integer time and pace decomposition and fixed tables** (`swift_num.dfy`, `time_format.dfy`, `workout.dfy`, `post.dfy`, `social_feed.dfy`, `greeting.dfy`).

Modelling conventions:

- `Double` is `real`.
- A `Date` is a `real` number of seconds.
- A `UUID` is a `nat`; the account store's user ids are strings.
- Swift's `Int(x)`, and `/` and `%` on `Int`, truncate toward zero. `SwiftNum` writes that out.
- Objects whose fields the app updates in place are classes:
  - view models;
  - the location manager;
  - the post store;
  - the account store;
  - the user manager.
- Collections are `seq` and `map` fields.
- Whatever the app receives from outside becomes a parameter of the method that receives it:
  - the result of an asynchronous repository call (success, failure, or the fetched list);
  - the permission status;
  - the current time;
  - fresh UUIDs;
  - CoreLocation's distance between two samples;
  - the password hash;
  - date formatting and calendar bounds.

`Exercise.swift` and `WorkoutModels.swift` declare `WorkoutType`, `RoutePoint`, `WorkoutSession` and `WorkoutStats` twice. They are modelled once, with each formatter of each copy as its own function.

Where the app's documentation and its code disagree, the model follows the code:

- A tier history counts a change of division as a change of tier. Workouts of 5,000 m, 40,000 m and 10,000 m therefore yield Bronze 4, Bronze 1 and Silver 4, not one Bronze entry.
- `WorkoutSaveHelper` stores the distance in kilometres, although `Exercise.distance` is documented in metres.

## Model

| member | source | states |
|---|---|---|
| Tiers.DivisionFromRaw | Motra/Services/Models/Tier.swift:49-54 | `TierDivision(rawValue:)` exists exactly for 1...4, and then its raw value is the argument |
| Tiers.GradeIndex | Motra/Services/Models/Tier.swift:11-19 | a grade's position in `allCases` is also its row in the threshold table |
| Tiers.DivisionIndex | Motra/Services/Models/Tier.swift:183 | `4 - division.rawValue` lies in 0..3 |
| Tiers.DivisionQuarter | Motra/Services/Models/Tier.swift:146-156 | for an in-row fraction in [0,1), the division's index k satisfies k/4 <= fraction < (k+1)/4; a zero-width row or a negative fraction gives division 1 |
| TierLaws.DivisionHoldsDistance | Motra/Services/Models/Tier.swift:146-156 | calculateDivision, read in kilometres: for a distance inside the row [s, e), the quarter of the row that its division's index counts in from s holds the distance |
| Tiers.FirstRowFrom | Motra/Services/Models/Tier.swift:130-139 | the loop's early return: the first row containing the distance, or none when no row does |
| Tiers.CalculateTier | Motra/Services/Models/Tier.swift:127-143 | the table loop with its early return and fall-through returns the tier of the first containing row, else GrandMaster 1 |
| Tiers.GradeRowFrom | Motra/Services/Models/Tier.swift:168-179 | the `for ... break` search: the first row with the tier's grade, or none |
| Tiers.CalculateProgress | Motra/Services/Models/Tier.swift:159-209 | the tier, the scan for its grade row, the division arithmetic and the next-tier choice return the progress record for the distance |
| Tiers.ScanGradeRow | Motra/Services/Models/Tier.swift:163-179 | the scan leaves the start and end of the first row with the grade and the grade of the row after it, or zeros and no next grade |
| Tiers.ProgressTier | Motra/Services/Models/Tier.swift:159-203 | the record's tier is the one calculateTier gives for the same distance |
| Tiers.ProgressPercentage | Motra/Services/Models/Tier.swift:86-91 | always in [0,1]; 1 when the window is empty or inverted; for a distance inside the window, the exact fraction covered |
| Tiers.RemainingDistance | Motra/Services/Models/Tier.swift:93-95 | never negative, at least the distance to the window's end, and equal to it or to 0 |
| TierLaws.ThresholdTableShape | Motra/Services/Models/Tier.swift:115-124 | eight rows in grade order, from 0 km to 10,000 km, contiguous, each of positive width |
| TierLaws.RowUnique | Motra/Services/Models/Tier.swift:130-131 | at most one row contains any distance |
| TierLaws.RowOf | Motra/Services/Models/Tier.swift:115-124 | every distance in [0, 10,000) km lies in some row |
| TierLaws.TierInRow | Motra/Services/Models/Tier.swift:127-156 | a distance in row i gets row i's grade and the division of its quarter of that row |
| TierLaws.GradeIsContainingRow | Motra/Services/Models/Tier.swift:127-139 | for 0 <= d < 10,000,000 m, the tier's grade is row i's grade exactly when row i contains d |
| TierLaws.FallThrough | Motra/Services/Models/Tier.swift:130-142 | negative distances and distances of 10,000 km or more both fall through to GrandMaster 1 |
| TierLaws.BronzeSilverBoundary | Motra/Services/Models/Tier.swift:127-156 | 0 m is Bronze 4, 49,999 m is Bronze 1 and 50,000 m is Silver 4 |
| TierLaws.AtMostTotal | Motra/Services/Models/Tier.swift:61-63 | the grade-then-division order on tiers is total and antisymmetric |
| TierLaws.DivisionMonotone | Motra/Services/Models/Tier.swift:146-156 | within one row, a longer distance never gets a lower division |
| TierLaws.TierMonotone | Motra/Services/Models/Tier.swift:127-156 | for 0 <= d1 <= d2, the tier of d1 is not above the tier of d2 |
| TierLaws.GradeRow | Motra/Services/Models/Tier.swift:168-179 | calculateProgress finds the tier's own grade row |
| TierLaws.ProgressFields | Motra/Services/Models/Tier.swift:159-186 | calculateProgress measures the distance's tier inside the table row of that tier's grade |
| TierLaws.ProgressWindow | Motra/Services/Models/Tier.swift:159-207 | for 0 <= d < 10,000,000 m, start <= d < end, and the window is a quarter of the row's width |
| TierLaws.TierWindow | Motra/Services/Models/Tier.swift:146-156 | the quarter of its row that the tier's division names holds the distance, in metres |
| TierLaws.InRowWindow | Motra/Services/Models/Tier.swift:182-207 | once the division's quarter of the row holds the distance, the record's window holds it and spans a quarter of the row, in metres |
| TierLaws.NextTierRules | Motra/Services/Models/Tier.swift:188-200 | next tier: the same grade one division up when the division is not 1; division 4 of the next grade after division 1; none exactly at GrandMaster 1 |
| TierHistories.GenerateTierHistory | Motra/Services/ViewModels/ProfileViewModel.swift:134-174 | the early return, the sort, the replay loop and the fallback compute exactly the history specification (Bronze 4 for no workouts, else the replay over the workouts sorted by start date) |
| TierHistories.HistoryOfNoWorkouts | Motra/Services/ViewModels/ProfileViewModel.swift:135-141 | no workouts give exactly one entry: Bronze 4 at distance 0 |
| TierHistories.ReplayStartsWithFirst | Motra/Services/ViewModels/ProfileViewModel.swift:150-162 | the first workout always records an entry for its own distance, so a non-empty replay is non-empty |
| TierHistories.HistoryIsReplay | Motra/Services/ViewModels/ProfileViewModel.swift:144-173 | for a non-empty list the fallback never runs: the history is the replay of the sorted workouts |
| TierHistories.ReplayEntry | Motra/Services/ViewModels/ProfileViewModel.swift:150-161 | each entry belongs to some k-th workout: its distance is the prefix sum of the first k distances, its date is the k-th start date, and its tier is the calculator's tier of that sum |
| TierHistories.ReplayTiersChange | Motra/Services/ViewModels/ProfileViewModel.swift:155-162 | consecutive entries always have different tiers |
| TierHistories.ReplayLastTier | Motra/Services/ViewModels/ProfileViewModel.swift:150-162 | the replay's last tier is the calculator's tier of the whole total |
| TierHistories.ReplayEntriesAgree | Motra/Services/ViewModels/ProfileViewModel.swift:151-159 | every entry's tier is the tier of its distance; with non-negative distances each entry's distance lies in [0, total] |
| TierHistories.ReplayClimbs | Motra/Services/ViewModels/ProfileViewModel.swift:150-162 | with non-negative distances the replay's tier levels strictly increase |
| TierHistories.TotalDistanceSorted | Motra/Services/ViewModels/ProfileViewModel.swift:144 | sorting by start date does not change the total distance |
| TierHistories.HistoryEndsAtCurrentTier | Motra/Services/ViewModels/ProfileViewModel.swift:57-70 | the last history entry has the tier that loadData computes from the summed distances and stores in the profile |
| TierHistories.HistoryClimbs | Motra/Services/ViewModels/ProfileViewModel.swift:144-173 | with non-negative distances the history's tiers strictly increase |
| Profiles.DefaultProfile | Motra/Services/Models/UserProfile.swift:24-48 | the default profile: "러너"/"runner", no bio or image, Bronze 4, distance 0 and all counts 0 |
| Profiles.MockProfile | Motra/Services/Models/UserProfile.swift:165-176 | `UserProfile.mock`: "나"/"me" with its bio, Bronze 4, distance 0 and zero counts |
| Profiles.TierLevel | Motra/Services/Models/UserProfile.swift:81-96 | the level is 4 times the grade index plus (4 - division), so always in 0..31 |
| Profiles.TierLevelInjective | Motra/Services/Models/UserProfile.swift:81-96 | two tiers have the same level exactly when they are the same tier |
| Profiles.TierLevelExtremes | Motra/Services/Models/UserProfile.swift:81-96 | Bronze 4 has level 0 and GrandMaster 1 has level 31 |
| Profiles.TierLevelOrder | Motra/Services/Models/UserProfile.swift:81-96 | the level order is the calculator's grade-then-division order, in both directions |
| Profiles.NextTierIsOneLevelUp | Motra/Services/Models/Tier.swift:188-200 | calculateProgress's next tier is exactly one level above the current tier |
| Profiles.TierLevelMonotone | Motra/Services/Models/UserProfile.swift:81-96 | for 0 <= d1 <= d2, the level of d1's tier is at most the level of d2's tier |
| Profiles.MockHistory | Motra/Services/Models/UserProfile.swift:179-212 | six entries, each dated by its calendar date |
| Profiles.MockHistoryConsistent | Motra/Services/Models/UserProfile.swift:180-211 | each mock entry's tier is the calculator's tier of its distance, and the levels strictly increase |
| Profiles.MockFollowers | Motra/Services/Models/UserProfile.swift:238-242 | three follow relations, all marked as followed |
| Profiles.MockFollowing | Motra/Services/Models/UserProfile.swift:244-247 | two follow relations, all marked as followed |
| ProfileScreen.IsMyPostByNames | Motra/Services/ViewModels/ProfileViewModel.swift:125-131 | isMyPost looks only at the author's names: a post under "나" or "me" is every user's, a post that is not the user's carries neither their nickname nor their username, and users with the same nickname and username claim the same posts |
| ProfileScreen.Restamped | Motra/Services/ViewModels/ProfileViewModel.swift:82-90 | the restamped post counts as the user's own and reads back as the current tier; only the three author fields change |
| ProfileScreen.MyPostsOf | Motra/Services/ViewModels/ProfileViewModel.swift:80-91 | myPosts is no longer than the fetched list, and every entry is the user's and shows the current tier |
| ProfileScreen.MyPostsOfAppend | Motra/Services/ViewModels/ProfileViewModel.swift:80-91 | the filter-and-map keeps the original order: it distributes over concatenation |
| ProfileScreen.MyPostsComplete | Motra/Services/ViewModels/ProfileViewModel.swift:80-91 | every post isMyPost accepts appears, restamped, in myPosts |
| ProfileScreen.LikedPostsOf | Motra/Services/ViewModels/ProfileViewModel.swift:97-111 | likedPosts is no longer than the fetched list, and every entry is liked |
| ProfileScreen.LikedPostsComplete | Motra/Services/ViewModels/ProfileViewModel.swift:97-111 | every liked post appears: restamped when it is the user's, unchanged otherwise |
| ProfileScreen.PostsToRename | Motra/Services/ViewModels/ProfileViewModel.swift:194-199 | every post sent back carries the new nickname and username |
| ProfileScreen.RenameCoversOwnPosts | Motra/Services/ViewModels/ProfileViewModel.swift:182-199 | every post written under the previous identity is renamed, and the renamed post is recognised as the renamed user's own |
| ProfileScreen.PostsToRenameAppend | Motra/Services/ViewModels/ProfileViewModel.swift:194-199 | the posts sent back keep the fetched order: the selection distributes over concatenation |
| ProfileScreen.PostsToRenameByNames | Motra/Services/ViewModels/ProfileViewModel.swift:125-131 | the selection depends on the user's nickname and username only |
| ProfileScreen.PostsToRenameAsWritten | Motra/Services/ViewModels/ProfileViewModel.swift:182-199 | as written, the posts sent back are those `isMyPost` accepts after the names changed; each carries the new names, and there are no more than were fetched |
| ProfileScreen.RenameAsWrittenIgnoresPreviousNames | Motra/Services/ViewModels/ProfileViewModel.swift:182-199 | as written, the names held before the change make no difference to which posts are sent back |
| ProfileScreen.RenameAsWrittenSelects | Motra/Services/ViewModels/ProfileViewModel.swift:194-199 | as written, a post under either new name or under "나"/"me" is sent back, renamed |
| ProfileScreen.RenameAsWrittenSkips | Motra/Services/ViewModels/ProfileViewModel.swift:194-199 | as written, a post under neither new name nor the placeholder is left out: the result is that of the list without it |
| ProfileScreen.RenameMissesPreviousNames | Motra/Services/ViewModels/ProfileViewModel.swift:182-199 | as written, a post under the previous non-placeholder names is not renamed, although the corrected selection renames it |
| ProfileScreen.ToggleLikedListAsWritten | Motra/Services/ViewModels/ProfileViewModel.swift:232-257 | as written: an unknown id changes nothing; a successful unlike removes the entry and a successful like toggles it; a failed like is rolled back; a failed unlike leaves one more entry than before, the argument counted one like higher at the found index followed by the toggled entry |
| ProfileScreen.ToggleLikedDiffersOnFailedUnlike | Motra/Services/ViewModels/ProfileViewModel.swift:232-257 | the as-written and corrected likedPosts toggles give the same list exactly when the call is not a failed unlike of a listed post |
| ProfileScreen.FailedUnlikeDuplicates | Motra/Services/ViewModels/ProfileViewModel.swift:232-257 | as written, a failed unlike leaves two entries for the post in likedPosts, one of them counted one like too many |
| ProfileScreen.ToggleLikedList | Motra/Services/ViewModels/ProfileViewModel.swift:232-257 | corrected likedPosts toggle: a failed call leaves the list as it was; a successful unlike removes the entry; a successful like toggles it; an unknown id changes nothing |
| ProfileScreen.ProfileViewModel.constructor | Motra/Services/ViewModels/ProfileViewModel.swift:35-48 | the profile starts as the manager's current user, with empty lists |
| ProfileScreen.ProfileViewModel.LoadData | Motra/Services/ViewModels/ProfileViewModel.swift:51-122 | (as the predicate LoadedFrom spells out) the tier of the summed distances goes to the manager and the profile; the history is rebuilt and ends at that tier; myPosts and likedPosts are derived from the fetched posts; the post count and mock follow lists are set; each failure sets the message and keeps everything not yet updated |
| ProfileScreen.ProfileViewModel.ApplyWorkouts | Motra/Services/ViewModels/ProfileViewModel.swift:57-70 | the tier of the summed distances goes to the manager and the profile, the history is rebuilt and ends at that tier, and the post and follow lists, the flag and the message are unchanged |
| ProfileScreen.ProfileViewModel.ApplyFetchedPosts | Motra/Services/ViewModels/ProfileViewModel.swift:73-114 | myPosts and likedPosts are derived for the current user, the post count follows myPosts, the mock follow lists are set, and the history, the flag and the message are unchanged |
| ProfileScreen.ProfileViewModel.UpdateProfile | Motra/Services/ViewModels/ProfileViewModel.swift:182-206 | the manager and the profile take the new names; the posts sent back are those `isMyPost` accepts against the new names, renamed, in order; on a successful fetch the screen is then in the state loadData leaves from the edited user (history, myPosts, likedPosts, counts, follows and message); a failed fetch sets the message and changes nothing else |
| ProfileScreen.ProfileViewModel.TogglePostLike | Motra/Services/ViewModels/ProfileViewModel.swift:209-259 | myPosts is toggled and rolled back on failure; likedPosts follows the toggle as written, the re-insert after a failed unlike included; nothing else changes |
| ProfileScreen.ProfileViewModel.ToggleFollow | Motra/Services/ViewModels/ProfileViewModel.swift:261-272 | the first matching entry flips and followingCount moves by one in the same direction; an unknown id changes nothing; history, followers, posts, loading flag and message are untouched |
| ProfileScreen.FirstFollow | Motra/Services/ViewModels/ProfileViewModel.swift:262 | the index of the first follow with the id, or none when no follow has it |
| LikeToggles.ToggledLike | Motra/Services/ViewModels/FeedViewModel.swift:102-103 | the flag flips and the count moves by one in the direction of the new flag |
| LikeToggles.ToggledPost | Motra/Services/ViewModels/FeedViewModel.swift:102-103 | the flag flips and the count moves by one in the same direction; nothing else changes |
| LikeToggles.RolledBack | Motra/Services/ViewModels/FeedViewModel.swift:113-114 | the rollback sets the old flag and moves the count back by one |
| LikeToggles.RollbackRestores | Motra/Services/ViewModels/FeedViewModel.swift:99-115 | the rollback after a toggle gives back the post as it was before the call |
| LikeToggles.ToggleTwice | Motra/Services/ViewModels/FeedViewModel.swift:102-103 | two toggles give back the original post |
| LikeToggles.ToggledItem | Motra/Services/ViewModels/HomeViewModel.swift:68-69 | a feed item's flag and count change as ToggledLike changes them, and nothing else changes |
| LikeToggles.ToggleItemTwice | Motra/Services/ViewModels/HomeViewModel.swift:68-69 | two toggles give back the original item |
| LikeToggles.ToggleInList | Motra/Services/ViewModels/FeedViewModel.swift:96-116 | same length; an unknown id or a failed call leaves the list as it was; otherwise only the first matching post is toggled |
| LikeToggles.ToggleInListTwice | Motra/Services/ViewModels/FeedViewModel.swift:96-116 | two successful toggles leave the list as it was |
| FeedScreen.ApplyCurrentTier | Motra/Services/ViewModels/FeedViewModel.swift:142-157 | same length and order; with no tier, the identity; posts not by "나"/"me" are unchanged; posts by them change only authorTier |
| FeedScreen.ApplyCurrentTierShowsTier | Motra/Services/ViewModels/FeedViewModel.swift:145-153 | each of the user's posts then reads back as the current tier |
| FeedScreen.ApplyCurrentTierIdempotent | Motra/Services/ViewModels/FeedViewModel.swift:142-157 | applying the tier twice is the same as applying it once |
| FeedScreen.ApplyCurrentTierAppend | Motra/Services/ViewModels/FeedViewModel.swift:142-157 | applying the tier page by page is the same as applying it to the concatenation |
| FeedScreen.CurrentUserTier | Motra/Services/ViewModels/FeedViewModel.swift:131-139 | the calculator's tier of the summed distances, or Bronze 4 when the fetch fails |
| FeedScreen.FeedViewModel.constructor | Motra/Services/ViewModels/FeedViewModel.swift:31-41 | an empty feed at offset 0 that may have more posts |
| FeedScreen.FeedViewModel.LoadCurrentUserTier | Motra/Services/ViewModels/FeedViewModel.swift:131-139 | sets the current tier and nothing else |
| FeedScreen.FeedViewModel.LoadPosts | Motra/Services/ViewModels/FeedViewModel.swift:44-66 | the tier is settled; the feed becomes the first page with the tier applied; the offset becomes its length; hasMorePosts holds iff the page is full; a failure keeps the posts, sets the message and resets the offset to 0 |
| FeedScreen.FeedViewModel.LoadMorePosts | Motra/Services/ViewModels/FeedViewModel.swift:69-88 | a no-op while loading or when there are no more posts; otherwise the page is appended and the offset advances by its length; a failure leaves posts and offset unchanged |
| FeedScreen.FeedViewModel.Refresh | Motra/Services/ViewModels/FeedViewModel.swift:91-93 | the same new state as loadPosts |
| FeedScreen.FeedViewModel.ToggleLike | Motra/Services/ViewModels/FeedViewModel.swift:96-116 | the feed becomes the list toggle of the post, rolled back on failure; offset, hasMore, both loading flags, message and tier are unchanged |
| FeedScreen.FeedViewModel.DeletePost | Motra/Services/ViewModels/FeedViewModel.swift:119-126 | on success every post with that id leaves the feed, in order; on failure the posts stay and the message is set; the offset, hasMorePosts and the loading flags are unchanged either way |
| FeedScreen.ClampedOffset | Motra/Services/ViewModels/FeedViewModel.swift:119-126 | corrected deletion: the lowered offset is never negative and is offset minus removed whenever that is non-negative |
| FeedScreen.PagesConcatenate | Motra/Services/ViewModels/FeedViewModel.swift:74-82 | with no deletions, the shown posts plus the next page are the store's newest-first list up to the new offset |
| FeedScreen.DeleteShownPost | Motra/Services/ViewModels/FeedViewModel.swift:119-123 | with distinct ids, deleting the shown post `s[d]` leaves the feed holding the first `offset - 1` posts of the shortened list |
| FeedScreen.DeleteThenLoadMoreSkips | Motra/Services/ViewModels/FeedViewModel.swift:69-82 | as written, after that deletion the page fetched at the unchanged offset starts at `s[offset + 1]`: `s[offset]` lies between the kept posts and the next page and is in neither |
| FeedScreen.DeleteThenLoadMoreCorrected | Motra/Services/ViewModels/FeedViewModel.swift:119-126 | with the offset lowered by the number removed, it equals the number of posts kept, and the kept posts followed by the next page are a prefix of the shortened list |
| HomeScreen.FirstItem | Motra/Services/ViewModels/HomeViewModel.swift:66 | the index of the first feed item with the id, or none |
| HomeScreen.HomeViewModel.constructor | Motra/Services/ViewModels/HomeViewModel.swift:20-29 | nothing loaded yet |
| HomeScreen.HomeViewModel.LoadData | Motra/Services/ViewModels/HomeViewModel.swift:32-57 | tierProgress is calculateProgress of the summed distances; recentExercise is the first workout listed; the feed is the mock feed; a failure keeps all three and sets the message; loading ends false |
| HomeScreen.HomeViewModel.ToggleLike | Motra/Services/ViewModels/HomeViewModel.swift:65-72 | the first item with the id is toggled; an unknown id changes nothing |
| HomeScreen.ToggleFeedItemTwice | Motra/Services/ViewModels/HomeViewModel.swift:65-72 | toggling an item twice leaves the feed as it was |
| PostStore.ByRecency | Motra/Services/Repository/PostRepository.swift:53 | the sorted posts are a permutation of the stored ones, newest first |
| PostStore.Page | Motra/Services/Repository/PostRepository.swift:55-59 | the slice [min(offset,n), min(offset+limit,n)): at most `limit` posts, exactly the posts from position `offset` on |
| PostStore.PageNewestFirst | Motra/Services/Repository/PostRepository.swift:52-59 | a page of a newest-first list is newest first |
| PostStore.PagesAdjoin | Motra/Services/Repository/PostRepository.swift:55-59 | consecutive pages neither overlap nor skip a post |
| PostStore.MockFeedPosts | Motra/Services/Repository/PostRepository.swift:281-346 | four seed posts, newest first, none liked, all public |
| PostStore.IndexOfPost | Motra/Services/Repository/PostRepository.swift:83 | the index of the first post with the id, or none when no post has it |
| PostStore.LikesWithout | Motra/Services/Repository/PostRepository.swift:127-128 | exactly the like records not by that user on that post remain |
| PostStore.LikedPostIds | Motra/Services/Repository/PostRepository.swift:133-136 | an id is listed exactly when the user has a post-like record on it |
| PostStore.PostsWithIds | Motra/Services/Repository/PostRepository.swift:139-140 | exactly the stored posts whose id is listed |
| PostStore.LocalPostRepository.constructor | Motra/Services/Repository/PostRepository.swift:32-39 | the repository over the stored posts, comments and likes |
| PostStore.LocalPostRepository.FetchPosts | Motra/Services/Repository/PostRepository.swift:43-60 | an empty store is first seeded with the mock posts; the result is the requested page of the newest-first posts, at most `limit` long |
| PostStore.LocalPostRepository.FetchMyPosts | Motra/Services/Repository/PostRepository.swift:62-67 | a newest-first permutation of the user's stored posts |
| PostStore.LocalPostRepository.FetchPost | Motra/Services/Repository/PostRepository.swift:69-72 | some post exactly when a stored post has the id, and then the first stored post with that id |
| PostStore.LocalPostRepository.CreatePost | Motra/Services/Repository/PostRepository.swift:74-79 | the new post goes first and the others keep their order; it is returned |
| PostStore.LocalPostRepository.UpdatePost | Motra/Services/Repository/PostRepository.swift:81-88 | only the first post with the same id is replaced; the store is unchanged when none matches; the argument is returned |
| PostStore.LocalPostRepository.DeletePost | Motra/Services/Repository/PostRepository.swift:90-99 | every post with the id and every comment on it are removed; likes are unchanged |
| PostStore.LocalPostRepository.LikePost | Motra/Services/Repository/PostRepository.swift:103-116 | the first matching post is marked liked and counted once more; one like record is appended in every case |
| PostStore.LocalPostRepository.UnlikePost | Motra/Services/Repository/PostRepository.swift:118-130 | the first matching post is unmarked and its count is lowered but never below 0; every like by that user on it is removed |
| PostStore.LocalPostRepository.FetchLikedPosts | Motra/Services/Repository/PostRepository.swift:132-142 | a newest-first permutation of the stored posts the user has liked |
| PostStore.LocalPostRepository.FetchComments | Motra/Services/Repository/PostRepository.swift:146-151 | an oldest-first permutation of the post's comments |
| PostStore.LocalPostRepository.CreateComment | Motra/Services/Repository/PostRepository.swift:153-166 | the comment is appended, and the first matching post counts one more comment |
| PostStore.LocalPostRepository.DeleteComment | Motra/Services/Repository/PostRepository.swift:168-179 | every comment with the id is removed; the post's count drops by one, clamped at 0, even when no comment was removed |
| PostStore.ClampedDecrement | Motra/Services/Repository/PostRepository.swift:122 | `max(0, n - 1)`: never negative, and n - 1 whenever n >= 1 |
| Seqs.Filter | Motra/Services/Repository/PostRepository.swift:92 | `removeAll(where:)` and `filter`: no longer than the input; an element is kept exactly when the predicate accepts it; the identity when everything is accepted |
| Seqs.FilterAppend | Motra/Services/ViewModels/FeedViewModel.swift:122 | filtering keeps the order: it distributes over concatenation |
| Seqs.FilterCounts | Motra/Services/ViewModels/FeedViewModel.swift:122 | each accepted value is kept as many times as it occurs, and each rejected value is dropped |
| Seqs.FilterDropsOne | Motra/Services/ViewModels/FeedViewModel.swift:122 | removing the one rejected element between two accepted stretches closes the gap |
| Seqs.FirstIndex | Motra/Services/ViewModels/FeedViewModel.swift:97 | `firstIndex(where:)`: the first index whose element satisfies the predicate, or none when no element does |
| Sorting.InsertSorted | Motra/Services/ViewModels/ProfileViewModel.swift:144 | inserting into a sorted sequence keeps it sorted |
| Sorting.SortBy | Motra/Services/ViewModels/ProfileViewModel.swift:144 | `sorted { key($0) < key($1) }`: a permutation of the input, sorted by the key |
| Tracking.CalculatePace | Motra/Services/Location/LocationManager.swift:128-133 | 0 without positive distance; otherwise the pace times the distance in km is the time (seconds per km), non-negative for non-negative time |
| Tracking.CalculateCalories | Motra/Services/Location/LocationManager.swift:135-140 | kilometres times 70 kg; never negative for non-negative distance |
| Tracking.CaloriesMonotone | Motra/Services/Location/LocationManager.swift:135-140 | more distance never gives fewer calories |
| Tracking.LocationManager.constructor | Motra/Services/Location/LocationManager.swift:29-38 | the current permission status, nothing tracked, zero figures |
| Tracking.LocationManager.StartTracking | Motra/Services/Location/LocationManager.swift:48-73 | undetermined permission only sets the pending flag; denied or restricted changes nothing; otherwise tracking starts now with an empty route, zero figures and no last location |
| Tracking.LocationManager.StopTracking | Motra/Services/Location/LocationManager.swift:76-81 | tracking, location updates and the timer stop; route and figures are kept |
| Tracking.LocationManager.PauseTracking | Motra/Services/Location/LocationManager.swift:84-88 | the same new state as stopping |
| Tracking.LocationManager.ResumeTracking | Motra/Services/Location/LocationManager.swift:91-95 | tracking restarts without resetting the start time, route, figures or last location |
| Tracking.LocationManager.Tick | Motra/Services/Location/LocationManager.swift:112-117 | called only while the timer is scheduled; the elapsed time becomes now minus the start time, so paused time is included; nothing else changes |
| Tracking.LocationManager.DidChangeAuthorization | Motra/Services/Location/LocationManager.swift:146-158 | the new status is taken; a pending start is always cleared, and tracking starts only if the new status is authorized |
| Tracking.LocationManager.DidUpdateLocations | Motra/Services/Location/LocationManager.swift:160-194 | an empty update changes nothing; an untracked update only sets the current location; a tracked update appends one route point and adds the distance from the last location (none for the first), keeps the speed non-negative, recomputes pace only when elapsed time is positive, and derives calories; the distance never decreases |
| Tracking.LocationManager.CurrentSession | Motra/Services/Location/LocationManager.swift:98-108 | a session of that type with the route and figures so far, started and ended at the moment of the call |
| Tracking.SessionFiguresNonNegative | Motra/Services/Location/LocationManager.swift:98-108 | a session taken from the manager has non-negative distance, speed and calories |
| WorkoutSaving.RecordOf | Motra/Models/WorkoutSaveHelper.swift:19-34 | the stored distance is the tracked metres divided by 1000 (kilometres); pace times distance is the duration when the distance is positive, else the pace is 0; the start lies `duration` seconds before the end (now); notes default to "운동을 완료했습니다" |
| WorkoutSaving.DataPointOf | Motra/Models/WorkoutSaveHelper.swift:38-45 | same latitude, longitude, altitude and timestamp; a non-negative speed is kept, a negative one is stored as 0 |
| WorkoutSaving.DataPointsOf | Motra/Models/WorkoutSaveHelper.swift:37-46 | exactly one stored point per route point, in route order |
| WorkoutSaving.DataPointSpeedsNonNegative | Motra/Models/WorkoutSaveHelper.swift:43 | no stored point has a negative speed |
| WorkoutSaving.SaveWorkout | Motra/Models/WorkoutSaveHelper.swift:11-49 | the record of the manager's figures and, from the copy loop, the data points of its route in order |
| Workouts.WorkoutTypeNamesDistinct | Motra/Services/Models/Exercise.swift:12-17 | the four raw values are distinct, so a stored type name identifies its type |
| Workouts.WorkoutTypeIcon | Motra/Services/Models/Exercise.swift:18-25 | each workout type has its own symbol, and only that type has it |
| Workouts.RoutePointOf | Motra/Services/Models/Exercise.swift:37-44 | a route point copies the sample's latitude, longitude, altitude, timestamp and speed |
| Workouts.ExerciseOf | Motra/Services/Models/Exercise.swift:64-74 | duration, distance, calories, pace, notes and end date are copied unchanged; a missing type becomes "운동", a missing id a fresh one, a missing start now |
| Workouts.ExercisePaceLabel | Motra/Services/Models/Exercise.swift:104-109 | "--:--" exactly when the pace is not positive; otherwise minutes and seconds in [0,60) that together make the whole seconds of the pace |
| Workouts.ExerciseDurationLabel | Motra/Services/Models/Exercise.swift:111-121 | the H:MM:SS layout exactly from one hour on; for non-negative durations hours*3600 + minutes*60 + seconds is the whole seconds, with minutes and seconds below 60 |
| Workouts.TotalDistancePrefix | Motra/Services/ViewModels/ProfileViewModel.swift:58 | with non-negative distances no prefix sum is negative or exceeds the total |
| Workouts.NewWorkoutSession | Motra/Services/Models/Exercise.swift:137-148 | a new session of that type starts now with an empty route, all-zero figures and no end date |
| Workouts.SessionPaceLabel | Motra/Models/WorkoutModels.swift:84-89 | "--:--" exactly when the average pace is not positive; otherwise seconds in [0,60) |
| Workouts.SessionDurationLabel | Motra/Models/WorkoutModels.swift:92-102 | the session clock (minutes as `n / 60 % 60`) is the same label as the Exercise clock, splitting the whole seconds with minutes and seconds below 60 |
| Workouts.StatsPaceLabel | Motra/Models/WorkoutModels.swift:121-126 | "--:--" exactly when the current pace is not positive; otherwise seconds in [0,60) |
| Workouts.StatsTimeLabel | Motra/Models/WorkoutModels.swift:128-138 | the elapsed time split the same way as the Exercise clock, with minutes and seconds below 60 |
| TimeFormat.PaceLabelOf | Motra/Services/Models/Exercise.swift:154-159 | "--:--" exactly when the pace is not positive; otherwise minutes >= 0 and seconds in [0,60) make up the whole seconds of the pace |
| TimeFormat.PaceSplit | Motra/Services/Models/Exercise.swift:106-107 | `Int(p / 60)` minutes and `Int(p.truncatingRemainder(dividingBy: 60))` seconds make up `Int(p)` |
| TimeFormat.ExerciseClock | Motra/Services/Models/Exercise.swift:111-121 | the hours layout exactly from 3600 s; for non-negative durations the parts add up to the whole seconds |
| TimeFormat.HmsRanges | Motra/Services/Models/Exercise.swift:112-114 | `n / 3600`, `(n % 3600) / 60` and `n % 60` add back up to n; hours are positive exactly from 3600; minutes and seconds are above -60 and below 60, and non-negative for non-negative n |
| TimeFormat.SessionClock | Motra/Services/Models/Exercise.swift:161-171 | the hours layout exactly from 3600 s, with minutes and seconds strictly between -60 and 60 |
| TimeFormat.HmsSplit | Motra/Services/Models/Exercise.swift:112-114 | with truncating Int division, n = 3600 h + 60 m + s for every Int |
| TimeFormat.MinuteFormulasAgree | Motra/Services/Models/Exercise.swift:113 | `(n % 3600) / 60` equals `n / 60 % 60` for every Int, so both WorkoutSession copies and Exercise show the same minutes |
| TimeFormat.ClocksAgree | Motra/Models/WorkoutModels.swift:92-102 | the WorkoutModels session clock and the Exercise clock are the same label for every duration |
| TimeFormat.HourMinuteLabelOf | Motra/Services/Models/Statistics.swift:24-32 | "H시간 M분" exactly from one hour on; for non-negative times the label drops less than a minute of seconds, with minutes below 60 |
| SwiftNum.Trunc | Motra/Services/Models/Exercise.swift:112 | `Int(x)` rounds toward zero |
| SwiftNum.Quot | Motra/Services/Models/Exercise.swift:112 | Int `/` truncates toward zero |
| SwiftNum.Rem | Motra/Services/Models/Exercise.swift:114 | Int `%` has the dividend's sign, and `a == (a / b) * b + a % b` |
| SwiftNum.TruncRem | Motra/Services/Models/Exercise.swift:107 | `truncatingRemainder(dividingBy:)` has the dividend's sign and is smaller in size than the divisor |
| Posts.TierDataOf | Motra/Services/Models/Post.swift:97-100 | a tier is stored as its grade's raw value and its division's raw value (1...4) |
| Posts.GradeNamedFrom | Motra/Services/Models/Post.swift:103 | `allCases.first { $0.rawValue == grade }`: a grade with that raw value, or none when no grade has it |
| Posts.ToTier | Motra/Services/Models/Post.swift:102-106 | a known grade name reads back as that grade and an unknown one as bronze; a division in 1...4 reads back as itself and any other as four |
| Posts.GradeNameInjective | Motra/Services/Models/Tier.swift:11-19 | two grades have the same raw value exactly when they are the same grade |
| Posts.DivisionValueInjective | Motra/Services/Models/Tier.swift:49-54 | two divisions have the same raw value exactly when they are the same division |
| Posts.TierDataRoundTrip | Motra/Services/Models/Post.swift:97-106 | `TierData(from: t).toTier == t` for every tier |
| Posts.TierDataOfToTier | Motra/Services/Models/Post.swift:97-106 | a TierData naming a real grade and a division in 1...4 comes back unchanged after toTier and back |
| Posts.DefaultTierDataIsBronzeFour | Motra/Services/Models/Post.swift:35 | the default author tier ("브론즈", 4) is exactly the stored form of Bronze 4 |
| Posts.SummaryOf | Motra/Services/Models/Post.swift:121-127 | the summary copies type, distance, duration, calories and start date unchanged |
| Posts.SummaryDurationLabel | Motra/Services/Models/Post.swift:141-150 | "H시간 M분" exactly from one hour on, else "M분"; minutes below 60 and less than a minute of seconds dropped |
| Posts.WorkoutIcon | Motra/Services/Models/Post.swift:152-160 | the runner exactly for any name other than 사이클/워킹/등산; each of those three has its own symbol, and only it |
| Posts.WorkoutIconOfTypes | Motra/Services/Models/Post.swift:152-160 | each workout type's raw value gets its own symbol, which is `WorkoutType.icon`'s symbol for every type but cycling |
| Posts.NewPost | Motra/Services/Models/Post.swift:30-62 | the defaults: Bronze 4, public, no exercise, image or summary, zero counts, not liked, created and updated now |
| Posts.NewComment | Motra/Services/Models/Post.swift:176-198 | the defaults: Bronze 4, zero likes, not liked, created now |
| SocialFeed.NewFeedUser | Motra/Services/Models/SocialFeed.swift:56-66 | a new feed user keeps its id and nickname, has no picture and defaults to Bronze 4 |
| SocialFeed.NewFeedItem | Motra/Services/Models/SocialFeed.swift:21-39 | a new feed item has no text, zero likes and comments, is not liked, and is stamped now |
| SocialFeed.FeedDurationLabel | Motra/Services/Models/SocialFeed.swift:80-89 | hours are shown exactly from one hour on; the minutes stay below 60 and the label drops less than a minute of the whole seconds |
| SocialFeed.LowerChar | Motra/Services/Models/SocialFeed.swift:92 | lower-casing maps A-Z to a-z, leaves every other character alone, and never yields an upper-case letter |
| SocialFeed.Lower | Motra/Services/Models/SocialFeed.swift:92 | lower-casing keeps the length and lower-cases each character in place |
| SocialFeed.LowerIdempotent | Motra/Services/Models/SocialFeed.swift:92 | lower-casing twice is lower-casing once |
| SocialFeed.FeedWorkoutIcon | Motra/Services/Models/SocialFeed.swift:91-102 | the running, cycling and walking symbols are chosen exactly for their lower-cased names, the mixed-cardio symbol exactly for every other name |
| SocialFeed.FeedIconIgnoresCase | Motra/Services/Models/SocialFeed.swift:91-102 | two type names that lower-case alike get the same symbol |
| SocialFeed.MockFeedItems | Motra/Services/Models/SocialFeed.swift:126-192 | the sample feed has four unliked items with non-negative like counts, newest first |
| StatisticsModel.DisplayName | Motra/Services/Models/Statistics.swift:73-79 | each period's name is its Korean label |
| StatisticsModel.DisplayNamesDistinct | Motra/Services/Models/Statistics.swift:73-79 | different periods have different names |
| StatisticsModel.TotalTimeLabel | Motra/Services/Models/Statistics.swift:24-33 | hours are shown exactly from one hour on and are then the whole hours; the minutes stay below 60 and the label drops less than a minute |
| StatisticsModel.HourMinuteHours | Motra/Services/Models/Statistics.swift:25 | the hours shown are the whole seconds divided by 3600 |
| StatisticsModel.AveragePaceLabel | Motra/Services/Models/Statistics.swift:43-48 | "--:--" exactly when the average pace is not positive, otherwise minutes and seconds below 60 that add up to the whole seconds |
| StatisticsStore.FilterExercises | Motra/Services/Repository/StatisticsRepository.swift:80-103 | keeps exactly the workouts that started within the period, each as many times as it occurs: the last seven days with both ends included, or the calendar month or year with the start included and the end excluded |
| StatisticsStore.FilterExercisesAppend | Motra/Services/Repository/StatisticsRepository.swift:80-103 | the kept workouts keep their order: the filter distributes over concatenation |
| StatisticsStore.SumOfDistance | Motra/Services/Repository/StatisticsRepository.swift:26 | the statistics' total distance is the same sum the tiers are computed from |
| StatisticsStore.SumOfNonNegative | Motra/Services/Repository/StatisticsRepository.swift:26-31 | a sum of non-negative figures is non-negative and at least each of its terms |
| StatisticsStore.CountByTypeKeys | Motra/Services/Repository/StatisticsRepository.swift:33-36 | the per-type counts have exactly the types that occur as keys, each counted at least once |
| StatisticsStore.CountWorkoutsByType | Motra/Services/Repository/StatisticsRepository.swift:33-36 | the loop builds the per-type counts of all the workouts |
| StatisticsStore.CountByTypeCounts | Motra/Services/Repository/StatisticsRepository.swift:33-36 | each type's count is the number of workouts of that type |
| StatisticsStore.CountOfAbsentType | Motra/Services/Repository/StatisticsRepository.swift:33-36 | a type that does not occur has no workouts |
| StatisticsStore.CountByTypeStep | Motra/Services/Repository/StatisticsRepository.swift:34-36 | one more loop step adds one to its workout's type, starting from zero |
| StatisticsStore.CountsSumToWorkoutCount | Motra/Services/Repository/StatisticsRepository.swift:29-36 | the per-type counts add up to the workout count |
| StatisticsStore.StatisticsOf | Motra/Services/Repository/StatisticsRepository.swift:26-46 | the count is the number of workouts; distance, time and calories are their sums; the averages are the sums over the count, or zero with no workouts; the per-type counts are those of the workouts |
| StatisticsStore.GetStatistics | Motra/Services/Repository/StatisticsRepository.swift:22-47 | a failed fetch is passed on; otherwise the statistics of the workouts filtered to the period |
| StatisticsStore.StringLessIrreflexive | Motra/Services/Repository/StatisticsRepository.swift:76 | no date key sorts before itself |
| StatisticsStore.StringLessTrichotomy | Motra/Services/Repository/StatisticsRepository.swift:76 | any two different date keys are ordered one way or the other |
| StatisticsStore.StringLessTransitive | Motra/Services/Repository/StatisticsRepository.swift:76 | the key order is transitive |
| StatisticsStore.AddToChart | Motra/Services/Repository/StatisticsRepository.swift:72 | adding a distance under a key adds it to that key's bar only, and to the chart's total |
| StatisticsStore.AddToChartCaptions | Motra/Services/Repository/StatisticsRepository.swift:72 | adding under a key leaves the chart's labels plus that key |
| StatisticsStore.AddToChartAscending | Motra/Services/Repository/StatisticsRepository.swift:72-76 | adding under a key keeps the bars strictly ascending by label |
| StatisticsStore.DateFormat | Motra/Services/Repository/StatisticsRepository.swift:58-70 | the weekly, monthly and yearly keys use the formats "M/d", "d일" and "M월" |
| StatisticsStore.ChartOf | Motra/Services/Repository/StatisticsRepository.swift:53-77 | the chart is strictly ascending by label and its values add up to the total distance |
| StatisticsStore.ChartCaptions | Motra/Services/Repository/StatisticsRepository.swift:53-77 | the chart has a bar for each date key that occurs and for no other |
| StatisticsStore.ChartValues | Motra/Services/Repository/StatisticsRepository.swift:53-77 | each key's bar holds the total distance of the workouts on that key |
| StatisticsStore.ChartLabelsUnique | Motra/Services/Repository/StatisticsRepository.swift:75-77 | no label appears twice in the chart |
| StatisticsStore.GetChartData | Motra/Services/Repository/StatisticsRepository.swift:49-78 | a failed fetch is passed on; otherwise the chart of the workouts filtered to the period, keyed by the formatter's text for the period's format |
| LocalAuth.ErrorDescription | Motra/Services/Auth/LocalAuthService.swift:20-35 | every error has a non-empty message |
| LocalAuth.ErrorDescriptionsDistinct | Motra/Services/Auth/LocalAuthService.swift:20-35 | different errors have different messages |
| LocalAuth.LastIndexOf | Motra/Services/Auth/LocalAuthService.swift:147 | the index found holds the character and no later index does; none is found exactly when the character does not occur |
| LocalAuth.IsValidEmail | Motra/Services/Auth/LocalAuthService.swift:146-149 | an address is valid exactly when it splits into a non-empty local part of letters, digits and "._%+-", an "@", a non-empty domain of letters, digits, "." and "-", a ".", and at least two letters up to the end |
| LocalAuth.EmailSplitIsDetermined | Motra/Services/Auth/LocalAuthService.swift:147 | any split the pattern accepts is at the first "@" and the last "." |
| LocalAuth.SignUpError | Motra/Services/Auth/LocalAuthService.swift:51-69 | each refusal happens exactly when its check is the first to fail, in the order empty field, invalid email, password under six characters, email already registered; no refusal exactly when all checks pass |
| LocalAuth.Registered | Motra/Services/Auth/LocalAuthService.swift:76 | the store after a sign-up holds the new id besides the old ones, and every other account is unchanged |
| LocalAuth.SignUpKeepsWellFormed | Motra/Services/Auth/LocalAuthService.swift:65-77 | signing up keeps the accounts keyed by their ids and their emails unique |
| LocalAuth.SignUpThenSignIn | Motra/Services/Auth/LocalAuthService.swift:51-107 | an account just created can be signed in to with the same email and password |
| LocalAuth.SecondSignUpRefused | Motra/Services/Auth/LocalAuthService.swift:65-69 | once an email is registered, a further sign-up with it that passes the other checks is refused as already registered |
| LocalAuth.LocalAuthService.constructor | Motra/Services/Auth/LocalAuthService.swift:41-48 | the service starts from what the user defaults and the key chain already hold |
| LocalAuth.LocalAuthService.CurrentUser | Motra/Services/Auth/LocalAuthService.swift:135-142 | there is a current user exactly when the current-user slot names a stored account, and it is that account |
| LocalAuth.LocalAuthService.SetCurrentUser | Motra/Services/Auth/LocalAuthService.swift:157-160 | the user's id is stored as the current user and under the key chain's user identifier; the accounts are unchanged |
| LocalAuth.LocalAuthService.SignUp | Motra/Services/Auth/LocalAuthService.swift:51-84 | a refused sign-up answers the first failed check and changes nothing; otherwise the account, under its fresh id, is stored with its password's hash, so there is exactly one more account; it becomes the current user and is returned |
| LocalAuth.LocalAuthService.SignIn | Motra/Services/Auth/LocalAuthService.swift:87-108 | answers an empty field, an unknown email, a wrong password or the account; on success the account becomes the current user; the accounts never change |
| LocalAuth.LocalAuthService.SignOut | Motra/Services/Auth/LocalAuthService.swift:111-115 | no current user is left and the key chain is cleared; the accounts are unchanged |
| LocalAuth.LocalAuthService.DeleteAccount | Motra/Services/Auth/LocalAuthService.swift:118-132 | with no current user it answers "user not found" and changes nothing; otherwise that account is removed and the service is signed out |
| AuthScreen.AuthViewModel.constructor | Motra/Services/ViewModels/AuthViewModel.swift:23-34 | the state is settled at once: signed in with the service's current user, or signed out; no error and not loading |
| AuthScreen.AuthViewModel.CheckAuthState | Motra/Services/ViewModels/AuthViewModel.swift:39-46 | signed in with the service's current user if it has one, otherwise signed out |
| AuthScreen.AuthViewModel.SignUp | Motra/Services/ViewModels/AuthViewModel.swift:49-64 | signed in as the new account, which the service has stored with its password hash and made its current user; or the refusal's message with the view model and the service both as they were; never left loading |
| AuthScreen.AuthViewModel.SignIn | Motra/Services/ViewModels/AuthViewModel.swift:67-82 | signed in as the account, which is then the service's current user and key-chain entry; or the refusal's message with the view model, the current-user slot and the key chain as they were; the accounts are untouched |
| AuthScreen.AuthViewModel.SignOut | Motra/Services/ViewModels/AuthViewModel.swift:85-89 | no current user, signed out, and the service holds no current user either |
| AuthScreen.AuthViewModel.DeleteAccount | Motra/Services/ViewModels/AuthViewModel.swift:92-107 | true exactly when someone was signed in, in which case their account is gone and the state is signed out; otherwise false with the failure message and nothing changed |
| AuthScreen.AuthViewModel.ClearError | Motra/Services/ViewModels/AuthViewModel.swift:110-112 | the error message is cleared and nothing else changes |
| SignUpForm.ValidFormPassesFieldChecks | Motra/Views/Auth/SignUpView.swift:221-231 | with the button enabled the store cannot refuse for an empty field or a short password; only a malformed or registered email remains |
| SignUpForm.ValidFormMayHaveBadEmail | Motra/Views/Auth/SignUpView.swift:225-231 | the form does not check the email's shape: "runner" with a matching six-character password enables the button and is then refused as malformed |
| Greeting.MessageForWeekday | Motra/Services/Helpers/DailyGreetingHelper.swift:33-53 | weekdays 1 to 7 get a message of their own, every other number the general one |
| Greeting.WeekdayMessagesDistinct | Motra/Services/Helpers/DailyGreetingHelper.swift:35-49 | different days of the week get different messages |
| Users.WithProfileEdits | Motra/Services/Managers/UserManager.swift:46-56 | each field given a value is replaced and every other field of the profile is kept |
| Users.NoEditsNoChange | Motra/Services/Managers/UserManager.swift:46-56 | with no field given, the profile is unchanged |
| Users.UserManager.constructor | Motra/Services/Managers/UserManager.swift:27-36 | the saved profile if there is one, else the sample profile at Bronze 4 with no posts or follows |
| Users.UserManager.UpdateProfile | Motra/Services/Managers/UserManager.swift:46-56 | the profile becomes its edited version |
| Users.UserManager.UpdateTier | Motra/Services/Managers/UserManager.swift:59-62 | only the tier and the total distance change |
| Users.UserManager.UpdatePostCount | Motra/Services/Managers/UserManager.swift:65-67 | only the post count changes |
| Users.UserManager.UpdateFollowerCount | Motra/Services/Managers/UserManager.swift:70-72 | only the follower count changes |
| Users.UserManager.UpdateFollowingCount | Motra/Services/Managers/UserManager.swift:74-76 | only the following count changes |
| PostDetail.ReplaceFirst | Motra/Views/Social/FeedView.swift:48-50 | the first post with the updated post's id is replaced by it and every other post kept; with no such post the feed is unchanged |
| PostDetail.ReplaceFirstIdempotent | Motra/Views/Social/FeedView.swift:48-50 | replacing twice is replacing once |
| PostDetail.OnPostUpdated | Motra/Views/Social/FeedView.swift:46-50 | the feed's posts become the replaced list; paging, both loading flags, error and tier are untouched |
| PostDetail.OnPostDeleted | Motra/Views/Social/FeedView.swift:51-52 | every post with the deleted id is removed and every other post kept in order; the offset, hasMore, both loading flags, error and tier are left as they are |
| PostDetail.SaveEnabledMeansChange | Motra/Views/Social/FeedView.swift:549 | the save button is enabled exactly for non-empty content that differs from the original in content or visibility |
| PostDetail.EditedPost | Motra/Views/Social/FeedView.swift:647-663 | the rebuilt post has the new content and visibility and is updated now; every other field is the original's |
| PostDetail.EditedPostReplacesOriginal | Motra/Views/Social/FeedView.swift:48-50 | an edited post replaces its original in place and leaves every other post alone |
| PostDetail.SaveEdit | Motra/Views/Social/FeedView.swift:644-675 | the sheet is dismissed exactly when the save succeeds, and the feed then shows the edited post; otherwise the failure message and the whole feed untouched; paging, loading flags, error and tier are never changed |
| PostDetail.MyComment | Motra/Views/Social/FeedView.swift:745-752 | the sheet's comment is by "나"/"me" at Gold 2 on the shown post, with no likes |
| PostDetail.PostDetailViewModel.constructor | Motra/Views/Social/FeedView.swift:717-731 | no comments and not loading; the first load is a separate call |
| PostDetail.PostDetailViewModel.LoadComments | Motra/Views/Social/FeedView.swift:733-743 | the fetched comments, or none when the fetch fails; not loading afterwards |
| PostDetail.PostDetailViewModel.AddComment | Motra/Views/Social/FeedView.swift:745-760 | exactly one comment by the user is appended when it is stored; a failure changes nothing |
| NewPostScreen.ComposedPost | Motra/Views/Social/NewPostView.swift:216-237 | the post carries the current user's nickname, username and tier, the content and visibility chosen, and an exercise id and summary exactly when an exercise is attached; no likes, comments or image, created and updated now |
| NewPostScreen.PostButtonGuardsContent | Motra/Views/Social/NewPostView.swift:52 | the post button, disabled while the content is empty, is enabled exactly when the post createPost would build has non-empty text |
| NewPostScreen.NewPostViewModel.constructor | Motra/Views/Social/NewPostView.swift:194-210 | not loading and no error |
| NewPostScreen.NewPostViewModel.CreatePost | Motra/Views/Social/NewPostView.swift:212-246 | the composed post is what is handed to the repository; the error message is clear, and so the sheet is dismissed, exactly when it is stored; never left loading |

## Left out

- Rendering: `String(format:)` output, `distanceInKm`, calories text, `timeAgo`, dates shown to the user, and the icon and colour tables of `TierGrade` and `PostVisibility` are not modelled. The labels are modelled as the integers they print.
- Floating point: `Double` is a real number, so rounding, NaN and infinities are out of scope.
- Concurrency: `async` calls, `Task { }` launches and `@MainActor` ordering are not modelled. Each call runs to completion with its outcome as an input, and the constructors do not run the load the source starts in a task.
- Persistence: UserDefaults, the key chain, Core Data and JSON encoding are in-memory fields or inputs, and every write is assumed to succeed.
- Console output (`print`) is not modelled.
- CoreLocation: permission requests (`requestPermission`), the GPS samples and `CLLocation.distance(from:)` are inputs.
- `LocalAuth.LocalAuthService.constructor`: SHA-256 is an uninterpreted function passed in, so only equality of hashes is used.
- `LocalAuth.IsValidEmail`: the pattern's `$` in ICU also matches before a final line break; the model requires the letters to run to the end.
- `LocalAuth.SignUpError`: `password.count` counts grapheme clusters; the model counts characters.
- `SocialFeed.Lower`: folds only A-Z. Swift's `lowercased()` is Unicode-aware; the Korean type names have no case.
- `StatisticsStore.StringLess`: Swift's `String <` is modelled as lexicographic order by character, not by Unicode scalar normalisation.
- `StatisticsStore.GetChartData`: the dictionary and its sort are modelled as an association list kept sorted by key. The date formatter and the calendar's period bounds are inputs.
- `Sorting.SortBy`: a stable insertion sort stands in for `sorted(by:)`, whose stability Swift does not promise.
- `Tracking.LocationManager.CurrentSession`: the session's start date is the time of the call, passed in, as in the source.
- `Tracking.LocationManager.Tick`: the elapsed time counts from the start date, so paused time is included, as in the source.
- `Tracking.LocationManager.StartTracking`, `ResumeTracking`: the `Timer` is the flag `timerRunning`, so the model does not capture that `startTimer` (LocationManager.swift:112-117) replaces the timer without invalidating the old one; a second start or resume while tracking leaves an orphaned timer that keeps updating `elapsedTime` after `stopTracking`, which `Tick`'s `requires timerRunning` cannot show.
- `PostStore.LocalPostRepository.LikePost`: the liking user's id is a fresh `UUID()` in the source, passed in here.
- `ProfileScreen.ProfileViewModel.UpdateProfile`: the repository's `updatePost` calls are assumed to succeed; the posts to rewrite are returned as a list.
- `ProfileScreen.ProfileViewModel.constructor`, `HomeScreen.HomeViewModel.constructor`: `refresh` is the same as `loadData` in both view models, so it is not modelled separately.
- `PostDetail.PostDetailViewModel`: `deletePost` only passes the repository call through, so it is not modelled separately.
- `AuthScreen.AuthViewModel`: the catch-all branches for errors other than `AuthError` cannot be reached from `LocalAuthService`, so they are not modelled.
- `HomeScreen.HomeViewModel.LoadData`: `recentExercise` is the first of the workouts in the order the repository returns them.
- `Greeting.MessageForWeekday`: the greeting's date string comes from the platform's formatter and is not modelled.
- `Workouts.ZeroStats`: `WorkoutStats()` is a constant with no contract.
- `APIPostRepository` only calls `fatalError`, so it is not modelled. `MyPost.mockPosts` is not modelled either.
- The icon lookup in `NewPostView` is the same table as `Post.swift`'s, modelled once as `Posts.WorkoutIcon`. The views' author test is the one modelled as `FeedScreen.IsPlaceholderAuthor`.

## Findings

The view models follow the code as written: `FeedScreen.FeedViewModel.DeletePost` leaves the offset alone, `ProfileScreen.ProfileViewModel.TogglePostLike` uses `ToggleLikedListAsWritten`, and `ProfileScreen.ProfileViewModel.UpdateProfile` selects posts with `PostsToRenameAsWritten`. The corrected behaviour is stated and proved on the functions named in the last column.

| source | as written | input that shows it | evidently intended | confidence | as-written member | corrected member |
|---|---|---|---|---|---|---|
| Motra/Services/ViewModels/ProfileViewModel.swift:232-257 | a failed unlike re-inserts the post into the liked list, although it was never removed | a liked post `p`, the only liked post, whose unlike the store refuses: the list becomes `[p]` with its like count one too high, followed by `p` toggled | the list is restored to what it was | medium, not executed | ProfileScreen.FailedUnlikeDuplicates | ProfileScreen.ToggleLikedList |
| Motra/Services/ViewModels/ProfileViewModel.swift:182-199 | `updateProfile` decides which posts are the user's after the names have already changed | a post by "러너"/"runner" when the names change to "달림이"/"dal": it is not renamed | posts under the previous names are renamed too | medium, not executed | ProfileScreen.RenameMissesPreviousNames | ProfileScreen.RenameCoversOwnPosts |
| Motra/Services/ViewModels/FeedViewModel.swift:119-126 | `deletePost` leaves `currentOffset` as it is, so the next page starts one post too late | 41 stored posts s0..s40 with s0..s19 shown (offset 20) and s1 deleted: the page fetched at offset 20 starts at s21, and s20 is never shown | the offset drops by the number of posts removed before it | high, not executed | FeedScreen.DeleteThenLoadMoreSkips | FeedScreen.DeleteThenLoadMoreCorrected |
