/**
 * ProfileViewModel.generateTierHistory: sort the workouts oldest first,
 * add up their distances, and record an entry each time the running total
 * reaches a new tier.
 */
module TierHistories {
  import opened Base
  import opened Tiers
  import opened TierLaws
  import opened Sorting
  import opened Workouts
  import opened Profiles

  /** The sort key of `sorted { $0.startDate < $1.startDate }`. */
  function StartDate(e: Exercise): Date { e.startDate }

  /** The tier of the last entry, the loop's `lastTier`. */
  function LastTier(history: seq<TierHistory>): Option<Tier> {
    if |history| == 0 then None else Some(history[|history| - 1].tier)
  }

  /** The entries the loop has appended after the workouts `xs`, in that order. */
  function Replay(xs: seq<Exercise>): seq<TierHistory> {
    if |xs| == 0 then []
    else
      var history := Replay(xs[..|xs| - 1]);
      var total := TotalDistance(xs);
      var tier := TierFor(total);
      if LastTier(history) != Some(tier) then history + [TierHistory(tier, xs[|xs| - 1].startDate, total)]
      else history
  }

  /** `sortedExercises.first?.startDate ?? Date()`. */
  function FirstStartDate(xs: seq<Exercise>, now: Date): Date {
    if |xs| > 0 then xs[0].startDate else now
  }

  /** The history generateTierHistory returns. */
  function HistoryFor(exercises: seq<Exercise>, now: Date): seq<TierHistory> {
    if |exercises| == 0 then [TierHistory(Tier(Bronze, Four), now, 0.0)]
    else
      var sortedExercises := SortBy(exercises, StartDate);
      var history := Replay(sortedExercises);
      if |history| == 0 then [TierHistory(Tier(Bronze, Four), FirstStartDate(sortedExercises, now), 0.0)]
      else history
  }

  /** `generateTierHistory(from:)`: the replay loop over the sorted workouts. */
  method GenerateTierHistory(exercises: seq<Exercise>, now: Date) returns (history: seq<TierHistory>)
    ensures history == HistoryFor(exercises, now)
  {
    if |exercises| == 0 {
      return [TierHistory(Tier(Bronze, Four), now, 0.0)];
    }
    var sortedExercises := SortBy(exercises, StartDate);
    history := [];
    var cumulativeDistance := 0.0;
    var lastTier: Option<Tier> := None;
    for k := 0 to |sortedExercises|
      invariant history == Replay(sortedExercises[..k])
      invariant cumulativeDistance == TotalDistance(sortedExercises[..k])
      invariant lastTier == LastTier(history)
    {
      var exercise := sortedExercises[k];
      TotalDistanceStep(sortedExercises, k);
      cumulativeDistance := cumulativeDistance + exercise.distance;
      var currentTier := CalculateTier(cumulativeDistance);
      ReplayStep(sortedExercises, k, cumulativeDistance, currentTier);
      if lastTier == None || lastTier != Some(currentTier) {
        history := history + [TierHistory(currentTier, exercise.startDate, cumulativeDistance)];
        lastTier := Some(currentTier);
      }
    }
    assert sortedExercises[..|sortedExercises|] == sortedExercises;
    if |history| == 0 {
      history := [TierHistory(Tier(Bronze, Four), FirstStartDate(sortedExercises, now), 0.0)];
    }
  }

  /** One more workout adds its distance to the running total. */
  lemma TotalDistanceStep(xs: seq<Exercise>, k: nat)
    requires k < |xs|
    ensures TotalDistance(xs[..k + 1]) == TotalDistance(xs[..k]) + xs[k].distance
  {
    assert xs[..k + 1][..k] == xs[..k];
  }

  /** One more workout records an entry exactly when the running total's tier differs from the last one. */
  lemma ReplayStep(xs: seq<Exercise>, k: nat, total: real, tier: Tier)
    requires k < |xs| && total == TotalDistance(xs[..k + 1]) && tier == TierFor(total)
    ensures Replay(xs[..k + 1]) ==
      if LastTier(Replay(xs[..k])) != Some(tier) then Replay(xs[..k]) + [TierHistory(tier, xs[k].startDate, total)]
      else Replay(xs[..k])
  {
    assert xs[..k + 1][..k] == xs[..k];
  }

  /** No workouts: exactly one entry, Bronze 4 at distance 0, dated now. */
  lemma HistoryOfNoWorkouts(now: Date)
    ensures HistoryFor([], now) == [TierHistory(Tier(Bronze, Four), now, 0.0)]
  {
  }

  /**
   * The first workout always records an entry, for its own distance, so the
   * replay of a non-empty list is never empty and the fallback never runs.
   */
  lemma {:induction false} ReplayStartsWithFirst(xs: seq<Exercise>)
    requires |xs| > 0
    ensures |Replay(xs)| > 0
    ensures Replay(xs)[0] == TierHistory(TierFor(xs[0].distance), xs[0].startDate, xs[0].distance)
  {
    if |xs| > 1 {
      var init := xs[..|xs| - 1];
      ReplayStartsWithFirst(init);
    } else {
      assert xs[..0] == [];
      assert TotalDistance(xs) == TotalDistance([]) + xs[0].distance;
    }
  }

  /** A non-empty workout list gives the replay itself. */
  lemma HistoryIsReplay(exercises: seq<Exercise>, now: Date)
    requires |exercises| > 0
    ensures HistoryFor(exercises, now) == Replay(SortBy(exercises, StartDate))
  {
    ReplayStartsWithFirst(SortBy(exercises, StartDate));
  }

  /**
   * Entry `j` belongs to the `k`-th workout: its distance is the total of
   * the first `k` workouts, its date the `k`-th workout's start, and its
   * tier the calculator's tier for that total.
   */
  lemma {:induction false} ReplayEntry(xs: seq<Exercise>, j: nat) returns (k: nat)
    requires j < |Replay(xs)|
    ensures 1 <= k <= |xs|
    ensures Replay(xs)[j] == TierHistory(TierFor(TotalDistance(xs[..k])), xs[k - 1].startDate, TotalDistance(xs[..k]))
  {
    var init := xs[..|xs| - 1];
    if j < |Replay(init)| {
      k := ReplayEntry(init, j);
      assert xs[..k] == init[..k];
    } else {
      k := |xs|;
      assert xs[..k] == xs;
    }
  }

  /** An entry is appended only on a change of tier: consecutive entries differ. */
  lemma {:induction false} ReplayTiersChange(xs: seq<Exercise>)
    ensures forall j :: 0 < j < |Replay(xs)| ==> Replay(xs)[j - 1].tier != Replay(xs)[j].tier
  {
    if |xs| > 0 {
      ReplayTiersChange(xs[..|xs| - 1]);
    }
  }

  /** The last entry carries the tier of the whole total. */
  lemma {:induction false} ReplayLastTier(xs: seq<Exercise>)
    requires |xs| > 0
    ensures LastTier(Replay(xs)) == Some(TierFor(TotalDistance(xs)))
  {
  }

  /** Each entry's tier is the calculator's tier of its distance; with non-negative distances that distance is within the total. */
  lemma {:induction false} ReplayEntriesAgree(xs: seq<Exercise>)
    ensures forall j :: 0 <= j < |Replay(xs)| ==> Replay(xs)[j].tier == TierFor(Replay(xs)[j].totalDistance)
    ensures DistancesNonNegative(xs) ==>
      forall j :: 0 <= j < |Replay(xs)| ==> 0.0 <= Replay(xs)[j].totalDistance <= TotalDistance(xs)
  {
    if |xs| > 0 {
      var init := xs[..|xs| - 1];
      ReplayEntriesAgree(init);
      if DistancesNonNegative(xs) {
        assert DistancesNonNegative(init);
        TotalDistancePrefix(xs, |xs| - 1);
        assert xs[..|xs| - 1] == init;
      }
    }
  }

  /** With non-negative distances every entry is strictly higher than the one before. */
  lemma {:induction false} ReplayClimbs(xs: seq<Exercise>)
    requires DistancesNonNegative(xs)
    ensures forall j :: 0 < j < |Replay(xs)| ==> TierLevel(Replay(xs)[j - 1].tier) < TierLevel(Replay(xs)[j].tier)
  {
    if |xs| > 0 {
      var init := xs[..|xs| - 1];
      assert DistancesNonNegative(init);
      ReplayClimbs(init);
      var h := Replay(init);
      if |Replay(xs)| > |h| && |h| > 0 {
        var previous := h[|h| - 1];
        var tier := TierFor(TotalDistance(xs));
        assert Replay(xs) == h + [TierHistory(tier, xs[|xs| - 1].startDate, TotalDistance(xs))];
        assert TierLevel(previous.tier) <= TierLevel(tier) by {
          ReplayEntriesAgree(init);
          TotalDistancePrefix(xs, |xs| - 1);
          TierLevelMonotone(previous.totalDistance, TotalDistance(xs));
        }
        assert previous.tier != tier by {
          ReplayTiersChange(xs);
        }
        TierLevelInjective(previous.tier, tier);
      }
    }
  }

  /** Adding up the distances of a sorted copy gives the same total (in exact arithmetic). */
  lemma {:induction false} TotalDistanceInsert(x: Exercise, s: seq<Exercise>)
    ensures TotalDistance(Insert(x, s, StartDate)) == TotalDistance(s) + x.distance
  {
    if |s| > 0 && StartDate(s[|s| - 1]) > StartDate(x) {
      var init := s[..|s| - 1];
      TotalDistanceInsert(x, init);
      var r := Insert(x, init, StartDate) + [s[|s| - 1]];
      assert r[..|r| - 1] == Insert(x, init, StartDate);
    } else if |s| > 0 {
      assert (s + [x])[..|s|] == s;
    }
  }

  /** Sorting does not change the total distance. */
  lemma {:induction false} TotalDistanceSorted(xs: seq<Exercise>)
    ensures TotalDistance(SortBy(xs, StartDate)) == TotalDistance(xs)
  {
    if |xs| > 0 {
      var init := xs[..|xs| - 1];
      TotalDistanceSorted(init);
      TotalDistanceInsert(xs[|xs| - 1], SortBy(init, StartDate));
    }
  }

  /**
   * The last entry's tier is the calculator's tier of the summed distances,
   * the tier loadData stores in the profile.
   */
  lemma HistoryEndsAtCurrentTier(exercises: seq<Exercise>, now: Date)
    requires |exercises| > 0
    ensures LastTier(HistoryFor(exercises, now)) == Some(TierFor(TotalDistance(exercises)))
  {
    HistoryIsReplay(exercises, now);
    var sortedExercises := SortBy(exercises, StartDate);
    ReplayLastTier(sortedExercises);
    TotalDistanceSorted(exercises);
  }

  /** With non-negative distances the history's tiers strictly increase. */
  lemma HistoryClimbs(exercises: seq<Exercise>, now: Date)
    requires DistancesNonNegative(exercises)
    ensures var h := HistoryFor(exercises, now);
      forall j :: 0 < j < |h| ==> TierLevel(h[j - 1].tier) < TierLevel(h[j].tier)
  {
    if |exercises| > 0 {
      HistoryIsReplay(exercises, now);
      var sortedExercises := SortBy(exercises, StartDate);
      assert DistancesNonNegative(sortedExercises) by {
        forall i | 0 <= i < |sortedExercises|
          ensures sortedExercises[i].distance >= 0.0
        {
          assert sortedExercises[i] in multiset(exercises);
        }
      }
      ReplayClimbs(sortedExercises);
    }
  }
}
