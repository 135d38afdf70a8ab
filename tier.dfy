/**
 * Tier.swift: grades, divisions, the eight-row distance table and the
 * calculator that maps lifetime distance to a tier and to the distance
 * window of its division.
 */
module Tiers {
  import opened Base
  import SwiftNum

  /** `TierGrade`, in declaration (= `allCases`) order. */
  datatype TierGrade = Bronze | Silver | Gold | Platinum | Diamond | RedDiamond | Master | GrandMaster

  /** `TierDivision`: 4 is the first step of a grade, 1 the last. */
  datatype TierDivision = Four | Three | Two | One

  /** `Tier`: compared structurally, like the Swift `Equatable` struct. */
  datatype Tier = Tier(grade: TierGrade, division: TierDivision)

  /** `TierProgress`: distances in metres. */
  datatype TierProgress = TierProgress(
    currentTier: Tier,
    nextTier: Option<Tier>,
    currentDistance: real,
    tierStartDistance: real,
    tierEndDistance: real)

  /** One row of `tierThresholds`. */
  datatype Threshold = Threshold(grade: TierGrade, startKm: real, endKm: real)

  /** `TierGrade.allCases`. */
  const AllGrades: seq<TierGrade> := [Bronze, Silver, Gold, Platinum, Diamond, RedDiamond, Master, GrandMaster]

  /** `TierCalculator.tierThresholds`, in kilometres. */
  const TierThresholds: seq<Threshold> := [
    Threshold(Bronze, 0.0, 50.0),
    Threshold(Silver, 50.0, 150.0),
    Threshold(Gold, 150.0, 350.0),
    Threshold(Platinum, 350.0, 700.0),
    Threshold(Diamond, 700.0, 1200.0),
    Threshold(RedDiamond, 1200.0, 2000.0),
    Threshold(Master, 2000.0, 3500.0),
    Threshold(GrandMaster, 3500.0, 10000.0)
  ]

  /** `TierGrade.rawValue`. */
  function GradeName(g: TierGrade): string {
    match g
    case Bronze => "브론즈"
    case Silver => "실버"
    case Gold => "골드"
    case Platinum => "플래티넘"
    case Diamond => "다이아"
    case RedDiamond => "레드다이아"
    case Master => "마스터"
    case GrandMaster => "그랜드마스터"
  }

  /** `TierDivision.rawValue`. */
  function DivisionValue(d: TierDivision): int {
    match d
    case Four => 4
    case Three => 3
    case Two => 2
    case One => 1
  }

  /** `TierDivision(rawValue:)`: nil outside 1...4. */
  function DivisionFromRaw(v: int): (d: Option<TierDivision>)
    ensures d.Some? <==> 1 <= v <= 4
    ensures d.Some? ==> DivisionValue(d.value) == v
  {
    if v == 4 then Some(Four)
    else if v == 3 then Some(Three)
    else if v == 2 then Some(Two)
    else if v == 1 then Some(One)
    else None
  }

  /** Position of a grade in `allCases` and in the threshold table. */
  function GradeIndex(g: TierGrade): (i: nat)
    ensures i < |AllGrades| && AllGrades[i] == g && TierThresholds[i].grade == g
  {
    match g
    case Bronze => 0
    case Silver => 1
    case Gold => 2
    case Platinum => 3
    case Diamond => 4
    case RedDiamond => 5
    case Master => 6
    case GrandMaster => 7
  }

  /** `4 - division.rawValue`: 0 for division 4 up to 3 for division 1. */
  function DivisionIndex(d: TierDivision): (k: nat)
    ensures k < 4
  {
    4 - DivisionValue(d)
  }

  /** The order of tiers: grade first, then division with 4 lowest. */
  predicate AtMost(a: Tier, b: Tier) {
    GradeIndex(a.grade) < GradeIndex(b.grade)
    || (a.grade == b.grade && DivisionIndex(a.division) <= DivisionIndex(b.division))
  }

  /** `TierCalculator.calculateDivision`: which quarter of the row the distance is in. */
  function CalculateDivision(distance: real, tierStart: real, tierEnd: real): TierDivision {
    // A zero-width row divides by zero: the Double is NaN or infinite and falls to `default`.
    if tierEnd == tierStart then One
    else
      var progress := (distance - tierStart) / (tierEnd - tierStart);
      if 0.0 <= progress < 0.25 then Four
      else if 0.25 <= progress < 0.5 then Three
      else if 0.5 <= progress < 0.75 then Two
      else One
  }

  /**
   * For an in-row fraction in [0, 1) the division's index k puts it in the
   * quarter [k/4, (k+1)/4); a zero-width row or a negative fraction gives division 1.
   */
  lemma DivisionQuarter(distance: real, tierStart: real, tierEnd: real)
    ensures var d := CalculateDivision(distance, tierStart, tierEnd);
      && (tierEnd != tierStart && 0.0 <= (distance - tierStart) / (tierEnd - tierStart) < 1.0 ==>
        DivisionIndex(d) as real * 0.25 <= (distance - tierStart) / (tierEnd - tierStart) < (DivisionIndex(d) + 1) as real * 0.25)
      && (tierEnd == tierStart || (distance - tierStart) / (tierEnd - tierStart) < 0.0 ==> d == One)
  {
  }

  /** Does row `i` contain `km` (`startKm <= km < endKm`)? */
  predicate RowContains(i: nat, km: real)
    requires i < |TierThresholds|
  {
    TierThresholds[i].startKm <= km < TierThresholds[i].endKm
  }

  /** The first row at or after `i` that contains `km`: the `for` loop of calculateTier. */
  function FirstRowFrom(km: real, i: nat): (r: Option<nat>)
    requires i <= |TierThresholds|
    ensures r.Some? ==> i <= r.value < |TierThresholds| && RowContains(r.value, km)
    ensures r.Some? ==> forall j :: i <= j < r.value ==> !RowContains(j, km)
    ensures r.None? ==> forall j :: i <= j < |TierThresholds| ==> !RowContains(j, km)
    decreases |TierThresholds| - i
  {
    if i == |TierThresholds| then None
    else if RowContains(i, km) then Some(i)
    else FirstRowFrom(km, i + 1)
  }

  /** The tier `calculateTier(totalDistanceInMeters:)` returns. */
  function TierFor(meters: real): Tier {
    var km := meters / 1000.0;
    match FirstRowFrom(km, 0)
    case Some(i) =>
      var th := TierThresholds[i];
      Tier(th.grade, CalculateDivision(km, th.startKm, th.endKm))
    case None => Tier(GrandMaster, One)
  }

  /** `TierCalculator.calculateTier`: the loop over the table with its early return. */
  method CalculateTier(totalDistanceInMeters: real) returns (t: Tier)
    ensures t == TierFor(totalDistanceInMeters)
  {
    var distanceInKm := totalDistanceInMeters / 1000.0;
    var i := 0;
    while i < |TierThresholds|
      invariant 0 <= i <= |TierThresholds|
      invariant FirstRowFrom(distanceInKm, 0) == FirstRowFrom(distanceInKm, i)
    {
      var threshold := TierThresholds[i];
      if distanceInKm >= threshold.startKm && distanceInKm < threshold.endKm {
        var division := CalculateDivision(distanceInKm, threshold.startKm, threshold.endKm);
        return Tier(threshold.grade, division);
      }
      i := i + 1;
    }
    return Tier(GrandMaster, One);
  }

  /** The first row at or after `i` whose grade is `g`: the `for ... break` loop of calculateProgress. */
  function GradeRowFrom(g: TierGrade, i: nat): (r: Option<nat>)
    requires i <= |TierThresholds|
    ensures r.Some? ==> i <= r.value < |TierThresholds| && TierThresholds[r.value].grade == g
    ensures r.Some? ==> forall j :: i <= j < r.value ==> TierThresholds[j].grade != g
    ensures r.None? ==> forall j :: i <= j < |TierThresholds| ==> TierThresholds[j].grade != g
    decreases |TierThresholds| - i
  {
    if i == |TierThresholds| then None
    else if TierThresholds[i].grade == g then Some(i)
    else GradeRowFrom(g, i + 1)
  }

  /** The next tier: the next division, else division 4 of the next grade, else none. */
  function NextTier(current: Tier, nextGrade: Option<TierGrade>): Option<Tier> {
    if current.division != One then
      var next := DivisionFromRaw(DivisionValue(current.division) - 1);
      Some(Tier(current.grade, next.value))
    else if nextGrade.Some? then Some(Tier(nextGrade.value, Four))
    else None
  }

  /** The progress record `calculateProgress(totalDistanceInMeters:)` returns. */
  function ProgressFor(meters: real): TierProgress {
    var current := TierFor(meters);
    var span := RowSpan(GradeRowFrom(current.grade, 0));
    ProgressInRow(current, span.2, meters, span.0, span.1)
  }

  /** The record's tier is the one calculateTier gives for the same distance. */
  lemma ProgressTier(meters: real)
    ensures ProgressFor(meters).currentTier == TierFor(meters)
  {
  }

  /** The start and end (km) of a found row and the grade of the row after it; zeros and none when no row was found. */
  function RowSpan(row: Option<nat>): (real, real, Option<TierGrade>)
    requires row.Some? ==> row.value < |TierThresholds|
  {
    if row.Some? then
      var next := if row.value + 1 < |TierThresholds| then Some(TierThresholds[row.value + 1].grade) else None;
      (TierThresholds[row.value].startKm, TierThresholds[row.value].endKm, next)
    else (0.0, 0.0, None)
  }

  /** The progress record for tier `current` in the row [startKm, endKm): its division's quarter, in metres. */
  function ProgressInRow(current: Tier, nextGrade: Option<TierGrade>, meters: real, startKm: real, endKm: real): TierProgress {
    var divisionRange := (endKm - startKm) / 4.0;
    var divisionStartKm := startKm + DivisionIndex(current.division) as real * divisionRange;
    var divisionEndKm := divisionStartKm + divisionRange;
    TierProgress(current, NextTier(current, nextGrade), meters, divisionStartKm * 1000.0, divisionEndKm * 1000.0)
  }

  /** `TierCalculator.calculateProgress`: the tier, the scan for its grade's row, then the window in that row. */
  method CalculateProgress(totalDistanceInMeters: real) returns (p: TierProgress)
    ensures p == ProgressFor(totalDistanceInMeters)
  {
    var currentTier := CalculateTier(totalDistanceInMeters);
    var tierStartKm, tierEndKm, nextTierGrade := ScanGradeRow(currentTier.grade);
    var divisionRange := (tierEndKm - tierStartKm) / 4.0;
    var divisionIndex := 4 - DivisionValue(currentTier.division);
    var divisionStartKm := tierStartKm + divisionIndex as real * divisionRange;
    var divisionEndKm := divisionStartKm + divisionRange;
    var nextTier := NextTier(currentTier, nextTierGrade);
    p := TierProgress(currentTier, nextTier, totalDistanceInMeters, divisionStartKm * 1000.0, divisionEndKm * 1000.0);
  }

  /**
   * The `for ... break` scan of calculateProgress: the start and end of the
   * first row of grade `g` and the grade of the row after it, or zeros and
   * no next grade when no row has that grade.
   */
  method ScanGradeRow(g: TierGrade) returns (startKm: real, endKm: real, nextGrade: Option<TierGrade>)
    ensures (startKm, endKm, nextGrade) == RowSpan(GradeRowFrom(g, 0))
  {
    startKm, endKm, nextGrade := 0.0, 0.0, None;
    var index := 0;
    while index < |TierThresholds|
      invariant 0 <= index <= |TierThresholds|
      invariant GradeRowFrom(g, 0) == GradeRowFrom(g, index)
      invariant startKm == 0.0 && endKm == 0.0 && nextGrade == None
    {
      var threshold := TierThresholds[index];
      if threshold.grade == g {
        startKm := threshold.startKm;
        endKm := threshold.endKm;
        if index + 1 < |TierThresholds| {
          nextGrade := Some(TierThresholds[index + 1].grade);
        }
        return;
      }
      index := index + 1;
    }
  }

  /** `TierProgress.progressPercentage`: the clamped fraction of the division window covered. */
  function ProgressPercentage(p: TierProgress): (r: real)
    ensures 0.0 <= r <= 1.0
    ensures p.tierEndDistance <= p.tierStartDistance ==> r == 1.0
    ensures p.tierStartDistance < p.tierEndDistance && p.tierStartDistance <= p.currentDistance <= p.tierEndDistance ==>
      r * (p.tierEndDistance - p.tierStartDistance) == p.currentDistance - p.tierStartDistance
  {
    var tierRange := p.tierEndDistance - p.tierStartDistance;
    if !(tierRange > 0.0) then 1.0
    else
      var progress := (p.currentDistance - p.tierStartDistance) / tierRange;
      FractionBounds(p.currentDistance - p.tierStartDistance, tierRange);
      Min(Max(progress, 0.0), 1.0)
  }

  lemma FractionBounds(a: real, w: real)
    requires w > 0.0
    ensures 0.0 <= a <= w ==> 0.0 <= a / w <= 1.0 && (a / w) * w == a
  {
    if 0.0 <= a <= w {
      SwiftNum.ScaleBounds(a, a / w, w, 0.0, 1.0 + 1.0);
      assert a / w <= 1.0 by {
        if a / w > 1.0 { SwiftNum.ScaleBounds(a, a / w, w, 1.0, a / w + 1.0); }
      }
    }
  }

  /** `TierProgress.remainingDistance`: metres left to the window's end, never negative. */
  function RemainingDistance(p: TierProgress): (r: real)
    ensures r >= 0.0
    ensures r >= p.tierEndDistance - p.currentDistance
    ensures r == 0.0 || r == p.tierEndDistance - p.currentDistance
  {
    Max(p.tierEndDistance - p.currentDistance, 0.0)
  }

  function Min(a: real, b: real): real { if a <= b then a else b }
  function Max(a: real, b: real): real { if a >= b then a else b }
}
