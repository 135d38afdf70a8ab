/**
 * What the tier calculator promises: the table's shape, classification by
 * the unique row containing the distance, the fall-through tier, monotone
 * tiers in the distance, the division window and the next-tier rules.
 */
module TierLaws {
  import opened Base
  import opened Tiers
  import SwiftNum

  /** The table: eight rows in grade order, from 0 km, contiguous, each of positive width. */
  lemma ThresholdTableShape()
    ensures |TierThresholds| == 8 && TierThresholds[0].startKm == 0.0
    ensures TierThresholds[|TierThresholds| - 1].endKm == 10000.0
    ensures forall i :: 0 <= i < |TierThresholds| - 1 ==> TierThresholds[i].endKm == TierThresholds[i + 1].startKm
    ensures forall i :: 0 <= i < |TierThresholds| ==>
      TierThresholds[i].startKm < TierThresholds[i].endKm && TierThresholds[i].grade == AllGrades[i]
  {
  }

  /** Earlier rows end no later than later rows start. */
  lemma {:induction false} RowsOrdered(j: nat, i: nat)
    requires j < i < |TierThresholds|
    ensures TierThresholds[j].endKm <= TierThresholds[i].startKm
    decreases i - j
  {
    ThresholdTableShape();
    if j + 1 < i {
      RowsOrdered(j + 1, i);
    }
  }

  /** Row `i` is the grade's own row. */
  lemma GradeIndexOfRow(i: nat)
    requires i < |TierThresholds|
    ensures GradeIndex(TierThresholds[i].grade) == i
  {
  }

  /** At most one row contains any distance. */
  lemma RowUnique(km: real, i: nat, j: nat)
    requires i < |TierThresholds| && j < |TierThresholds|
    requires RowContains(i, km) && RowContains(j, km)
    ensures i == j
  {
    if j < i { RowsOrdered(j, i); }
    if i < j { RowsOrdered(i, j); }
  }

  /** Every distance in [0, 10000) km lies in some row. */
  lemma RowOf(km: real) returns (i: nat)
    requires 0.0 <= km < 10000.0
    ensures i < |TierThresholds| && RowContains(i, km)
  {
    i := 0;
    while !RowContains(i, km)
      invariant i < |TierThresholds|
      invariant TierThresholds[i].startKm <= km
      decreases |TierThresholds| - i
    {
      i := i + 1;
    }
  }

  /** A distance in row `i` gets row `i`'s grade and the division of its quarter of that row. */
  lemma TierInRow(meters: real, i: nat)
    requires i < |TierThresholds| && RowContains(i, meters / 1000.0)
    ensures FirstRowFrom(meters / 1000.0, 0) == Some(i)
    ensures TierFor(meters) == Tier(TierThresholds[i].grade,
      CalculateDivision(meters / 1000.0, TierThresholds[i].startKm, TierThresholds[i].endKm))
  {
    var r := FirstRowFrom(meters / 1000.0, 0);
    RowUnique(meters / 1000.0, r.value, i);
  }

  /**
   * For 0 <= meters < 10,000,000 the tier's grade is row `i`'s grade exactly
   * when row `i` contains the distance in kilometres.
   */
  lemma {:induction false} GradeIsContainingRow(meters: real)
    requires 0.0 <= meters < 10000000.0
    ensures forall i :: 0 <= i < |TierThresholds| ==>
      (TierFor(meters).grade == TierThresholds[i].grade <==> RowContains(i, meters / 1000.0))
  {
    var r := RowOf(meters / 1000.0);
    TierInRow(meters, r);
    forall i | 0 <= i < |TierThresholds|
      ensures TierFor(meters).grade == TierThresholds[i].grade <==> RowContains(i, meters / 1000.0)
    {
      GradeIndexOfRow(i);
      GradeIndexOfRow(r);
      if RowContains(i, meters / 1000.0) { RowUnique(meters / 1000.0, i, r); }
    }
  }

  /** A distance no row contains (negative, or 10,000 km and beyond) falls through to GrandMaster 1. */
  lemma {:induction false} FallThrough(meters: real)
    requires meters < 0.0 || meters >= 10000000.0
    ensures TierFor(meters) == Tier(GrandMaster, One)
  {
    var r := FirstRowFrom(meters / 1000.0, 0);
    if r.Some? {
      RowsOrdered(0, r.value);
      ThresholdTableShape();
      if r.value < |TierThresholds| - 1 { RowsOrdered(r.value, |TierThresholds| - 1); }
      assert false;
    }
  }

  /** The boundary cases: 0 m is Bronze 4, 49,999 m is Bronze 1 and 50,000 m is Silver 4. */
  lemma BronzeSilverBoundary()
    ensures TierFor(0.0) == Tier(Bronze, Four)
    ensures TierFor(49999.0) == Tier(Bronze, One)
    ensures TierFor(50000.0) == Tier(Silver, Four)
  {
    TierInRow(0.0, 0);
    TierInRow(49999.0, 0);
    TierInRow(50000.0, 1);
  }

  /** Every tier is at most GrandMaster 1. */
  lemma AtMostTop(t: Tier)
    ensures AtMost(t, Tier(GrandMaster, One))
  {
  }

  /** `AtMost` is a total order. */
  lemma AtMostTotal(a: Tier, b: Tier)
    ensures AtMost(a, b) || AtMost(b, a)
    ensures AtMost(a, b) && AtMost(b, a) ==> a == b
  {
    if a.grade == b.grade && DivisionIndex(a.division) == DivisionIndex(b.division) {
      assert a.division == b.division;
    }
    if GradeIndex(a.grade) == GradeIndex(b.grade) {
      assert a.grade == b.grade;
    }
  }

  /** Dividing by a positive number keeps the order. */
  lemma DivideMonotone(a: real, b: real, w: real)
    requires w > 0.0 && a <= b
    ensures a / w <= b / w
  {
    assert b / w - a / w == (b - a) / w;
  }

  /** Within one row, a longer distance never gets a lower division. */
  lemma DivisionMonotone(x: real, y: real, s: real, e: real)
    requires s < e && s <= x <= y < e
    ensures DivisionIndex(CalculateDivision(x, s, e)) <= DivisionIndex(CalculateDivision(y, s, e))
  {
    DivideMonotone(x - s, y - s, e - s);
  }

  /** Monotonicity: for 0 <= d1 <= d2 the tier of d1 is not above the tier of d2. */
  lemma {:induction false} TierMonotone(d1: real, d2: real)
    requires 0.0 <= d1 <= d2
    ensures AtMost(TierFor(d1), TierFor(d2))
  {
    if d2 >= 10000000.0 {
      FallThrough(d2);
      AtMostTop(TierFor(d1));
    } else {
      var km1, km2 := d1 / 1000.0, d2 / 1000.0;
      DivideMonotone(d1, d2, 1000.0);
      var i := RowOf(km1);
      var j := RowOf(km2);
      TierInRow(d1, i);
      TierInRow(d2, j);
      GradeIndexOfRow(i);
      GradeIndexOfRow(j);
      if j < i {
        RowsOrdered(j, i);
        assert false;
      }
      if i == j {
        DivisionMonotone(km1, km2, TierThresholds[i].startKm, TierThresholds[i].endKm);
      }
    }
  }

  /** calculateProgress finds the tier's own row. */
  lemma GradeRow(g: TierGrade)
    ensures GradeRowFrom(g, 0) == Some(GradeIndex(g))
  {
    var r := GradeRowFrom(g, 0);
    GradeIndexOfRow(r.value);
  }

  /** The window arithmetic: the quarter `k` of [s, e) that holds `km`, scaled to metres. */
  lemma QuarterWindow(km: real, s: real, e: real, k: real)
    requires s < e && k * 0.25 <= (km - s) / (e - s) < (k + 1.0) * 0.25
    ensures (s + k * ((e - s) / 4.0)) * 1000.0 <= km * 1000.0 < (s + k * ((e - s) / 4.0) + (e - s) / 4.0) * 1000.0
  {
    SwiftNum.ScaleBounds(km - s, (km - s) / (e - s), e - s, k * 0.25, (k + 1.0) * 0.25);
    var w := (e - s) / 4.0;
    assert k * 0.25 * (e - s) == k * w;
    assert (k + 1.0) * 0.25 * (e - s) == k * w + w;
  }

  /**
   * calculateDivision in kilometres: for a distance inside the row [s, e),
   * the quarter of the row `DivisionIndex` quarters in holds it.
   */
  lemma DivisionHoldsDistance(km: real, s: real, e: real)
    requires s <= km < e
    ensures var k := DivisionIndex(CalculateDivision(km, s, e)) as real;
      var w := (e - s) / 4.0;
      s + k * w <= km < s + k * w + w
  {
    RowFraction(km, s, e);
    DivisionQuarter(km, s, e);
    QuarterWindow(km, s, e, DivisionIndex(CalculateDivision(km, s, e)) as real);
  }

  /** calculateProgress measures the distance's tier inside the row of that tier's grade. */
  lemma ProgressFields(meters: real)
    ensures var t := TierFor(meters);
      var g := GradeIndex(t.grade);
      ProgressFor(meters) == ProgressInRow(t, RowSpan(Some(g)).2, meters, TierThresholds[g].startKm, TierThresholds[g].endKm)
  {
    GradeRow(TierFor(meters).grade);
  }

  /**
   * For 0 <= meters < 10,000,000 the window contains the distance and is a
   * quarter of its row's width (in metres).
   */
  lemma {:induction false} ProgressWindow(meters: real)
    requires 0.0 <= meters < 10000000.0
    ensures var p := ProgressFor(meters);
      var th := TierThresholds[GradeIndex(p.currentTier.grade)];
      && p.tierStartDistance <= meters < p.tierEndDistance
      && p.tierEndDistance - p.tierStartDistance == (th.endKm - th.startKm) / 4.0 * 1000.0
  {
    var t := TierFor(meters);
    var g := GradeIndex(t.grade);
    ProgressFields(meters);
    TierWindow(meters);
    InRowWindow(t, RowSpan(Some(g)).2, meters, TierThresholds[g].startKm, TierThresholds[g].endKm);
  }

  /** Once the division's quarter of the row [s, e) holds the distance, the record's window holds it and is that quarter, in metres. */
  lemma InRowWindow(t: Tier, next: Option<TierGrade>, meters: real, s: real, e: real)
    requires InQuarter(meters, s, e, t.division)
    ensures var p := ProgressInRow(t, next, meters, s, e);
      && p.currentTier == t
      && p.tierStartDistance <= meters < p.tierEndDistance
      && p.tierEndDistance - p.tierStartDistance == (e - s) / 4.0 * 1000.0
  {
  }

  /** The quarter of the tier's own row that its division names holds the distance, in metres. */
  lemma TierWindow(meters: real)
    requires 0.0 <= meters < 10000000.0
    ensures var t := TierFor(meters);
      var th := TierThresholds[GradeIndex(t.grade)];
      InQuarter(meters, th.startKm, th.endKm, t.division)
  {
    var t := TierFor(meters);
    var th := TierThresholds[GradeIndex(t.grade)];
    assert th.startKm <= meters / 1000.0 < th.endKm
      && t.division == CalculateDivision(meters / 1000.0, th.startKm, th.endKm) by {
      var i := RowOf(meters / 1000.0);
      TierInRow(meters, i);
      GradeIndexOfRow(i);
    }
    RowWindow(meters, th, t.division);
  }

  /** Division `d`'s quarter of the row [s, e) km, scaled to metres, holds `meters`. */
  predicate InQuarter(meters: real, s: real, e: real, d: TierDivision) {
    var k := DivisionIndex(d) as real;
    var w := (e - s) / 4.0;
    (s + k * w) * 1000.0 <= meters < (s + k * w + w) * 1000.0
  }

  /** Within a row, the quarter that calculateDivision picks holds the distance, in metres. */
  lemma RowWindow(meters: real, th: Threshold, d: TierDivision)
    requires th.startKm <= meters / 1000.0 < th.endKm
    requires d == CalculateDivision(meters / 1000.0, th.startKm, th.endKm)
    ensures InQuarter(meters, th.startKm, th.endKm, d)
  {
    var s, e := th.startKm, th.endKm;
    RowFraction(meters / 1000.0, s, e);
    DivisionQuarter(meters / 1000.0, s, e);
    var k := DivisionIndex(d) as real;
    var w := (e - s) / 4.0;
    WindowInMetres(meters, s, e, k, w, (s + k * w) * 1000.0, (s + k * w + w) * 1000.0);
  }

  /** A distance inside a row lies at a fraction in [0, 1) of it. */
  lemma RowFraction(km: real, s: real, e: real)
    requires s <= km < e
    ensures 0.0 <= (km - s) / (e - s) < 1.0
  {
    var f := (km - s) / (e - s);
    assert f * (e - s) == km - s;
    if f < 0.0 {
      SwiftNum.ScaleBounds(km - s, f, e - s, f - 1.0, 0.0);
    }
    if f >= 1.0 {
      SwiftNum.ScaleBounds(km - s, f, e - s, 1.0, f + 1.0);
    }
  }

  /** The quarter window of a row, in metres, holds the distance and is a quarter of the row wide. */
  lemma WindowInMetres(meters: real, s: real, e: real, k: real, w: real, start: real, end: real)
    requires s < e && k * 0.25 <= (meters / 1000.0 - s) / (e - s) < (k + 1.0) * 0.25
    requires w == (e - s) / 4.0 && start == (s + k * w) * 1000.0 && end == (s + k * w + w) * 1000.0
    ensures start <= meters < end && end - start == w * 1000.0
  {
    QuarterWindow(meters / 1000.0, s, e, k);
    assert meters / 1000.0 * 1000.0 == meters;
  }

  /**
   * The next tier: the next division of the same grade, division 4 of the
   * next grade after division 1, and none exactly at GrandMaster 1.
   */
  lemma NextTierRules(meters: real)
    ensures var t := ProgressFor(meters).currentTier; var n := ProgressFor(meters).nextTier;
      && (t.division != One ==> n.Some? && n.value.grade == t.grade && DivisionValue(n.value.division) == DivisionValue(t.division) - 1)
      && (t.division == One && t.grade != GrandMaster ==> n == Some(Tier(AllGrades[GradeIndex(t.grade) + 1], Four)))
      && (n.None? <==> t == Tier(GrandMaster, One))
  {
    GradeRow(TierFor(meters).grade);
  }
}
