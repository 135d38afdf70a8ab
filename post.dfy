/**
 * Post.swift: posts, their visibility, the stored form of a tier, the
 * workout summary attached to a post, comments and likes.
 */
module Posts {
  import opened Base
  import opened SwiftNum
  import opened TimeFormat
  import opened Tiers
  import opened Workouts

  /** `PostVisibility`. */
  datatype PostVisibility = Public | Followers | Private

  /** `PostVisibility.rawValue`. */
  function VisibilityName(v: PostVisibility): string {
    match v
    case Public => "전체 공개"
    case Followers => "팔로워 공개"
    case Private => "나만 보기"
  }

  /** `TierData`: a tier stored as its grade's raw value and its division's raw value. */
  datatype TierData = TierData(grade: string, division: int)

  /** `TierData(from:)`. */
  function TierDataOf(t: Tier): (d: TierData)
    ensures d.grade == GradeName(t.grade) && d.division == DivisionValue(t.division)
    ensures 1 <= d.division <= 4
  {
    TierData(GradeName(t.grade), DivisionValue(t.division))
  }

  /** The first grade of `allCases` from position `i` on whose raw value is `name`. */
  function GradeNamedFrom(name: string, i: nat): (g: Option<TierGrade>)
    requires i <= |AllGrades|
    ensures g.Some? ==> GradeName(g.value) == name
    ensures g.None? ==> forall j :: i <= j < |AllGrades| ==> GradeName(AllGrades[j]) != name
    decreases |AllGrades| - i
  {
    if i == |AllGrades| then None
    else if GradeName(AllGrades[i]) == name then Some(AllGrades[i])
    else GradeNamedFrom(name, i + 1)
  }

  /** `TierData.toTier`: an unknown grade name reads as bronze, a division outside 1...4 as four. */
  function ToTier(d: TierData): (t: Tier)
    ensures (exists g :: GradeName(g) == d.grade) ==> GradeName(t.grade) == d.grade
    ensures (forall g :: GradeName(g) != d.grade) ==> t.grade == Bronze
    ensures 1 <= d.division <= 4 ==> DivisionValue(t.division) == d.division
    ensures !(1 <= d.division <= 4) ==> t.division == Four
  {
    var grade := GradeNamedFrom(d.grade, 0);
    assert grade.None? ==> forall g :: GradeName(g) != d.grade by {
      if grade.None? {
        forall g ensures GradeName(g) != d.grade {
          assert AllGrades[GradeIndex(g)] == g;
        }
      }
    }
    Tier(grade.GetOr(Bronze), DivisionFromRaw(d.division).GetOr(Four))
  }

  /** Grades have distinct raw values. */
  lemma GradeNameInjective(a: TierGrade, b: TierGrade)
    ensures GradeName(a) == GradeName(b) <==> a == b
  {
  }

  /** Divisions have distinct raw values. */
  lemma DivisionValueInjective(a: TierDivision, b: TierDivision)
    ensures DivisionValue(a) == DivisionValue(b) <==> a == b
  {
  }

  /** Round trip: storing a tier and reading it back gives the same tier. */
  lemma TierDataRoundTrip(t: Tier)
    ensures ToTier(TierDataOf(t)) == t
  {
    var u := ToTier(TierDataOf(t));
    GradeNameInjective(u.grade, t.grade);
    DivisionValueInjective(u.division, t.division);
  }

  /** The other direction: a `TierData` that names a grade and a division comes back unchanged. */
  lemma TierDataOfToTier(d: TierData)
    requires (exists g :: GradeName(g) == d.grade) && 1 <= d.division <= 4
    ensures TierDataOf(ToTier(d)) == d
  {
  }

  /** `TierData(grade: "브론즈", division: 4)`, the default author tier. */
  const DefaultTierData: TierData := TierData("브론즈", 4)

  /** The default stands for Bronze 4. */
  lemma DefaultTierDataIsBronzeFour()
    ensures DefaultTierData == TierDataOf(Tier(Bronze, Four))
    ensures ToTier(DefaultTierData) == Tier(Bronze, Four)
  {
    TierDataRoundTrip(Tier(Bronze, Four));
  }

  /** `ExerciseSummary`: the workout shown on a post. */
  datatype ExerciseSummary = ExerciseSummary(summaryType: string, distance: real, duration: real, calories: real, date: Date)

  /** `ExerciseSummary(from:)`: copies type, distance, duration, calories and start date unchanged. */
  function SummaryOf(e: Exercise): (s: ExerciseSummary)
    ensures s.summaryType == e.exerciseType && s.distance == e.distance && s.duration == e.duration
    ensures s.calories == e.calories && s.date == e.startDate
  {
    ExerciseSummary(e.exerciseType, e.distance, e.duration, e.calories, e.startDate)
  }

  /** `ExerciseSummary.durationFormatted`: "H시간 M분" from an hour on, else "M분". */
  function SummaryDurationLabel(s: ExerciseSummary): (l: HourMinuteLabel)
    ensures l.HoursMinutes? <==> Trunc(s.duration) >= 3600
    ensures s.duration >= 0.0 ==> 0 <= l.minutes < 60 && 0 <= Trunc(s.duration) - HourMinuteSeconds(l) < 60
  {
    HourMinuteLabelOf(s.duration)
  }

  /**
   * The symbol of a Korean workout type name, `ExerciseSummary.icon` and
   * NewPostViewModel's `getIcon`: cycling, walking and hiking have their
   * own symbols, everything else shows the runner.
   */
  function WorkoutIcon(workoutType: string): (icon: string)
    ensures icon == "figure.run" <==> workoutType !in {"사이클", "워킹", "등산"}
    ensures workoutType == "사이클" <==> icon == "figure.outdoor.cycle"
    ensures workoutType == "워킹" <==> icon == "figure.walk"
    ensures workoutType == "등산" <==> icon == "figure.hiking"
  {
    match workoutType
    case "러닝" => "figure.run"
    case "사이클" => "figure.outdoor.cycle"
    case "워킹" => "figure.walk"
    case "등산" => "figure.hiking"
    case _ => "figure.run"
  }

  /**
   * Every `WorkoutType`'s raw value gets its own symbol, running included;
   * it is `WorkoutType.icon`'s symbol except for cycling.
   */
  lemma WorkoutIconOfTypes(t: WorkoutType)
    ensures t != Cycling <==> WorkoutIcon(WorkoutTypeName(t)) == WorkoutTypeIcon(t)
    ensures WorkoutIcon(WorkoutTypeName(t)) == (match t
      case Running => "figure.run"
      case Cycling => "figure.outdoor.cycle"
      case Walking => "figure.walk"
      case Hiking => "figure.hiking")
  {
  }

  /** `Post`. */
  datatype Post = Post(
    id: Uuid,
    authorId: Uuid,
    authorNickname: string,
    authorUsername: string,
    authorTier: TierData,
    exerciseId: Option<Uuid>,
    content: string,
    imageURL: Option<string>,
    visibility: PostVisibility,
    createdAt: Date,
    updatedAt: Date,
    likeCount: int,
    commentCount: int,
    isLiked: bool,
    exerciseSummary: Option<ExerciseSummary>)

  /**
   * `Post(authorNickname:authorUsername:content:)` with every other argument
   * left at its default: Bronze 4, public, no exercise, no image, zero
   * counts, not liked, created and updated now.
   */
  function NewPost(id: Uuid, authorId: Uuid, authorNickname: string, authorUsername: string, content: string, now: Date): (p: Post)
    ensures p.id == id && p.authorId == authorId && p.authorNickname == authorNickname
    ensures p.authorUsername == authorUsername && p.content == content
    ensures p.authorTier == TierDataOf(Tier(Bronze, Four)) && p.visibility == Public
    ensures p.exerciseId.None? && p.imageURL.None? && p.exerciseSummary.None?
    ensures p.likeCount == 0 && p.commentCount == 0 && !p.isLiked
    ensures p.createdAt == now && p.updatedAt == now
  {
    Post(id, authorId, authorNickname, authorUsername, DefaultTierData, None, content, None, Public, now, now, 0, 0, false, None)
  }

  /** `Comment`. */
  datatype Comment = Comment(
    id: Uuid,
    postId: Uuid,
    authorId: Uuid,
    authorNickname: string,
    authorUsername: string,
    authorTier: TierData,
    content: string,
    createdAt: Date,
    likeCount: int,
    isLiked: bool)

  /** `Comment(postId:authorNickname:authorUsername:content:)` with the defaults. */
  function NewComment(id: Uuid, postId: Uuid, authorId: Uuid, authorNickname: string, authorUsername: string, content: string, now: Date): (c: Comment)
    ensures c.id == id && c.postId == postId && c.authorId == authorId
    ensures c.authorNickname == authorNickname && c.authorUsername == authorUsername && c.content == content
    ensures c.authorTier == TierDataOf(Tier(Bronze, Four)) && c.createdAt == now
    ensures c.likeCount == 0 && !c.isLiked
  {
    Comment(id, postId, authorId, authorNickname, authorUsername, DefaultTierData, content, now, 0, false)
  }

  /** `LikeTargetType`. */
  datatype LikeTargetType = PostTarget | CommentTarget

  /** `Like`. */
  datatype Like = Like(id: Uuid, userId: Uuid, targetType: LikeTargetType, targetId: Uuid, createdAt: Date)
}
