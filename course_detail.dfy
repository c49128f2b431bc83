/**
 * The course detail page: which syllabus entry is selected, how far through
 * the syllabus that is, the previous / next buttons and the sidebar, the
 * initial selection, where the tutorial text and the images are looked up,
 * and which practice exercises belong to the selected level. The
 * selected level id is `null` or a string, modelled as `Option<string>`.
 */
module CourseDetail {
  import opened Wrappers
  import opened Text
  import opened Catalog
  import Progress
  import Courses
  import opened Sequences

  /** `lesson.levelId === activeLevelId`: a missing level id (`undefined`) never equals `null`. */
  predicate IsSelected(levelId: Option<string>, active: Option<string>) {
    levelId.Some? && active.Some? && levelId.value == active.value
  }

  /** `findIndex` over the lessons from position `from` on. */
  function FindIndexFrom(lessons: seq<Lesson>, active: Option<string>, from: nat): (idx: int)
    requires from <= |lessons|
    ensures idx == -1 || from <= idx < |lessons|
    ensures idx == -1 <==> forall j :: from <= j < |lessons| ==> !IsSelected(lessons[j].levelId, active)
    ensures idx >= 0 ==> IsSelected(lessons[idx].levelId, active)
    ensures idx >= 0 ==> forall j :: from <= j < idx ==> !IsSelected(lessons[j].levelId, active)
    decreases |lessons| - from
  {
    if from == |lessons| then -1
    else if IsSelected(lessons[from].levelId, active) then from
    else FindIndexFrom(lessons, active, from + 1)
  }

  /** `findIndex`: the first selected position, or -1 when there is none. */
  function FindIndex(lessons: seq<Lesson>, active: Option<string>): (idx: int)
    ensures -1 <= idx < |lessons|
    ensures idx == -1 <==> forall j :: 0 <= j < |lessons| ==> !IsSelected(lessons[j].levelId, active)
    ensures idx >= 0 ==> IsSelected(lessons[idx].levelId, active)
    ensures idx >= 0 ==> forall j :: 0 <= j < idx ==> !IsSelected(lessons[j].levelId, active)
  {
    FindIndexFrom(lessons, active, 0)
  }

  /** `currentSyllabusIndex`: `findIndex` on the syllabus, 0 for a course without one. */
  function CurrentSyllabusIndex(course: Course, active: Option<string>): (idx: int)
    ensures course.syllabus.None? ==> idx == 0
    ensures course.syllabus.Some? ==> idx == FindIndex(course.syllabus.value, active)
  {
    match course.syllabus
    case None => 0
    case Some(lessons) => FindIndex(lessons, active)
  }

  /** `course.syllabus?.length || 1`: the divisor of the progress percentage. */
  function SyllabusDivisor(course: Course): (n: nat)
    ensures n >= 1
    ensures course.syllabus.Some? && |course.syllabus.value| > 0 ==> n == |course.syllabus.value|
  {
    match course.syllabus
    case None => 1
    case Some(lessons) => if |lessons| == 0 then 1 else |lessons|
  }

  /** `Math.round((idx + 1) / divisor * 100)`. */
  function ProgressPercent(idx: int, divisor: nat): int
    requires divisor >= 1
  {
    JsRound((idx + 1) as real / divisor as real * 100.0)
  }

  /**
   * The percentage lies in [0, 100]: 0 before the first entry, 100 on the
   * last one.
   */
  lemma ProgressPercentBounds(idx: int, divisor: nat)
    requires divisor >= 1 && -1 <= idx < divisor
    ensures 0 <= ProgressPercent(idx, divisor) <= 100
    ensures idx == -1 ==> ProgressPercent(idx, divisor) == 0
    ensures idx == divisor - 1 ==> ProgressPercent(idx, divisor) == 100
  {
    var d := divisor as real;
    var q := (idx + 1) as real / d;
    assert 0.0 <= q <= 1.0 by {
      assert q * d == (idx + 1) as real;
    }
    if idx == divisor - 1 {
      assert q == 1.0;
    }
  }

  /** Further along the syllabus never shows less progress. */
  lemma ProgressPercentMonotone(i: int, j: int, divisor: nat)
    requires divisor >= 1 && i <= j
    ensures ProgressPercent(i, divisor) <= ProgressPercent(j, divisor)
  {
    var d := divisor as real;
    assert (i + 1) as real / d <= (j + 1) as real / d by {
      assert (i + 1) as real / d * d == (i + 1) as real;
      assert (j + 1) as real / d * d == (j + 1) as real;
    }
  }

  /** The page's progress is always a percentage. */
  lemma PageProgressBounds(course: Course, active: Option<string>)
    ensures 0 <= ProgressPercent(CurrentSyllabusIndex(course, active), SyllabusDivisor(course)) <= 100
  {
    ProgressPercentBounds(CurrentSyllabusIndex(course, active), SyllabusDivisor(course));
  }

  /** What a button sets the selection to: `lesson.levelId || null`. */
  function SelectionOf(lesson: Lesson): (s: Option<string>)
    ensures s.Some? <==> Truthy(lesson.levelId)
    ensures s.Some? ==> s == lesson.levelId
  {
    if Truthy(lesson.levelId) then lesson.levelId else None
  }

  /**
   * The "previous" button: `None` when it is not shown, otherwise the
   * selection it makes, that of the entry before the current one.
   */
  function PreviousTarget(course: Course, active: Option<string>): (t: Option<Option<string>>)
    ensures t.Some? <==> CurrentSyllabusIndex(course, active) > 0
    ensures t.Some? ==>
      var idx := CurrentSyllabusIndex(course, active);
      && course.syllabus.Some? && 0 <= idx - 1 < |course.syllabus.value|
      && t.value == SelectionOf(course.syllabus.value[idx - 1])
  {
    var idx := CurrentSyllabusIndex(course, active);
    if idx > 0 then Some(SelectionOf(course.syllabus.value[idx - 1])) else None
  }

  /** `course.syllabus?.length || 0`. */
  function SyllabusLength(course: Course): nat {
    match course.syllabus
    case None => 0
    case Some(lessons) => |lessons|
  }

  /**
   * The "next" button: shown when the current index is before the last
   * entry, and it selects the entry after it. An index of -1 (nothing in
   * the syllabus selected) shows it too, and it then selects the first entry.
   */
  function NextTarget(course: Course, active: Option<string>): (t: Option<Option<string>>)
    ensures t.Some? <==> CurrentSyllabusIndex(course, active) < SyllabusLength(course) - 1
    ensures t.Some? ==>
      var idx := CurrentSyllabusIndex(course, active);
      && course.syllabus.Some? && 0 <= idx + 1 < |course.syllabus.value|
      && t.value == SelectionOf(course.syllabus.value[idx + 1])
  {
    var idx := CurrentSyllabusIndex(course, active);
    if idx < SyllabusLength(course) - 1 then Some(SelectionOf(course.syllabus.value[idx + 1])) else None
  }

  /** Every entry has its own, non-empty level id. */
  predicate DistinctLevelIds(lessons: seq<Lesson>) {
    && (forall i :: 0 <= i < |lessons| ==> Truthy(lessons[i].levelId))
    && (forall i, j :: 0 <= i < j < |lessons| ==> lessons[i].levelId != lessons[j].levelId)
  }

  /** The entry whose own level id is selected is found at its own position. */
  lemma FindIndexOfOwnLevel(lessons: seq<Lesson>, k: nat)
    requires DistinctLevelIds(lessons) && k < |lessons|
    ensures FindIndex(lessons, lessons[k].levelId) == k
  {
    var idx := FindIndex(lessons, lessons[k].levelId);
    assert IsSelected(lessons[k].levelId, lessons[k].levelId);
    assert idx >= 0 && lessons[idx].levelId == lessons[k].levelId;
  }

  /**
   * With distinct, non-empty level ids the buttons step through the
   * syllabus one entry at a time and never leave it.
   */
  lemma NavigationStepsByOne(course: Course, active: Option<string>)
    requires course.syllabus.Some? && DistinctLevelIds(course.syllabus.value)
    ensures PreviousTarget(course, active).Some? ==>
      CurrentSyllabusIndex(course, PreviousTarget(course, active).value) == CurrentSyllabusIndex(course, active) - 1
    ensures NextTarget(course, active).Some? ==>
      CurrentSyllabusIndex(course, NextTarget(course, active).value) == CurrentSyllabusIndex(course, active) + 1
  {
    var lessons := course.syllabus.value;
    var idx := CurrentSyllabusIndex(course, active);
    if idx > 0 {
      FindIndexOfOwnLevel(lessons, idx - 1);
    }
    if idx < |lessons| - 1 {
      FindIndexOfOwnLevel(lessons, idx + 1);
    }
  }

  /** A course without a syllabus shows neither button. */
  lemma NoSyllabusNoNavigation(course: Course, active: Option<string>)
    requires course.syllabus.None?
    ensures PreviousTarget(course, active).None? && NextTarget(course, active).None?
  {
  }

  /** One sidebar entry: highlighted as the selected one, ticked as completed. */
  datatype SidebarEntry = SidebarEntry(isActive: bool, isCompleted: bool)

  /** The sidebar: an entry is completed when it comes before the current index. */
  function Sidebar(course: Course, active: Option<string>): (entries: seq<SidebarEntry>)
    ensures |entries| == SyllabusLength(course)
    ensures forall i :: 0 <= i < |entries| ==>
      && (entries[i].isActive <==> IsSelected(course.syllabus.value[i].levelId, active))
      && (entries[i].isCompleted <==> i < CurrentSyllabusIndex(course, active))
  {
    match course.syllabus
    case None => []
    case Some(lessons) =>
      var idx := FindIndex(lessons, active);
      seq(|lessons|, i requires 0 <= i < |lessons| =>
        SidebarEntry(IsSelected(lessons[i].levelId, active), i < idx))
  }

  /**
   * No highlighted entry is ticked, and the ticked entries are exactly the
   * ones before the first highlighted entry.
   */
  lemma SidebarActiveNotCompleted(course: Course, active: Option<string>, i: nat)
    requires i < |Sidebar(course, active)|
    ensures Sidebar(course, active)[i].isActive ==> !Sidebar(course, active)[i].isCompleted
  {
  }

  /** The initial-selection effect: the first entry's level id, or `1-1`, when nothing is selected. */
  function InitialSelection(course: Course, active: Option<string>): (s: Option<string>)
    ensures course.syllabus.Some? && |course.syllabus.value| > 0 && !Truthy(active) ==>
      s == Some(OrElse(course.syllabus.value[0].levelId, "1-1"))
    ensures !(course.syllabus.Some? && |course.syllabus.value| > 0 && !Truthy(active)) ==> s == active
  {
    if course.syllabus.Some? && |course.syllabus.value| > 0 && !Truthy(active) then
      Some(OrElse(course.syllabus.value[0].levelId, "1-1"))
    else active
  }

  /** After the effect a course with lessons has a selection, and running it again changes nothing. */
  lemma InitialSelectionSettles(course: Course, active: Option<string>)
    requires course.syllabus.Some? && |course.syllabus.value| > 0
    ensures Truthy(InitialSelection(course, active))
    ensures InitialSelection(course, InitialSelection(course, active)) == InitialSelection(course, active)
  {
  }

  const TutorialDir := "../../docs/tutorial/"
  const ImageDir := "../../docs/images/"
  const LoadingPlaceholder := "内容加载中..."

  /** The key of a level's tutorial text among the bundled markdown modules. */
  function TutorialPath(worldId: string, levelId: string): (p: string)
    ensures TutorialDir <= p
  {
    TutorialDir + worldId + "/level-" + levelId + ".md"
  }

  /** Within one world, different levels have different tutorial files. */
  lemma TutorialPathInjective(worldId: string, l1: string, l2: string)
    requires TutorialPath(worldId, l1) == TutorialPath(worldId, l2)
    ensures l1 == l2
  {
    var prefix := TutorialDir + worldId + "/level-";
    assert TutorialPath(worldId, l1) == prefix + l1 + ".md";
    assert TutorialPath(worldId, l2) == prefix + l2 + ".md";
    assert l1 == TutorialPath(worldId, l1)[|prefix|..|prefix| + |l1|];
    assert l2 == TutorialPath(worldId, l2)[|prefix|..|prefix| + |l2|];
  }

  /**
   * The content effect: with a selection, the level's tutorial text if one
   * is bundled (and non-empty), else the course's own content, else the
   * loading placeholder; without a selection the content stays as it was.
   */
  function LoadContent(course: Course, active: Option<string>, tutorials: map<string, string>, previous: string): (c: string)
    ensures !Truthy(active) ==> c == previous
    ensures Truthy(active) && Truthy(MapLookup(tutorials, TutorialPath(course.worldId, active.value))) ==>
      c == tutorials[TutorialPath(course.worldId, active.value)]
    ensures Truthy(active) && !Truthy(MapLookup(tutorials, TutorialPath(course.worldId, active.value))) ==>
      c == OrElse(course.content, LoadingPlaceholder)
  {
    if Truthy(active) then
      var found := MapLookup(tutorials, TutorialPath(course.worldId, active.value));
      if Truthy(found) then found.value else OrElse(course.content, LoadingPlaceholder)
    else previous
  }

  /** A bundled module map read at `key`: `undefined` for a missing key. */
  function MapLookup(m: map<string, string>, key: string): (r: Option<string>)
    ensures r.Some? <==> key in m
    ensures r.Some? ==> r.value == m[key]
  {
    if key in m then Some(m[key]) else None
  }

  /** The position of the last `/` in `s`, or -1 when it has none. */
  function LastSlash(s: string): (i: int)
    ensures -1 <= i < |s|
    ensures i >= 0 ==> s[i] == '/'
    ensures forall j :: i < j < |s| ==> s[j] != '/'
    decreases |s|
  {
    if |s| == 0 then -1
    else if s[|s| - 1] == '/' then |s| - 1
    else LastSlash(s[..|s| - 1])
  }

  /** `s.split('/').pop()`: the part of `s` after its last `/`, all of `s` if it has none. */
  function LastSegment(s: string): (r: string)
    ensures '/' !in r
    ensures |r| <= |s| && r == s[|s| - |r|..]
    ensures |r| < |s| ==> s[|s| - |r| - 1] == '/'
  {
    s[LastSlash(s) + 1..]
  }

  /** The directories in front of a file name do not change what it resolves to. */
  lemma LastSegmentOfPath(dir: string, name: string)
    requires '/' !in name
    ensures LastSegment(dir + "/" + name) == name
  {
    var s := dir + "/" + name;
    var i := LastSlash(s);
    assert s[|dir|] == '/';
    assert forall k :: |dir| < k < |s| ==> s[k] == name[k - |dir| - 1];
    assert i == |dir|;
    assert s[i + 1..] == name;
  }

  /**
   * The image renderer: the bundled image named by the last segment of
   * `src`, falling back to `src` itself (a missing `src` looks up the file
   * name `undefined`).
   */
  function ResolveImage(src: Option<string>, images: map<string, string>): (r: Option<string>)
    ensures var key := ImageDir + Printed(if src.Some? then Some(LastSegment(src.value)) else None);
      && (Truthy(MapLookup(images, key)) ==> r == Some(images[key]))
      && (!Truthy(MapLookup(images, key)) ==> r == src)
  {
    var fileName := if src.Some? then Some(LastSegment(src.value)) else None;
    var resolved := MapLookup(images, ImageDir + Printed(fileName));
    if Truthy(resolved) then resolved else src
  }

  /** An image written with a directory in front resolves like its bare file name. */
  lemma ResolveImageIgnoresDirectory(dir: string, name: string, images: map<string, string>)
    requires '/' !in name && name != ""
    requires Truthy(MapLookup(images, ImageDir + name))
    ensures ResolveImage(Some(dir + "/" + name), images) == ResolveImage(Some(name), images)
  {
    LastSegmentOfPath(dir, name);
    assert LastSegment(name) == name;
  }

  /** The exercises whose id contains `levelId`, in order. */
  function ExercisesFor(exercises: seq<Exercise>, levelId: string): (r: seq<Exercise>)
    ensures |r| <= |exercises|
    ensures forall e :: e in r <==> e in exercises && Contains(e.id, levelId)
    ensures IsSubsequence(r, exercises)
  {
    if |exercises| == 0 then []
    else
      var rest := ExercisesFor(exercises[1..], levelId);
      assert forall e :: e in exercises <==> e == exercises[0] || e in exercises[1..];
      if Contains(exercises[0].id, levelId) then
        assert ([exercises[0]] + rest)[1..] == rest;
        [exercises[0]] + rest
      else rest
  }

  /** `currentPractice`: the course's exercises for the selected level, `undefined` without exercises. */
  function CurrentPractice(course: Course, active: Option<string>): (r: Option<seq<Exercise>>)
    ensures r.Some? <==> course.practice.Some?
    ensures r.Some? ==> r.value == ExercisesFor(course.practice.value, OrElse(active, ""))
  {
    match course.practice
    case None => None
    case Some(exercises) => Some(ExercisesFor(exercises, OrElse(active, "")))
  }

  /** Without a selection every exercise of the course is shown. */
  lemma {:induction false} ExercisesForEmptyKeepsAll(exercises: seq<Exercise>)
    ensures ExercisesFor(exercises, "") == exercises
  {
    if |exercises| > 0 {
      ContainsEmpty(exercises[0].id);
      ExercisesForEmptyKeepsAll(exercises[1..]);
    }
  }

  lemma NoSelectionShowsAllPractice(course: Course, active: Option<string>)
    requires course.practice.Some? && !Truthy(active)
    ensures CurrentPractice(course, active) == course.practice
  {
    ExercisesForEmptyKeepsAll(course.practice.value);
  }

  /** The page title: the selected entry's title if it has one, else the course title. */
  function HeaderTitle(course: Course, active: Option<string>): (t: string)
    ensures var idx := CurrentSyllabusIndex(course, active);
      && (course.syllabus.Some? && idx >= 0 && course.syllabus.value[idx].title != "" ==>
           t == course.syllabus.value[idx].title)
      && (!(course.syllabus.Some? && idx >= 0 && course.syllabus.value[idx].title != "") ==>
           t == course.title)
  {
    match course.syllabus
    case None => course.title
    case Some(lessons) =>
      var idx := FindIndex(lessons, active);
      if idx >= 0 && lessons[idx].title != "" then lessons[idx].title else course.title
  }

  /**
   * The key the practice panel of this page records on completion, as
   * written: the panel is rendered without `courseId` and `levelId`, so
   * both print as `undefined`, whatever the course and level.
   */
  function PracticeKeyAsWritten(course: Course, active: Option<string>): (key: string)
    ensures key == "undefined-undefined"
  {
    Printed(None) + "-" + Printed(None)
  }

  /** A key starting with a course id never equals the key recorded as written. */
  lemma PracticeKeyAsWrittenNeverCounted(course: Course, active: Option<string>, lesson: Lesson)
    ensures Courses.LessonKey(course.id, lesson) != PracticeKeyAsWritten(course, active)
  {
    var digits := NatToString(if course.id < 0 then -course.id else course.id);
    assert IsDigit(digits[0]);
    assert Courses.LessonKey(course.id, lesson)[0] == IntToString(course.id)[0];
  }

  /**
   * The key recorded when the panel gets the course id and the selected
   * level id (`activeLevelId || ''`), as the other course page passes them.
   */
  function PracticeKey(course: Course, active: Option<string>): string {
    Progress.CompositeId(course.id, OrElse(active, ""))
  }

  /**
   * With the ids passed, completing the practice of the selected lesson
   * records exactly the key the course map counts for that lesson.
   */
  lemma PracticeKeyCounted(course: Course, active: Option<string>)
    requires course.syllabus.Some? && CurrentSyllabusIndex(course, active) >= 0
    ensures var lesson := course.syllabus.value[CurrentSyllabusIndex(course, active)];
      PracticeKey(course, active) == Courses.LessonKey(course.id, lesson)
  {
  }
}
