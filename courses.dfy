/**
 * The course map page: the star rating of each course, the two rows of
 * three course cards, and the completed-lesson count and node marker of
 * each card, computed from the progress store's completed level ids.
 */
module Courses {
  import opened Wrappers
  import opened Catalog
  import Progress
  import opened Sequences

  /** The number of slots of the star rating. */
  const StarSlotCount := 5
  /** The id of the course drawn as the last world of the map. */
  const LastWorldId := 6

  /** `getDifficultyStars`: the position of the level in the difficulty order, counted from 1. */
  function DifficultyStars(level: string): (stars: int)
    ensures 1 <= stars <= StarSlotCount
    ensures forall i :: 0 <= i < |DifficultyLevels| && DifficultyLevels[i] == level ==> stars == i + 1
    ensures level !in DifficultyLevels ==> stars == 1
  {
    if level == "入门" then 1
    else if level == "初级" then 2
    else if level == "中级" then 3
    else if level == "高级" then 4
    else if level == "专家" then 5
    else 1
  }

  /** Harder levels never get fewer stars. */
  lemma DifficultyStarsMonotone(i: nat, j: nat)
    requires i <= j < |DifficultyLevels|
    ensures DifficultyStars(DifficultyLevels[i]) <= DifficultyStars(DifficultyLevels[j])
  {
  }

  /** The slots of `DifficultyStars`: slot `i` is filled when `i < stars`. */
  function StarSlots(stars: int): (slots: seq<bool>)
    ensures |slots| == StarSlotCount
  {
    seq(StarSlotCount, i => i < stars)
  }

  function CountFilled(slots: seq<bool>): nat {
    if |slots| == 0 then 0 else (if slots[0] then 1 else 0) + CountFilled(slots[1..])
  }

  /** Filled slots come first: every filled slot lies left of every empty one. */
  lemma {:induction false} CountFilledPrefix(slots: seq<bool>, k: nat)
    requires k <= |slots|
    requires forall i :: 0 <= i < |slots| ==> (slots[i] <==> i < k)
    ensures CountFilled(slots) == k
  {
    if |slots| > 0 {
      if k > 0 {
        CountFilledPrefix(slots[1..], k - 1);
      } else {
        CountFilledPrefix(slots[1..], 0);
      }
    }
  }

  /** A rating of 1 to 5 fills exactly that many slots, the leftmost ones. */
  lemma StarSlotsFillRating(stars: int)
    requires 1 <= stars <= StarSlotCount
    ensures CountFilled(StarSlots(stars)) == stars
    ensures forall i :: 0 <= i < StarSlotCount ==> (StarSlots(stars)[i] <==> i < stars)
  {
    CountFilledPrefix(StarSlots(stars), stars);
  }

  function Min(a: int, b: int): int {
    if a < b then a else b
  }

  /** `Array.prototype.slice(from, to)` for `0 <= from <= to`: clamped to the length. */
  function Slice<T>(s: seq<T>, from: nat, to: nat): (r: seq<T>)
    requires from <= to
    ensures |r| <= to - from
  {
    var lo := if from < |s| then from else |s|;
    var hi := if to < |s| then to else |s|;
    s[lo..hi]
  }

  /** The two rows of the map: courses 0 to 2 and courses 3 to 5. */
  function Rows(courses: seq<Course>): (rows: seq<seq<Course>>)
    ensures |rows| == 2
    ensures |rows[0]| <= 3 && |rows[1]| <= 3
    ensures rows[0] == courses[..Min(3, |courses|)]
    ensures rows[1] == courses[Min(3, |courses|)..Min(6, |courses|)]
  {
    [Slice(courses, 0, 3), Slice(courses, 3, 6)]
  }

  /** Read row by row, the map shows the first six courses in order, and no more. */
  lemma RowsCoverFirstSix(courses: seq<Course>)
    ensures Rows(courses)[0] + Rows(courses)[1] == courses[..Min(6, |courses|)]
  {
  }

  /** The key a lesson is stored under: a missing level id prints as `undefined`. */
  function LessonKey(courseId: int, lesson: Lesson): string {
    Progress.CompositeId(courseId, Printed(lesson.levelId))
  }

  /** The lessons of a syllabus whose key is among the completed levels, in order. */
  function CompletedLessons(courseId: int, lessons: seq<Lesson>, completedLevels: seq<string>): (r: seq<Lesson>)
    ensures |r| <= |lessons|
    ensures forall l :: l in r <==> l in lessons && LessonKey(courseId, l) in completedLevels
    ensures |r| == |lessons| <==> forall i :: 0 <= i < |lessons| ==> LessonKey(courseId, lessons[i]) in completedLevels
    ensures IsSubsequence(r, lessons)
  {
    if |lessons| == 0 then []
    else
      var rest := CompletedLessons(courseId, lessons[1..], completedLevels);
      assert forall i :: 1 <= i < |lessons| ==> lessons[i] == lessons[1..][i - 1];
      if LessonKey(courseId, lessons[0]) in completedLevels then
        assert ([lessons[0]] + rest)[1..] == rest;
        [lessons[0]] + rest
      else rest
  }

  /** `courseCompletedLevels`: 0 for a course without a syllabus. */
  function CompletedCount(course: Course, completedLevels: seq<string>): nat {
    match course.syllabus
    case None => 0
    case Some(lessons) => |CompletedLessons(course.id, lessons, completedLevels)|
  }

  /** `totalLessons`: 0 for a course without a syllabus. */
  function TotalLessons(course: Course): nat {
    match course.syllabus
    case None => 0
    case Some(lessons) => |lessons|
  }

  /** A course never shows more completed lessons than it has. */
  lemma CompletedCountBounded(course: Course, completedLevels: seq<string>)
    ensures CompletedCount(course, completedLevels) <= TotalLessons(course)
  {
  }

  /** The node marker of a card shows the course as completed. */
  predicate NodeCompleted(completedLessons: nat, totalLessons: nat) {
    completedLessons == totalLessons
  }

  /**
   * The marker shows completed exactly when every lesson's key has been
   * recorded, so in particular for a course without lessons.
   */
  lemma NodeCompletedIffAllRecorded(course: Course, completedLevels: seq<string>)
    ensures NodeCompleted(CompletedCount(course, completedLevels), TotalLessons(course)) <==>
      course.syllabus.None? ||
      forall i :: 0 <= i < |course.syllabus.value| ==>
        LessonKey(course.id, course.syllabus.value[i]) in completedLevels
  {
  }

  /** A card that gets the trophy of the last world. */
  predicate IsLastWorld(course: Course) {
    course.id == LastWorldId
  }

  /** With distinct course ids, at most one card of the map carries the trophy. */
  lemma LastWorldUnique(courses: seq<Course>, i: nat, j: nat)
    requires forall a, b :: 0 <= a < b < |courses| ==> courses[a].id != courses[b].id
    requires i < |courses| && j < |courses|
    requires IsLastWorld(courses[i]) && IsLastWorld(courses[j])
    ensures i == j
  {
  }

  /**
   * Completing a lesson from its practice adds that lesson to the count of
   * its card: the key the practice records is the key the map looks up.
   */
  lemma RecordedLessonCounts(course: Course, completedLevels: seq<string>, levelId: string, xp: int, reward: int)
    requires course.syllabus.Some?
    ensures forall l :: l in course.syllabus.value && l.levelId == Some(levelId) ==>
      l in CompletedLessons(course.id, course.syllabus.value,
                            Progress.WithLevel(completedLevels, Progress.CompositeId(course.id, levelId)))
  {
    Progress.WithLevelMembership(completedLevels, Progress.CompositeId(course.id, levelId));
  }
}
