/**
 * The course, lesson and exercise records the pages read. The declared
 * `Course` interface has no `worldId`, `xpReward`, `practice` or per-lesson
 * `levelId`; the pages read them anyway, so they are declared here as the
 * pages use them, with the optional ones as `Option`.
 */
module Catalog {
  import opened Wrappers

  /** The difficulty levels courses and scores are graded by, from easiest to hardest. */
  const DifficultyLevels: seq<string> := ["入门", "初级", "中级", "高级", "专家"]

  /** One syllabus entry. */
  datatype Lesson = Lesson(title: string, duration: string, levelId: Option<string>)

  /** One target note of a practice exercise. */
  datatype PracticeNote = PracticeNote(note: string, midi: int, hint: string)

  datatype Exercise = Exercise(id: string, title: string, notes: seq<PracticeNote>)

  datatype Course = Course(
    id: int,
    title: string,
    level: string,
    lessons: int,
    image: string,
    worldId: string,
    content: Option<string>,
    syllabus: Option<seq<Lesson>>,
    practice: Option<seq<Exercise>>,
    xpReward: int)

  /** JavaScript truthiness of an optional string: present and non-empty. */
  predicate Truthy(s: Option<string>) {
    s.Some? && s.value != ""
  }

  /** `s || fallback` for an optional string. */
  function OrElse(s: Option<string>, fallback: string): (r: string)
    ensures Truthy(s) ==> r == s.value
    ensures !Truthy(s) ==> r == fallback
  {
    if Truthy(s) then s.value else fallback
  }

  /** How a template literal prints an optional string: a missing one prints as `undefined`. */
  function Printed(s: Option<string>): string {
    match s
    case Some(v) => v
    case None => "undefined"
  }
}
