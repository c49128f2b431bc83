/**
 * The note-following exercise: a target note at a time, an in-tune streak
 * counter per note, and completion once the last note has been held. Each
 * effect run and the restart handler is one method; the pitch readings come
 * from the pitch detector, and completion records the level in the progress
 * store.
 */
module Practice {
  import opened Wrappers
  import PitchDetection
  import Progress

  /** Frames in a row a note must be held in tune before it counts. */
  const RequiredMatches := 15
  /** A detected note within this many cents of the target is in tune. */
  const InTuneCents := 25

  datatype Feedback = Waiting | Perfect | Flat | Sharp

  /** What one pitch check decides: the feedback shown and whether the streak grows. */
  datatype Verdict = Verdict(feedback: Feedback, extendsStreak: bool)

  /**
   * The pitch check against the target note `target`: no pitch means
   * waiting; the right note in tune extends the streak; otherwise the
   * feedback says in which direction the player is off.
   */
  function Judge(target: int, midi: Option<int>, cents: int): (v: Verdict)
    ensures v.extendsStreak <==> v.feedback == Perfect
    ensures v.feedback == Waiting <==> midi.None?
    ensures v.feedback == Perfect <==> midi == Some(target) && -InTuneCents < cents < InTuneCents
    ensures v.feedback == Flat <==>
      midi.Some? && (midi.value < target || (midi.value == target && cents <= -InTuneCents))
    ensures v.feedback == Sharp <==>
      midi.Some? && (midi.value > target || (midi.value == target && cents >= InTuneCents))
  {
    match midi
    case None => Verdict(Waiting, false)
    case Some(m) =>
      var diff := m - target;
      if diff == 0 then
        if PitchDetection.Abs(cents as real) < InTuneCents as real then Verdict(Perfect, true)
        else Verdict(if cents < 0 then Flat else Sharp, false)
      else Verdict(if diff < 0 then Flat else Sharp, false)
  }

  function Mirror(f: Feedback): Feedback {
    match f
    case Flat => Sharp
    case Sharp => Flat
    case other => other
  }

  /**
   * Reflecting the played note about the target and negating the detune
   * swaps flat and sharp and keeps everything else.
   */
  lemma JudgeMirror(target: int, m: int, cents: int)
    ensures Judge(target, Some(2 * target - m), -cents)
         == Verdict(Mirror(Judge(target, Some(m), cents).feedback), Judge(target, Some(m), cents).extendsStreak)
  {
  }

  /** `currentIndex / notes.length * 100`; `None` for the `NaN` of an empty exercise. */
  function ProgressPercent(index: nat, count: nat): (p: Option<real>)
    ensures p.None? <==> count == 0
    ensures p.Some? && index < count ==> 0.0 <= p.value < 100.0
  {
    if count == 0 then None else Some(index as real / count as real * 100.0)
  }

  /** The width of the progress bar: full once the exercise is completed. */
  function DisplayedPercent(isCompleted: bool, index: nat, count: nat): (p: Option<real>)
    ensures isCompleted ==> p == Some(100.0)
    ensures !isCompleted ==> p == ProgressPercent(index, count)
    ensures index < count ==> (p == Some(100.0) <==> isCompleted)
  {
    if isCompleted then Some(100.0) else ProgressPercent(index, count)
  }

  /** Moving to the next note strictly widens the progress bar. */
  lemma ProgressPercentIncreasing(i: nat, j: nat, count: nat)
    requires i < j < count
    ensures ProgressPercent(i, count).value < ProgressPercent(j, count).value
  {
    var c := count as real;
    assert i as real / c < j as real / c by {
      assert i as real / c * c == i as real;
      assert j as real / c * c == j as real;
    }
  }

  /** One mounted exercise, wired to the pitch detector and progress hooks it uses. */
  class PracticeSession {
    /** The MIDI numbers of the exercise's notes, in order. */
    const notes: seq<int>
    const courseId: int
    const levelId: string
    const xpReward: int
    const detector: PitchDetection.PitchDetector
    const progress: Progress.ProgressStore

    var currentIndex: nat
    var isCompleted: bool
    var feedback: Feedback
    var consecutiveMatches: nat

    /**
     * The index always names a note (0 for an empty exercise, where no
     * streak can start); a completed exercise stands on its last note and
     * has been recorded.
     */
    ghost predicate Valid()
      reads this, progress
    {
      && (|notes| == 0 ==> currentIndex == 0 && consecutiveMatches == 0 && !isCompleted)
      && (|notes| > 0 ==> currentIndex < |notes|)
      && (isCompleted ==> currentIndex == |notes| - 1 && progress.IsLevelCompleted(courseId, levelId))
      && progress.Valid()
    }

    constructor (notes: seq<int>, courseId: int, levelId: string, xpReward: int,
                 detector: PitchDetection.PitchDetector, progress: Progress.ProgressStore)
      requires progress.Valid()
      ensures Valid()
      ensures this.notes == notes && this.courseId == courseId && this.levelId == levelId
      ensures this.xpReward == xpReward && this.detector == detector && this.progress == progress
      ensures currentIndex == 0 && !isCompleted && feedback == Waiting && consecutiveMatches == 0
    {
      this.notes, this.courseId, this.levelId, this.xpReward := notes, courseId, levelId, xpReward;
      this.detector, this.progress := detector, progress;
      currentIndex, isCompleted, feedback, consecutiveMatches := 0, false, Waiting, 0;
    }

    /**
     * One run of the pitch-check effect. Nothing happens unless the detector
     * is listening, the exercise is not completed and there is a current
     * note; then the verdict sets the feedback and either extends the streak
     * by one or resets it.
     */
    method PitchCheck()
      requires Valid()
      modifies this
      ensures Valid()
      ensures currentIndex == old(currentIndex) && isCompleted == old(isCompleted)
      ensures !(detector.isListening && !old(isCompleted) && old(currentIndex) < |notes|) ==>
        feedback == old(feedback) && consecutiveMatches == old(consecutiveMatches)
      ensures detector.isListening && !old(isCompleted) && old(currentIndex) < |notes| ==>
        var v := Judge(notes[old(currentIndex)], detector.midiNote, detector.cents);
        && feedback == v.feedback
        && consecutiveMatches == if v.extendsStreak then old(consecutiveMatches) + 1 else 0
    {
      if !detector.isListening || isCompleted || currentIndex >= |notes| {
        return;
      }
      if detector.midiNote.None? {
        feedback := Waiting;
        consecutiveMatches := 0;
        return;
      }
      var targetMidi := notes[currentIndex];
      var diff := detector.midiNote.value - targetMidi;
      if diff == 0 {
        if PitchDetection.Abs(detector.cents as real) < InTuneCents as real {
          feedback := Perfect;
          consecutiveMatches := consecutiveMatches + 1;
        } else {
          feedback := if detector.cents < 0 then Flat else Sharp;
          consecutiveMatches := 0;
        }
      } else {
        feedback := if diff < 0 then Flat else Sharp;
        consecutiveMatches := 0;
      }
    }

    /**
     * One run of the completion effect. A streak of 15 on a note before the
     * last moves on to the next note; on the last note it completes the
     * exercise, stops listening and records the level with its reward.
     */
    method CompletionCheck()
      requires Valid()
      modifies this, detector, progress
      ensures Valid()
      ensures old(consecutiveMatches) < RequiredMatches ==>
        && currentIndex == old(currentIndex) && isCompleted == old(isCompleted)
        && feedback == old(feedback) && consecutiveMatches == old(consecutiveMatches)
        && unchanged(detector) && unchanged(progress)
      ensures old(consecutiveMatches) >= RequiredMatches && old(currentIndex) < |notes| - 1 ==>
        && currentIndex == old(currentIndex) + 1 && isCompleted == old(isCompleted)
        && feedback == Waiting && consecutiveMatches == 0
        && unchanged(detector) && unchanged(progress)
      ensures old(consecutiveMatches) >= RequiredMatches && old(currentIndex) >= |notes| - 1 ==>
        && currentIndex == old(currentIndex) && isCompleted
        && feedback == old(feedback) && consecutiveMatches == old(consecutiveMatches)
        && detector.IsStopped()
        && progress.completedLevels
           == Progress.WithLevel(old(progress.completedLevels), Progress.CompositeId(courseId, levelId))
        && progress.totalXP
           == Progress.XpAfter(old(progress.completedLevels), old(progress.totalXP),
                               Progress.CompositeId(courseId, levelId), xpReward)
    {
      if consecutiveMatches >= RequiredMatches {
        if currentIndex < |notes| - 1 {
          currentIndex := currentIndex + 1;
          consecutiveMatches := 0;
          feedback := Waiting;
        } else {
          isCompleted := true;
          detector.StopListening();
          progress.CompleteLevel(courseId, levelId, xpReward);
        }
      }
    }

    /**
     * `handleRestart`: back to the first note with no streak and not
     * completed, then the microphone is requested again.
     */
    method Restart(granted: bool)
      requires Valid()
      modifies this, detector
      ensures Valid()
      ensures currentIndex == 0 && !isCompleted && consecutiveMatches == 0 && feedback == Waiting
      ensures granted ==> detector.isListening
      ensures !granted ==> detector.isListening == old(detector.isListening)
      ensures detector.midiNote == old(detector.midiNote) && detector.cents == old(detector.cents)
    {
      currentIndex, isCompleted, consecutiveMatches, feedback := 0, false, 0, Waiting;
      detector.StartListening(granted);
    }
  }
}
