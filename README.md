# guitar2master — a verified model of its decision logic

guitar2master is a React web app for learning the guitar. It has a
microphone pitch detector, a tuner, a metronome, note-following practice
exercises, chord diagrams, a sheet-music library, a course map and
course pages. This project models the parts of it that make decisions, in
Dafny, and proves what they promise:

- **Pitch detection** (`pitch_detector.dfy`, module `PitchDetection`).
  - `AutoCorrelate` models the `autoCorrelate` routine of the pitch hook.
    It is an imperative method over an array: an RMS silence gate, the
    magnitude-difference correlation of every lag in `[0, N/2)`, peak
    picking, and parabolic refinement of the peak. It is proved equal to a
    declarative specification, `Frequency(Detect(buf))`.
  - `Detect` is built from a correlation table and the first run of good
    lags. The lemmas about it give the index bounds, the accepted lag
    (at least 2), the single run of good lags, a divisor of at least 1,
    and a frequency of at most the sample rate.
  - The hook's state is the class `PitchDetector`, with `StartListening`,
    `UpdatePitch` and `StopListening`. The note names follow MIDI
    numbering and JavaScript's truncating `%`.
- **Metronome** (`metronome.dfy`). The look-ahead click scheduler is a
  class. It has the `nextNote`, `scheduleNote`, `scheduler`, `togglePlay`
  and `changeBpm` operations and the tempo slider. The clicks queued by
  one scheduler run are proved to be an arithmetic sequence that ends just
  before the look-ahead horizon. Each run resumes where the previous one
  stopped, so a start followed by any number of wake-ups queues one
  unbroken sequence.
- **Practice exercises** (`practice_mode.dfy`, module `Practice`).
  - A class `PracticeSession` has one method per effect run: the pitch
    check and the completion check. It also has the restart handler. It
    is wired to a `PitchDetector` and a `ProgressStore`.
  - The verdict on a detected note is the function `Judge`. The progress
    bar is `ProgressPercent` / `DisplayedPercent`.
- **Progress** (`progress.dfy`). The completed-level list and the
  experience total of the progress hook form the class `ProgressStore`.
  Completing a level is an idempotent insert into a duplicate-free list,
  and its reward is credited once. A saved experience total is read back
  with `parseInt(…) || 0`.
- **Tuner** (`tuner.dfy`). The in-tune / flat / sharp verdict, the needle
  position, and the table of the six open strings.
- **Chord chart** (`chord_chart.dfy`). The marker for each string and its
  coordinates on the grid, and the mute guard of the click handler.
- **Sheet-music library** (`scores.dfy`). The case-insensitive search,
  the category filter, the difficulty badge colours and the reset button.
- **Course map** (`courses.dfy`). The star ratings, the two rows of
  cards, the completed-lesson count and the completed marker.
- **Course page** (`course_detail.dfy`). The selected syllabus entry, the
  progress percentage, the previous / next buttons, the sidebar, the
  initial selection, the tutorial and image look-ups and the practice
  filter.
- Shared pieces:
  - `wrappers.dfy` (`Option`);
  - `sequences.dfy`, the order-preserving subsequence relation of the list filters;
  - `text.dfy`, the JavaScript string and number operations the pages
    rely on: `${n}`, `parseInt(s, 10)`, `toLowerCase`, `includes` and
    `Math.round`;
  - `catalog.dfy`, the course, lesson and exercise records.

Modelling conventions:

- Numbers are Dafny `real`, so there is no IEEE rounding. Integers are
  unbounded.
- Audio samples are reals in [-1, 1].
- JavaScript's `undefined` and `null` are `Option.None`, and the model
  distinguishes them where the code compares them (`undefined === null`
  is false). Where a template literal prints a missing value, it prints
  `undefined`.
- Each React effect run, handler call or timer wake-up is one method call
  or one function application.
- The audio clock, the sample buffer, microphone permission and the
  bundled markdown and image maps are parameters.

Where the code and the documented design differ, the model follows the
code:

- **Metronome tempo.** A tempo change while playing is documented to take
  effect from the next scheduler interval. In the code, the scheduler
  re-arms the closure created when play was pressed
  (`src/components/Metronome.tsx:57`), and that closure reads the `bpm`
  of that render (line 30). A running metronome therefore keeps its
  starting tempo until it is stopped and started again. The model keeps
  this captured tempo in the field `runBpm`.
- **Course record fields.** The `Course` record declared in
  `src/lib/data.ts` has no `worldId`, `xpReward`, `practice` or
  per-lesson `levelId`, but the pages read all four. `Catalog` declares
  them the way the pages use them.

## Model

| member | source | states |
|---|---|---|
| PitchDetection.Correlations | src/hooks/usePitchDetector.ts:47-55 | the first `n` entries of the `correlations` array, one entry per lag |
| PitchDetection.Table | src/hooks/usePitchDetector.ts:36 | the table has one entry for every lag in `[0, floor(N/2))` |
| PitchDetection.CorrelationsAt | src/hooks/usePitchDetector.ts:55 | entry `k` of the table is the correlation of lag `k` |
| PitchDetection.DiffSumBounds | src/hooks/usePitchDetector.ts:50-52 | with samples in [-1,1], the summed absolute differences of `n` sample pairs lie in [0, 2n] |
| PitchDetection.DiffSumAtZeroLag | src/hooks/usePitchDetector.ts:50-52 | at lag 0 every difference is zero |
| PitchDetection.CorrelationBounds | src/hooks/usePitchDetector.ts:54 | every correlation lies in [-1, 1] |
| PitchDetection.MeanBounds | src/hooks/usePitchDetector.ts:54 | dividing a total in [0, 2·count] by the count gives a mean in [0, 2] |
| PitchDetection.CorrelationAtZeroLag | src/hooks/usePitchDetector.ts:46-54 | the correlation at lag 0 is exactly 1 |
| PitchDetection.TableIsCorrelationTable | src/hooks/usePitchDetector.ts:46-55 | the table starts with 1 and stays within [-1, 1] |
| PitchDetection.FirstQualifying | src/hooks/usePitchDetector.ts:57 | the first lag from `from` on that is good (above 0.9 and above the previous lag), or none, with no good lag before it |
| PitchDetection.RunEnd | src/hooks/usePitchDetector.ts:57-63 | the end of the run of consecutive good lags starting at `from`: every lag before it is good, the lag at it is not |
| PitchDetection.RunEndIs | src/hooks/usePitchDetector.ts:57-63 | any position bounding a run of good lags in that way is the run's end |
| PitchDetection.GoodLagAtLeastTwo | src/hooks/usePitchDetector.ts:46-57 | lags 0 and 1 never qualify, so an accepted lag is at least 2 |
| PitchDetection.PickPeak | src/hooks/usePitchDetector.ts:57-74 | a refined peak has `2 <= bestOffset` and `bestOffset + 1` in the table, a shift in [-1,1] and a divisor `bestOffset + shift >= 1`; a run reaching the last lag ends exactly there |
| PitchDetection.Detect | src/hooks/usePitchDetector.ts:38-74 | the buffer is reported silent exactly when its mean square is below 0.0001 (rms < 0.01), and the peak bounds hold in terms of `floor(N/2)` |
| PitchDetection.GoodLagsFormOneRun | src/hooks/usePitchDetector.ts:57-66 | when a peak is found, the good lags from the first good lag up to `bestOffset` form one contiguous run, and for a refined peak the lag after it is not good |
| PitchDetection.CorrelationIncreasesAlongRun | src/hooks/usePitchDetector.ts:57-61 | along a run of good lags the correlation strictly increases, so the last lag of the run holds the best correlation |
| PitchDetection.NoPitchCases | src/hooks/usePitchDetector.ts:44 | the result is -1 exactly when the buffer is silent or no lag qualifies (lines 71-74) |
| PitchDetection.FrequencyBounds | src/hooks/usePitchDetector.ts:65-72 | a detected frequency is positive and at most the sample rate |
| PitchDetection.PeakStateOnGoodLag | src/hooks/usePitchDetector.ts:57-62 | a good lag beats the best correlation so far and becomes the best lag |
| PitchDetection.PeakStateOnOtherLag | src/hooks/usePitchDetector.ts:57-68 | before the first good lag, a lag that is not good changes nothing |
| PitchDetection.DetectStopsAfterRun | src/hooks/usePitchDetector.ts:63-66 | when the early return fires at lag `o`, `bestOffset == o - 1 >= 2` and the refinement reads entries `o` and `o - 2`, both already computed |
| PitchDetection.DetectRunsToLastLag | src/hooks/usePitchDetector.ts:71-72 | a run that reaches the last lag ends at it with a best correlation above 0.01, and the result is `sampleRate / bestOffset` without refinement |
| PitchDetection.DetectFindsNoPeak | src/hooks/usePitchDetector.ts:71-74 | with no good lag the loop ends with nothing found and the result is -1 |
| PitchDetection.SquareSum | src/hooks/usePitchDetector.ts:38-41 | the loop computes the sum of the squared samples |
| PitchDetection.LagCorrelation | src/hooks/usePitchDetector.ts:48-55 | the inner loop computes the correlation table's entry for the lag |
| PitchDetection.DivideByAtLeastOne | src/hooks/usePitchDetector.ts:66 | a positive rate divided by a divisor of at least 1 lies in (0, rate] |
| PitchDetection.AutoCorrelate | src/hooks/usePitchDetector.ts:28-75 | the imperative routine returns exactly `Frequency(Detect(buf))` |
| PitchDetection.JsRemainder | src/hooks/usePitchDetector.ts:91 | JavaScript's `%` keeps the dividend's sign and agrees with the mathematical remainder for non-negative dividends |
| PitchDetection.NoteName | src/hooks/usePitchDetector.ts:91 | `NOTE_STRINGS[noteInt % 12]` is defined exactly for non-negative notes and negative multiples of 12, and for non-negative notes names the pitch class |
| PitchDetection.ReferenceNotes | src/hooks/usePitchDetector.ts:3 | MIDI note 69 is A and note 60 is C |
| PitchDetection.NoteNameOctave | src/hooks/usePitchDetector.ts:91 | note names repeat every 12 semitones |
| PitchDetection.PitchDetector.constructor | src/hooks/usePitchDetector.ts:16-25 | the hook starts stopped: not listening, frequency 0, note `-`, no MIDI note, 0 cents, no audio handles |
| PitchDetection.PitchDetector.StartListening | src/hooks/usePitchDetector.ts:126-143 | with microphone access the audio handles exist and the hook listens; a refused request changes nothing; the readings are untouched |
| PitchDetection.PitchDetector.UpdatePitch | src/hooks/usePitchDetector.ts:80-103 | without an analyser nothing changes; otherwise a detected pitch sets frequency, note, MIDI note and cents, a result of -1 leaves all four unchanged, and the next frame is requested |
| PitchDetection.PitchDetector.StopListening | src/hooks/usePitchDetector.ts:106-124 | resets to the stopped state (so stopping twice equals stopping once) |
| Metronome.SecondsPerBeat | src/components/Metronome.tsx:30 | a tempo in [30, 300] gives a beat of 0.2 to 2 seconds |
| Metronome.BeatLengthBounds | src/components/Metronome.tsx:30 | `60 / bpm` lies in [0.2, 2] for a tempo in [30, 300] |
| Metronome.ClampBpm | src/components/Metronome.tsx:78-80 | the new tempo lies in [30, 300] and equals `prev + delta` exactly when that sum is in range; otherwise the nearer limit |
| Metronome.BeatTimeIs | src/components/Metronome.tsx:29-32 | after `k` advances the next click is at `t0 + k·s` |
| Metronome.BeatTimeIncreasing | src/components/Metronome.tsx:29-32 | later clicks are strictly later |
| Metronome.Beats | src/components/Metronome.tsx:53-56 | the `n` click times queued from `t0` |
| Metronome.BeatAt | src/components/Metronome.tsx:53-56 | the `k`-th queued click is at `t0 + k·s` |
| Metronome.BeatsStrictlyIncreasing | src/components/Metronome.tsx:53-56 | the queued clicks strictly increase, so none is queued twice |
| Metronome.BeatsEvenlySpaced | src/components/Metronome.tsx:53-56 | consecutive queued clicks are exactly one beat apart |
| Metronome.BeatTimeShift | src/components/Metronome.tsx:29-32 | resuming a run at its `a`-th click and advancing `k` more beats reaches click `a + k` |
| Metronome.BeatsConcatenate | src/components/Metronome.tsx:51-57 | the clicks of one scheduler call followed by those of the next wake-up, which resumes where the first stopped, are a single run: a start followed by wake-ups queues one arithmetic sequence without a gap or repeat |
| Metronome.LookAheadRunUnique | src/components/Metronome.tsx:53 | exactly one number of clicks stops the loop at the horizon |
| Metronome.LookAheadRunInWindow | src/components/Metronome.tsx:53-54 | every queued click is before `currentTime + 0.1` |
| Metronome.Metronome.constructor | src/components/Metronome.tsx:8-12 | 60 bpm, not playing, no context, no timer, next click at 0 |
| Metronome.Metronome.NextNote | src/components/Metronome.tsx:29-32 | advances the next click by exactly `60 / bpm` of the running tempo and changes nothing else |
| Metronome.Metronome.ScheduleNote | src/components/Metronome.tsx:34-49 | queues one click at `time` when there is an audio context, nothing otherwise |
| Metronome.Metronome.Scheduler | src/components/Metronome.tsx:51-58 | without a context nothing changes and the timer is not re-armed; with one, the clicks `t0, t0+s, …` before `currentTime + 0.1` are queued, the next click is at or after the horizon, and the timer is re-armed |
| Metronome.Metronome.Wake | src/components/Metronome.tsx:57 | a timer wake-up runs the captured scheduler and keeps the metronome playing; the clicks it queues continue from the stored next click time, which it leaves exactly that many beats later |
| Metronome.Metronome.TogglePlay | src/components/Metronome.tsx:60-76 | stopping clears the timer and leaves the next click time alone; starting queues the first click at `currentTime + 0.05`, the following ones one beat apart, and leaves the next click time one beat after the last queued click |
| Metronome.Metronome.ChangeBpm | src/components/Metronome.tsx:78-80 | the displayed tempo becomes the clamped sum; the running scheduler keeps its tempo |
| Metronome.Metronome.SetBpm | src/components/Metronome.tsx:125 | the slider sets the displayed tempo and nothing else |
| Progress.CompositeId | src/hooks/useProgress.ts:52 | the key of a level is longer than the level id |
| Progress.SplitAtDash | src/hooks/useProgress.ts:52 | a run of digits followed by `-` splits back into the same digits and the rest |
| Progress.CompositeIdInjective | src/hooks/useProgress.ts:52 | different (course, level) pairs have different keys |
| Progress.WithLevelMembership | src/hooks/useProgress.ts:54-60 | completing a level keeps every recorded key and adds exactly the new one, once |
| Progress.WithLevelNoDuplicates | src/hooks/useProgress.ts:55-59 | the list of completed levels stays free of duplicates |
| Progress.CompleteTwiceIsOnce | src/hooks/useProgress.ts:55-58 | completing a level twice gives the same list and total as completing it once |
| Progress.StoredXp | src/hooks/useProgress.ts:28 | a saved total that `parseInt` cannot read loads as 0; a readable one loads as its value |
| Progress.StoredXpRoundTrip | src/hooks/useProgress.ts:42 | a total written with `toString()` reads back unchanged (line 28) |
| Progress.ProgressStore.constructor | src/hooks/useProgress.ts:10-11 | no completed levels and 0 experience |
| Progress.ProgressStore.LoadXp | src/hooks/useProgress.ts:27-29 | only a non-empty saved value replaces the total |
| Progress.ProgressStore.CompleteLevel | src/hooks/useProgress.ts:51-61 | a new key is appended and the reward credited; a recorded key changes nothing; afterwards the level counts as completed and the list has no duplicates |
| Progress.ProgressStore.IsLevelCompleted | src/hooks/useProgress.ts:66-68 | holds exactly when the level's key occurs in the list |
| Progress.ProgressStore.ResetProgress | src/hooks/useProgress.ts:73-78 | empties the list, zeroes the total, and then no level counts as completed |
| Practice.Judge | src/components/PracticeMode.tsx:32-57 | no pitch means waiting; the right note within 25 cents is perfect and the only verdict that extends the streak; otherwise flat when below (or the right note at least 25 cents flat), sharp when above |
| Practice.JudgeMirror | src/components/PracticeMode.tsx:42-57 | reflecting the played note and the detune about the target swaps flat and sharp and keeps the streak decision |
| Practice.ProgressPercent | src/components/PracticeMode.tsx:87 | `currentIndex / length * 100` is below 100 for an index inside the exercise, and undefined (NaN) for an empty one |
| Practice.DisplayedPercent | src/components/PracticeMode.tsx:106 | the bar shows 100 once completed and the progress otherwise; while the index is on a note the bar is full exactly when the exercise is completed |
| Practice.ProgressPercentIncreasing | src/components/PracticeMode.tsx:87 | a later note shows strictly more progress |
| Practice.PracticeSession.constructor | src/components/PracticeMode.tsx:20-23 | first note, not completed, waiting, no streak |
| Practice.PracticeSession.PitchCheck | src/components/PracticeMode.tsx:29-58 | when not listening, completed or past the notes nothing changes; otherwise the verdict sets the feedback and either adds exactly 1 to the streak or resets it to 0 |
| Practice.PracticeSession.CompletionCheck | src/components/PracticeMode.tsx:61-77 | below 15 matches nothing changes; 15 on an earlier note moves to the next note, resetting the streak and the feedback; 15 on the last note completes the exercise, stops the detector and records the level and its reward; the index stays on a note |
| Practice.PracticeSession.Restart | src/components/PracticeMode.tsx:79-85 | back to the first note, not completed, no streak, waiting, and listening again when the microphone is granted |
| Tuner.Status | src/components/Tuner.tsx:21-25 | tuned exactly when the detune is within 5 cents, flat exactly when at least 5 cents low, sharp exactly when at least 5 cents high |
| Tuner.StatusAtBoundaries | src/components/Tuner.tsx:22-24 | +5 cents is sharp, -5 is flat, ±4 are tuned |
| Tuner.NeedleOffset | src/components/Tuner.tsx:66 | the needle stays within [0, 80] pixels, pinned at 0 from -50 cents down and at 80 from +50 up |
| Tuner.NeedleCentred | src/components/Tuner.tsx:66 | at 0 cents the needle is at 40, the middle of the track |
| Tuner.NeedleMonotone | src/components/Tuner.tsx:66 | a sharper detune never moves the needle left |
| Tuner.NeedleMatchesStatus | src/components/Tuner.tsx:21-66 | the needle is strictly between 36 and 44 pixels exactly when tuned, at or left of 36 exactly when flat, at or right of 44 exactly when sharp |
| Tuner.GuitarStringsAscending | src/components/Tuner.tsx:9-16 | six open strings in strictly ascending frequency |
| Tuner.GuitarStringsAreStandardTuning | src/components/Tuner.tsx:9-16 | each entry's note and octave are those of MIDI notes 40, 45, 50, 55, 59, 64 as the detector names them |
| ChordChart.GridLines | src/components/ChordChart.tsx:51-60 | the string lines are at `10 + 16i` and the fret lines at `20 + 20k` |
| ChordChart.MarkerFor | src/components/ChordChart.tsx:71-97 | fret -1 gives the X mark at y 15, fret 0 the open circle at y 12, anything else a dot; every marker is on its string's x |
| ChordChart.Markers | src/components/ChordChart.tsx:71 | one marker per string, in string order |
| ChordChart.MarkersOnStringLines | src/components/ChordChart.tsx:57-72 | for up to six strings each marker sits on its string line, the markers run strictly left to right, within [10, 90] |
| ChordChart.DotBetweenFretLines | src/components/ChordChart.tsx:51-53 | a dot's centre is midway between the fret line above it and its own (line 90) |
| ChordChart.BaseFreqsAreTunerStrings | src/components/ChordChart.tsx:27 | the chart's open-string frequencies are the tuner's table |
| ChordChart.PlayString | src/components/ChordChart.tsx:12-43 | a muted string returns before any context is created; any other fret creates the context and starts one tone for that string and fret |
| ChordChart.ClickHandler | src/components/ChordChart.tsx:93 | only a fretted dot carries a handler, and it plays its own string and fret |
| ChordChart.ClickSoundsItsString | src/components/ChordChart.tsx:73-93 | a marker is clickable exactly when its string is fretted, and clicking it sounds exactly that string at that fret |
| Scores.FilterScores | src/app/scores/page.tsx:104-111 | a score is kept exactly when its lower-cased title or artist contains the lower-cased query and the category is `全部` or its own; the result is a subsequence of the scores in their order |
| Scores.FilterKeepsAll | src/app/scores/page.tsx:106-108 | an empty query under `全部` keeps every score, in order |
| Scores.FilterIgnoresQueryCase | src/app/scores/page.tsx:106-107 | two queries that lower-case alike give the same list |
| Scores.FilterUpperEqualsLower | src/app/scores/page.tsx:106-107 | a query gives the same list as its lower-cased form |
| Scores.FilterUnusedCategory | src/app/scores/page.tsx:108 | a category no score has leaves nothing |
| Scores.FingerstyleIsEmpty | src/app/scores/page.tsx:35-98 | the `指弹` button matches no listed score, giving the empty state (line 242) |
| Scores.ResetFilters | src/app/scores/page.tsx:250 | the reset button restores the empty query and `全部`, which shows every score |
| Scores.DifficultyColor | src/app/scores/page.tsx:113-122 | anything but the five levels gets the slate default |
| Scores.DifficultyColorsDistinct | src/app/scores/page.tsx:114-120 | the five levels get five different badges, none of them the default |
| Courses.DifficultyStars | src/app/courses/page.tsx:129-138 | `入门` to `专家` get 1 to 5 stars, anything else 1; always within [1, 5] |
| Courses.DifficultyStarsMonotone | src/app/courses/page.tsx:129-138 | a harder level never gets fewer stars |
| Courses.StarSlots | src/app/courses/page.tsx:15 | the rating always has five slots |
| Courses.CountFilledPrefix | src/app/courses/page.tsx:15-19 | slots filled exactly below `k` count `k` |
| Courses.StarSlotsFillRating | src/app/courses/page.tsx:15-19 | a rating of 1 to 5 fills exactly that many slots, the leftmost ones |
| Courses.Slice | src/app/courses/page.tsx:141-142 | `slice` never yields more than `to - from` entries |
| Courses.Rows | src/app/courses/page.tsx:140-143 | two rows of at most three cards: the first holds courses 0 to 2, the second courses 3 to 5, each cut short when there are fewer courses |
| Courses.RowsCoverFirstSix | src/app/courses/page.tsx:140-143 | read row by row the map shows the first `min(6, n)` courses in order |
| Courses.CompletedLessons | src/app/courses/page.tsx:208-210 | a lesson is counted exactly when its `${id}-${levelId}` key is recorded (a missing id prints `undefined`), and every lesson is counted exactly when all keys are recorded; the counted lessons keep the syllabus order |
| Courses.CompletedCountBounded | src/app/courses/page.tsx:208-211 | the completed count never exceeds the number of lessons |
| Courses.NodeCompletedIffAllRecorded | src/app/courses/page.tsx:43-48 | the completed marker shows exactly when every lesson is recorded, including for a course without lessons |
| Courses.LastWorldUnique | src/app/courses/page.tsx:205 | with distinct course ids at most one card carries the last-world trophy |
| Courses.RecordedLessonCounts | src/app/courses/page.tsx:208-210 | once a level is completed in the progress store, its lesson is counted on the map (src/hooks/useProgress.ts:52) |
| CourseDetail.FindIndexFrom | src/pages/CourseDetail.tsx:79 | the first selected position from `from` on, or -1 when there is none |
| CourseDetail.FindIndex | src/pages/CourseDetail.tsx:79 | `findIndex`: the first entry whose level id equals the selection, or -1 exactly when none does |
| CourseDetail.CurrentSyllabusIndex | src/pages/CourseDetail.tsx:79 | `findIndex` on the syllabus, 0 for a course without one |
| CourseDetail.SyllabusDivisor | src/pages/CourseDetail.tsx:80 | the divisor is at least 1, and the syllabus length when that is positive |
| CourseDetail.ProgressPercentBounds | src/pages/CourseDetail.tsx:80 | the percentage lies in [0, 100], is 0 at index -1 and 100 on the last entry |
| CourseDetail.ProgressPercentMonotone | src/pages/CourseDetail.tsx:80 | a later entry never shows less progress |
| CourseDetail.PageProgressBounds | src/pages/CourseDetail.tsx:79-80 | the page's percentage is always in [0, 100] |
| CourseDetail.SelectionOf | src/pages/CourseDetail.tsx:221 | a button selects the lesson's level id when it is non-empty, else `null` |
| CourseDetail.PreviousTarget | src/pages/CourseDetail.tsx:219-230 | "previous" is shown exactly when the index is above 0, and selects the entry before, which exists |
| CourseDetail.NextTarget | src/pages/CourseDetail.tsx:232-243 | "next" is shown exactly when the index is below the last entry, and selects the entry after, which exists |
| CourseDetail.FindIndexOfOwnLevel | src/pages/CourseDetail.tsx:79 | with distinct non-empty level ids, selecting an entry's id finds that entry |
| CourseDetail.NavigationStepsByOne | src/pages/CourseDetail.tsx:219-243 | with distinct non-empty level ids, "previous" lands on index − 1 and "next" on index + 1, never leaving the syllabus |
| CourseDetail.NoSyllabusNoNavigation | src/pages/CourseDetail.tsx:219-232 | a course without a syllabus shows neither button |
| CourseDetail.Sidebar | src/pages/CourseDetail.tsx:268-270 | an entry is highlighted exactly when its level id is the selection, and ticked exactly when it comes before the current index |
| CourseDetail.SidebarActiveNotCompleted | src/pages/CourseDetail.tsx:269-270 | a highlighted entry is never ticked |
| CourseDetail.InitialSelection | src/pages/CourseDetail.tsx:39-43 | with lessons and no selection, selects the first lesson's level id or `1-1`; otherwise keeps the selection |
| CourseDetail.InitialSelectionSettles | src/pages/CourseDetail.tsx:39-43 | afterwards a course with lessons has a selection, and a second run changes nothing |
| CourseDetail.TutorialPath | src/pages/CourseDetail.tsx:49 | the tutorial key lies under `../../docs/tutorial/` |
| CourseDetail.TutorialPathInjective | src/pages/CourseDetail.tsx:49 | within one world different levels have different tutorial keys |
| CourseDetail.LoadContent | src/pages/CourseDetail.tsx:46-60 | with a selection, a bundled non-empty tutorial is shown, else the course content, else the loading placeholder; without one the content stays |
| CourseDetail.MapLookup | src/pages/CourseDetail.tsx:50 | a module map gives the stored value, `undefined` for a missing key |
| CourseDetail.LastSlash | src/pages/CourseDetail.tsx:158 | the position of the last `/`, or -1 when there is none: a `/` is there and none after it |
| CourseDetail.LastSegment | src/pages/CourseDetail.tsx:158 | `split('/').pop()` is the suffix after the last `/`, contains no `/`, and is preceded by one when shorter than the input |
| CourseDetail.LastSegmentOfPath | src/pages/CourseDetail.tsx:158 | the last segment of `dir/name` is `name` |
| CourseDetail.ResolveImage | src/pages/CourseDetail.tsx:157-163 | the bundled image keyed by the file name is used when present, `src` otherwise |
| CourseDetail.ResolveImageIgnoresDirectory | src/pages/CourseDetail.tsx:158-159 | an image written with a directory in front resolves like its bare file name |
| CourseDetail.ExercisesFor | src/pages/CourseDetail.tsx:78 | keeps exactly the exercises whose id contains the level id, in their order |
| CourseDetail.CurrentPractice | src/pages/CourseDetail.tsx:78 | the practice list is filtered by `activeLevelId \|\| ''`, and is `undefined` for a course without exercises |
| CourseDetail.ExercisesForEmptyKeepsAll | src/pages/CourseDetail.tsx:78 | an empty level id keeps every exercise |
| CourseDetail.NoSelectionShowsAllPractice | src/pages/CourseDetail.tsx:78 | without a selection every exercise of the course is shown |
| CourseDetail.HeaderTitle | src/pages/CourseDetail.tsx:132 | the selected entry's title when it is non-empty, the course title otherwise |
| CourseDetail.PracticeKeyAsWritten | src/pages/CourseDetail.tsx:209 | the practice panel records the key `undefined-undefined`, whatever the course and level |
| CourseDetail.PracticeKeyAsWrittenNeverCounted | src/pages/CourseDetail.tsx:209 | that key is never the key of any lesson on the course map |
| CourseDetail.PracticeKeyCounted | src/pages/CourseDetail.tsx:209 | passing the course id and the selected level id records exactly the key the map counts for the selected lesson |
| Text.NatToString | src/hooks/useProgress.ts:52 | a number prints as a non-empty string of digits |
| Text.DigitsValueOfNatToString | src/hooks/useProgress.ts:42 | the printed digits have the number's value |
| Text.NatToStringInjective | src/hooks/useProgress.ts:52 | different numbers print differently |
| Text.LeadingDigitsOfDigitsThen | src/hooks/useProgress.ts:52 | a digit string followed by a non-digit yields the digit string as its digit prefix |
| Text.ParseIntOfIntToString | src/hooks/useProgress.ts:28 | `parseInt(String(x), 10) == x` for every integer |
| Text.ParseIntNoDigits | src/hooks/useProgress.ts:28 | a string without leading digits does not parse |
| Text.ToLower | src/app/scores/page.tsx:106 | lower-casing keeps the length and maps each character |
| Text.ToLowerIdempotent | src/app/scores/page.tsx:106-107 | lower-casing twice is lower-casing once |
| Text.ContainsAt | src/app/scores/page.tsx:106 | `includes` holds exactly when the query occurs at some position |
| Text.JsRound | src/pages/CourseDetail.tsx:80 | `Math.round` is within half of its argument |

## Findings

| source | as written | input that shows it | evidently intended | confidence | as-written member | corrected member |
|---|---|---|---|---|---|---|
| src/pages/CourseDetail.tsx:209 | `<PracticeMode exercise={exercise} />` passes neither `courseId`, `levelId` nor `xpReward` | any course with an exercise for the selected level: completing it records `undefined-undefined` (and adds `undefined` to the experience total) | pass `course.id`, `activeLevelId \|\| ''` and a reward, as src/app/courses/[id]/page.tsx:189-190 does, so that the completed lesson counts on the course map | not executed | CourseDetail.PracticeKeyAsWrittenNeverCounted | CourseDetail.PracticeKeyCounted |

## Left out

- Web Audio, oscillators, gain ramps, `getUserMedia`, and creating, resuming and closing an `AudioContext` are foreign browser calls. The model records only which handles exist, and which clicks and tones have been started.
- `getFloatTimeDomainData` is left out: the sample buffer is a parameter of `UpdatePitch`.
- The audio clock is a parameter of the metronome methods.
- `setTimeout` and `requestAnimationFrame` re-arming are host timers. Each wake-up is an explicit call, `Metronome.Wake` or `UpdatePitch`, and the pending request is a flag.
- Unmount cleanup is left out: `stopListening` on unmount, and the metronome's clearing of its timeout and closing of its context.
- `Math.log` and `Math.pow` are left out: the frequency-to-note and detune formulas of the pitch hook, and the fret-frequency formula of the chord chart. `UpdatePitch` takes `noteInt` and the detune as functions of the detected frequency, and `PlayString` records the string and fret instead of a frequency.
- Floating point is left out: numbers are reals. Accumulated drift of `nextNoteTime` and rounding in the correlation sums are not modelled.
- `Math.sqrt` in the silence gate is left out: it is replaced by comparing the mean square with 0.0001.
- Samples (the type `PitchDetection.Sample`) are assumed to lie in [-1, 1], which is what the analyser delivers. Samples outside it are not modelled, and the proof that the refinement's divisor is at least 1 depends on the assumption.
- For an empty buffer the code computes the RMS of nothing as `NaN`, and the comparison with 0.01 is false. The model's mean-square test is false there too: the buffer is not silent, and no lag is scanned.
- PitchDetection.PitchDetector.StartListening: the immediate first `updatePitch` call after starting (src/hooks/usePitchDetector.ts:138) is a separate `UpdatePitch` call, and the error path's console message and alert are left out.
- `localStorage` reads and writes and `JSON.parse` are storage I/O and a library parser. Progress.ProgressStore.LoadXp models only the read-back of the experience total; the saved list of completed levels is not loaded.
- React scheduling is left out: effect ordering, batching and re-render timing. Each effect run or handler is one call. Practice.PracticeSession.PitchCheck runs only when one of its dependencies changed; the model does not track which.
- Practice.PracticeSession.CompletionCheck does not bound the streak at 15. Both effects can run in one commit, so the streak can pass 15 before the completion check sees it; the model allows this as the code does.
- Text.ToLower folds only ASCII letters. `toLowerCase` on other scripts is not modelled; the listed Chinese titles have no case.
- Markdown rendering, all JSX and CSS, and the `import.meta.glob` module maps are left out. The maps are parameters of type `map<string, string>`.
- The route parameter lookup `courses.find(c => c.id === Number(id))` and the "not found" page are left out: the course record is a parameter.
- The experience a completion adds is not tracked through the CourseDetail page (see Findings). There `xpReward` is `undefined` and the total becomes `NaN`, which the model's `int` total cannot represent.
- Metronome.Metronome.TogglePlay follows the code: the running scheduler keeps the tempo captured when play was pressed. It does not model the documented intent that a tempo change applies from the next interval.
- The static data files (chord tables, course list) and the presentation-only pages and the navigation bar are not modelled.
