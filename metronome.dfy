/**
 * The metronome component: a look-ahead click scheduler driven by the audio
 * clock. Each timer wake-up and each button press is one method call; the
 * audio clock reading is a parameter, the pending timeout is a flag and each
 * `scheduleNote` is recorded in a ghost list of click times.
 */
module Metronome {
  const MinBpm: int := 30
  const MaxBpm: int := 300
  const InitialBpm: int := 60
  /** `scheduleAheadTime`: clicks are queued this many seconds before they sound. */
  const ScheduleAheadTime: real := 0.1
  /** The first click of a run sounds this many seconds after the start press. */
  const StartOffset: real := 0.05
  /** `lookahead`: the interval between timer wake-ups, in milliseconds. */
  const LookaheadMs: real := 25.0

  /** `60.0 / bpm`. */
  function SecondsPerBeat(bpm: int): (s: real)
    requires MinBpm <= bpm <= MaxBpm
    ensures 0.2 <= s <= 2.0
  {
    BeatLengthBounds(bpm);
    60.0 / bpm as real
  }

  lemma BeatLengthBounds(bpm: int)
    requires MinBpm <= bpm <= MaxBpm
    ensures 0.2 <= 60.0 / bpm as real <= 2.0
  {
    var s := 60.0 / bpm as real;
    assert s * bpm as real == 60.0;
  }

  /** `changeBpm`: `Math.max(30, Math.min(300, prev + delta))`. */
  function ClampBpm(prev: int, delta: int): (r: int)
    ensures MinBpm <= r <= MaxBpm
    ensures r == prev + delta <==> MinBpm <= prev + delta <= MaxBpm
    ensures prev + delta < MinBpm ==> r == MinBpm
    ensures prev + delta > MaxBpm ==> r == MaxBpm
  {
    var sum := prev + delta;
    var capped := if sum < MaxBpm then sum else MaxBpm;
    if capped > MinBpm then capped else MinBpm
  }

  /** The time of click `k` of a run that starts at `t0`: `s` added `k` times, as `nextNote` does. */
  function BeatTime(t0: real, s: real, k: nat): real {
    if k == 0 then t0 else BeatTime(t0, s, k - 1) + s
  }

  /** Repeated addition of the beat length gives the arithmetic sequence `t0 + k * s`. */
  lemma {:induction false} BeatTimeIs(t0: real, s: real, k: nat)
    ensures BeatTime(t0, s, k) == t0 + k as real * s
  {
    if k > 0 {
      BeatTimeIs(t0, s, k - 1);
    }
  }

  /** Later clicks of a run are later in time. */
  lemma {:induction false} BeatTimeIncreasing(t0: real, s: real, j: nat, k: nat)
    requires s > 0.0 && j < k
    ensures BeatTime(t0, s, j) < BeatTime(t0, s, k)
    decreases k - j
  {
    if j < k - 1 {
      BeatTimeIncreasing(t0, s, j, k - 1);
    }
  }

  /** The click times `t0, t0 + s, ..., t0 + (n - 1) * s`, in the order they are queued. */
  function Beats(t0: real, s: real, n: nat): (bs: seq<real>)
    ensures |bs| == n
  {
    if n == 0 then [] else Beats(t0, s, n - 1) + [BeatTime(t0, s, n - 1)]
  }

  lemma {:induction false} BeatAt(t0: real, s: real, n: nat, k: nat)
    requires k < n
    ensures Beats(t0, s, n)[k] == BeatTime(t0, s, k) == t0 + k as real * s
  {
    BeatTimeIs(t0, s, k);
    if k < n - 1 {
      BeatAt(t0, s, n - 1, k);
    }
  }

  /** Within one run the clicks strictly increase, so no beat is queued twice. */
  lemma BeatsStrictlyIncreasing(t0: real, s: real, n: nat, j: nat, k: nat)
    requires s > 0.0 && j < k < n
    ensures Beats(t0, s, n)[j] < Beats(t0, s, n)[k]
  {
    BeatAt(t0, s, n, j);
    BeatAt(t0, s, n, k);
    BeatTimeIncreasing(t0, s, j, k);
  }

  /** Consecutive clicks are exactly one beat apart. */
  lemma BeatsEvenlySpaced(t0: real, s: real, n: nat, k: nat)
    requires k + 1 < n
    ensures Beats(t0, s, n)[k + 1] - Beats(t0, s, n)[k] == s
  {
    BeatAt(t0, s, n, k);
    BeatAt(t0, s, n, k + 1);
  }

  /** Click `k` of a run that resumes at click `a` is click `a + k` of the whole run. */
  lemma {:induction false} BeatTimeShift(t0: real, s: real, a: nat, k: nat)
    ensures BeatTime(BeatTime(t0, s, a), s, k) == BeatTime(t0, s, a + k)
  {
    if k > 0 {
      BeatTimeShift(t0, s, a, k - 1);
    }
  }

  /**
   * The clicks of one `scheduler` call followed by those of the next, which
   * resumes at the `nextNoteTime` the first left behind, are one unbroken run.
   */
  lemma {:induction false} BeatsConcatenate(t0: real, s: real, a: nat, b: nat)
    ensures Beats(t0, s, a) + Beats(BeatTime(t0, s, a), s, b) == Beats(t0, s, a + b)
  {
    if b > 0 {
      BeatsConcatenate(t0, s, a, b - 1);
      BeatTimeShift(t0, s, a, b - 1);
    }
  }

  /**
   * `n` clicks from `t0` is what one `scheduler` call queues before the
   * window ending at `limit`: click `n` would be at or past the limit and
   * every earlier one is before it.
   */
  ghost predicate IsLookAheadRun(t0: real, s: real, limit: real, n: nat) {
    && BeatTime(t0, s, n) >= limit
    && (n > 0 ==> BeatTime(t0, s, n - 1) < limit)
  }

  /** The number of clicks one `scheduler` call queues is determined by the clock. */
  lemma LookAheadRunUnique(t0: real, s: real, limit: real, m: nat, n: nat)
    requires s > 0.0
    requires IsLookAheadRun(t0, s, limit, m) && IsLookAheadRun(t0, s, limit, n)
    ensures m == n
  {
    if m < n - 1 {
      BeatTimeIncreasing(t0, s, m, n - 1);
    } else if n < m - 1 {
      BeatTimeIncreasing(t0, s, n, m - 1);
    }
  }

  /** Every click of a look-ahead run falls inside the window. */
  lemma LookAheadRunInWindow(t0: real, s: real, limit: real, n: nat, k: nat)
    requires s > 0.0 && IsLookAheadRun(t0, s, limit, n) && k < n
    ensures Beats(t0, s, n)[k] < limit
  {
    BeatAt(t0, s, n, k);
    if k < n - 1 {
      BeatTimeIncreasing(t0, s, k, n - 1);
    }
  }

  /**
   * The component's state. `timerArmed` says whether a `setTimeout` for the
   * scheduler is pending; `runBpm` is the `bpm` that the running scheduler
   * closure captured when play was pressed.
   */
  class Metronome {
    var bpm: int
    var isPlaying: bool
    var hasContext: bool
    var nextNoteTime: real
    var timerArmed: bool
    var runBpm: int
    ghost var scheduled: seq<real>

    ghost predicate Valid()
      reads this
    {
      && MinBpm <= bpm <= MaxBpm
      && MinBpm <= runBpm <= MaxBpm
      && (timerArmed <==> isPlaying)
      && (isPlaying ==> hasContext)
    }

    constructor ()
      ensures Valid()
      ensures bpm == InitialBpm && !isPlaying && !hasContext && !timerArmed
      ensures nextNoteTime == 0.0 && scheduled == []
    {
      bpm := InitialBpm;
      isPlaying := false;
      hasContext := false;
      nextNoteTime := 0.0;
      timerArmed := false;
      runBpm := InitialBpm;
      scheduled := [];
    }

    /** `nextNote`: advance the next click by one beat of the running tempo. */
    method NextNote()
      requires MinBpm <= runBpm <= MaxBpm
      modifies this
      ensures runBpm == old(runBpm)
      ensures nextNoteTime == old(nextNoteTime) + SecondsPerBeat(runBpm)
      ensures bpm == old(bpm) && isPlaying == old(isPlaying) && hasContext == old(hasContext)
      ensures timerArmed == old(timerArmed) && scheduled == old(scheduled)
    {
      var secondsPerBeat := 60.0 / runBpm as real;
      nextNoteTime := nextNoteTime + secondsPerBeat;
    }

    /** `scheduleNote`: queue one click at `time` (nothing without an audio context). */
    method ScheduleNote(time: real)
      modifies this
      ensures scheduled == if hasContext then old(scheduled) + [time] else old(scheduled)
      ensures bpm == old(bpm) && isPlaying == old(isPlaying) && hasContext == old(hasContext)
      ensures nextNoteTime == old(nextNoteTime) && timerArmed == old(timerArmed) && runBpm == old(runBpm)
    {
      if !hasContext {
        return;
      }
      scheduled := scheduled + [time];
    }

    /**
     * `scheduler`: queue every click before `currentTime + scheduleAheadTime`
     * and re-arm the timer. `beats` is the number of clicks queued.
     */
    method Scheduler(currentTime: real) returns (ghost beats: nat)
      requires MinBpm <= runBpm <= MaxBpm
      modifies this
      ensures runBpm == old(runBpm)
      ensures !old(hasContext) ==>
        && beats == 0 && nextNoteTime == old(nextNoteTime) && scheduled == old(scheduled)
        && timerArmed == old(timerArmed)
      ensures old(hasContext) ==>
        && IsLookAheadRun(old(nextNoteTime), SecondsPerBeat(runBpm), currentTime + ScheduleAheadTime, beats)
        && scheduled == old(scheduled) + Beats(old(nextNoteTime), SecondsPerBeat(runBpm), beats)
        && nextNoteTime == BeatTime(old(nextNoteTime), SecondsPerBeat(runBpm), beats)
        && nextNoteTime >= currentTime + ScheduleAheadTime
        && (forall i :: |old(scheduled)| <= i < |scheduled| ==> scheduled[i] < currentTime + ScheduleAheadTime)
        && timerArmed
      ensures bpm == old(bpm) && isPlaying == old(isPlaying) && hasContext == old(hasContext)
    {
      if !hasContext {
        return 0;
      }
      ghost var t0 := nextNoteTime;
      ghost var s := SecondsPerBeat(runBpm);
      ghost var queued := scheduled;
      var limit := currentTime + ScheduleAheadTime;
      beats := 0;
      while nextNoteTime < limit
        invariant MinBpm <= runBpm <= MaxBpm && hasContext
        invariant s == SecondsPerBeat(runBpm)
        invariant nextNoteTime == BeatTime(t0, s, beats)
        invariant beats > 0 ==> BeatTime(t0, s, beats - 1) < limit
        invariant scheduled == queued + Beats(t0, s, beats)
        invariant forall i :: |queued| <= i < |scheduled| ==> scheduled[i] < limit
        invariant bpm == old(bpm) && isPlaying == old(isPlaying) && timerArmed == old(timerArmed)
        invariant runBpm == old(runBpm)
        decreases ((limit - nextNoteTime) * 5.0).Floor
      {
        ScheduleNote(nextNoteTime);
        NextNote();
        beats := beats + 1;
      }
      timerArmed := true;
    }

    /** A timer wake-up: the pending timeout fires and runs the captured scheduler. */
    method Wake(currentTime: real) returns (ghost beats: nat)
      requires Valid() && timerArmed
      modifies this
      ensures Valid()
      ensures IsLookAheadRun(old(nextNoteTime), SecondsPerBeat(runBpm), currentTime + ScheduleAheadTime, beats)
      ensures scheduled == old(scheduled) + Beats(old(nextNoteTime), SecondsPerBeat(runBpm), beats)
      ensures nextNoteTime == BeatTime(old(nextNoteTime), SecondsPerBeat(runBpm), beats)
      ensures nextNoteTime >= currentTime + ScheduleAheadTime
      ensures timerArmed && isPlaying
      ensures bpm == old(bpm) && runBpm == old(runBpm) && hasContext == old(hasContext)
    {
      timerArmed := false;
      beats := Scheduler(currentTime);
    }

    /**
     * `togglePlay`. Stopping clears the pending timeout and leaves the click
     * times alone. Starting creates the audio context if there is none,
     * captures the current tempo and queues clicks from `currentTime + 0.05`.
     */
    method TogglePlay(currentTime: real) returns (ghost beats: nat)
      requires Valid()
      modifies this
      ensures Valid()
      ensures bpm == old(bpm)
      ensures old(isPlaying) ==>
        && !isPlaying && !timerArmed
        && nextNoteTime == old(nextNoteTime) && scheduled == old(scheduled)
        && hasContext == old(hasContext) && runBpm == old(runBpm)
      ensures !old(isPlaying) ==>
        && isPlaying && timerArmed && hasContext && runBpm == bpm
        && |scheduled| > |old(scheduled)|
        && scheduled[|old(scheduled)|] == currentTime + StartOffset
        && nextNoteTime >= currentTime + ScheduleAheadTime
        && IsLookAheadRun(currentTime + StartOffset, SecondsPerBeat(bpm), currentTime + ScheduleAheadTime, beats)
        && scheduled == old(scheduled) + Beats(currentTime + StartOffset, SecondsPerBeat(bpm), beats)
        && nextNoteTime == BeatTime(currentTime + StartOffset, SecondsPerBeat(bpm), beats)
    {
      if isPlaying {
        if timerArmed {
          timerArmed := false;
        }
        isPlaying := false;
        beats := 0;
      } else {
        if !hasContext {
          hasContext := true;
        }
        nextNoteTime := currentTime + StartOffset;
        runBpm := bpm;
        beats := Scheduler(currentTime);
        BeatAt(currentTime + StartOffset, SecondsPerBeat(bpm), beats, 0);
        isPlaying := true;
      }
    }

    /** The minus and plus buttons: `changeBpm(delta)`. The running scheduler keeps its tempo. */
    method ChangeBpm(delta: int)
      modifies this
      requires Valid()
      ensures Valid()
      ensures bpm == ClampBpm(old(bpm), delta)
      ensures isPlaying == old(isPlaying) && hasContext == old(hasContext) && nextNoteTime == old(nextNoteTime)
      ensures timerArmed == old(timerArmed) && runBpm == old(runBpm) && scheduled == old(scheduled)
    {
      bpm := ClampBpm(bpm, delta);
    }

    /** The slider: `setBpm(parseInt(value))`; a range input only delivers integers in [30, 300]. */
    method SetBpm(value: int)
      modifies this
      requires Valid() && MinBpm <= value <= MaxBpm
      ensures Valid()
      ensures bpm == value
      ensures isPlaying == old(isPlaying) && hasContext == old(hasContext) && nextNoteTime == old(nextNoteTime)
      ensures timerArmed == old(timerArmed) && runBpm == old(runBpm) && scheduled == old(scheduled)
    {
      bpm := value;
    }
  }
}
