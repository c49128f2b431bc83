/**
 * The pitch detector hook: the autocorrelation peak picker, the note-name
 * table and the hook state that one animation frame and `stopListening`
 * update.
 */
module PitchDetection {
  import opened Wrappers
  import opened Text

  /** One captured sample. Microphone samples lie in [-1, 1]. */
  type Sample = x: real | -1.0 <= x <= 1.0

  /** The chromatic names indexed by MIDI note number modulo 12 (note 0 is a C). */
  const NoteStrings: seq<string> := ["C", "C#", "D", "D#", "E", "F", "F#", "G", "G#", "A", "A#", "B"]

  /** rms < 0.01 is compared without a square root: mean square < 0.01 * 0.01. */
  const SilenceMeanSquare: real := 0.0001
  const GoodCorrelation: real := 0.9
  const MinBestCorrelation: real := 0.01
  /** The value the detector returns when it finds no pitch. */
  const NoPitch: real := -1.0

  function Abs(x: real): real {
    if x < 0.0 then -x else x
  }

  /** Sum of the squares of the first `n` samples. */
  function SumOfSquares(buf: seq<Sample>, n: nat): real
    requires n <= |buf|
  {
    if n == 0 then 0.0 else SumOfSquares(buf, n - 1) + (buf[n - 1] as real) * (buf[n - 1] as real)
  }

  /**
   * The silence gate: the root mean square is below 0.01. An empty buffer is
   * not silent: 0 / 0 is NaN in the source, and NaN < 0.01 is false.
   */
  predicate IsSilent(buf: seq<Sample>) {
    SumOfSquares(buf, |buf|) < SilenceMeanSquare * |buf| as real
  }

  /** `MAX_SAMPLES`: the number of lags scanned, and of samples compared per lag. */
  function MaxLag(buf: seq<Sample>): nat {
    |buf| / 2
  }

  /** Sum of |buf[i] - buf[i + offset]| over the first `n` comparisons at one lag. */
  function DiffSum(buf: seq<Sample>, offset: nat, n: nat): real
    requires offset < MaxLag(buf) && n <= MaxLag(buf)
  {
    if n == 0 then 0.0 else DiffSum(buf, offset, n - 1) + Abs(buf[n - 1] as real - buf[n - 1 + offset] as real)
  }

  /** The magnitude-difference correlation at one lag, `correlations[offset]`. */
  function Correlation(buf: seq<Sample>, offset: nat): real
    requires offset < MaxLag(buf)
  {
    1.0 - DiffSum(buf, offset, MaxLag(buf)) / MaxLag(buf) as real
  }

  /** `correlations[0..n)`: the correlations of the first `n` lags, in order. */
  function Correlations(buf: seq<Sample>, n: nat): (cs: seq<real>)
    requires n <= MaxLag(buf)
    ensures |cs| == n
  {
    if n == 0 then [] else Correlations(buf, n - 1) + [Correlation(buf, n - 1)]
  }

  /** The whole `correlations` array once every lag has been examined. */
  function Table(buf: seq<Sample>): (cs: seq<real>)
    ensures |cs| == MaxLag(buf)
  {
    Correlations(buf, MaxLag(buf))
  }

  lemma {:induction false} CorrelationsAt(buf: seq<Sample>, n: nat, k: nat)
    requires k < n <= MaxLag(buf)
    ensures Correlations(buf, n)[k] == Correlation(buf, k)
  {
    if k < n - 1 {
      CorrelationsAt(buf, n - 1, k);
    }
  }

  lemma {:induction false} DiffSumBounds(buf: seq<Sample>, offset: nat, n: nat)
    requires offset < MaxLag(buf) && n <= MaxLag(buf)
    ensures 0.0 <= DiffSum(buf, offset, n) <= 2.0 * n as real
  {
    if n > 0 {
      DiffSumBounds(buf, offset, n - 1);
    }
  }

  lemma {:induction false} DiffSumAtZeroLag(buf: seq<Sample>, n: nat)
    requires 0 < MaxLag(buf) && n <= MaxLag(buf)
    ensures DiffSum(buf, 0, n) == 0.0
  {
    if n > 0 {
      DiffSumAtZeroLag(buf, n - 1);
    }
  }

  /** Every correlation lies in [-1, 1]. */
  lemma CorrelationBounds(buf: seq<Sample>, offset: nat)
    requires offset < MaxLag(buf)
    ensures -1.0 <= Correlation(buf, offset) <= 1.0
  {
    DiffSumBounds(buf, offset, MaxLag(buf));
    MeanBounds(DiffSum(buf, offset, MaxLag(buf)), MaxLag(buf) as real);
  }

  /** A total of at most 2 per comparison averages to at most 2. */
  lemma MeanBounds(total: real, count: real)
    requires count > 0.0 && 0.0 <= total <= 2.0 * count
    ensures 0.0 <= total / count <= 2.0
  {
    var q := total / count;
    assert q * count == total;
  }

  /** The correlation of the buffer with itself (lag 0) is exactly 1. */
  lemma CorrelationAtZeroLag(buf: seq<Sample>)
    requires 0 < MaxLag(buf)
    ensures Correlation(buf, 0) == 1.0
  {
    DiffSumAtZeroLag(buf, MaxLag(buf));
  }

  /**
   * The shape of every correlation sequence the scan produces: the entry for
   * lag 0 is 1 and every entry lies in [-1, 1].
   */
  predicate IsCorrelationTable(cs: seq<real>) {
    && (|cs| > 0 ==> cs[0] == 1.0)
    && forall k :: 0 <= k < |cs| ==> -1.0 <= cs[k] <= 1.0
  }

  lemma TableIsCorrelationTable(buf: seq<Sample>)
    ensures IsCorrelationTable(Table(buf))
  {
    var cs := Table(buf);
    forall k | 0 <= k < |cs|
      ensures -1.0 <= cs[k] <= 1.0
    {
      CorrelationsAt(buf, MaxLag(buf), k);
      CorrelationBounds(buf, k);
    }
    if |cs| > 0 {
      CorrelationsAt(buf, MaxLag(buf), 0);
      CorrelationAtZeroLag(buf);
    }
  }

  /** `lastCorrelation` when lag `offset` is examined: 1 before the first lag. */
  function PreviousCorrelation(cs: seq<real>, offset: nat): real
    requires offset < |cs|
  {
    if offset == 0 then 1.0 else cs[offset - 1]
  }

  /** A lag is good when its correlation exceeds 0.9 and rises over the previous lag's. */
  predicate Qualifies(cs: seq<real>, offset: nat)
    requires offset < |cs|
  {
    cs[offset] > GoodCorrelation && cs[offset] > PreviousCorrelation(cs, offset)
  }

  /** The first good lag at or after `from`. */
  function FirstQualifying(cs: seq<real>, from: nat): (r: Option<nat>)
    ensures r.Some? ==> from <= r.value < |cs| && Qualifies(cs, r.value)
    ensures r.Some? ==> forall k :: from <= k < r.value ==> !Qualifies(cs, k)
    ensures r.None? ==> forall k :: from <= k < |cs| ==> !Qualifies(cs, k)
    decreases |cs| - from
  {
    if from >= |cs| then None
    else if Qualifies(cs, from) then Some(from)
    else FirstQualifying(cs, from + 1)
  }

  /** The first lag at or after `from` that is not good, or `|cs|` if every one is. */
  function RunEnd(cs: seq<real>, from: nat): (e: nat)
    requires from <= |cs|
    ensures from <= e <= |cs|
    ensures forall k :: from <= k < e ==> Qualifies(cs, k)
    ensures e < |cs| ==> !Qualifies(cs, e)
    decreases |cs| - from
  {
    if from == |cs| || !Qualifies(cs, from) then from else RunEnd(cs, from + 1)
  }

  lemma {:induction false} RunEndIs(cs: seq<real>, from: nat, e: nat)
    requires from <= e <= |cs|
    requires forall k :: from <= k < e ==> Qualifies(cs, k)
    requires e < |cs| ==> !Qualifies(cs, e)
    ensures RunEnd(cs, from) == e
    decreases e - from
  {
    if from < e {
      RunEndIs(cs, from + 1, e);
    }
  }

  /** Lags 0 and 1 are never good: every accepted lag is at least 2. */
  lemma GoodLagAtLeastTwo(cs: seq<real>, offset: nat)
    requires IsCorrelationTable(cs) && offset < |cs| && Qualifies(cs, offset)
    ensures offset >= 2
  {
    assert -1.0 <= cs[offset] <= 1.0;
  }

  /** What the peak picker decides for one buffer. */
  datatype Detection =
    | Silent                                    // the rms gate fired
    | NoPeak                                    // no lag was good
    | Refined(bestOffset: nat, shift: real)     // the run of good lags ended at bestOffset + 1
    | AtLastLag(bestOffset: nat)                // the run of good lags reached the last lag

  /**
   * The peak picker over a correlation sequence: the best lag is the last of
   * the first run of good lags. If a lag that is not good ends the run, the
   * best lag is refined by half the difference of its neighbours.
   */
  function PickPeak(cs: seq<real>): (d: Detection)
    requires IsCorrelationTable(cs)
    ensures d != Silent
    ensures d.Refined? ==> 2 <= d.bestOffset && d.bestOffset + 1 < |cs|
    ensures d.Refined? ==> -1.0 <= d.shift <= 1.0 && d.bestOffset as real + d.shift >= 1.0
    ensures d.AtLastLag? ==> 2 <= d.bestOffset && d.bestOffset + 1 == |cs|
  {
    match FirstQualifying(cs, 0)
    case None => NoPeak
    case Some(q) =>
      GoodLagAtLeastTwo(cs, q);
      var e := RunEnd(cs, q + 1);
      if e < |cs| then
        Refined(e - 1, (cs[e] - cs[e - 2]) / 2.0)
      else
        AtLastLag(|cs| - 1)
  }

  /** The peak picker of `autoCorrelate`, stated over the whole buffer. */
  function Detect(buf: seq<Sample>): (d: Detection)
    ensures d == Silent <==> IsSilent(buf)
    ensures d.Refined? ==> 2 <= d.bestOffset && d.bestOffset + 1 < MaxLag(buf)
    ensures d.Refined? ==> -1.0 <= d.shift <= 1.0 && d.bestOffset as real + d.shift >= 1.0
    ensures d.AtLastLag? ==> 2 <= d.bestOffset && d.bestOffset + 1 == MaxLag(buf)
  {
    if IsSilent(buf) then Silent
    else
      TableIsCorrelationTable(buf);
      PickPeak(Table(buf))
  }

  /** The number `autoCorrelate` returns for a detection. */
  function Frequency(d: Detection, sampleRate: real): real
    requires d.Refined? ==> d.bestOffset as real + d.shift >= 1.0
    requires d.AtLastLag? ==> d.bestOffset > 0
  {
    match d
    case Silent => NoPitch
    case NoPeak => NoPitch
    case Refined(b, s) => sampleRate / (b as real + s)
    case AtLastLag(b) => sampleRate / b as real
  }

  /** The good lags form one run that starts at the first good lag and ends at the chosen lag. */
  lemma GoodLagsFormOneRun(cs: seq<real>)
    requires IsCorrelationTable(cs) && (PickPeak(cs).Refined? || PickPeak(cs).AtLastLag?)
    ensures FirstQualifying(cs, 0).Some?
    ensures var q, b := FirstQualifying(cs, 0).value, PickPeak(cs).bestOffset;
      && q <= b
      && (forall k :: 0 <= k < q ==> !Qualifies(cs, k))
      && (forall k :: q <= k <= b ==> Qualifies(cs, k))
      && (PickPeak(cs).Refined? ==> !Qualifies(cs, b + 1))
  {
  }

  /** Along the run of good lags the correlation strictly increases. */
  lemma {:induction false} CorrelationIncreasesAlongRun(cs: seq<real>, q: nat, j: nat, k: nat)
    requires q <= j < k < |cs|
    requires forall i :: q <= i <= k ==> Qualifies(cs, i)
    ensures cs[j] < cs[k]
    decreases k - j
  {
    assert Qualifies(cs, k);
    if j < k - 1 {
      CorrelationIncreasesAlongRun(cs, q, j, k - 1);
    }
  }

  /** The detector reports no pitch exactly when the buffer is silent or no lag is good. */
  lemma NoPitchCases(buf: seq<Sample>, sampleRate: real)
    requires sampleRate > 0.0
    ensures Frequency(Detect(buf), sampleRate) == NoPitch <==> Detect(buf) == Silent || Detect(buf) == NoPeak
    ensures !IsSilent(buf) ==> (Detect(buf) == NoPeak <==> forall k :: 0 <= k < MaxLag(buf) ==> !Qualifies(Table(buf), k))
  {
    var d := Detect(buf);
    if d.Refined? || d.AtLastLag? {
      TableIsCorrelationTable(buf);
      GoodLagsFormOneRun(Table(buf));
      var b := if d.Refined? then d.bestOffset as real + d.shift else d.bestOffset as real;
      DivideByAtLeastOne(sampleRate, b);
    }
  }

  /** A detected frequency is positive and at most the sample rate. */
  lemma FrequencyBounds(buf: seq<Sample>, sampleRate: real)
    requires sampleRate > 0.0
    ensures var f := Frequency(Detect(buf), sampleRate);
      f == NoPitch || 0.0 < f <= sampleRate
  {
    var d := Detect(buf);
    if d.Refined? || d.AtLastLag? {
      var b := if d.Refined? then d.bestOffset as real + d.shift else d.bestOffset as real;
      DivideByAtLeastOne(sampleRate, b);
    }
  }

  /**
   * The peak-picking variables of `autoCorrelate` after lags [0, offset) have
   * been examined: until a good lag is seen nothing is recorded; from then on
   * every lag examined was good and the last one is the best.
   */
  ghost predicate PeakState(cs: seq<real>, offset: nat, found: bool, bestOffset: int, bestCorrelation: real)
    requires offset <= |cs|
  {
    if !found then
      && bestOffset == -1 && bestCorrelation == 0.0
      && forall k :: 0 <= k < offset ==> !Qualifies(cs, k)
    else
      && FirstQualifying(cs, 0).Some? && FirstQualifying(cs, 0).value < offset
      && bestOffset == offset - 1 && bestCorrelation == cs[offset - 1]
      && forall k :: FirstQualifying(cs, 0).value <= k < offset ==> Qualifies(cs, k)
  }

  /** A good lag always beats the best correlation so far, and becomes the best lag. */
  lemma PeakStateOnGoodLag(cs: seq<real>, offset: nat, found: bool, bestOffset: int, bestCorrelation: real)
    requires offset < |cs| && PeakState(cs, offset, found, bestOffset, bestCorrelation)
    requires Qualifies(cs, offset)
    ensures cs[offset] > bestCorrelation
    ensures PeakState(cs, offset + 1, true, offset, cs[offset])
  {
    if !found {
      assert FirstQualifying(cs, 0) == Some(offset) by {
        assert FirstQualifying(cs, 0).Some? ==> FirstQualifying(cs, 0).value >= offset;
      }
    }
  }

  /** Before the first good lag, a lag that is not good changes nothing. */
  lemma PeakStateOnOtherLag(cs: seq<real>, offset: nat)
    requires offset < |cs| && PeakState(cs, offset, false, -1, 0.0)
    requires !Qualifies(cs, offset)
    ensures PeakState(cs, offset + 1, false, -1, 0.0)
  {
  }

  /** The scan stops at the first lag after the run that is not good. */
  lemma DetectStopsAfterRun(cs: seq<real>, offset: nat, bestOffset: int, bestCorrelation: real)
    requires IsCorrelationTable(cs) && offset < |cs|
    requires PeakState(cs, offset, true, bestOffset, bestCorrelation)
    requires !Qualifies(cs, offset)
    ensures 2 <= bestOffset == offset - 1
    ensures PickPeak(cs) == Refined(offset - 1, (cs[offset] - cs[offset - 2]) / 2.0)
  {
    var q := FirstQualifying(cs, 0).value;
    GoodLagAtLeastTwo(cs, q);
    RunEndIs(cs, q + 1, offset);
  }

  /** The scan reaches the last lag: the last lag is the best one. */
  lemma DetectRunsToLastLag(cs: seq<real>, bestOffset: int, bestCorrelation: real)
    requires IsCorrelationTable(cs) && PeakState(cs, |cs|, true, bestOffset, bestCorrelation)
    ensures bestOffset == |cs| - 1 && bestCorrelation > MinBestCorrelation
    ensures PickPeak(cs) == AtLastLag(|cs| - 1)
  {
    var q := FirstQualifying(cs, 0).value;
    RunEndIs(cs, q + 1, |cs|);
    assert Qualifies(cs, |cs| - 1);
  }

  /** The scan ends the loop without a good lag. */
  lemma DetectFindsNoPeak(cs: seq<real>)
    requires IsCorrelationTable(cs) && PeakState(cs, |cs|, false, -1, 0.0)
    ensures PickPeak(cs) == NoPeak
  {
  }

  /** The first loop of `autoCorrelate`: the sum of the squared samples. */
  method SquareSum(buf: array<Sample>) returns (sum: real)
    ensures sum == SumOfSquares(buf[..], buf.Length)
  {
    sum := 0.0;
    var i := 0;
    while i < buf.Length
      invariant 0 <= i <= buf.Length
      invariant sum == SumOfSquares(buf[..], i)
    {
      sum := sum + (buf[i] as real) * (buf[i] as real);
      i := i + 1;
    }
  }

  /** The inner loop of `autoCorrelate`: the correlation at one lag. */
  method LagCorrelation(buf: array<Sample>, offset: nat) returns (correlation: real)
    requires offset < buf.Length / 2
    ensures correlation == Correlation(buf[..], offset) == Table(buf[..])[offset]
  {
    var maxSamples := buf.Length / 2;
    correlation := 0.0;
    var i := 0;
    while i < maxSamples
      invariant 0 <= i <= maxSamples
      invariant correlation == DiffSum(buf[..], offset, i)
    {
      correlation := correlation + Abs(buf[i] as real - buf[i + offset] as real);
      i := i + 1;
    }
    correlation := 1.0 - correlation / maxSamples as real;
    CorrelationsAt(buf[..], maxSamples, offset);
  }

  /** Dividing a positive rate by a divisor of at least 1 gives a positive result no larger than the rate. */
  lemma DivideByAtLeastOne(rate: real, divisor: real)
    requires rate > 0.0 && divisor >= 1.0
    ensures 0.0 < rate / divisor <= rate
  {
    var q := rate / divisor;
    assert q * divisor == rate;
  }

  /**
   * `autoCorrelate`: the rms gate, the scan of lags [0, MAX_SAMPLES) with the
   * peak-picking state, and the parabolic refinement. Every read of `buf` and
   * of `correlations` is checked in bounds.
   */
  method AutoCorrelate(buf: array<Sample>, sampleRate: real) returns (r: real)
    ensures r == Frequency(Detect(buf[..]), sampleRate)
  {
    ghost var b := buf[..];
    var size := buf.Length;
    var maxSamples := size / 2;
    var bestOffset := -1;
    var bestCorrelation := 0.0;
    var rms := 0.0;
    var foundGoodCorrelation := false;
    var correlations := new real[maxSamples];

    rms := SquareSum(buf);
    if rms < SilenceMeanSquare * size as real {
      return NoPitch;
    }

    ghost var cs := Table(b);
    TableIsCorrelationTable(b);
    var lastCorrelation := 1.0;
    var offset := 0;
    while offset < maxSamples
      invariant 0 <= offset <= maxSamples
      invariant buf[..] == b
      invariant forall k :: 0 <= k < offset ==> correlations[k] == cs[k]
      invariant lastCorrelation == if offset == 0 then 1.0 else cs[offset - 1]
      invariant PeakState(cs, offset, foundGoodCorrelation, bestOffset, bestCorrelation)
    {
      var correlation := LagCorrelation(buf, offset);
      correlations[offset] := correlation;

      if correlation > GoodCorrelation && correlation > lastCorrelation {
        PeakStateOnGoodLag(cs, offset, foundGoodCorrelation, bestOffset, bestCorrelation);
        foundGoodCorrelation := true;
        if correlation > bestCorrelation {
          bestCorrelation := correlation;
          bestOffset := offset;
        }
      } else if foundGoodCorrelation {
        DetectStopsAfterRun(cs, offset, bestOffset, bestCorrelation);
        var shift := (correlations[bestOffset + 1] - correlations[bestOffset - 1]) / 2.0;
        return sampleRate / (bestOffset as real + shift);
      } else {
        PeakStateOnOtherLag(cs, offset);
      }
      lastCorrelation := correlation;
      offset := offset + 1;
    }

    if foundGoodCorrelation {
      DetectRunsToLastLag(cs, bestOffset, bestCorrelation);
    } else {
      DetectFindsNoPeak(cs);
    }
    if bestCorrelation > MinBestCorrelation {
      return sampleRate / bestOffset as real;
    }
    return NoPitch;
  }

  /** `%` as JavaScript computes it: the remainder takes the sign of the dividend. */
  function JsRemainder(a: int, m: int): (r: int)
    requires m > 0
    ensures -m < r < m
    ensures a >= 0 ==> r == a % m
  {
    if a >= 0 then a % m else -((-a) % m)
  }

  /**
   * `NOTE_STRINGS[noteInt % 12]`. A negative remainder reads a missing entry
   * (`undefined`, here `None`); a negative multiple of 12 gives -0, which
   * reads entry 0.
   */
  function NoteName(noteInt: int): (r: Option<string>)
    ensures r.Some? <==> noteInt >= 0 || noteInt % 12 == 0
    ensures noteInt >= 0 ==> r == Some(NoteStrings[noteInt % 12])
  {
    var index := JsRemainder(noteInt, 12);
    if 0 <= index then Some(NoteStrings[index]) else None
  }

  /** MIDI note 69 is A4 (440 Hz) and note 60 is middle C. */
  lemma ReferenceNotes()
    ensures NoteName(69) == Some("A") && NoteName(60) == Some("C")
  {
  }

  /** Names repeat every octave. */
  lemma NoteNameOctave(noteInt: int)
    requires noteInt >= 0
    ensures NoteName(noteInt + 12) == NoteName(noteInt)
  {
  }

  /**
   * The hook's state. The handle fields say whether `audioContextRef`,
   * `analyserRef`, `mediaStreamSourceRef` and `rafIdRef` hold a value.
   */
  class PitchDetector {
    var isListening: bool
    var frequency: int
    var note: Option<string>
    var midiNote: Option<int>
    var cents: int
    var hasAudioContext: bool
    var hasAnalyser: bool
    var hasMediaSource: bool
    var frameRequested: bool

    /** The state after `stopListening`, which is also the initial state. */
    predicate IsStopped()
      reads this
    {
      && !isListening && frequency == 0 && note == Some("-") && midiNote == None && cents == 0
      && !hasAudioContext && !hasAnalyser && !hasMediaSource && !frameRequested
    }

    constructor ()
      ensures IsStopped()
    {
      isListening, frequency, note, midiNote, cents := false, 0, Some("-"), None, 0;
      hasAudioContext, hasAnalyser, hasMediaSource, frameRequested := false, false, false, false;
    }

    /**
     * `startListening`: with microphone access granted, the audio graph is
     * built and the hook is listening; a refused request changes nothing.
     */
    method StartListening(granted: bool)
      modifies this
      ensures granted ==> isListening && hasAudioContext && hasAnalyser && hasMediaSource
      ensures !granted ==>
        && isListening == old(isListening) && hasAudioContext == old(hasAudioContext)
        && hasAnalyser == old(hasAnalyser) && hasMediaSource == old(hasMediaSource)
      ensures frequency == old(frequency) && note == old(note) && midiNote == old(midiNote) && cents == old(cents)
      ensures frameRequested == old(frameRequested)
    {
      if granted {
        hasAudioContext, hasAnalyser, hasMediaSource := true, true, true;
        isListening := true;
      }
    }

    /**
     * One animation frame (`updatePitchRef.current`). `samples` is what the
     * analyser delivers; `nearestNote` and `detuneCents` stand for the
     * logarithmic formulas that give `noteInt` and the detune from the
     * detected frequency.
     */
    method UpdatePitch(samples: seq<Sample>, sampleRate: real, nearestNote: real -> int, detuneCents: real -> int)
      modifies this
      ensures !old(hasAnalyser && hasAudioContext) ==>
        && frequency == old(frequency) && note == old(note) && midiNote == old(midiNote) && cents == old(cents)
        && frameRequested == old(frameRequested)
      ensures old(hasAnalyser && hasAudioContext) ==> frameRequested
      ensures var ac := Frequency(Detect(samples), sampleRate);
        old(hasAnalyser && hasAudioContext) && ac != NoPitch ==>
          && frequency == JsRound(ac) && note == NoteName(nearestNote(ac))
          && midiNote == Some(nearestNote(ac)) && cents == detuneCents(ac)
      ensures Frequency(Detect(samples), sampleRate) == NoPitch ==>
        frequency == old(frequency) && note == old(note) && midiNote == old(midiNote) && cents == old(cents)
      ensures isListening == old(isListening) && hasAudioContext == old(hasAudioContext)
        && hasAnalyser == old(hasAnalyser) && hasMediaSource == old(hasMediaSource)
    {
      if !hasAnalyser || !hasAudioContext {
        return;
      }
      var buf := new Sample[|samples|](i requires 0 <= i < |samples| => samples[i]);
      assert buf[..] == samples;
      var ac;
      ac := AutoCorrelate(buf, sampleRate);
      if ac != NoPitch {
        var noteInt := nearestNote(ac);
        frequency := JsRound(ac);
        note := NoteName(noteInt);
        midiNote := Some(noteInt);
        cents := detuneCents(ac);
      }
      frameRequested := true;
    }

    /** `stopListening`: cancels the frame, releases the audio handles and resets the readings. */
    method StopListening()
      modifies this
      ensures IsStopped()
    {
      isListening := false;
      frequency, note, midiNote, cents := 0, Some("-"), None, 0;
      hasAudioContext, hasAnalyser, hasMediaSource, frameRequested := false, false, false, false;
    }
  }
}
