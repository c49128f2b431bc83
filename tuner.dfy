/**
 * The tuner display: the in-tune / flat / sharp verdict on the detector's
 * detune, the needle position on the 80-pixel scale, and the reference
 * table of the six open strings in standard tuning.
 */
module Tuner {
  import opened Wrappers
  import PitchDetection

  /** A detune of fewer than this many cents either way counts as in tune. */
  const TunedCents := 5
  /** The width of the needle's track, in pixels. */
  const TrackWidth: real := 80.0

  datatype TunerStatus = Tuned | Flat | Sharp

  /** `getTunerStatus`: exactly one status for every detune. */
  function Status(cents: int): (s: TunerStatus)
    ensures s == Tuned <==> -TunedCents < cents < TunedCents
    ensures s == Flat <==> cents <= -TunedCents
    ensures s == Sharp <==> cents >= TunedCents
  {
    if PitchDetection.Abs(cents as real) < TunedCents as real then Tuned
    else if cents < 0 then Flat
    else Sharp
  }

  /** The boundaries themselves are out of tune, on their own side. */
  lemma StatusAtBoundaries()
    ensures Status(TunedCents) == Sharp && Status(-TunedCents) == Flat
    ensures Status(TunedCents - 1) == Tuned && Status(1 - TunedCents) == Tuned
  {
  }

  /** The needle's offset: `(cents + 50) * 0.8` pixels, clamped to the track. */
  function NeedleOffset(cents: int): (x: real)
    ensures 0.0 <= x <= TrackWidth
    ensures cents <= -50 ==> x == 0.0
    ensures cents >= 50 ==> x == TrackWidth
  {
    var raw := (cents + 50) as real * 0.8;
    var upper := if TrackWidth < raw then TrackWidth else raw;
    if 0.0 < upper then upper else 0.0
  }

  /** A perfectly tuned string puts the needle in the middle of the track. */
  lemma NeedleCentred()
    ensures NeedleOffset(0) == TrackWidth / 2.0
  {
  }

  /** A sharper detune never moves the needle to the left. */
  lemma NeedleMonotone(a: int, b: int)
    requires a <= b
    ensures NeedleOffset(a) <= NeedleOffset(b)
  {
    assert (a + 50) as real * 0.8 <= (b + 50) as real * 0.8;
  }

  /**
   * The needle agrees with the verdict: in tune exactly when it is strictly
   * between 36 and 44 pixels, flat at or left of 36, sharp at or right of 44.
   */
  lemma NeedleMatchesStatus(cents: int)
    ensures Status(cents) == Tuned <==> 36.0 < NeedleOffset(cents) < 44.0
    ensures Status(cents) == Flat <==> NeedleOffset(cents) <= 36.0
    ensures Status(cents) == Sharp <==> NeedleOffset(cents) >= 44.0
  {
    if cents <= -5 {
      NeedleMonotone(cents, -5);
    } else if cents >= 5 {
      NeedleMonotone(5, cents);
    } else {
      NeedleMonotone(-4, cents);
      NeedleMonotone(cents, 4);
    }
  }

  /** One open string: its note letter, octave and frequency in hertz. */
  datatype OpenString = OpenString(note: string, octave: int, freq: real)

  /** `GUITAR_STRINGS`, from the lowest string to the highest. */
  const GuitarStrings: seq<OpenString> := [
    OpenString("E", 2, 82.41),
    OpenString("A", 2, 110.00),
    OpenString("D", 3, 146.83),
    OpenString("G", 3, 196.00),
    OpenString("B", 3, 246.94),
    OpenString("E", 4, 329.63)
  ]

  /** The MIDI note numbers of standard tuning, E2 A2 D3 G3 B3 E4. */
  const StandardTuningMidi: seq<int> := [40, 45, 50, 55, 59, 64]

  /** Six strings, in strictly ascending pitch. */
  lemma GuitarStringsAscending()
    ensures |GuitarStrings| == 6
    ensures forall i, j :: 0 <= i < j < |GuitarStrings| ==> GuitarStrings[i].freq < GuitarStrings[j].freq
  {
  }

  /**
   * Each entry names the MIDI note of its string the way the detector names
   * notes, with the octave of MIDI numbering (note 60 is C4).
   */
  lemma GuitarStringsAreStandardTuning()
    ensures |StandardTuningMidi| == |GuitarStrings|
    ensures forall i :: 0 <= i < |GuitarStrings| ==>
      && PitchDetection.NoteName(StandardTuningMidi[i]) == Some(GuitarStrings[i].note)
      && GuitarStrings[i].octave == StandardTuningMidi[i] / 12 - 1
  {
    forall i | 0 <= i < |GuitarStrings|
      ensures PitchDetection.NoteName(StandardTuningMidi[i]) == Some(GuitarStrings[i].note)
    {
    }
  }
}
