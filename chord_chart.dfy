/**
 * The chord diagram: a marker per string for a list of fret numbers (-1
 * muted, 0 open, anything else a fretted dot), drawn on a grid of six
 * vertical string lines and five horizontal fret lines, and the click
 * handler on a dot that sounds that string.
 */
module ChordChart {
  import opened Wrappers
  import Tuner

  /** The fret number that marks a string as not played. */
  const Muted := -1

  /** The x coordinate of string line `i` (0 is the low E string). */
  function StringX(i: nat): int {
    10 + i * 16
  }

  /** The y coordinate of fret line `k`; line 0 is the nut. */
  function FretLineY(k: int): int {
    20 + k * 20
  }

  /** The vertical string lines drawn for strings 0 to 5. */
  const StringLines: seq<int> := [10, 26, 42, 58, 74, 90]
  /** The nut and the four fret lines below it. */
  const FretLines: seq<int> := [20, 40, 60, 80, 100]

  lemma GridLines()
    ensures forall i :: 0 <= i < |StringLines| ==> StringLines[i] == StringX(i)
    ensures forall k :: 0 <= k < |FretLines| ==> FretLines[k] == FretLineY(k)
  {
  }

  datatype Marker =
    | MuteMark(x: int, y: int)
    | OpenCircle(cx: int, cy: int)
    | FretDot(cx: int, centreY: real, stringIndex: nat, fret: int)

  function MarkerX(m: Marker): int {
    match m
    case MuteMark(x, _) => x
    case OpenCircle(cx, _) => cx
    case FretDot(cx, _, _, _) => cx
  }

  /** Only a fretted dot carries a click handler. */
  predicate Clickable(m: Marker) {
    m.FretDot?
  }

  /** The marker drawn for string `stringIndex` held at `fret`. */
  function MarkerFor(stringIndex: nat, fret: int): (m: Marker)
    ensures m.MuteMark? <==> fret == Muted
    ensures m.OpenCircle? <==> fret == 0
    ensures m.FretDot? <==> fret != Muted && fret != 0
    ensures MarkerX(m) == StringX(stringIndex)
    ensures m.MuteMark? ==> m.y == 15
    ensures m.OpenCircle? ==> m.cy == 12
    ensures m.FretDot? ==> m.stringIndex == stringIndex && m.fret == fret
  {
    var x := StringX(stringIndex);
    if fret == Muted then MuteMark(x, 15)
    else if fret == 0 then OpenCircle(x, 12)
    else FretDot(x, (fret as real - 0.5) * 20.0 + 20.0, stringIndex, fret)
  }

  /** `frets.map(...)`: one marker per string, in string order. */
  function Markers(frets: seq<int>): (ms: seq<Marker>)
    ensures |ms| == |frets|
    ensures forall i :: 0 <= i < |frets| ==> ms[i] == MarkerFor(i, frets[i])
  {
    seq(|frets|, i requires 0 <= i < |frets| => MarkerFor(i, frets[i]))
  }

  /**
   * For a six-string chord every marker sits on its own string line, and the
   * markers run from left to right inside the grid.
   */
  lemma MarkersOnStringLines(frets: seq<int>)
    requires |frets| <= |StringLines|
    ensures forall i :: 0 <= i < |frets| ==> MarkerX(Markers(frets)[i]) == StringLines[i]
    ensures forall i, j :: 0 <= i < j < |frets| ==> MarkerX(Markers(frets)[i]) < MarkerX(Markers(frets)[j])
    ensures forall i :: 0 <= i < |frets| ==> 10 <= MarkerX(Markers(frets)[i]) <= 90
  {
    GridLines();
  }

  /** A dot is drawn half-way between the fret line above it and its own fret line. */
  lemma DotBetweenFretLines(stringIndex: nat, fret: int)
    requires fret != Muted && fret != 0
    ensures MarkerFor(stringIndex, fret).centreY
         == (FretLineY(fret - 1) as real + FretLineY(fret) as real) / 2.0
    ensures FretLineY(fret - 1) as real < MarkerFor(stringIndex, fret).centreY < FretLineY(fret) as real
  {
  }

  /** One tone started by `playString`: which string, at which fret. */
  datatype Tone = Tone(stringIndex: nat, fret: int)

  /**
   * What `playString` leaves behind: whether the audio context exists yet,
   * and the tones started so far.
   */
  datatype ChartAudio = ChartAudio(hasContext: bool, played: seq<Tone>)

  /** The open-string frequencies the pitch of a tone is computed from. */
  const BaseFreqs: seq<real> := [82.41, 110.00, 146.83, 196.00, 246.94, 329.63]

  /** The chart sounds the same open strings the tuner lists. */
  lemma BaseFreqsAreTunerStrings()
    ensures |BaseFreqs| == |Tuner.GuitarStrings|
    ensures forall i :: 0 <= i < |BaseFreqs| ==> BaseFreqs[i] == Tuner.GuitarStrings[i].freq
  {
  }

  /**
   * `playString`: a muted string returns at once, before any context is
   * created; any other fret creates the context if needed and starts one tone.
   */
  function PlayString(audio: ChartAudio, stringIndex: nat, fret: int): (r: ChartAudio)
    ensures fret == Muted ==> r == audio
    ensures fret != Muted ==> r.hasContext && r.played == audio.played + [Tone(stringIndex, fret)]
  {
    if fret == Muted then audio
    else ChartAudio(true, audio.played + [Tone(stringIndex, fret)])
  }

  /** The handler attached to a marker: `None` for markers without one. */
  function ClickHandler(m: Marker): (t: Option<Tone>)
    ensures t.Some? <==> Clickable(m)
    ensures t.Some? ==> t.value == Tone(m.stringIndex, m.fret)
  {
    if m.FretDot? then Some(Tone(m.stringIndex, m.fret)) else None
  }

  /**
   * Clicking the chart sounds exactly the string clicked: muted and open
   * strings carry no handler, and a dot's handler always gets past the mute
   * guard and starts the tone of its own string and fret.
   */
  lemma ClickSoundsItsString(frets: seq<int>, i: nat, audio: ChartAudio)
    requires i < |frets|
    ensures Clickable(Markers(frets)[i]) <==> frets[i] != Muted && frets[i] != 0
    ensures Clickable(Markers(frets)[i]) ==>
      var t := ClickHandler(Markers(frets)[i]).value;
      PlayString(audio, t.stringIndex, t.fret).played == audio.played + [Tone(i, frets[i])]
  {
  }
}
