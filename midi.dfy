/** MIDI numbers (js/app.js:589-675): the MIDI number of a note and the note
    name of a MIDI number, with flats by default or sharps on request. */
module Midi {
  import opened JsText
  import opened Wrappers
  import opened Pitch
  import N = Note

  /** `isMidi` for a numeric argument. */
  predicate IsMidi(n: int) { 0 <= n <= 127 }

  /** `toMidi(n)` for a number: the number itself when it is a MIDI number;
      any other number is no note (`null`). */
  function ToMidiNumber(n: int): (r: Option<int>)
    ensures r.Some? <==> IsMidi(n)
    ensures r.Some? ==> r.value == n
  {
    if IsMidi(n) then Some(n) else None
  }

  /** A string that `+s` reads as 0: empty or all white space. */
  predicate BlankString(s: string) { forall k :: 0 <= k < |s| ==> IsJsSpace(s[k]) }

  /** `toMidi(name)` for a string: a blank string counts as the number 0 and a
      string of decimal digits as its value (when that is a MIDI number);
      anything else is parsed as a note name and gives the note's MIDI number,
      or None (`null`) for a note out of range or no note. */
  function ToMidi(name: string): Option<int>
  {
    if BlankString(name) then Some(0)
    else if |name| > 0 && AllDigits(name) && DigitsValue(name) <= 127 then Some(DigitsValue(name))
    else
      var n := N.Parse(name);
      if n.NoNote? then None else n.midi
  }

  const SHARPS: seq<string> := ["C", "C#", "D", "D#", "E", "F", "F#", "G", "G#", "A", "A#", "B"]
  const FLATS: seq<string> := ["C", "Db", "D", "Eb", "E", "F", "Gb", "G", "Ab", "A", "Bb", "B"]

  /** `midiToNoteName(midi, { sharps, pitchClass })` for an integer: the pitch
      class of `midi % 12`, followed by the octave unless only the pitch class
      is asked for. For a negative number that is not a multiple of 12 the
      remainder is negative and the pitch class `undefined` (None here, or the
      text "undefined" before the octave). */
  function MidiToNoteName(midi: int, sharps: bool, pitchClass: bool): (r: Option<string>)
    ensures r.None? <==> pitchClass && midi < 0 && midi % 12 != 0
  {
    var pcs := if sharps then SHARPS else FLATS;
    var i := JsRem(midi, 12);
    var pc := if i >= 0 then Some(pcs[i]) else None;
    if pitchClass then pc
    else
      var o := midi / 12 - 1;
      Some((if pc.Some? then pc.value else "undefined") + IntToString(o))
  }

  /** The step and alteration each entry of SHARPS and FLATS spells. */
  const SHARP_STEPS: seq<int> := [0, 0, 1, 1, 2, 3, 3, 4, 4, 5, 5, 6]
  const SHARP_ALTS: seq<int> := [0, 1, 0, 1, 0, 0, 1, 0, 1, 0, 1, 0]
  const FLAT_STEPS: seq<int> := [0, 1, 1, 2, 2, 3, 4, 4, 5, 5, 6, 6]
  const FLAT_ALTS: seq<int> := [0, -1, 0, -1, 0, 0, -1, 0, -1, 0, -1, 0]

  /** Entry `i` of SHARPS and of FLATS is the name of a pitch class whose
      semitone number is `i`. */
  lemma PitchClassSpelling(i: int, sharps: bool)
    requires 0 <= i < 12
    ensures var step := if sharps then SHARP_STEPS[i] else FLAT_STEPS[i];
      var alt := if sharps then SHARP_ALTS[i] else FLAT_ALTS[i];
      ValidStep(step) && -1 <= alt <= 1 && SEMI[step] + alt == i &&
      (if sharps then SHARPS[i] else FLATS[i]) == ["CDEFGAB"[step]] + N.AltToAcc(alt)
  {
    assert N.AltToAcc(1) == "#" && N.AltToAcc(-1) == "b" && N.AltToAcc(0) == "";
  }

  /** The pitch a MIDI number's name spells. */
  function MidiPitch(midi: int, sharps: bool, oct: Num): Pitch
    requires midi >= 0
  {
    var i := midi % 12;
    Pitch(if sharps then SHARP_STEPS[i] else FLAT_STEPS[i],
          if sharps then SHARP_ALTS[i] else FLAT_ALTS[i], oct, 1)
  }

  /** The pitch MidiPitch spells is a natural or singly altered note whose
      semitone number is the MIDI number's pitch class. */
  lemma MidiPitchSpelling(midi: int, sharps: bool, oct: Num, p: Pitch)
    requires midi >= 0 && p == MidiPitch(midi, sharps, oct)
    ensures ValidStep(p.step) && -1 <= p.alt <= 1 && p.oct == oct
    ensures SEMI[p.step] + p.alt == midi % 12
  {
    var i := midi % 12;
    PitchClassSpelling(i, sharps);
    assert p.step == (if sharps then SHARP_STEPS[i] else FLAT_STEPS[i]);
    assert p.alt == (if sharps then SHARP_ALTS[i] else FLAT_ALTS[i]);
  }

  /** The name of a non-negative MIDI number is the name of the pitch
      MidiPitch spells, with or without the octave. */
  lemma MidiToNoteNameSpells(midi: int, sharps: bool)
    requires midi >= 0
    ensures MidiToNoteName(midi, sharps, false) == Some(N.PitchName(MidiPitch(midi, sharps, Int(midi / 12 - 1))))
    ensures MidiToNoteName(midi, sharps, true) == Some(N.PitchName(MidiPitch(midi, sharps, Undefined)))
  {
    PitchClassSpelling(midi % 12, sharps);
  }

  lemma NameOfMidiPitch(midi: int, sharps: bool, pitchClass: bool, name: string, p: Pitch)
    requires midi >= 0 && MidiToNoteName(midi, sharps, pitchClass) == Some(name)
    requires p == MidiPitch(midi, sharps, if pitchClass then Undefined else Int(midi / 12 - 1))
    ensures name == N.PitchName(p)
  {
    MidiToNoteNameSpells(midi, sharps);
  }

  /** A string that starts with a note letter is read as a note name. */
  lemma ToMidiOfLetter(name: string)
    requires |name| > 0 && 'A' <= name[0] <= 'G'
    ensures ToMidi(name) == (if N.Parse(name).NoNote? then None else N.Parse(name).midi)
  {
    assert !BlankString(name) && !AllDigits(name);
  }

  /** ToMidi of the name of a natural or singly altered pitch with an octave is
      the MIDI number `m` of its height, when that is in range. */
  lemma ToMidiPitchName(p: Pitch, m: int)
    requires ValidStep(p.step) && p.oct.Int? && -1 <= p.alt <= 1
    requires m == SEMI[p.step] + p.alt + 12 * (p.oct.v + 1) && IsMidi(m)
    ensures ToMidi(N.PitchName(p)) == Some(m)
  {
    PitchNameLetter(p);
    N.FromPitchFields(p);
    ToMidiOfFields(N.PitchName(p), p.step, p.alt, p.oct.v, m);
  }

  lemma ToMidiOfFields(name: string, step: int, alt: int, o: int, m: int)
    requires |name| > 0 && 'A' <= name[0] <= 'G' && ValidStep(step)
    requires N.Parse(name).Note? && N.Parse(name).step == step && N.Parse(name).alt == alt
    requires N.Parse(name).oct == Int(o)
    requires m == SEMI[step] + alt + 12 * (o + 1) && IsMidi(m)
    ensures ToMidi(name) == Some(m)
  {
    N.HeightOfFields(N.Parse(name), name, step, alt, o);
    ToMidiOfNote(name, m);
  }

  lemma PitchNameLetter(p: Pitch)
    requires ValidStep(p.step)
    ensures |N.PitchName(p)| > 0 && 'A' <= N.PitchName(p)[0] <= 'G'
    ensures N.FromPitch(p) == N.Parse(N.PitchName(p))
  {
    assert N.PitchName(p)[0] == "CDEFGAB"[p.step];
  }

  lemma ToMidiOfNote(name: string, m: int)
    requires |name| > 0 && 'A' <= name[0] <= 'G'
    requires N.Parse(name).Note? && N.Parse(name).midi == Some(m)
    ensures ToMidi(name) == Some(m)
  {
    ToMidiOfLetter(name);
  }

  /** The name of a MIDI number is read back as that MIDI number, with sharps
      or with flats. */
  lemma MidiToNoteNameRoundTrip(midi: int, sharps: bool, name: string)
    requires IsMidi(midi) && MidiToNoteName(midi, sharps, false) == Some(name)
    ensures ToMidi(name) == Some(midi)
  {
    var p := MidiPitch(midi, sharps, Int(midi / 12 - 1));
    NameOfMidiPitch(midi, sharps, false, name, p);
    MidiPitchSpelling(midi, sharps, Int(midi / 12 - 1), p);
    assert SEMI[p.step] + p.alt + 12 * (p.oct.v + 1) == midi;
    ToMidiPitchName(p, midi);
  }

  /** The note a natural or singly altered pitch names has that pitch's
      semitone number as chroma. */
  lemma PitchChroma(p: Pitch, c: int)
    requires ValidStep(p.step) && -1 <= p.alt <= 1 && c == SEMI[p.step] + p.alt && 0 <= c < 12
    ensures N.FromPitch(p).Note? && N.FromPitch(p).chroma == c
  {
    assert (SEMI[p.step] + p.alt) % 12 == c;
    N.FromPitchChroma(p);
  }

  /** The pitch-class name of a non-negative MIDI number is read as a note
      whose chroma is the MIDI number's pitch class. */
  lemma MidiToPitchClassChroma(midi: int, sharps: bool, name: string)
    requires midi >= 0 && MidiToNoteName(midi, sharps, true) == Some(name)
    ensures N.Parse(name).Note? && N.Parse(name).chroma == midi % 12
  {
    var p := MidiPitch(midi, sharps, Undefined);
    NameOfMidiPitch(midi, sharps, true, name, p);
    MidiPitchSpelling(midi, sharps, Undefined, p);
    PitchChroma(p, midi % 12);
  }

  /** The examples of the source's documentation. */
  lemma MidiToNoteNameExamples()
    ensures MidiToNoteName(61, false, false) == Some("Db4")
    ensures MidiToNoteName(61, false, true) == Some("Db")
    ensures MidiToNoteName(61, true, false) == Some("C#4")
    ensures MidiToNoteName(61, true, true) == Some("C#")
  {
    assert JsRem(61, 12) == 1 && 61 / 12 - 1 == 4;
    assert IntToString(4) == "4";
    assert FLATS[1] + "4" == "Db4" && SHARPS[1] + "4" == "C#4";
  }

  lemma ToMidiC4()
    ensures ToMidi("C4") == Some(60)
  {
    N.ParseC4();
    N.ParseMidi("C4");
  }
}
