/** The note model (js/app.js:1217-1299): the tokenizer of note names, the
    parser that derives step, alteration, octave, coordinate, chroma, height
    and MIDI number, and the inverse direction from a pitch to its name. */
module Note {
  import opened JsText
  import opened Wrappers
  import opened Pitch

  /** The four groups of `/^([a-gA-G]?)(#{1,}|b{1,}|x{1,}|)(-?\d*)\s*(.*)$/`,
      after upper-casing the letter and rewriting each `x` as `##`. */
  datatype Tokens = Tokens(letter: string, acc: string, oct: string, rest: string)

  predicate IsLetter(c: char) { ('a' <= c <= 'g') || ('A' <= c <= 'G') }

  predicate IsAccChar(c: char) { c == '#' || c == 'b' || c == 'x' }

  function Upper(c: char): char
  {
    if 'a' <= c <= 'z' then (c as int - 32) as char else c
  }

  /** The positions where the tokenizer's groups end (the regular expression
      is matched greedily; no group ever gives back characters). */
  function LetterEnd(s: string): (p: nat)
    ensures p <= |s|
  {
    if |s| > 0 && IsLetter(s[0]) then 1 else 0
  }

  function AccEnd(s: string): (p: nat)
    ensures LetterEnd(s) <= p <= |s|
  {
    var p1 := LetterEnd(s);
    if p1 < |s| && IsAccChar(s[p1]) then RunEnd(s, p1, c => c == s[p1]) else p1
  }

  function OctEnd(s: string): (p: nat)
    ensures AccEnd(s) <= p <= |s|
  {
    var p2 := AccEnd(s);
    var p := if p2 < |s| && s[p2] == '-' then p2 + 1 else p2;
    RunEnd(s, p, IsDigit)
  }

  function SpaceEnd(s: string): (p: nat)
    ensures OctEnd(s) <= p <= |s|
  {
    RunEnd(s, OctEnd(s), IsJsSpace)
  }

  /** `acc.replace(/x/g, "##")` for an accidental run. */
  function ReplaceX(acc: string): string
  {
    if |acc| == 0 then ""
    else (if acc[0] == 'x' then "##" else [acc[0]]) + ReplaceX(acc[1..])
  }

  /** The tokens as the rest of the model uses them: the last group takes
      everything after the spaces (see NoteTokensAsWritten). */
  function NoteTokens(s: string): Tokens
  {
    var p1, p2, p3, p4 := LetterEnd(s), AccEnd(s), OctEnd(s), SpaceEnd(s);
    Tokens(if p1 == 1 then [Upper(s[0])] else "", ReplaceX(s[p1..p2]), s[p2..p3], s[p4..])
  }

  /** The tokenizer as written: `(.*)$` cannot match a line terminator, so when
      one follows the first non-space character after the octave, `exec`
      returns null and reading `m[1]` throws (None here). */
  function NoteTokensAsWritten(s: string): (r: Option<Tokens>)
    ensures r.Some? ==> r.value == NoteTokens(s)
  {
    var rest := s[SpaceEnd(s)..];
    if exists k :: 0 <= k < |rest| && IsLineTerminator(rest[k]) then None else Some(NoteTokens(s))
  }

  function AccToAlt(acc: string): int
  {
    if |acc| > 0 && acc[0] == 'b' then -|acc| else |acc|
  }

  function AltToAcc(alt: int): string
  {
    if alt < 0 then Repeat('b', -alt) else Repeat('#', alt)
  }

  /** `+octStr` for the octave group `-?\d*` when it is not empty: "-" alone is NaN. */
  function OctValue(octStr: string): Num
  {
    if octStr == "" then Undefined
    else if IsSignedDigits(octStr) then Int(SignedDigitsValue(octStr))
    else NaN
  }

  datatype Note =
    | NoNote
    | Note(acc: string, alt: int, chroma: int, coord: Coord, height: Num,
           letter: string, midi: Option<int>, name: string, oct: Num, pc: string, step: int)
  {
    /** The `name` property; "" for the NoNote sentinel. */
    function Name(): string { if NoNote? then "" else name }
  }

  /** `(letter.charCodeAt(0) + 3) % 7`: C D E F G A B give 0 … 6. */
  function LetterStep(letter: char): (step: int)
    requires 'A' <= letter <= 'G'
    ensures ValidStep(step)
  {
    (letter as int + 3) % 7
  }

  function Parse(s: string): Note
  {
    var t := NoteTokens(s);
    if t.letter == "" || t.rest != "" then NoNote
    else
      var step := LetterStep(t.letter[0]);
      var alt := AccToAlt(t.acc);
      var oct := OctValue(t.oct);
      var semi := SEMI[step] + alt;
      var height := match oct
        case Undefined => Int(semi + 12 * (-100 + 1))
        case Int(o) => Int(semi + 12 * (o + 1))
        case NaN => NaN;
      var midi := if height.Int? && 0 <= height.v <= 127 then Some(height.v) else None;
      Note(t.acc, alt, JsRem(semi + 120, 12), Encode(Pitch(step, alt, oct, 1)), height,
           t.letter, midi, t.letter + t.acc + t.oct, oct, t.letter + t.acc, step)
  }

  /** The name of a pitch (`pitchName`): letter, accidentals and, when the
      octave is a number other than NaN, the octave. */
  function PitchName(p: Pitch): string
  {
    if !ValidStep(p.step) then ""
    else
      var pc := ["CDEFGAB"[p.step]] + AltToAcc(p.alt);
      if p.oct.Int? then pc + IntToString(p.oct.v) else pc
  }

  /** `note(pitch)`: the note named by a pitch. */
  function FromPitch(p: Pitch): Note
  {
    Parse(PitchName(p))
  }

  /** `coordToNote`: the note a coordinate encodes. */
  function CoordToNote(c: Coord): Note
  {
    FromPitch(Decode(c, 1))
  }

  lemma {:induction false} ReplaceXWithoutX(acc: string)
    requires forall k :: 0 <= k < |acc| ==> acc[k] != 'x'
    ensures ReplaceX(acc) == acc
  {
    if |acc| > 0 {
      ReplaceXWithoutX(acc[1..]);
    }
  }

  lemma AccToAltAltToAcc(alt: int)
    ensures AccToAlt(AltToAcc(alt)) == alt
  {}

  /** The octave string of a pitch name: what follows the accidentals. */
  function OctString(oct: Num): string
  {
    if oct.Int? then IntToString(oct.v) else ""
  }

  lemma LetterStepOf(step: int)
    requires ValidStep(step)
    ensures 'A' <= "CDEFGAB"[step] <= 'G'
    ensures LetterStep("CDEFGAB"[step]) == step
  {}

  /** The accidentals end where a character other than the first accidental
      begins (or the string ends). */
  lemma AccEndAt(s: string, j: nat)
    requires |s| > 0 && IsLetter(s[0]) && 1 <= j <= |s|
    requires j > 1 ==> IsAccChar(s[1]) && forall k :: 1 <= k < j ==> s[k] == s[1]
    requires j == |s| || !IsAccChar(s[j])
    ensures AccEnd(s) == j
  {
    assert LetterEnd(s) == 1;
    if j > 1 {
      RunEndIs(s, 1, j, c => c == s[1]);
    }
  }

  /** An octave string written by IntToString runs to the end of the string. */
  lemma OctEndAt(s: string, j: nat, o: int)
    requires AccEnd(s) == j <= |s| && s[j..] == IntToString(o)
    ensures OctEnd(s) == |s|
  {
    var O := s[j..];
    var p := if j < |s| && s[j] == '-' then j + 1 else j;
    if o < 0 {
      assert O[1..] == NatToString(-o);
      assert p == j + 1;
      assert forall k :: p <= k < |s| ==> IsDigit(s[k]) by {
        forall k | p <= k < |s|
          ensures IsDigit(s[k])
        {
          assert s[k] == O[1..][k - p];
        }
      }
    } else {
      assert p == j;
      assert forall k :: p <= k < |s| ==> IsDigit(s[k]) by {
        forall k | p <= k < |s|
          ensures IsDigit(s[k])
        {
          assert s[k] == O[k - j];
        }
      }
    }
    RunEndIs(s, p, |s|, IsDigit);
  }

  /** With nothing after the accidentals the octave group is empty. */
  lemma OctEndAtEnd(s: string)
    requires AccEnd(s) == |s|
    ensures OctEnd(s) == |s|
  {}

  /** How PitchName splits into the tokenizer's groups. */
  lemma {:induction false} PitchNameTokens(p: Pitch)
    requires ValidStep(p.step)
    ensures NoteTokens(PitchName(p)) ==
            Tokens(["CDEFGAB"[p.step]], AltToAcc(p.alt), OctString(p.oct), "")
  {
    var L := "CDEFGAB"[p.step];
    var A := AltToAcc(p.alt);
    var O := OctString(p.oct);
    var s := PitchName(p);
    LetterStepOf(p.step);
    assert s == [L] + A + O;
    var j := 1 + |A|;
    assert s[1..j] == A && s[j..] == O;
    assert O != "" ==> O[0] == '-' || IsDigit(O[0]);
    assert j < |s| ==> s[j] == O[0];
    AccEndAt(s, j);
    if p.oct.Int? {
      OctEndAt(s, j, p.oct.v);
    } else {
      OctEndAtEnd(s);
    }
    assert SpaceEnd(s) == |s|;
    ReplaceXWithoutX(A);
  }

  /** note(pitch) recovers the pitch: the step, the alteration and the octave
      (an octave of NaN is dropped by pitchName and comes back undefined). */
  lemma FromPitchRoundTrip(p: Pitch)
    requires ValidStep(p.step)
    ensures FromPitch(p).Note?
    ensures FromPitch(p).step == p.step && FromPitch(p).alt == p.alt
    ensures FromPitch(p).oct == (if p.oct.NaN? then Undefined else p.oct)
    ensures FromPitch(p).name == PitchName(p)
  {
    FromPitchFields(p);
    PitchNameTokens(p);
  }

  /** The step, alteration and octave part of the round trip. */
  lemma FromPitchFields(p: Pitch)
    requires ValidStep(p.step)
    ensures FromPitch(p).Note?
    ensures FromPitch(p).step == p.step && FromPitch(p).alt == p.alt
    ensures FromPitch(p).oct == (if p.oct.NaN? then Undefined else p.oct)
  {
    PitchNameTokens(p);
    LetterStepOf(p.step);
    var t := NoteTokens(PitchName(p));
    assert AccToAlt(t.acc) == p.alt;
    if p.oct.Int? {
      IntToStringValue(p.oct.v);
      assert OctValue(t.oct) == p.oct;
    } else {
      assert OctValue(t.oct) == Undefined;
    }
  }

  /** A note name spells its pitch class followed by its octave string, and
      its pitch class spells its letter followed by its accidentals. */
  lemma ParseNames(s: string)
    requires Parse(s).Note?
    ensures Parse(s).name == Parse(s).pc + NoteTokens(s).oct
    ensures Parse(s).pc == Parse(s).letter + Parse(s).acc
    ensures |Parse(s).letter| == 1 && 'A' <= Parse(s).letter[0] <= 'G'
  {}

  /** The source drops any note whose letter is missing or that has text
      left after the octave and the spaces. */
  lemma ParseEmpty(s: string)
    ensures Parse(s).NoNote? <==> NoteTokens(s).letter == "" || NoteTokens(s).rest != ""
  {}

  /** The chroma is the pitch class number 0..11 in the usual sense whenever
      there are no more than 120 flats (the source adds 120 before taking a
      truncated remainder). */
  lemma ParseChroma(s: string)
    requires Parse(s).Note? && Parse(s).alt >= -120
    ensures 0 <= Parse(s).chroma < 12
    ensures Parse(s).chroma == (SEMI[Parse(s).step] + Parse(s).alt) % 12
  {}

  /** The height of a note with an octave is 12 more than the number of
      semitones its coordinate spans (7 per fifth, 12 per octave). */
  lemma ParseHeightFromCoord(s: string)
    requires Parse(s).Note? && Parse(s).oct.Int?
    ensures Parse(s).coord.octs.Int?
    ensures Parse(s).height == Int(7 * Parse(s).coord.fifths + 12 * Parse(s).coord.octs.v + 12)
  {
    var n := Parse(s);
    EncodeSemitones(Pitch(n.step, n.alt, n.oct, 1), n.oct.v);
  }

  /** A note has a MIDI number exactly when its height is a number within
      0..127, and the number is the height. The octave "-" gives no number;
      with no octave the height is taken at octave -100, so only a note with
      1188 to 1315 semitones of alteration above C has one. */
  lemma ParseMidi(s: string)
    requires Parse(s).Note?
    ensures Parse(s).midi.Some? <==>
              Parse(s).height.Int? && 0 <= Parse(s).height.v <= 127
    ensures Parse(s).midi.Some? ==> Parse(s).height == Int(Parse(s).midi.value)
    ensures Parse(s).oct.NaN? ==> Parse(s).midi.None?
    ensures ValidStep(Parse(s).step)
    ensures Parse(s).oct.Undefined? ==>
              (Parse(s).midi.Some? <==> 1188 <= SEMI[Parse(s).step] + Parse(s).alt <= 1315)
  {}

  /** The example of the source's documentation: `note('Bb4')`. */
  lemma ParseBb4()
    ensures Parse("Bb4").midi == Some(70) && Parse("Bb4").chroma == 10
    ensures Parse("Bb4").name == "Bb4" && Parse("Bb4").pc == "Bb"
  {
    var s := "Bb4";
    AccEndAt(s, 2);
    RunEndIs(s, 2, 3, IsDigit);
    assert SpaceEnd(s) == 3;
    assert s[1..2] == "b" && ReplaceX("b") == "b";
    assert s[2..3] == "4" && SignedDigitsValue("4") == 4;
  }

  /** The tokenizer as written agrees with NoteTokens on every string that
      holds no line terminator after the spaces. */
  lemma NoteTokensAsWrittenAgrees(s: string)
    requires forall k :: SpaceEnd(s) <= k < |s| ==> !IsLineTerminator(s[k])
    ensures NoteTokensAsWritten(s) == Some(NoteTokens(s))
  {
    var rest := s[SpaceEnd(s)..];
    forall k | 0 <= k < |rest|
      ensures !IsLineTerminator(rest[k])
    {
      assert rest[k] == s[SpaceEnd(s) + k];
    }
  }

  /** `note("Ch\n")` throws as written (the regular expression does not match);
      with the rest group taking everything it is the empty note. */
  lemma NoteTokensAsWrittenThrows()
    ensures NoteTokensAsWritten("Ch\n") == None
    ensures NoteTokens("Ch\n").rest == "h\n" && Parse("Ch\n").NoNote?
  {
    var s := "Ch\n";
    AccEndAt(s, 1);
    RunEndIs(s, 1, 1, IsDigit);
    RunEndIs(s, 1, 1, IsJsSpace);
    assert s[1..] == "h\n";
    assert IsLineTerminator(s[1..][1]);
  }

  /** coordToNote builds the note whose coordinate is the one given (unless its
      octave element is NaN), and that note's name parses back to it. */
  lemma CoordToNoteCoord(c: Coord)
    requires !c.octs.NaN?
    ensures CoordToNote(c).Note? && CoordToNote(c).coord == c
    ensures CoordToNote(c).name == PitchName(Decode(c, 1))
    ensures Parse(CoordToNote(c).name) == CoordToNote(c)
  {
    var p := Decode(c, 1);
    FromPitchRoundTrip(p);
    EncodeDecode(c);
    assert Pitch(p.step, p.alt, p.oct, 1) == p;
  }

  /** The relations between the fields of every parsed note: the coordinate
      encodes the step, alteration and octave, and the height of a note with an
      octave is 12 more than the coordinate's size in semitones. */
  predicate Coherent(n: Note)
  {
    n.Note? && ValidStep(n.step) &&
    n.coord == Encode(Pitch(n.step, n.alt, n.oct, 1)) &&
    (n.oct.Int? ==> n.coord.octs.Int? && n.height == Int(7 * n.coord.fifths + 12 * n.coord.octs.v + 12))
  }

  lemma ParseCoherent(s: string)
    requires Parse(s).Note?
    ensures Coherent(Parse(s))
  {
    if Parse(s).oct.Int? {
      ParseHeightFromCoord(s);
    }
  }

  /** The name coordToNote gives a note's coordinate is the canonical name of
      the note's pitch. */
  lemma CoordToNoteOfCoherent(n: Note)
    requires Coherent(n)
    ensures CoordToNote(n.coord).Name() == PitchName(Pitch(n.step, n.alt, n.oct, 1))
  {
    var p := Pitch(n.step, n.alt, n.oct, 1);
    DecodeEncode(p);
    FromPitchRoundTrip(p);
  }

  lemma ParseC4()
    ensures Parse("C4").Note? && Parse("C4").coord == Coord(0, Int(4))
    ensures Parse("C4").height == Int(60) && Parse("C4").step == 0 && Parse("C4").oct == Int(4)
  {
    var s := "C4";
    AccEndAt(s, 1);
    RunEndIs(s, 1, 2, IsDigit);
    assert SpaceEnd(s) == 2;
    assert s[1..1] == "" && s[1..2] == "4" && SignedDigitsValue("4") == 4;
  }

  lemma ParseBSharp3()
    ensures Parse("B#3").Note? && Parse("B#3").coord == Coord(12, Int(-3))
    ensures Parse("B#3").height == Int(60) && Parse("B#3").step == 6 && Parse("B#3").oct == Int(3)
  {
    var s := "B#3";
    AccEndAt(s, 2);
    RunEndIs(s, 2, 3, IsDigit);
    assert SpaceEnd(s) == 3;
    assert s[1..2] == "#" && ReplaceX("#") == "#";
    assert s[2..3] == "3" && SignedDigitsValue("3") == 3;
  }

  /** A lower-case letter is read as its capital: "d3" is D3. */
  lemma ParseD3()
    ensures Parse("d3").Note? && Parse("d3").coord == Coord(2, Int(2))
  {
    var s := "d3";
    AccEndAt(s, 1);
    RunEndIs(s, 1, 2, IsDigit);
    assert SpaceEnd(s) == 2;
    assert Upper('d') == 'D';
    assert s[1..1] == "" && s[1..2] == "3" && SignedDigitsValue("3") == 3;
  }

  lemma ParseD()
    ensures Parse("D").Note? && Parse("D").coord == Coord(2, Undefined)
  {
    var s := "D";
    AccEndAt(s, 1);
    RunEndIs(s, 1, 1, IsDigit);
    assert SpaceEnd(s) == 1;
    assert s[1..1] == "";
  }

  /** The notes at the coordinates of F#3 and of the pitch class F#. */
  lemma CoordToNoteFSharp()
    ensures CoordToNote(Coord(6, Int(0))).Name() == "F#3"
    ensures CoordToNote(Coord(6, Undefined)).Name() == "F#"
  {
    var p3, p := Pitch(3, 1, Int(3), 1), Pitch(3, 1, Undefined, 1);
    assert Decode(Coord(6, Int(0)), 1) == p3;
    assert Decode(Coord(6, Undefined), 1) == p;
    FromPitchRoundTrip(p3);
    FromPitchRoundTrip(p);
    PitchNameFSharp();
  }

  lemma PitchNameFSharp()
    ensures PitchName(Pitch(3, 1, Int(3), 1)) == "F#3"
    ensures PitchName(Pitch(3, 1, Undefined, 1)) == "F#"
  {
    assert AltToAcc(1) == "#" && IntToString(3) == "3";
  }

  /** The height of a note with an octave: its semitones above C, plus its
      alteration, plus twelve per octave above octave -1. */
  lemma ParseHeight(s: string)
    requires Parse(s).Note? && Parse(s).oct.Int?
    ensures ValidStep(Parse(s).step)
    ensures Parse(s).height == Int(SEMI[Parse(s).step] + Parse(s).alt + 12 * (Parse(s).oct.v + 1))
  {}

  /** The height and MIDI number of the note named by a pitch with an octave. */
  lemma FromPitchHeight(p: Pitch)
    requires ValidStep(p.step) && p.oct.Int?
    ensures FromPitch(p).Note? && FromPitch(p).height == Int(SEMI[p.step] + p.alt + 12 * (p.oct.v + 1))
    ensures var h := SEMI[p.step] + p.alt + 12 * (p.oct.v + 1);
      (0 <= h <= 127 ==> FromPitch(p).midi == Some(h)) && (h < 0 || h > 127 ==> FromPitch(p).midi == None)
  {
    var n := FromPitch(p);
    FromPitchFields(p);
    HeightOfFields(n, PitchName(p), p.step, p.alt, p.oct.v);
  }

  /** The height and MIDI number of a parsed note, from its step, alteration
      and octave. */
  lemma HeightOfFields(n: Note, s: string, step: int, alt: int, o: int)
    requires n == Parse(s) && n.Note? && n.step == step && n.alt == alt && n.oct == Int(o)
    requires ValidStep(step)
    ensures n.height == Int(SEMI[step] + alt + 12 * (o + 1))
    ensures var h := SEMI[step] + alt + 12 * (o + 1);
      n.midi == if 0 <= h <= 127 then Some(h) else None
  {
    ParseHeight(s);
    ParseMidi(s);
  }

  /** The chroma of the note named by a pitch with at most 120 flats. */
  lemma FromPitchChroma(p: Pitch)
    requires ValidStep(p.step) && p.alt >= -120
    ensures FromPitch(p).Note? && FromPitch(p).chroma == (SEMI[p.step] + p.alt) % 12
  {
    FromPitchFields(p);
    ChromaOfFields(FromPitch(p), PitchName(p), p.step, p.alt);
  }

  /** The chroma of a parsed note, from its step and alteration. */
  lemma ChromaOfFields(n: Note, s: string, step: int, alt: int)
    requires n == Parse(s) && n.Note? && n.step == step && n.alt == alt && ValidStep(step)
    requires alt >= -120
    ensures n.chroma == (SEMI[step] + alt) % 12
  {
    ChromaShift(SEMI[step] + alt);
  }

  /** Adding 120 before JavaScript's `%` makes the remainder of any number of
      semitones down to -120 the non-negative one. */
  lemma ChromaShift(x: int)
    requires x >= -120
    ensures JsRem(x + 120, 12) == x % 12
  {}

  /** A letter followed only by octave digits (no accidental) is the natural
      note of that letter; its chroma is the letter's semitone number. */
  lemma ParseNatural(s: string)
    requires |s| > 0 && IsLetter(s[0]) && forall k :: 1 <= k < |s| ==> IsDigit(s[k])
    ensures 'A' <= Upper(s[0]) <= 'G'
    ensures Parse(s).Note? && Parse(s).alt == 0 && Parse(s).step == LetterStep(Upper(s[0]))
    ensures Parse(s).chroma == SEMI[LetterStep(Upper(s[0]))]
    ensures Parse(s).letter == [Upper(s[0])] && Parse(s).acc == ""
  {
    AccEndAt(s, 1);
    RunEndIs(s, 1, |s|, IsDigit);
    RunEndIs(s, |s|, |s|, IsJsSpace);
    assert s[1..1] == "" && ReplaceX("") == "";
    var step := LetterStep(Upper(s[0]));
    assert JsRem(SEMI[step] + 120, 12) == SEMI[step];
  }

  /** A letter, one sharp and octave digits: the note a semitone above the
      natural one. */
  lemma ParseSharp(s: string)
    requires |s| > 1 && IsLetter(s[0]) && s[1] == '#' && forall k :: 2 <= k < |s| ==> IsDigit(s[k])
    ensures 'A' <= Upper(s[0]) <= 'G'
    ensures Parse(s).Note? && Parse(s).alt == 1 && Parse(s).step == LetterStep(Upper(s[0]))
    ensures Parse(s).chroma == (SEMI[LetterStep(Upper(s[0]))] + 1) % 12
  {
    AccEndAt(s, 2);
    RunEndIs(s, 2, |s|, IsDigit);
    RunEndIs(s, |s|, |s|, IsJsSpace);
    assert s[1..2] == "#" && ReplaceX("#") == "#";
    var step := LetterStep(Upper(s[0]));
    assert JsRem(SEMI[step] + 1 + 120, 12) == (SEMI[step] + 1) % 12;
  }
}
