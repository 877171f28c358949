/** Transposition and distance (js/app.js:1447-1484): both are arithmetic on
    coordinates; a note is moved by adding an interval's coordinate to its
    own, and the distance between two notes is the interval whose coordinate
    is the difference of theirs. */
module Transpose {
  import opened JsText
  import opened Pitch
  import N = Note
  import I = Interval

  /** `+` on the second coordinate element, where NaN absorbs. */
  function AddNum(a: Num, b: Num): Num
  {
    if a.Int? && b.Int? then Int(a.v + b.v) else NaN
  }

  function SubNum(a: Num, b: Num): Num
  {
    if a.Int? && b.Int? then Int(a.v - b.v) else NaN
  }

  /** `transpose`: the name of the note moved by the interval, or "" when either
      name is empty. */
  function Transpose(noteName: string, intervalName: string): string
  {
    TransposeNote(N.Parse(noteName), I.Parse(intervalName))
  }

  /** `transpose` once both names are parsed. An interval numbered 0 has a NaN
      coordinate, from which coordToNote builds the empty note. */
  function TransposeNote(n: N.Note, i: I.Interval): string
  {
    if n.NoNote? || !i.Interval? then ""
    else
      var f := n.coord.fifths + i.coord.fifths;
      var tr := if n.coord.octs.Undefined? then Coord(f, Undefined)
                else Coord(f, AddNum(n.coord.octs, i.coord.octs));
      N.CoordToNote(tr).Name()
  }

  /** The coordinate from one note to another: the difference of their
      coordinates, or, when either is a pitch class, the difference of fifths
      brought within one ascending octave. */
  function DistanceCoord(from: N.Note, to: N.Note): (c: Coord)
    requires from.Note? && to.Note?
    ensures !c.octs.Undefined?
  {
    var fifths := to.coord.fifths - from.coord.fifths;
    var octs := if !from.coord.octs.Undefined? && !to.coord.octs.Undefined?
                then SubNum(to.coord.octs, from.coord.octs)
                else Int(-((fifths * 7) / 12));
    Coord(fifths, octs)
  }

  /** `distance` as written: descending only when the coordinate's size is
      negative. */
  function DistanceAsWritten(fromNote: string, toNote: string): string
  {
    var from := N.Parse(fromNote);
    var to := N.Parse(toNote);
    if from.NoNote? || to.NoNote? then ""
    else I.CoordToInterval(DistanceCoord(from, to)).Name()
  }

  /** The distance is taken between pitch classes when either note has none. */
  predicate PitchClassDistance(from: N.Note, to: N.Note)
    requires from.Note? && to.Note?
  {
    from.coord.octs.Undefined? || to.coord.octs.Undefined?
  }

  /** The corrected coordinate from one note to another: DistanceCoord, except
      that a pitch-class distance that would span a negative number of steps
      is taken one octave higher, so that it stays ascending. */
  function CorrectedCoord(from: N.Note, to: N.Note): Coord
    requires from.Note? && to.Note?
  {
    var c := DistanceCoord(from, to);
    if PitchClassDistance(from, to) && c.octs.Int? && I.Steps(c) < 0 then Coord(c.fifths, Int(c.octs.v + 1))
    else c
  }

  /** The corrected direction of a coordinate: descending when it spans a
      negative number of steps, or no step and a negative number of semitones. */
  predicate Descends(c: Coord)
  {
    c.octs.Int? && (I.Steps(c) < 0 || (I.Steps(c) == 0 && I.Size(c) < 0))
  }

  /** The corrected interval from one note to another. */
  function Between(from: N.Note, to: N.Note): I.Interval
    requires from.Note? && to.Note?
  {
    var c := CorrectedCoord(from, to);
    I.CoordToIntervalDir(c, Descends(c))
  }

  /** `distance`, with the interval's direction taken from the steps it spans. */
  function Distance(fromNote: string, toNote: string): string
  {
    var from := N.Parse(fromNote);
    var to := N.Parse(toNote);
    if from.NoNote? || to.NoNote? then "" else Between(from, to).Name()
  }

  /** The sum of a note's and an interval's coordinates, as `transpose` forms it. */
  function SumCoord(n: N.Note, i: I.Interval): Coord
    requires n.Note? && i.Interval? && i.coord.octs.Int?
  {
    Coord(n.coord.fifths + i.coord.fifths,
          if n.coord.octs.Undefined? then Undefined else AddNum(n.coord.octs, i.coord.octs))
  }

  lemma TransposeNoteAt(n: N.Note, i: I.Interval)
    requires n.Note? && i.Interval? && i.coord.octs.Int?
    ensures TransposeNote(n, i) == N.CoordToNote(SumCoord(n, i)).Name()
  {}

  /** Transposing moves the note's coordinate by the interval's: the name
      returned parses to the note at the sum of the two coordinates. */
  lemma TransposeNoteCoord(n: N.Note, i: I.Interval)
    requires n.Note? && !n.coord.octs.NaN? && i.Interval? && i.coord.octs.Int?
    ensures !SumCoord(n, i).octs.NaN?
    ensures N.Parse(TransposeNote(n, i)) == N.CoordToNote(SumCoord(n, i))
    ensures N.Parse(TransposeNote(n, i)).Note? && N.Parse(TransposeNote(n, i)).coord == SumCoord(n, i)
  {
    var sum := SumCoord(n, i);
    TransposeNoteAt(n, i);
    N.CoordToNoteCoord(sum);
  }

  /** The same for names: `transpose` adds coordinates. */
  lemma TransposeCoord(noteName: string, intervalName: string)
    requires N.Parse(noteName).Note? && !N.Parse(noteName).oct.NaN?
    requires I.Parse(intervalName).Interval?
    ensures var n, i := N.Parse(noteName), I.Parse(intervalName);
      i.coord.octs.Int? && N.Parse(Transpose(noteName, intervalName)).Note? &&
      N.Parse(Transpose(noteName, intervalName)).coord ==
        Coord(n.coord.fifths + i.coord.fifths,
              if n.coord.octs.Undefined? then Undefined else Int(n.coord.octs.v + i.coord.octs.v))
  {
    I.ParseSize(intervalName);
    N.ParseCoherent(noteName);
    TransposeNoteCoord(N.Parse(noteName), I.Parse(intervalName));
  }

  /** Between two notes with octaves, the corrected distance descends exactly
      when the second note is written on a lower step, counting octaves, or on
      the same step and lower. */
  lemma DescendsMeaning(a: N.Note, b: N.Note)
    requires N.Coherent(a) && N.Coherent(b) && a.oct.Int? && b.oct.Int?
    ensures a.height.Int? && b.height.Int?
    ensures DistanceCoord(a, b).octs.Int?
    ensures var sa, sb := a.step + 7 * a.oct.v, b.step + 7 * b.oct.v;
      Descends(DistanceCoord(a, b)) <==> sb < sa || (sb == sa && b.height.v < a.height.v)
  {
    EncodeSteps(Pitch(a.step, a.alt, a.oct, 1), a.oct.v);
    EncodeSteps(Pitch(b.step, b.alt, b.oct, 1), b.oct.v);
    var c := DistanceCoord(a, b);
    assert I.Steps(c) == (b.step + 7 * b.oct.v) - (a.step + 7 * a.oct.v);
    assert I.Size(c) == b.height.v - a.height.v;
  }

  /** `floor(7 * f / 12)` brackets 7 * f between two multiples of 12. */
  lemma TwelfthBounds(f: int)
    ensures 12 * ((f * 7) / 12) <= 7 * f < 12 * ((f * 7) / 12) + 12
  {}

  /** A pitch-class distance within 33 fifths is ascending, as the source's
      documentation promises: it spans no negative number of steps and no
      negative number of semitones. */
  lemma PitchClassAscending(a: N.Note, b: N.Note)
    requires a.Note? && b.Note? && PitchClassDistance(a, b)
    requires -33 <= b.coord.fifths - a.coord.fifths <= 33
    ensures var c := CorrectedCoord(a, b);
      c.octs.Int? && I.Steps(c) >= 0 && I.Size(c) >= 0 && !Descends(c)
  {
    var f := b.coord.fifths - a.coord.fifths;
    TwelfthBounds(f);
  }

  /** Between two notes less than 34 fifths apart, neither of them with the
      octave NaN, the corrected interval has the corrected coordinate and
      parses back to itself, and transposing the first note by it gives the
      second note, or its pitch class when the first note is a pitch class;
      from a note with an octave to a pitch class, it gives a note with an
      octave and the second note's step and alteration. */
  lemma {:induction false} BetweenRoundTrip(a: N.Note, b: N.Note)
    requires N.Coherent(a) && N.Coherent(b) && !a.oct.NaN? && !b.oct.NaN?
    requires -33 <= b.coord.fifths - a.coord.fifths <= 33
    ensures Between(a, b).Interval?
    ensures Between(a, b).coord == CorrectedCoord(a, b)
    ensures I.Parse(Between(a, b).name) == Between(a, b)
    ensures a.oct.Int? && b.oct.Int? ==>
      TransposeNote(a, Between(a, b)) == N.PitchName(Pitch(b.step, b.alt, b.oct, 1))
    ensures a.oct.Undefined? ==>
      TransposeNote(a, Between(a, b)) == N.PitchName(Pitch(b.step, b.alt, Undefined, 1))
    ensures a.oct.Int? && b.oct.Undefined? ==>
      var r := N.Parse(TransposeNote(a, Between(a, b)));
      r.Note? && r.oct.Int? && r.step == b.step && r.alt == b.alt
  {
    var c := CorrectedCoord(a, b);
    I.CoordToIntervalDirCoord(c, Descends(c));
    var i := Between(a, b);
    if a.oct.Int? && b.oct.Int? {
      TransposeToNote(a, b, i);
    } else if a.oct.Undefined? {
      TransposeToPitchClass(a, b, i);
    } else {
      TransposeToOctave(a, b, i);
    }
  }

  lemma TransposeToNote(a: N.Note, b: N.Note, i: I.Interval)
    requires N.Coherent(a) && N.Coherent(b) && a.oct.Int? && b.oct.Int?
    requires i.Interval? && i.coord == DistanceCoord(a, b)
    ensures TransposeNote(a, i) == N.PitchName(Pitch(b.step, b.alt, b.oct, 1))
  {
    TransposeNoteAt(a, i);
    assert SumCoord(a, i) == b.coord;
    N.CoordToNoteOfCoherent(b);
  }

  lemma TransposeToPitchClass(a: N.Note, b: N.Note, i: I.Interval)
    requires N.Coherent(a) && N.Coherent(b) && a.oct.Undefined?
    requires i.Interval? && i.coord.octs.Int? && i.coord.fifths == b.coord.fifths - a.coord.fifths
    ensures TransposeNote(a, i) == N.PitchName(Pitch(b.step, b.alt, Undefined, 1))
  {
    var p := Pitch(b.step, b.alt, Undefined, 1);
    TransposeNoteAt(a, i);
    assert SumCoord(a, i) == Encode(p);
    DecodeEncode(p);
    N.FromPitchRoundTrip(p);
  }

  lemma TransposeToOctave(a: N.Note, b: N.Note, i: I.Interval)
    requires N.Coherent(a) && N.Coherent(b) && a.oct.Int?
    requires i.Interval? && i.coord.octs.Int? && i.coord.fifths == b.coord.fifths - a.coord.fifths
    ensures var r := N.Parse(TransposeNote(a, i));
      r.Note? && r.oct.Int? && r.step == b.step && r.alt == b.alt
  {
    var sum := SumCoord(a, i);
    var p := Pitch(b.step, b.alt, Undefined, 1);
    DecodeEncode(p);
    assert Decode(sum, 1).step == p.step && Decode(sum, 1).alt == p.alt;
    TransposeNoteCoord(a, i);
    N.CoordToNoteCoord(sum);
    N.FromPitchRoundTrip(Decode(sum, 1));
  }

  /** Transposing a note by the corrected distance to another reaches the
      other note, for two notes less than 34 fifths apart (the reach of four
      A or d in a quality); see BetweenRoundTrip for the pitch-class cases. */
  lemma DistanceRoundTrip(from: string, to: string)
    requires N.Parse(from).Note? && N.Parse(to).Note?
    requires var a, b := N.Parse(from), N.Parse(to);
      !a.oct.NaN? && !b.oct.NaN? && -33 <= b.coord.fifths - a.coord.fifths <= 33
    ensures I.Parse(Distance(from, to)).Interval?
    ensures I.Parse(Distance(from, to)).coord == CorrectedCoord(N.Parse(from), N.Parse(to))
    ensures var a, b := N.Parse(from), N.Parse(to);
      a.oct.Int? && b.oct.Int? ==>
      CorrectedCoord(a, b) == DistanceCoord(a, b) &&
      Transpose(from, Distance(from, to)) == N.PitchName(Pitch(b.step, b.alt, b.oct, 1))
    ensures var b := N.Parse(to);
      N.Parse(from).oct.Undefined? ==>
      Transpose(from, Distance(from, to)) == N.PitchName(Pitch(b.step, b.alt, Undefined, 1))
  {
    N.ParseCoherent(from);
    N.ParseCoherent(to);
    BetweenRoundTrip(N.Parse(from), N.Parse(to));
  }

  /** As written, `distance` agrees with the corrected one wherever the size
      and the step count of the difference do not point opposite ways. */
  lemma DistanceAgrees(from: string, to: string)
    requires N.Parse(from).Note? && N.Parse(to).Note?
    requires var c := DistanceCoord(N.Parse(from), N.Parse(to));
      c.octs.Int? && (I.Size(c) < 0 ==> I.Steps(c) <= 0) && (I.Size(c) >= 0 ==> I.Steps(c) >= 0)
    ensures DistanceAsWritten(from, to) == Distance(from, to)
  {
    var a, b := N.Parse(from), N.Parse(to);
    var c := DistanceCoord(a, b);
    assert CorrectedCoord(a, b) == c;
    assert Descends(c) == (I.Size(c) < 0);
    assert I.CoordToInterval(c) == I.CoordToIntervalDir(c, I.Size(c) < 0);
  }

  /** `distance` as written, for two notes less than 34 fifths apart whose
      difference does not go up in pitch and down a step or the reverse: the
      name parses to an interval with the difference as its coordinate,
      descending exactly when the second note is lower. */
  lemma DistanceAsWrittenMeaning(from: string, to: string)
    requires N.Parse(from).Note? && N.Parse(to).Note?
    requires var c := DistanceCoord(N.Parse(from), N.Parse(to));
      c.octs.Int? && -33 <= c.fifths <= 33 &&
      (I.Size(c) < 0 ==> I.Steps(c) <= 0) && (I.Size(c) >= 0 ==> I.Steps(c) >= 0)
    ensures var c, i := DistanceCoord(N.Parse(from), N.Parse(to)), I.Parse(DistanceAsWritten(from, to));
      i.Interval? && i.coord == c && (i.dir == -1 <==> I.Size(c) < 0) && i.semitones == I.Size(c)
  {
    var c := DistanceCoord(N.Parse(from), N.Parse(to));
    I.CoordToIntervalCoord(c);
  }

  /** `distance` as written, where the difference goes up in pitch and down a
      step or the reverse: its name is that of a pitch whose interval number
      is at most 0. */
  lemma DistanceAsWrittenMisnumbers(from: string, to: string)
    requires N.Parse(from).Note? && N.Parse(to).Note?
    requires var c := DistanceCoord(N.Parse(from), N.Parse(to));
      c.octs.Int? && ((I.Size(c) >= 0 && I.Steps(c) < 0) || (I.Size(c) < 0 && I.Steps(c) > 0))
    ensures var c := DistanceCoord(N.Parse(from), N.Parse(to));
      var d := if I.Size(c) < 0 then -1 else 1;
      var p := Decode(if d < 0 then Negate(c) else c, d);
      DistanceAsWritten(from, to) == I.FromPitch(p).Name() && p.oct.Int? && p.step + 1 + 7 * p.oct.v <= 0
  {
    var c := DistanceCoord(N.Parse(from), N.Parse(to));
    I.CoordToIntervalMisnumbers(c);
  }

  /** The notes C4 and B#3, which have the same height. */
  lemma ParseC4BSharp3()
    ensures N.Parse("C4").Note? && N.Parse("C4").coord == Coord(0, Int(4))
    ensures N.Parse("C4").height == Int(60) && N.Parse("C4").step == 0 && N.Parse("C4").oct == Int(4)
    ensures N.Parse("B#3").Note? && N.Parse("B#3").coord == Coord(12, Int(-3))
    ensures N.Parse("B#3").height == Int(60) && N.Parse("B#3").step == 6 && N.Parse("B#3").oct == Int(3)
  {
    N.ParseC4();
    N.ParseBSharp3();
  }

  /** The interval "0A" passes the parser with the number 0. */
  lemma IntervalZeroA()
    ensures I.Parse("0A") == I.ZeroInterval("0A", "A", 1)
  {
    assert IntToString(0) + "A" == "0A";
    I.TokenizeName(0, "A");
  }

  /** The coordinate from C4 to B#3 is unison-sized and spans one step down;
      ascending it is named "0A", descending "-2d". */
  lemma UnisonDownCoord()
    ensures I.Size(Coord(12, Int(-7))) == 0 && I.Steps(Coord(12, Int(-7))) == -1
    ensures I.CoordToInterval(Coord(12, Int(-7))) == I.Parse("0A")
    ensures I.CoordToIntervalDir(Coord(12, Int(-7)), true) == I.Parse("-2d")
  {
    UnisonCoordUp();
    UnisonCoordDown();
  }

  lemma UnisonCoordUp()
    ensures I.CoordToInterval(Coord(12, Int(-7))) == I.Parse("0A")
  {
    var c := Coord(12, Int(-7));
    var up := Decode(c, 1);
    assert up == Pitch(6, 1, Int(-1), 1);
    assert I.CoordToInterval(c) == I.FromPitch(up);
    assert I.PitchName(up) == "0A";
  }

  lemma UnisonCoordDown()
    ensures I.CoordToIntervalDir(Coord(12, Int(-7)), true) == I.Parse("-2d")
  {
    DecodeUnisonDown();
    PitchNameMinusTwoD();
  }

  lemma DecodeUnisonDown()
    ensures Decode(Negate(Coord(12, Int(-7))), -1) == Pitch(1, -2, Int(0), -1)
  {}

  lemma PitchNameMinusTwoD()
    ensures I.PitchName(Pitch(1, -2, Int(0), -1)) == "-2d"
  {
    assert IntToString(2) == "2";
    assert I.AltToQ(I.KindOf(1), -2) == "d";
  }

  /** Transposing by an interval numbered 0 gives the empty name. */
  lemma TransposeByZero(noteName: string, intervalName: string)
    requires I.Parse(intervalName).ZeroInterval?
    ensures Transpose(noteName, intervalName) == ""
  {}

  /** As written, the distance from C4 down to B#3 is numbered 0 ("0A"), and
      transposing C4 by it gives the empty name instead of B#3. */
  lemma DistanceAsWrittenUnisonDown()
    ensures DistanceAsWritten("C4", "B#3") == "0A"
    ensures Transpose("C4", DistanceAsWritten("C4", "B#3")) == ""
  {
    DistanceAsWrittenUnisonDownName();
    IntervalZeroA();
    TransposeByZero("C4", "0A");
  }

  lemma DistanceAsWrittenUnisonDownName()
    ensures DistanceAsWritten("C4", "B#3") == "0A"
  {
    ParseC4BSharp3();
    assert DistanceCoord(N.Parse("C4"), N.Parse("B#3")) == Coord(12, Int(-7));
    UnisonCoordUp();
    IntervalZeroA();
  }

  /** As written, the distance between the pitch classes C and B# is
      numbered 0 as well, against the promise that it is ascending. */
  lemma DistanceAsWrittenPitchClassUnison()
    ensures DistanceAsWritten("C", "B#") == "0A"
  {
    ParseC();
    ParseBSharp();
    assert DistanceCoord(N.Parse("C"), N.Parse("B#")) == Coord(12, Int(-7));
    UnisonCoordUp();
    IntervalZeroA();
  }

  /** The corrected distance from C4 to B#3 is a descending diminished second,
      and transposing C4 by it gives B#3. */
  lemma DistanceUnisonDown()
    ensures Distance("C4", "B#3") == "-2d"
    ensures Transpose("C4", Distance("C4", "B#3")) == "B#3"
  {
    DistanceUnisonDownName();
    TransposeUnisonDown();
  }

  lemma DistanceUnisonDownName()
    ensures Distance("C4", "B#3") == "-2d"
  {
    ParseC4BSharp3();
    BetweenUnisonDown(N.Parse("C4"), N.Parse("B#3"));
    MinusTwoD();
  }

  lemma BetweenUnisonDown(a: N.Note, b: N.Note)
    requires a.Note? && b.Note? && a.coord == Coord(0, Int(4)) && b.coord == Coord(12, Int(-3))
    ensures Between(a, b) == I.Parse("-2d")
  {
    assert DistanceCoord(a, b) == Coord(12, Int(-7));
    assert Descends(Coord(12, Int(-7)));
    UnisonCoordDown();
  }

  lemma TransposeUnisonDown()
    ensures Transpose("C4", Distance("C4", "B#3")) == "B#3"
  {
    ParseC4BSharp3();
    DistanceRoundTrip("C4", "B#3");
    PitchNameBSharp3();
  }

  /** Between the pitch classes C and B#, the corrected distance is the
      ascending augmented seventh, where the code as written gives "0A"; and
      transposing C by it gives B#. */
  lemma DistancePitchClassUnison()
    ensures Distance("C", "B#") == "7A"
    ensures Transpose("C", Distance("C", "B#")) == "B#"
  {
    ParseC();
    ParseBSharp();
    var a, b := N.Parse("C"), N.Parse("B#");
    assert DistanceCoord(a, b) == Coord(12, Int(-7));
    assert CorrectedCoord(a, b) == Coord(12, Int(-6));
    assert !Descends(Coord(12, Int(-6)));
    AugmentedSeventh();
    DistanceRoundTrip("C", "B#");
    PitchNameBSharp();
  }

  lemma ParseC()
    ensures N.Parse("C").Note? && N.Parse("C").coord == Coord(0, Undefined)
    ensures N.Parse("C").step == 0 && N.Parse("C").oct == Undefined
  {
    var s := "C";
    N.AccEndAt(s, 1);
    RunEndIs(s, 1, 1, IsDigit);
    assert N.SpaceEnd(s) == 1;
    assert s[1..1] == "";
  }

  lemma ParseBSharp()
    ensures N.Parse("B#").Note? && N.Parse("B#").coord == Coord(12, Undefined)
    ensures N.Parse("B#").step == 6 && N.Parse("B#").alt == 1 && N.Parse("B#").oct == Undefined
  {
    var s := "B#";
    N.AccEndAt(s, 2);
    RunEndIs(s, 2, 2, IsDigit);
    assert N.SpaceEnd(s) == 2;
    assert s[1..2] == "#" && N.ReplaceX("#") == "#";
    assert s[2..2] == "";
  }

  lemma AugmentedSeventh()
    ensures I.CoordToIntervalDir(Coord(12, Int(-6)), false).Name() == "7A"
  {
    var p := Decode(Coord(12, Int(-6)), 1);
    assert p == Pitch(6, 1, Int(0), 1);
    assert IntToString(7) == "7";
    assert I.AltToQ(I.KindOf(6), 1) == "A";
    assert I.PitchName(p) == "7A";
    I.FromPitchRoundTrip(p);
    assert IntToString(7) + "A" == "7A";
    I.TokenizeName(7, "A");
    I.FromTokensOf(7, "A");
  }

  lemma PitchNameBSharp()
    ensures N.PitchName(Pitch(6, 1, Undefined, 1)) == "B#"
  {
    assert N.AltToAcc(1) == "#";
  }

  lemma PitchNameBSharp3()
    ensures N.PitchName(Pitch(6, 1, Int(3), 1)) == "B#3"
  {
    assert N.AltToAcc(1) == "#";
    assert IntToString(3) == "3";
  }

  lemma MinusTwoD()
    ensures I.Parse("-2d").Interval? && I.Parse("-2d").name == "-2d"
  {
    assert IntToString(-2) + "d" == "-2d";
    I.TokenizeName(-2, "d");
    I.FromTokensOf(-2, "d");
  }

  /** A major third: four fifths up and two octaves down. */
  lemma MajorThird()
    ensures I.Parse("3M").Interval? && I.Parse("3M").coord == Coord(4, Int(-2))
  {
    assert IntToString(3) + "M" == "3M";
    I.TokenizeName(3, "M");
    I.FromTokensOf(3, "M");
    I.ParseShape("3M");
    I.ParseSize("3M");
  }

  /** The examples of the source's documentation: a major third above d3 is
      F#3 and above the pitch class D is F#. */
  lemma TransposeExamples()
    ensures Transpose("d3", "3M") == "F#3"
    ensures Transpose("D", "3M") == "F#"
  {
    TransposeD3();
    TransposeD();
  }

  lemma TransposeD3()
    ensures Transpose("d3", "3M") == "F#3"
  {
    N.ParseD3();
    MajorThird();
    var n, i := N.Parse("d3"), I.Parse("3M");
    assert SumCoord(n, i) == Coord(6, Int(0));
    TransposeNoteAt(n, i);
    N.CoordToNoteFSharp();
  }

  lemma TransposeD()
    ensures Transpose("D", "3M") == "F#"
  {
    N.ParseD();
    MajorThird();
    var n, i := N.Parse("D"), I.Parse("3M");
    assert SumCoord(n, i) == Coord(6, Undefined);
    TransposeNoteAt(n, i);
    N.CoordToNoteFSharp();
  }

  /** `transpose` gives "" when the note or the interval does not parse. */
  lemma TransposeInvalid(noteName: string, intervalName: string)
    requires N.Parse(noteName).NoNote? || I.Parse(intervalName).NoInterval?
    ensures Transpose(noteName, intervalName) == ""
  {}

  /** `distance` gives "" when either note does not parse, in the code as
      written and in the corrected version alike. */
  lemma DistanceInvalid(from: string, to: string)
    requires N.Parse(from).NoNote? || N.Parse(to).NoNote?
    ensures Distance(from, to) == "" && DistanceAsWritten(from, to) == ""
  {}
}
