/** Pitch coordinates (js/app.js:1172-1215): a pitch given by its diatonic step
    (0 = C … 6 = B), its alteration, an optional octave and a direction is
    encoded as a vector on the line of fifths, `[fifths]` for a pitch class or
    `[fifths, octaves]` for a pitch with an octave. All transposition is vector
    addition on these coordinates. */
module Pitch {
  import opened JsText

  /** A JavaScript number that may also be `undefined` or `NaN`; used for the
      octave of a note (absent, or `NaN` for the octave token "-") and for the
      second element of a coordinate (absent for a pitch class). */
  datatype Num = Undefined | Int(v: int) | NaN

  /** Number of fifths from C of each step C D E F G A B. */
  const FIFTHS: seq<int> := [0, 2, 4, -1, 1, 3, 5]

  /** The octaves spanned by the fifths of each step; the source computes the
      table as `Math.floor(fifths * 7 / 12)` (see StepsToOctsFromFifths). */
  const STEPS_TO_OCTS: seq<int> := [0, 1, 2, -1, 0, 1, 2]

  /** Step of each unaltered position F C G D A E B on the line of fifths. */
  const FIFTHS_TO_STEPS: seq<int> := [3, 0, 4, 1, 5, 2, 6]

  /** Semitones above C of each step. */
  const SEMI: seq<int> := [0, 2, 4, 5, 7, 9, 11]

  datatype Pitch = Pitch(step: int, alt: int, oct: Num, dir: int)

  /** A coordinate: `octs == Undefined` is a one-element array (a pitch class). */
  datatype Coord = Coord(fifths: int, octs: Num)

  predicate ValidStep(step: int) { 0 <= step < 7 }

  /** The position `0..6` of `f` with its alterations removed: `(f + 1) % 7`
      made non-negative. */
  function Unaltered(f: int): (i: int)
    ensures 0 <= i < 7 && i == (f + 1) % 7
  {
    var r := JsRem(f + 1, 7);
    if r < 0 then 7 + r else r
  }

  function Encode(p: Pitch): (c: Coord)
    requires ValidStep(p.step)
    ensures c.octs.Undefined? <==> p.oct.Undefined?
    ensures c.octs.NaN? <==> p.oct.NaN?
  {
    var f := FIFTHS[p.step] + 7 * p.alt;
    match p.oct
    case Undefined => Coord(p.dir * f, Undefined)
    case Int(oct) => Coord(p.dir * f, Int(p.dir * (oct - STEPS_TO_OCTS[p.step] - 4 * p.alt)))
    case NaN => Coord(p.dir * f, NaN)
  }

  function Decode(c: Coord, dir: int): (p: Pitch)
    ensures ValidStep(p.step) && p.dir == dir
    ensures p.oct.Undefined? <==> c.octs.Undefined?
    ensures p.oct.NaN? <==> c.octs.NaN?
  {
    var step := FIFTHS_TO_STEPS[Unaltered(c.fifths)];
    var alt := (c.fifths + 1) / 7;
    match c.octs
    case Undefined => Pitch(step, alt, Undefined, dir)
    case Int(o) => Pitch(step, alt, Int(o + 4 * alt + STEPS_TO_OCTS[step]), dir)
    case NaN => Pitch(step, alt, NaN, dir)
  }

  /** The coordinate with both elements negated (`[-f, -o]`). */
  function Negate(c: Coord): Coord
  {
    Coord(-c.fifths, match c.octs case Int(o) => Int(-o) case other => other)
  }

  lemma StepsToOctsFromFifths(step: int)
    requires ValidStep(step)
    ensures STEPS_TO_OCTS[step] == FIFTHS[step] * 7 / 12
  {}

  /** Decoding undoes encoding, for an ascending pitch with an octave or a
      pitch class. */
  lemma DecodeEncode(p: Pitch)
    requires ValidStep(p.step) && p.dir == 1
    ensures Decode(Encode(p), 1) == p
  {
    var c := Encode(p);
    var k := FIFTHS[p.step] + 1;
    assert c.fifths + 1 == k + 7 * p.alt;
    SevenSplit(k, p.alt);
    assert FIFTHS_TO_STEPS[k] == p.step;
  }

  lemma SevenSplit(k: int, a: int)
    requires 0 <= k < 7
    ensures (k + 7 * a) % 7 == k && (k + 7 * a) / 7 == a
  {}

  /** The same for a descending pitch, decoded the way a descending interval
      is: the coordinate is negated and decoded with direction -1. */
  lemma DecodeEncodeDescending(p: Pitch)
    requires ValidStep(p.step) && p.dir == -1
    ensures Decode(Negate(Encode(p)), -1) == p
  {
    var q := p.(dir := 1);
    DecodeEncode(q);
    assert Negate(Encode(p)) == Encode(q);
  }

  /** Encoding undoes decoding: every coordinate is the code of exactly one
      ascending pitch. */
  lemma EncodeDecode(c: Coord)
    ensures Encode(Decode(c, 1)) == c
  {
    var u := Unaltered(c.fifths);
    var p := Decode(c, 1);
    assert FIFTHS[FIFTHS_TO_STEPS[u]] == u - 1;
    assert 7 * ((c.fifths + 1) / 7) + u - 1 == c.fifths;
  }

  /** Decoding with direction -1 and encoding again gives the negated
      coordinate. */
  lemma EncodeDecodeDescending(c: Coord)
    ensures Encode(Decode(c, -1)) == Negate(c)
  {
    var p := Decode(c, 1);
    EncodeDecode(c);
    assert Decode(c, -1) == p.(dir := -1);
    assert Encode(p.(dir := -1)) == Negate(Encode(p));
  }

  /** The size in semitones of a coordinate, `7 * fifths + 12 * octs`, is the
      semitone number of the pitch it encodes: the step's semitones, plus the
      alteration, plus twelve per octave. */
  lemma EncodeSemitones(p: Pitch, k: int)
    requires ValidStep(p.step) && p.dir == 1 && p.oct == Int(k)
    ensures 7 * Encode(p).fifths + 12 * Encode(p).octs.v == SEMI[p.step] + p.alt + 12 * k
  {}

  /** `4 * fifths + 7 * octs` counts diatonic steps: it is the step plus seven
      per octave of the pitch encoded. */
  lemma EncodeSteps(p: Pitch, k: int)
    requires ValidStep(p.step) && p.dir == 1 && p.oct == Int(k)
    ensures 4 * Encode(p).fifths + 7 * Encode(p).octs.v == p.step + 7 * k
  {}
}
