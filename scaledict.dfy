/** The scale type dictionary (js/app.js:972-1150): a list of scale types
    and an index from every key of a type (its name, its set number written
    in decimal, its chroma and each alias) to the type. As in the chord
    dictionary, a later entry overwrites an earlier one under a shared key;
    unlike it, the name is written even when empty, and the list keeps the
    order of the table. */
module ScaleDictionary {
  import opened JsText
  import opened Bits
  import P = Pcset
  import K = KeyIndex

  /** A row of the scale table: the intervals as `split(" ")` yields them,
      the name and the aliases (the rest of the row). */
  datatype ScaleRow = ScaleRow(intervals: Intervals, name: string, aliases: seq<string>)

  /** Every scale of the table has at least five intervals. */
  type Intervals = s: seq<string> | |s| >= 5 witness ["1P", "2M", "3M", "5P", "6M"]

  // 5-note scales
  const SCALES_FIVE_1: seq<ScaleRow> := [
    ScaleRow(["1P", "2M", "3M", "5P", "6M"], "major pentatonic", ["pentatonic"]),
    ScaleRow(["1P", "3M", "4P", "5P", "7M"], "ionian pentatonic", []),
    ScaleRow(["1P", "3M", "4P", "5P", "7m"], "mixolydian pentatonic", ["indian"]),
    ScaleRow(["1P", "2M", "4P", "5P", "6M"], "ritusen", []),
    ScaleRow(["1P", "2M", "4P", "5P", "7m"], "egyptian", []),
    ScaleRow(["1P", "3M", "4P", "5d", "7m"], "neopolitan major pentatonic", []),
    ScaleRow(["1P", "3m", "4P", "5P", "6m"], "vietnamese 1", []),
    ScaleRow(["1P", "2m", "3m", "5P", "6m"], "pelog", []),
    ScaleRow(["1P", "2m", "4P", "5P", "6m"], "kumoijoshi", []),
    ScaleRow(["1P", "2M", "3m", "5P", "6m"], "hirajoshi", []),
    ScaleRow(["1P", "2m", "4P", "5d", "7m"], "iwato", []),
    ScaleRow(["1P", "2m", "4P", "5P", "7m"], "in-sen", []),
    ScaleRow(["1P", "3M", "4A", "5P", "7M"], "lydian pentatonic", ["chinese"])
  ]

  // 5-note scales, continued
  const SCALES_FIVE_2: seq<ScaleRow> := [
    ScaleRow(["1P", "3m", "4P", "6m", "7m"], "malkos raga", []),
    ScaleRow(["1P", "3m", "4P", "5d", "7m"], "locrian pentatonic", ["minor seven flat five pentatonic"]),
    ScaleRow(["1P", "3m", "4P", "5P", "7m"], "minor pentatonic", ["vietnamese 2"]),
    ScaleRow(["1P", "3m", "4P", "5P", "6M"], "minor six pentatonic", []),
    ScaleRow(["1P", "2M", "3m", "5P", "6M"], "flat three pentatonic", ["kumoi"]),
    ScaleRow(["1P", "2M", "3M", "5P", "6m"], "flat six pentatonic", []),
    ScaleRow(["1P", "2m", "3M", "5P", "6M"], "scriabin", []),
    ScaleRow(["1P", "3M", "5d", "6m", "7m"], "whole tone pentatonic", []),
    ScaleRow(["1P", "3M", "4A", "5A", "7M"], "lydian #5P pentatonic", []),
    ScaleRow(["1P", "3M", "4A", "5P", "7m"], "lydian dominant pentatonic", []),
    ScaleRow(["1P", "3m", "4P", "5P", "7M"], "minor #7M pentatonic", []),
    ScaleRow(["1P", "3m", "4d", "5d", "7m"], "super locrian pentatonic", [])
  ]

  // 6-note scales
  const SCALES_SIX: seq<ScaleRow> := [
    ScaleRow(["1P", "2M", "3m", "4P", "5P", "7M"], "minor hexatonic", []),
    ScaleRow(["1P", "2A", "3M", "5P", "5A", "7M"], "augmented", []),
    ScaleRow(["1P", "3m", "4P", "5d", "5P", "7m"], "minor blues", ["blues"]),
    ScaleRow(["1P", "2M", "3m", "3M", "5P", "6M"], "major blues", []),
    ScaleRow(["1P", "2M", "4P", "5P", "6M", "7m"], "piongio", []),
    ScaleRow(["1P", "2m", "3M", "4A", "6M", "7m"], "prometheus neopolitan", []),
    ScaleRow(["1P", "2M", "3M", "4A", "6M", "7m"], "prometheus", []),
    ScaleRow(["1P", "2m", "3M", "5d", "6m", "7m"], "mystery #1", []),
    ScaleRow(["1P", "2m", "3M", "4P", "5A", "6M"], "six tone symmetric", []),
    ScaleRow(["1P", "2M", "3M", "4A", "5A", "7m"], "whole tone", [])
  ]

  // 7-note scales
  const SCALES_SEVEN_1: seq<ScaleRow> := [
    ScaleRow(["1P", "2M", "3M", "4P", "5d", "6m", "7m"], "locrian major", ["arabian"]),
    ScaleRow(["1P", "2m", "3M", "4A", "5P", "6m", "7M"], "double harmonic lydian", []),
    ScaleRow(["1P", "2M", "3m", "4P", "5P", "6m", "7M"], "harmonic minor", []),
    ScaleRow(["1P", "2m", "3m", "3M", "5d", "6m", "7m"], "altered", ["super locrian", "diminished whole tone", "pomeroy"]),
    ScaleRow(["1P", "2M", "3m", "4P", "5d", "6m", "7m"], "locrian #2", ["half-diminished", "\"aeolian b5"]),
    ScaleRow(["1P", "2M", "3M", "4P", "5P", "6m", "7m"], "mixolydian b6", ["melodic minor fifth mode", "hindu"]),
    ScaleRow(["1P", "2M", "3M", "4A", "5P", "6M", "7m"], "lydian dominant", ["lydian b7", "overtone"]),
    ScaleRow(["1P", "2M", "3M", "4A", "5P", "6M", "7M"], "lydian", []),
    ScaleRow(["1P", "2M", "3M", "4A", "5A", "6M", "7M"], "lydian augmented", []),
    ScaleRow(["1P", "2m", "3m", "4P", "5P", "6M", "7m"], "dorian b2", ["phrygian #6", "melodic minor second mode"]),
    ScaleRow(["1P", "2M", "3m", "4P", "5P", "6M", "7M"], "melodic minor", []),
    ScaleRow(["1P", "2m", "3m", "4P", "5d", "6m", "7m"], "locrian", []),
    ScaleRow(["1P", "2m", "3m", "4d", "5d", "6m", "7d"], "ultralocrian", ["superlocrian bb7", "\U{B7}superlocrian diminished"])
  ]

  // 7-note scales, continued
  const SCALES_SEVEN_2: seq<ScaleRow> := [
    ScaleRow(["1P", "2m", "3m", "4P", "5d", "6M", "7m"], "locrian 6", ["locrian natural 6", "locrian sharp 6"]),
    ScaleRow(["1P", "2A", "3M", "4P", "5P", "5A", "7M"], "augmented heptatonic", []),
    ScaleRow(["1P", "2M", "3m", "5d", "5P", "6M", "7m"], "romanian minor", []),
    ScaleRow(["1P", "2M", "3m", "4A", "5P", "6M", "7m"], "dorian #4", []),
    ScaleRow(["1P", "2M", "3m", "4A", "5P", "6M", "7M"], "lydian diminished", []),
    ScaleRow(["1P", "2m", "3m", "4P", "5P", "6m", "7m"], "phrygian", []),
    ScaleRow(["1P", "2M", "3M", "4A", "5A", "7m", "7M"], "leading whole tone", []),
    ScaleRow(["1P", "2M", "3M", "4A", "5P", "6m", "7m"], "lydian minor", []),
    ScaleRow(["1P", "2m", "3M", "4P", "5P", "6m", "7m"], "phrygian dominant", ["spanish", "phrygian major"]),
    ScaleRow(["1P", "2m", "3m", "4P", "5P", "6m", "7M"], "balinese", []),
    ScaleRow(["1P", "2m", "3m", "4P", "5P", "6M", "7M"], "neopolitan major", ["dorian b2"]),
    ScaleRow(["1P", "2M", "3m", "4P", "5P", "6m", "7m"], "aeolian", ["minor"]),
    ScaleRow(["1P", "2M", "3M", "4P", "5P", "6m", "7M"], "harmonic major", [])
  ]

  // 7-note scales, continued
  const SCALES_SEVEN_3: seq<ScaleRow> := [
    ScaleRow(["1P", "2m", "3M", "4P", "5P", "6m", "7M"], "double harmonic major", ["gypsy"]),
    ScaleRow(["1P", "2M", "3m", "4P", "5P", "6M", "7m"], "dorian", []),
    ScaleRow(["1P", "2M", "3m", "4A", "5P", "6m", "7M"], "hungarian minor", []),
    ScaleRow(["1P", "2A", "3M", "4A", "5P", "6M", "7m"], "hungarian major", []),
    ScaleRow(["1P", "2m", "3M", "4P", "5d", "6M", "7m"], "oriental", []),
    ScaleRow(["1P", "2m", "3m", "3M", "4A", "5P", "7m"], "flamenco", []),
    ScaleRow(["1P", "2m", "3m", "4A", "5P", "6m", "7M"], "todi raga", []),
    ScaleRow(["1P", "2M", "3M", "4P", "5P", "6M", "7m"], "mixolydian", ["dominant"]),
    ScaleRow(["1P", "2m", "3M", "4P", "5d", "6m", "7M"], "persian", []),
    ScaleRow(["1P", "2M", "3M", "4P", "5P", "6M", "7M"], "major", ["ionian"]),
    ScaleRow(["1P", "2m", "3M", "5d", "6m", "7m", "7M"], "enigmatic", []),
    ScaleRow(["1P", "2M", "3M", "4P", "5A", "6M", "7M"], "major augmented", ["major #5", "ionian augmented", "ionian #5"]),
    ScaleRow(["1P", "2A", "3M", "4A", "5P", "6M", "7M"], "lydian #9", [])
  ]

  // 8-note scales
  const SCALES_EIGHT: seq<ScaleRow> := [
    ScaleRow(["1P", "2m", "3M", "4P", "4A", "5P", "6m", "7M"], "purvi raga", []),
    ScaleRow(["1P", "2m", "3m", "3M", "4P", "5P", "6m", "7m"], "spanish heptatonic", []),
    ScaleRow(["1P", "2M", "3M", "4P", "5P", "6M", "7m", "7M"], "bebop", []),
    ScaleRow(["1P", "2M", "3m", "3M", "4P", "5P", "6M", "7m"], "bebop minor", []),
    ScaleRow(["1P", "2M", "3M", "4P", "5P", "5A", "6M", "7M"], "bebop major", []),
    ScaleRow(["1P", "2m", "3m", "4P", "5d", "5P", "6m", "7m"], "bebop locrian", []),
    ScaleRow(["1P", "2M", "3m", "4P", "5P", "6m", "7m", "7M"], "minor bebop", []),
    ScaleRow(["1P", "2M", "3m", "4P", "5d", "6m", "6M", "7M"], "diminished", ["whole-half diminished"]),
    ScaleRow(["1P", "2M", "3M", "4P", "5d", "5P", "6M", "7M"], "ichikosucho", []),
    ScaleRow(["1P", "2M", "3m", "4P", "5P", "6m", "6M", "7M"], "minor six diminished", []),
    ScaleRow(["1P", "2m", "3m", "3M", "4A", "5P", "6M", "7m"], "half-whole diminished", ["dominant diminished"]),
    ScaleRow(["1P", "3m", "3M", "4P", "5P", "6M", "7m", "7M"], "kafi raga", [])
  ]

  // 9-note and 12-note scales
  const SCALES_NINE_TWELVE: seq<ScaleRow> := [
    ScaleRow(["1P", "2M", "3m", "3M", "4P", "5d", "5P", "6M", "7m"], "composite blues", []),
    ScaleRow(["1P", "2m", "2M", "3m", "3M", "4P", "5d", "5P", "6m", "6M", "7m", "7M"], "chromatic", [])
  ]

  const SCALES: seq<ScaleRow> :=
    SCALES_FIVE_1 + SCALES_FIVE_2 + SCALES_SIX + SCALES_SEVEN_1 + SCALES_SEVEN_2 + SCALES_SEVEN_3 +
    SCALES_EIGHT + SCALES_NINE_TWELVE

  /** A scale type: the pitch-class set of its intervals, with the name,
      intervals and aliases put over the set's own fields. */
  datatype ScaleType = ScaleType(empty: bool, setNum: nat, chroma: string, normalized: string,
                                 name: string, intervals: seq<string>, aliases: seq<string>)

  /** `NoScaleType`: the empty set with no intervals and no aliases. */
  const NO_SCALE_TYPE: ScaleType := ScaleType(true, 0, P.EMPTY_CHROMA, P.EMPTY_CHROMA, "", [], [])

  /** The interval lists `pcset` accepts without throwing. */
  predicate Addable(intervals: seq<string>)
  {
    !P.Throws(P.Names(intervals))
  }

  /** The scale type `add` builds. */
  function MakeScaleType(intervals: seq<string>, name: string, aliases: seq<string>): ScaleType
    requires Addable(intervals)
  {
    var s := P.Get(P.Names(intervals));
    ScaleType(s.empty, s.setNum, s.chroma, s.normalized, name, intervals, aliases)
  }

  /** The set number and chroma of a scale type are those of its interval
      list, and the name, intervals and aliases are the ones given. */
  lemma MakeScaleTypeFields(intervals: seq<string>, name: string, aliases: seq<string>)
    requires Addable(intervals)
    ensures var s := MakeScaleType(intervals, name, aliases);
      s.chroma == P.ListChroma(intervals) && P.IsChroma(s.chroma) &&
      s.setNum == BinaryValue(s.chroma) && s.setNum < 4096 &&
      s.name == name && s.intervals == intervals && s.aliases == aliases
  {
    P.GetSetNum(P.Names(intervals));
  }

  /** The keys `add` writes for a scale type, in the order it writes them:
      the name (even when empty), the set number, the chroma and then the
      aliases. */
  function KeysOf(s: ScaleType): seq<string>
  {
    [s.name, NatToString(s.setNum), s.chroma] + s.aliases
  }

  /** The index after adding `s`. */
  function Indexed(index: map<string, ScaleType>, s: ScaleType): map<string, ScaleType>
  {
    K.WriteAll(index, KeysOf(s), s)
  }

  /** The index after adding `entries` in order to `index`. */
  function AddedAll(index: map<string, ScaleType>, entries: seq<ScaleType>): map<string, ScaleType>
  {
    K.AddedAll(index, entries, KeysOf)
  }

  /** `index[type] || NoScaleType`. */
  function Lookup(index: map<string, ScaleType>, name: string): ScaleType
  {
    if name in index then index[name] else NO_SCALE_TYPE
  }

  /** After `add`, each key of the new type finds it and every other key
      finds what it found before. */
  lemma IndexedLookup(index: map<string, ScaleType>, s: ScaleType, k: string)
    ensures k in KeysOf(s) ==> Lookup(Indexed(index, s), k) == s
    ensures k !in KeysOf(s) ==> Lookup(Indexed(index, s), k) == Lookup(index, k)
  {
    K.WriteAllMeaning(index, KeysOf(s), s);
  }

  /** The scale type `add` builds for a row of the table. */
  function RowType(r: ScaleRow): ScaleType
  {
    MakeScaleType(r.intervals, r.name, r.aliases)
  }

  /** The scale types of the rows, in order. */
  function RowTypes(rows: seq<ScaleRow>): (es: seq<ScaleType>)
    ensures |es| == |rows|
  {
    seq(|rows|, k requires 0 <= k < |rows| => RowType(rows[k]))
  }

  // Keys of the seeded dictionary

  /** The keys a row contributes through its text: its name and its aliases. */
  function NameKeys(r: ScaleRow): seq<string>
  {
    [r.name] + r.aliases
  }

  lemma RowKeys(r: ScaleRow, k: string)
    requires K.TextKey(k)
    ensures k in KeysOf(RowType(r)) <==> k in NameKeys(r)
  {
    MakeScaleTypeFields(r.intervals, r.name, r.aliases);
    var s := RowType(r);
    K.TextKeyNotNumeric(k, s.setNum, s.chroma);
  }

  /** Seeding the dictionary from `rows`, a text key looks up the scale type
      of the last row that names it. */
  lemma {:induction false} SeededTextKey(rows: seq<ScaleRow>, k: string, i: int)
    requires K.TextKey(k) && 0 <= i < |rows| && k in NameKeys(rows[i])
    requires forall j :: i < j < |rows| ==> k !in NameKeys(rows[j])
    ensures var s := Lookup(AddedAll(map[], RowTypes(rows)), k);
      s.name == rows[i].name && s.aliases == rows[i].aliases && s.intervals == rows[i].intervals
  {
    var es := RowTypes(rows);
    RowKeys(rows[i], k);
    forall j | i < j < |es|
      ensures k !in KeysOf(es[j])
    {
      RowKeys(rows[j], k);
    }
    K.LastWins(map[], es, KeysOf, k, i);
    MakeScaleTypeFields(rows[i].intervals, rows[i].name, rows[i].aliases);
  }

  /** Seeding the dictionary from `rows`, a text key no row names is absent. */
  lemma SeededTextKeyAbsent(rows: seq<ScaleRow>, k: string)
    requires K.TextKey(k)
    requires forall j :: 0 <= j < |rows| ==> k !in NameKeys(rows[j])
    ensures Lookup(AddedAll(map[], RowTypes(rows)), k) == NO_SCALE_TYPE
  {
    var es := RowTypes(rows);
    forall j | 0 <= j < |es|
      ensures k !in KeysOf(es[j])
    {
      RowKeys(rows[j], k);
    }
    K.NoEntryHas(map[], es, KeysOf, k);
  }

  /** No row of `rows` from position `from` on has `k` among its name keys. */
  predicate Free(rows: seq<ScaleRow>, k: string, from: nat)
  {
    forall j :: from <= j < |rows| ==> k !in NameKeys(rows[j])
  }

  lemma FreeAppend(a: seq<ScaleRow>, b: seq<ScaleRow>, k: string, from: nat)
    requires from <= |a| && Free(a, k, from) && Free(b, k, 0)
    ensures Free(a + b, k, from)
  {
    forall j | from <= j < |a + b|
      ensures k !in NameKeys((a + b)[j])
    {
      if j >= |a| {
        assert (a + b)[j] == b[j - |a|];
      }
    }
  }

  lemma FreeShift(a: seq<ScaleRow>, b: seq<ScaleRow>, k: string, from: nat)
    requires from <= |b| && Free(b, k, from)
    ensures Free(a + b, k, |a| + from)
  {
    forall j | |a| + from <= j < |a + b|
      ensures k !in NameKeys((a + b)[j])
    {
      assert (a + b)[j] == b[j - |a|];
    }
  }

  /** Rows 44, 58, 59 and 70 of the table (js/app.js:1031-1036, 1055, 1056, 1067)
      and the rows after them that do not reuse their keys: "dorian b2" is
      named last by "neopolitan major" (row 58), "minor" by "aeolian" and
      "major" by the major scale. */
  lemma SeededRows(rows: seq<ScaleRow>)
    requires rows == SCALES
    ensures |rows| == 88
    ensures rows[44] == ScaleRow(["1P", "2m", "3m", "4P", "5P", "6M", "7m"], "dorian b2", ["phrygian #6", "melodic minor second mode"])
    ensures rows[58] == ScaleRow(["1P", "2m", "3m", "4P", "5P", "6M", "7M"], "neopolitan major", ["dorian b2"])
    ensures rows[59] == ScaleRow(["1P", "2M", "3m", "4P", "5P", "6m", "7m"], "aeolian", ["minor"])
    ensures rows[70] == ScaleRow(["1P", "2M", "3M", "4P", "5P", "6M", "7M"], "major", ["ionian"])
    ensures Free(rows, "dorian b2", 59) && Free(rows, "minor", 60) && Free(rows, "major", 71)
  {
    var a := SCALES_FIVE_1 + SCALES_FIVE_2 + SCALES_SIX;
    var b := a + SCALES_SEVEN_1;
    var c := b + SCALES_SEVEN_2;
    var d := c + SCALES_SEVEN_3;
    var e := d + SCALES_EIGHT;
    assert |a| == 35 && |b| == 48 && |c| == 61 && |d| == 74;
    assert rows == e + SCALES_NINE_TWELVE;
    assert rows[44] == SCALES_SEVEN_1[9] by { assert b[44] == SCALES_SEVEN_1[9]; }
    assert rows[58] == SCALES_SEVEN_2[10] by { assert c[58] == SCALES_SEVEN_2[10]; }
    assert rows[59] == SCALES_SEVEN_2[11] by { assert c[59] == SCALES_SEVEN_2[11]; }
    assert rows[70] == SCALES_SEVEN_3[9] by { assert d[70] == SCALES_SEVEN_3[9]; }
    SevenTwoFree();
    SevenThreeFree();
    TailFree();
    FreeShift(b, SCALES_SEVEN_2, "dorian b2", 11);
    FreeShift(b, SCALES_SEVEN_2, "minor", 12);
    FreeShift(c, SCALES_SEVEN_3, "major", 10);
    FreeAppend(c, SCALES_SEVEN_3, "dorian b2", 59);
    FreeAppend(c, SCALES_SEVEN_3, "minor", 60);
    FreeAppend(d, SCALES_EIGHT, "dorian b2", 59);
    FreeAppend(d, SCALES_EIGHT, "minor", 60);
    FreeAppend(d, SCALES_EIGHT, "major", 71);
    FreeAppend(e, SCALES_NINE_TWELVE, "dorian b2", 59);
    FreeAppend(e, SCALES_NINE_TWELVE, "minor", 60);
    FreeAppend(e, SCALES_NINE_TWELVE, "major", 71);
  }

  lemma SevenTwoFree()
    ensures Free(SCALES_SEVEN_2, "dorian b2", 11) && Free(SCALES_SEVEN_2, "minor", 12)
  {
    forall j | 11 <= j < |SCALES_SEVEN_2|
      ensures "dorian b2" !in NameKeys(SCALES_SEVEN_2[j])
      ensures j >= 12 ==> "minor" !in NameKeys(SCALES_SEVEN_2[j])
    {
      assert j == 11 || j == 12;
    }
  }

  lemma SevenThreeFree()
    ensures Free(SCALES_SEVEN_3, "dorian b2", 0) && Free(SCALES_SEVEN_3, "minor", 0)
    ensures Free(SCALES_SEVEN_3, "major", 10)
  {
    forall j | 0 <= j < |SCALES_SEVEN_3|
      ensures "dorian b2" !in NameKeys(SCALES_SEVEN_3[j]) && "minor" !in NameKeys(SCALES_SEVEN_3[j])
      ensures j >= 10 ==> "major" !in NameKeys(SCALES_SEVEN_3[j])
    {
      assert j == 0 || j == 1 || j == 2 || j == 3 || j == 4 || j == 5 || j == 6 || j == 7 || j == 8 || j == 9 || j == 10 || j == 11 || j == 12;
    }
  }

  lemma TailFree()
    ensures Free(SCALES_EIGHT, "dorian b2", 0) && Free(SCALES_EIGHT, "minor", 0) && Free(SCALES_EIGHT, "major", 0)
    ensures Free(SCALES_NINE_TWELVE, "dorian b2", 0) && Free(SCALES_NINE_TWELVE, "minor", 0)
    ensures Free(SCALES_NINE_TWELVE, "major", 0)
  {
    forall j | 0 <= j < |SCALES_EIGHT|
      ensures "dorian b2" !in NameKeys(SCALES_EIGHT[j]) && "minor" !in NameKeys(SCALES_EIGHT[j])
      ensures "major" !in NameKeys(SCALES_EIGHT[j])
    {
      assert j == 0 || j == 1 || j == 2 || j == 3 || j == 4 || j == 5 || j == 6 || j == 7 || j == 8 || j == 9 || j == 10 || j == 11;
    }
    forall j | 0 <= j < |SCALES_NINE_TWELVE|
      ensures "dorian b2" !in NameKeys(SCALES_NINE_TWELVE[j]) && "minor" !in NameKeys(SCALES_NINE_TWELVE[j])
      ensures "major" !in NameKeys(SCALES_NINE_TWELVE[j])
    {
      assert j == 0 || j == 1;
    }
  }

  /** After seeding, "dorian b2" finds "neopolitan major", whose alias it
      is, and not the scale of row 44 named "dorian b2", which stays in the
      list of entries. */
  lemma SeededDorianB2(rows: seq<ScaleRow>)
    requires rows == SCALES
    ensures var s := Lookup(AddedAll(map[], RowTypes(rows)), "dorian b2");
      s.name == "neopolitan major" && s.intervals == ["1P", "2m", "3m", "4P", "5P", "6M", "7M"] &&
      s.aliases == ["dorian b2"]
    ensures RowTypes(rows)[44].name == "dorian b2"
  {
    SeededRows(rows);
    assert !IsDigit("dorian b2"[0]);
    SeededTextKey(rows, "dorian b2", 58);
    MakeScaleTypeFields(rows[44].intervals, rows[44].name, rows[44].aliases);
  }

  /** After seeding, "minor" finds the aeolian scale and "major" the major
      scale. */
  lemma SeededMajorMinor(rows: seq<ScaleRow>)
    requires rows == SCALES
    ensures var s := Lookup(AddedAll(map[], RowTypes(rows)), "minor");
      s.name == "aeolian" && s.intervals == ["1P", "2M", "3m", "4P", "5P", "6m", "7m"]
    ensures var s := Lookup(AddedAll(map[], RowTypes(rows)), "major");
      s.name == "major" && s.intervals == ["1P", "2M", "3M", "4P", "5P", "6M", "7M"] &&
      s.aliases == ["ionian"]
  {
    SeededRows(rows);
    assert !IsDigit("minor"[0]) && !IsDigit("major"[0]);
    SeededTextKey(rows, "minor", 59);
    SeededTextKey(rows, "major", 70);
  }

  /** The dictionary's globals: the list of entries and the index. */
  class Dictionary {
    var scales: seq<ScaleType>
    var index: map<string, ScaleType>

    /** Module initialisation: every row of the table is added in order. */
    constructor ()
      ensures scales == RowTypes(SCALES)
      ensures index == AddedAll(map[], RowTypes(SCALES))
    {
      scales := [];
      index := map[];
      new;
      var rows := SCALES;
      AddRows(rows);
      K.EmptyAppend(RowTypes(rows));
    }

    /** `SCALES.forEach(([ivls, name, ...aliases]) => add(...))`. */
    method AddRows(rows: seq<ScaleRow>)
      modifies this
      ensures scales == old(scales) + RowTypes(rows)
      ensures index == AddedAll(old(index), RowTypes(rows))
    {
      ghost var es := RowTypes(rows);
      var i := 0;
      while i < |rows|
        invariant 0 <= i <= |rows|
        invariant scales == old(scales) + es[..i]
        invariant index == AddedAll(old(index), es[..i])
      {
        assert es[i] == RowType(rows[i]);
        var _ := Add(rows[i].intervals, rows[i].name, rows[i].aliases);
        K.SliceSnoc(es, i);
        K.AppendSnoc(old(scales), es[..i], es[i]);
        K.AddedAllSnoc(old(index), es[..i], es[i], KeysOf);
        i := i + 1;
      }
      K.SliceAll(es);
    }

    /** `scaleType(type)`. */
    method ScaleTypeOf(name: string) returns (s: ScaleType)
      ensures s == Lookup(index, name)
    {
      s := if name in index then index[name] else NO_SCALE_TYPE;
    }

    /** `keys()`, as a set. */
    method Keys() returns (keys: set<string>)
      ensures keys == index.Keys
    {
      keys := index.Keys;
    }

    /** `entries()`: a copy of the list. */
    method Entries() returns (entries: seq<ScaleType>)
      ensures entries == scales
    {
      entries := scales;
    }

    /** `clear()`. */
    method Clear()
      modifies this
      ensures scales == [] && index == map[]
    {
      scales := [];
      index := map[];
    }

    /** `addAlias(scale, alias)`. */
    method AddAlias(scale: ScaleType, alias: string)
      modifies this
      ensures scales == old(scales) && index == old(index)[alias := scale]
    {
      index := index[alias := scale];
    }

    /** `scale.aliases.forEach((alias) => addAlias(scale, alias))`. */
    method AddAliases(scale: ScaleType, aliases: seq<string>)
      modifies this
      ensures scales == old(scales) && index == K.WriteAll(old(index), aliases, scale)
    {
      var i := 0;
      while i < |aliases|
        invariant 0 <= i <= |aliases|
        invariant scales == old(scales)
        invariant index == K.WriteAll(old(index), aliases[..i], scale)
      {
        AddAlias(scale, aliases[i]);
        K.WriteAllSnoc(old(index), aliases[..i], aliases[i], scale);
        assert aliases[..i + 1] == aliases[..i] + [aliases[i]];
        i := i + 1;
      }
      assert aliases[..|aliases|] == aliases;
    }

    /** The scale type `add` builds, made apart from the writes. */
    static method NewScaleType(intervals: seq<string>, name: string, aliases: seq<string>) returns (s: ScaleType)
      requires Addable(intervals)
      ensures s == MakeScaleType(intervals, name, aliases)
    {
      s := MakeScaleType(intervals, name, aliases);
    }

    /** `add(intervals, name, aliases)`, which returns the new scale type. */
    method Add(intervals: seq<string>, name: string, aliases: seq<string>) returns (s: ScaleType)
      requires Addable(intervals)
      modifies this
      ensures s == MakeScaleType(intervals, name, aliases)
      ensures scales == old(scales) + [s]
      ensures index == Indexed(old(index), s)
    {
      s := NewScaleType(intervals, name, aliases);
      Insert(s);
    }

    /** The writes of `add` once the scale type is built: push it, then index
        it under its name, its set number, its chroma and its aliases. */
    method Insert(scale: ScaleType)
      modifies this
      ensures scales == old(scales) + [scale]
      ensures index == Indexed(old(index), scale)
    {
      scales := scales + [scale];
      index := index[scale.name := scale];
      K.WriteAllSnoc(old(index), [], scale.name, scale);
      assert [] + [scale.name] == [scale.name];
      var num := NatToString(scale.setNum);
      index := index[num := scale];
      K.WriteAllSnoc(old(index), [scale.name], num, scale);
      assert [scale.name] + [num] == [scale.name, num];
      index := index[scale.chroma := scale];
      K.WriteAllSnoc(old(index), [scale.name, num], scale.chroma, scale);
      assert [scale.name, num] + [scale.chroma] == [scale.name, num, scale.chroma];
      AddAliases(scale, scale.aliases);
      K.WriteAllAppend(old(index), [scale.name, num, scale.chroma], scale.aliases, scale);
      assert [scale.name, num, scale.chroma] + scale.aliases == KeysOf(scale);
    }
  }
}
