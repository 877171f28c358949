/** The chord type dictionary (js/app.js:202-394): a list of chord types and
    an index from every key of a type (its full name when there is one, its
    set number written in decimal, its chroma and each alias) to the type.
    The index is a plain object, so a later entry overwrites an earlier one
    under a shared key. */
module ChordDictionary {
  import opened JsText
  import opened Bits
  import opened Wrappers
  import P = Pcset
  import I = Interval
  import K = KeyIndex

  /** A row of the chord table: the intervals, the full name and the
      aliases, each list as `split(" ")` yields it (so "M " gives the aliases
      "M" and ""). */
  datatype ChordRow = ChordRow(intervals: Intervals, fullName: string, names: seq<string>)

  /** Every interval list of the table has at least two intervals. */
  type Intervals = s: seq<string> | |s| >= 2 witness ["1P", "5P"]

  // Major
  const CHORDS_MAJOR: seq<ChordRow> := [
    ChordRow(["1P", "3M", "5P"], "major", ["M", ""]),
    ChordRow(["1P", "3M", "5P", "7M"], "major seventh", ["maj7", "\U{394}", "ma7", "M7", "Maj7"]),
    ChordRow(["1P", "3M", "5P", "7M", "9M"], "major ninth", ["maj9", "\U{394}9"]),
    ChordRow(["1P", "3M", "5P", "7M", "9M", "13M"], "major thirteenth", ["maj13", "Maj13"]),
    ChordRow(["1P", "3M", "5P", "6M"], "sixth", ["6", "add6", "add13", "M6"]),
    ChordRow(["1P", "3M", "5P", "6M", "9M"], "sixth/ninth", ["6/9", "69"]),
    ChordRow(["1P", "3M", "5P", "7M", "11A"], "lydian", ["maj#4", "\U{394}#4", "\U{394}#11"]),
    ChordRow(["1P", "3M", "6m", "7M"], "major seventh b6", ["M7b6"])
  ]

  // Minor
  const CHORDS_MINOR: seq<ChordRow> := [
    ChordRow(["1P", "3m", "5P"], "minor", ["m", "min", "-"]),
    ChordRow(["1P", "3m", "5P", "7m"], "minor seventh", ["m7", "min7", "mi7", "-7"]),
    ChordRow(["1P", "3m", "5P", "7M"], "minor/major seventh", ["m/ma7", "m/maj7", "mM7", "m/M7", "-\U{394}7", "m\U{394}"]),
    ChordRow(["1P", "3m", "5P", "6M"], "minor sixth", ["m6"]),
    ChordRow(["1P", "3m", "5P", "7m", "9M"], "minor ninth", ["m9"]),
    ChordRow(["1P", "3m", "5P", "7m", "9M", "11P"], "minor eleventh", ["m11"]),
    ChordRow(["1P", "3m", "5P", "7m", "9M", "13M"], "minor thirteenth", ["m13"])
  ]

  // Diminished
  const CHORDS_DIMINISHED: seq<ChordRow> := [
    ChordRow(["1P", "3m", "5d"], "diminished", ["dim", "\U{B0}", "o"]),
    ChordRow(["1P", "3m", "5d", "7d"], "diminished seventh", ["dim7", "\U{B0}7", "o7"]),
    ChordRow(["1P", "3m", "5d", "7m"], "half-diminished", ["m7b5", "\U{F8}"])
  ]

  // Dominant/Seventh
  const CHORDS_DOMINANT: seq<ChordRow> := [
    ChordRow(["1P", "3M", "5P", "7m"], "dominant seventh", ["7", "dom"]),
    ChordRow(["1P", "3M", "5P", "7m", "9M"], "dominant ninth", ["9"]),
    ChordRow(["1P", "3M", "5P", "7m", "9M", "13M"], "dominant thirteenth", ["13"]),
    ChordRow(["1P", "3M", "5P", "7m", "11A"], "lydian dominant seventh", ["7#11", "7#4"])
  ]

  // Altered
  const CHORDS_ALTERED: seq<ChordRow> := [
    ChordRow(["1P", "3M", "5P", "7m", "9m"], "dominant b9", ["7b9"]),
    ChordRow(["1P", "3M", "5P", "7m", "9A"], "dominant #9", ["7#9"]),
    ChordRow(["1P", "3M", "7m", "9m"], "altered", ["alt7"])
  ]

  // Suspended
  const CHORDS_SUSPENDED: seq<ChordRow> := [
    ChordRow(["1P", "4P", "5P"], "suspended 4th", ["sus4"]),
    ChordRow(["1P", "2M", "5P"], "suspended 2nd", ["sus2"]),
    ChordRow(["1P", "4P", "5P", "7m"], "suspended 4th seventh", ["7sus4"]),
    ChordRow(["1P", "5P", "7m", "9M", "11P"], "eleventh", ["11", "sus", "Bb/C", "for", "C11"]),
    ChordRow(["1P", "4P", "5P", "7m", "9m"], "suspended 4th b9", ["b9sus", "phryg"])
  ]

  // Other
  const CHORDS_OTHER: seq<ChordRow> := [
    ChordRow(["1P", "5P"], "fifth", ["5"]),
    ChordRow(["1P", "3M", "5A"], "augmented", ["aug", "+", "+5"]),
    ChordRow(["1P", "3M", "5A", "7M"], "augmented seventh", ["maj7#5", "maj7+5"]),
    ChordRow(["1P", "3M", "5P", "7M", "9M", "11A"], "major #11 (lydian)", ["maj9#11", "\U{394}9#11"])
  ]

  // Legacy, part 1
  const CHORDS_LEGACY_1: seq<ChordRow> := [
    ChordRow(["1P", "2M", "4P", "5P"], "", ["sus24", "sus4add9"]),
    ChordRow(["1P", "3M", "13m"], "", ["Mb6"]),
    ChordRow(["1P", "3M", "5A", "7M", "9M"], "", ["maj9#5", "Maj9#5"]),
    ChordRow(["1P", "3M", "5A", "7m"], "", ["7#5", "+7", "7aug", "aug7"]),
    ChordRow(["1P", "3M", "5A", "7m", "9A"], "", ["7#5#9", "7alt", "7#5#9_", "7#9b13_"]),
    ChordRow(["1P", "3M", "5A", "7m", "9M"], "", ["9#5", "9+"]),
    ChordRow(["1P", "3M", "5A", "7m", "9M", "11A"], "", ["9#5#11"]),
    ChordRow(["1P", "3M", "5A", "7m", "9m"], "", ["7#5b9"]),
    ChordRow(["1P", "3M", "5A", "7m", "9m", "11A"], "", ["7#5b9#11"]),
    ChordRow(["1P", "3M", "5A", "9A"], "", ["+add#9"]),
    ChordRow(["1P", "3M", "5A", "9M"], "", ["M#5add9", "+add9"]),
    ChordRow(["1P", "3M", "5P", "6M", "11A"], "", ["M6#11", "M6b5", "6#11", "6b5"]),
    ChordRow(["1P", "3M", "5P", "6M", "7M", "9M"], "", ["M7add13"]),
    ChordRow(["1P", "3M", "5P", "6M", "9M", "11A"], "", ["69#11"]),
    ChordRow(["1P", "3M", "5P", "6m", "7m"], "", ["7b6"]),
    ChordRow(["1P", "3M", "5P", "7M", "9A", "11A"], "", ["maj7#9#11"]),
    ChordRow(["1P", "3M", "5P", "7M", "9M", "11A", "13M"], "", ["M13#11", "maj13#11", "M13+4", "M13#4"]),
    ChordRow(["1P", "3M", "5P", "7M", "9m"], "", ["M7b9"]),
    ChordRow(["1P", "3M", "5P", "7m", "11A", "13m"], "", ["7#11b13", "7b5b13"])
  ]

  // Legacy, part 2
  const CHORDS_LEGACY_2: seq<ChordRow> := [
    ChordRow(["1P", "3M", "5P", "7m", "13M"], "", ["7add6", "67", "7add13"]),
    ChordRow(["1P", "3M", "5P", "7m", "9A", "11A"], "", ["7#9#11", "7b5#9"]),
    ChordRow(["1P", "3M", "5P", "7m", "9A", "11A", "13M"], "", ["13#9#11"]),
    ChordRow(["1P", "3M", "5P", "7m", "9A", "11A", "13m"], "", ["7#9#11b13"]),
    ChordRow(["1P", "3M", "5P", "7m", "9A", "13M"], "", ["13#9", "13#9_"]),
    ChordRow(["1P", "3M", "5P", "7m", "9A", "13m"], "", ["7#9b13"]),
    ChordRow(["1P", "3M", "5P", "7m", "9M", "11A"], "", ["9#11", "9+4", "9#4", "9#11_", "9#4_"]),
    ChordRow(["1P", "3M", "5P", "7m", "9M", "11A", "13M"], "", ["13#11", "13+4", "13#4"]),
    ChordRow(["1P", "3M", "5P", "7m", "9M", "11A", "13m"], "", ["9#11b13", "9b5b13"]),
    ChordRow(["1P", "3M", "5P", "7m", "9m", "11A"], "", ["7b9#11", "7b5b9"]),
    ChordRow(["1P", "3M", "5P", "7m", "9m", "11A", "13M"], "", ["13b9#11"]),
    ChordRow(["1P", "3M", "5P", "7m", "9m", "11A", "13m"], "", ["7b9b13#11", "7b9#11b13", "7b5b9b13"]),
    ChordRow(["1P", "3M", "5P", "7m", "9m", "13M"], "", ["13b9"]),
    ChordRow(["1P", "3M", "5P", "7m", "9m", "13m"], "", ["7b9b13"]),
    ChordRow(["1P", "3M", "5P", "7m", "9m", "9A"], "", ["7b9#9"]),
    ChordRow(["1P", "3M", "5P", "9M"], "", ["Madd9", "2", "add9", "add2"]),
    ChordRow(["1P", "3M", "5P", "9m"], "", ["Maddb9"]),
    ChordRow(["1P", "3M", "5d"], "", ["Mb5"]),
    ChordRow(["1P", "3M", "5d", "6M", "7m", "9M"], "", ["13b5"])
  ]

  // Legacy, part 3
  const CHORDS_LEGACY_3: seq<ChordRow> := [
    ChordRow(["1P", "3M", "5d", "7M"], "", ["M7b5"]),
    ChordRow(["1P", "3M", "5d", "7M", "9M"], "", ["M9b5"]),
    ChordRow(["1P", "3M", "5d", "7m"], "", ["7b5"]),
    ChordRow(["1P", "3M", "5d", "7m", "9M"], "", ["9b5"]),
    ChordRow(["1P", "3M", "7m"], "", ["7no5"]),
    ChordRow(["1P", "3M", "7m", "13m"], "", ["7b13"]),
    ChordRow(["1P", "3M", "7m", "9M"], "", ["9no5"]),
    ChordRow(["1P", "3M", "7m", "9M", "13M"], "", ["13no5"]),
    ChordRow(["1P", "3M", "7m", "9M", "13m"], "", ["9b13"]),
    ChordRow(["1P", "3m", "4P", "5P"], "", ["madd4"]),
    ChordRow(["1P", "3m", "5A"], "", ["m#5", "m+", "mb6"]),
    ChordRow(["1P", "3m", "5P", "6M", "9M"], "", ["m69", "_69"]),
    ChordRow(["1P", "3m", "5P", "6m", "7M"], "", ["mMaj7b6"]),
    ChordRow(["1P", "3m", "5P", "6m", "7M", "9M"], "", ["mMaj9b6"]),
    ChordRow(["1P", "3m", "5P", "7M", "9M"], "", ["mMaj9", "-Maj9"]),
    ChordRow(["1P", "3m", "5P", "7m", "11P"], "", ["m7add11", "m7add4"]),
    ChordRow(["1P", "3m", "5P", "9M"], "", ["madd9"]),
    ChordRow(["1P", "3m", "5d", "6M", "7M"], "", ["o7M7"]),
    ChordRow(["1P", "3m", "5d", "7M"], "", ["oM7"])
  ]

  // Legacy, part 4
  const CHORDS_LEGACY_4: seq<ChordRow> := [
    ChordRow(["1P", "3m", "5d", "7m"], "", ["m7b5", "half-diminished", "h7", "_7b5"]),
    ChordRow(["1P", "3m", "6m", "7M"], "", ["mb6M7"]),
    ChordRow(["1P", "3m", "6m", "7m"], "", ["m7#5"]),
    ChordRow(["1P", "3m", "6m", "7m", "9M"], "", ["m9#5"]),
    ChordRow(["1P", "3m", "6m", "7m", "9M", "11P"], "", ["m11A"]),
    ChordRow(["1P", "3m", "6m", "9m"], "", ["mb6b9"]),
    ChordRow(["1P", "3m", "7m", "12d", "2M"], "", ["m9b5", "h9", "-9b5"]),
    ChordRow(["1P", "3m", "7m", "12d", "2M", "4P"], "", ["m11b5", "h11", "_11b5"]),
    ChordRow(["1P", "4P", "5A", "7M"], "", ["M7#5sus4"]),
    ChordRow(["1P", "4P", "5A", "7M", "9M"], "", ["M9#5sus4"]),
    ChordRow(["1P", "4P", "5A", "7m"], "", ["7#5sus4"]),
    ChordRow(["1P", "4P", "5P", "7M"], "", ["M7sus4"]),
    ChordRow(["1P", "4P", "5P", "7M", "9M"], "", ["M9sus4"]),
    ChordRow(["1P", "4P", "5P", "7m", "9M"], "", ["9sus4", "9sus"]),
    ChordRow(["1P", "4P", "5P", "7m", "9M", "13M"], "", ["13sus4", "13sus"]),
    ChordRow(["1P", "4P", "5P", "7m", "9m", "13m"], "", ["7sus4b9b13", "7b9b13sus4"]),
    ChordRow(["1P", "4P", "7m", "10m"], "", ["4", "quartal"]),
    ChordRow(["1P", "5P", "7m", "9m", "11P"], "", ["11b9"])
  ]

  /** The table, in the order of the source. */
  const CHORDS: seq<ChordRow> :=
    CHORDS_MAJOR + CHORDS_MINOR + CHORDS_DIMINISHED + CHORDS_DOMINANT + CHORDS_ALTERED +
    CHORDS_SUSPENDED + CHORDS_OTHER + CHORDS_LEGACY_1 + CHORDS_LEGACY_2 + CHORDS_LEGACY_3 + CHORDS_LEGACY_4

  /** A chord type: the pitch-class set of its intervals, with the name,
      quality, intervals and aliases put over the set's own fields. */
  datatype ChordType = ChordType(empty: bool, setNum: nat, chroma: string, normalized: string,
                                 name: string, quality: string, intervals: seq<string>,
                                 aliases: seq<string>)

  /** `NoChordType`: the empty set with quality "Unknown". */
  const NO_CHORD_TYPE: ChordType :=
    ChordType(true, 0, P.EMPTY_CHROMA, P.EMPTY_CHROMA, "", "Unknown", [], [])

  /** `getQuality`. */
  function Quality(intervals: seq<string>): string
  {
    if "5A" in intervals then "Augmented"
    else if "3M" in intervals then "Major"
    else if "5d" in intervals then "Diminished"
    else if "3m" in intervals then "Minor"
    else "Unknown"
  }

  /** The interval lists `pcset` accepts without throwing. */
  predicate Addable(intervals: seq<string>)
  {
    !P.Throws(P.Names(intervals))
  }

  /** The chord type `add` builds. */
  function MakeChordType(intervals: seq<string>, aliases: seq<string>, fullName: string): ChordType
    requires Addable(intervals)
  {
    var s := P.Get(P.Names(intervals));
    ChordType(s.empty, s.setNum, s.chroma, s.normalized, fullName, Quality(intervals), intervals, aliases)
  }

  /** The set number and chroma of a chord type are those of its interval
      list: the chroma has a '1' for each pitch class an interval reaches,
      and the set number is the chroma read in binary. */
  lemma MakeChordTypeSet(intervals: seq<string>, aliases: seq<string>, fullName: string)
    requires Addable(intervals)
    ensures var c := MakeChordType(intervals, aliases, fullName);
      c.chroma == P.ListChroma(intervals) && P.IsChroma(c.chroma) &&
      c.setNum == BinaryValue(c.chroma) && c.setNum < 4096 &&
      (c.empty <==> c.chroma == P.EMPTY_CHROMA)
  {
    P.GetSetNum(P.Names(intervals));
  }

  /** Each quality is backed by the pitch class of the interval that decides
      it: an augmented chord has pitch class 8, a major one 4, a diminished
      one 6 and a minor one 3. */
  lemma QualityChroma(intervals: seq<string>)
    ensures var chroma := P.ListChroma(intervals);
      |chroma| == 12 &&
      (Quality(intervals) == "Augmented" ==> chroma[8] == '1') &&
      (Quality(intervals) == "Major" ==> chroma[4] == '1') &&
      (Quality(intervals) == "Diminished" ==> chroma[6] == '1') &&
      (Quality(intervals) == "Minor" ==> chroma[3] == '1')
  {
    if "5A" in intervals {
      AugmentedHasFifth(intervals);
    } else if "3M" in intervals {
      MajorHasThird(intervals);
    } else if "5d" in intervals {
      DiminishedHasFifth(intervals);
    } else if "3m" in intervals {
      MinorHasThird(intervals);
    }
  }

  lemma AugmentedHasFifth(intervals: seq<string>)
    requires Quality(intervals) == "Augmented"
    ensures P.ListChroma(intervals)[8] == '1'
  {
    NameOf(5, "A", "5A");
    AugmentedFifthTokens();
    QualityIntervalPresent(intervals, 5, "A", 8);
  }

  lemma MajorHasThird(intervals: seq<string>)
    requires Quality(intervals) == "Major"
    ensures P.ListChroma(intervals)[4] == '1'
  {
    NameOf(3, "M", "3M");
    MajorThirdTokens();
    QualityIntervalPresent(intervals, 3, "M", 4);
  }

  lemma DiminishedHasFifth(intervals: seq<string>)
    requires Quality(intervals) == "Diminished"
    ensures P.ListChroma(intervals)[6] == '1'
  {
    NameOf(5, "d", "5d");
    DiminishedFifthTokens();
    QualityIntervalPresent(intervals, 5, "d", 6);
  }

  lemma MinorHasThird(intervals: seq<string>)
    requires Quality(intervals) == "Minor"
    ensures P.ListChroma(intervals)[3] == '1'
  {
    NameOf(3, "m", "3m");
    MinorThirdTokens();
    QualityIntervalPresent(intervals, 3, "m", 3);
  }

  // The pitch classes of the four intervals the quality looks for.

  lemma NameOf(n: nat, q: string, name: string)
    requires n < 10 && |q| == 1 && name == [DigitChar(n)] + q
    ensures IntToString(n) + q == name
  {}

  lemma AugmentedFifthTokens()
    ensures var i := I.FromTokens(I.Tokens(IntToString(5), "A")); i.Interval? && i.chroma == 8
  {}

  lemma MajorThirdTokens()
    ensures var i := I.FromTokens(I.Tokens(IntToString(3), "M")); i.Interval? && i.chroma == 4
  {}

  lemma DiminishedFifthTokens()
    ensures var i := I.FromTokens(I.Tokens(IntToString(5), "d")); i.Interval? && i.chroma == 6
  {}

  lemma MinorThirdTokens()
    ensures var i := I.FromTokens(I.Tokens(IntToString(3), "m")); i.Interval? && i.chroma == 3
  {}

  /** An interval named by number `n` and quality `q` puts its pitch class
      into the chroma of any list that holds it. */
  lemma QualityIntervalPresent(intervals: seq<string>, n: int, q: string, pc: int)
    requires n >= 1 && I.QualityFits(I.TYPES[(n - 1) % 7], q) && 0 <= pc < 12
    requires IntToString(n) + q in intervals
    requires var i := I.FromTokens(I.Tokens(IntToString(n), q)); i.Interval? && i.chroma == pc
    ensures P.ListChroma(intervals)[pc] == '1'
  {
    var ivl := IntToString(n) + q;
    P.IntervalNameChroma(ivl, n, q);
    IntervalPresent(intervals, ivl, pc);
  }

  lemma IntervalPresent(intervals: seq<string>, ivl: string, pc: int)
    requires ivl in intervals && 0 <= pc < 12 && P.NameChroma(ivl) == Some(pc)
    ensures P.ListChroma(intervals)[pc] == '1'
  {
    var j :| 0 <= j < |intervals| && intervals[j] == ivl;
    P.ListChromaMembers(intervals, pc);
  }

  /** The keys `add` writes for a chord type, in the order it writes them:
      the full name unless it is empty, the set number, the chroma and then
      the aliases. */
  function KeysOf(c: ChordType): seq<string>
  {
    (if c.name != "" then [c.name] else []) + [NatToString(c.setNum), c.chroma] + c.aliases
  }

  /** The index after adding `c`. */
  function Indexed(index: map<string, ChordType>, c: ChordType): map<string, ChordType>
  {
    K.WriteAll(index, KeysOf(c), c)
  }

  /** The index after adding `entries` in order to `index`. */
  function AddedAll(index: map<string, ChordType>, entries: seq<ChordType>): map<string, ChordType>
  {
    K.AddedAll(index, entries, KeysOf)
  }

  /** `index[type] || NoChordType`. */
  function Lookup(index: map<string, ChordType>, name: string): ChordType
  {
    if name in index then index[name] else NO_CHORD_TYPE
  }

  /** After `add`, each key of the new type finds it and every other key
      finds what it found before. */
  lemma IndexedLookup(index: map<string, ChordType>, c: ChordType, k: string)
    ensures k in KeysOf(c) ==> Lookup(Indexed(index, c), k) == c
    ensures k !in KeysOf(c) ==> Lookup(Indexed(index, c), k) == Lookup(index, k)
  {
    K.WriteAllMeaning(index, KeysOf(c), c);
  }

  /** The chord type `add` builds for a row of the table. */
  function RowType(r: ChordRow): ChordType
  {
    MakeChordType(r.intervals, r.names, r.fullName)
  }

  /** The chord types of the rows, in order. */
  function RowTypes(rows: seq<ChordRow>): (es: seq<ChordType>)
    ensures |es| == |rows|
  {
    seq(|rows|, k requires 0 <= k < |rows| => RowType(rows[k]))
  }

  // Keys of the seeded dictionary

  /** The keys a row contributes through its text: its full name when there
      is one, and its aliases. */
  function NameKeys(r: ChordRow): seq<string>
  {
    (if r.fullName != "" then [r.fullName] else []) + r.names
  }

  lemma TextKeyOf(c: ChordType, k: string)
    requires K.TextKey(k) && P.IsChroma(c.chroma)
    ensures k in KeysOf(c) <==> k in (if c.name != "" then [c.name] else []) + c.aliases
  {
    K.TextKeyNotNumeric(k, c.setNum, c.chroma);
  }

  /** The fields of a row's chord type that come from the row itself. */
  lemma RowTypeText(r: ChordRow)
    ensures var c := RowType(r);
      c.name == r.fullName && c.aliases == r.names && c.intervals == r.intervals &&
      c.quality == Quality(r.intervals) && P.IsChroma(c.chroma) &&
      (c.empty <==> c.chroma == P.EMPTY_CHROMA)
  {
    MakeChordTypeSet(r.intervals, r.names, r.fullName);
  }

  lemma RowKeys(r: ChordRow, k: string)
    requires K.TextKey(k)
    ensures k in KeysOf(RowType(r)) <==> k in NameKeys(r)
  {
    RowTypeText(r);
    TextKeyOf(RowType(r), k);
  }

  /** Seeding the dictionary from `rows`, a text key looks up the chord type
      of the last row that names it. */
  lemma {:induction false} SeededTextKey(rows: seq<ChordRow>, k: string, i: int)
    requires K.TextKey(k) && 0 <= i < |rows| && k in NameKeys(rows[i])
    requires forall j :: i < j < |rows| ==> k !in NameKeys(rows[j])
    ensures var c := Lookup(AddedAll(map[], RowTypes(rows)), k);
      c == RowType(rows[i]) &&
      c.name == rows[i].fullName && c.aliases == rows[i].names && c.intervals == rows[i].intervals &&
      c.quality == Quality(rows[i].intervals)
  {
    var es := RowTypes(rows);
    RowKeys(rows[i], k);
    forall j | i < j < |es|
      ensures k !in KeysOf(es[j])
    {
      RowKeys(rows[j], k);
    }
    K.LastWins(map[], es, KeysOf, k, i);
    RowTypeText(rows[i]);
  }

  /** Seeding the dictionary from `rows`, a text key no row names is absent. */
  lemma SeededTextKeyAbsent(rows: seq<ChordRow>, k: string)
    requires K.TextKey(k)
    requires forall j :: 0 <= j < |rows| ==> k !in NameKeys(rows[j])
    ensures Lookup(AddedAll(map[], RowTypes(rows)), k) == NO_CHORD_TYPE
  {
    var es := RowTypes(rows);
    forall j | 0 <= j < |es|
      ensures k !in KeysOf(es[j])
    {
      RowKeys(rows[j], k);
    }
    K.NoEntryHas(map[], es, KeysOf, k);
  }

  /** No row of `rows` from position `from` on has `k` among its name keys. */
  predicate Free(rows: seq<ChordRow>, k: string, from: nat)
  {
    forall j :: from <= j < |rows| ==> k !in NameKeys(rows[j])
  }

  lemma FreeAppend(a: seq<ChordRow>, b: seq<ChordRow>, k: string, from: nat)
    requires from <= |a| && Free(a, k, from) && Free(b, k, 0)
    ensures Free(a + b, k, from)
  {
    forall j | from <= j < |a + b|
      ensures k !in NameKeys((a + b)[j])
    {
      if j >= |a| {
        assert (a + b)[j] == b[j - |a|];
      }
    }
  }

  /** Row 91 of the table (js/app.js:304), the first of the last part, is
      the last to name "m7b5" or "half-diminished"; its full name is empty. */
  lemma HalfDiminishedRows(rows: seq<ChordRow>)
    requires rows == CHORDS
    ensures |rows| == 109
    ensures rows[91] == ChordRow(["1P", "3m", "5d", "7m"], "", ["m7b5", "half-diminished", "h7", "_7b5"])
    ensures Free(rows, "m7b5", 92) && Free(rows, "half-diminished", 92)
  {
    var prefix := CHORDS_MAJOR + CHORDS_MINOR + CHORDS_DIMINISHED + CHORDS_DOMINANT + CHORDS_ALTERED + CHORDS_SUSPENDED + CHORDS_OTHER + CHORDS_LEGACY_1 + CHORDS_LEGACY_2 + CHORDS_LEGACY_3;
    PrefixLength(prefix);
    assert rows == prefix + CHORDS_LEGACY_4;
    assert rows[91] == CHORDS_LEGACY_4[0];
    Legacy4Tail();
    FreeShift(prefix, CHORDS_LEGACY_4, "m7b5", 1);
    FreeShift(prefix, CHORDS_LEGACY_4, "half-diminished", 1);
  }

  lemma PrefixLength(prefix: seq<ChordRow>)
    requires prefix == CHORDS_MAJOR + CHORDS_MINOR + CHORDS_DIMINISHED + CHORDS_DOMINANT + CHORDS_ALTERED + CHORDS_SUSPENDED + CHORDS_OTHER + CHORDS_LEGACY_1 + CHORDS_LEGACY_2 + CHORDS_LEGACY_3
    ensures |prefix| == 91
  {}

  /** No row of the last part after its first names "m7b5" or "half-diminished". */
  lemma Legacy4Tail()
    ensures Free(CHORDS_LEGACY_4, "m7b5", 1) && Free(CHORDS_LEGACY_4, "half-diminished", 1)
  {
    Legacy4TailLow();
    Legacy4TailHigh();
  }

  lemma Legacy4TailLow()
    ensures forall j :: 1 <= j < 9 ==> "m7b5" !in NameKeys(CHORDS_LEGACY_4[j]) && "half-diminished" !in NameKeys(CHORDS_LEGACY_4[j])
  {
    forall j | 1 <= j < 9
      ensures "m7b5" !in NameKeys(CHORDS_LEGACY_4[j]) && "half-diminished" !in NameKeys(CHORDS_LEGACY_4[j])
    {
      assert j == 1 || j == 2 || j == 3 || j == 4 || j == 5 || j == 6 || j == 7 || j == 8;
    }
  }

  lemma Legacy4TailHigh()
    ensures forall j :: 9 <= j < |CHORDS_LEGACY_4| ==> "m7b5" !in NameKeys(CHORDS_LEGACY_4[j]) && "half-diminished" !in NameKeys(CHORDS_LEGACY_4[j])
  {
    forall j | 9 <= j < |CHORDS_LEGACY_4|
      ensures "m7b5" !in NameKeys(CHORDS_LEGACY_4[j]) && "half-diminished" !in NameKeys(CHORDS_LEGACY_4[j])
    {
      assert j == 9 || j == 10 || j == 11 || j == 12 || j == 13 || j == 14 || j == 15 || j == 16 || j == 17;
    }
  }

  lemma FreeShift(a: seq<ChordRow>, b: seq<ChordRow>, k: string, from: nat)
    requires Free(b, k, from)
    ensures Free(a + b, k, |a| + from)
  {
    forall j | |a| + from <= j < |a + b|
      ensures k !in NameKeys((a + b)[j])
    {
      assert (a + b)[j] == b[j - |a|];
    }
  }

  /** Row 0 of the table (js/app.js:204) is the only one with the empty
      alias (from splitting "M ") and the only one with the alias "M". */
  lemma MajorRows(rows: seq<ChordRow>)
    requires rows == CHORDS
    ensures |rows| == 109
    ensures rows[0] == ChordRow(["1P", "3M", "5P"], "major", ["M", ""])
    ensures Free(rows, "", 1) && Free(rows, "M", 1)
  {
    MajorFreeThrough10();
    assert rows[0] == CHORDS_MAJOR[0];
  }

  /** Only the first row of the major group has "" or "M" among its keys. */
  lemma MajorFreeThrough0()
    ensures Free(CHORDS_MAJOR, "", 1) && Free(CHORDS_MAJOR, "M", 1)
  {
    forall j | 1 <= j < |CHORDS_MAJOR|
      ensures "" !in NameKeys(CHORDS_MAJOR[j]) && "M" !in NameKeys(CHORDS_MAJOR[j])
    {
      assert j == 1 || j == 2 || j == 3 || j == 4 || j == 5 || j == 6 || j == 7;
    }
  }

  lemma MajorFreeThrough1()
    ensures Free(CHORDS_MAJOR + CHORDS_MINOR, "", 1) && Free(CHORDS_MAJOR + CHORDS_MINOR, "M", 1)
  {
    MajorFreeThrough0();
    MinorFree();
    FreeAppend(CHORDS_MAJOR, CHORDS_MINOR, "", 1);
    FreeAppend(CHORDS_MAJOR, CHORDS_MINOR, "M", 1);
  }

  lemma MajorFreeThrough2()
    ensures Free(CHORDS_MAJOR + CHORDS_MINOR + CHORDS_DIMINISHED, "", 1) && Free(CHORDS_MAJOR + CHORDS_MINOR + CHORDS_DIMINISHED, "M", 1)
  {
    MajorFreeThrough1();
    DiminishedFree();
    FreeAppend(CHORDS_MAJOR + CHORDS_MINOR, CHORDS_DIMINISHED, "", 1);
    FreeAppend(CHORDS_MAJOR + CHORDS_MINOR, CHORDS_DIMINISHED, "M", 1);
  }

  lemma MajorFreeThrough3()
    ensures Free(CHORDS_MAJOR + CHORDS_MINOR + CHORDS_DIMINISHED + CHORDS_DOMINANT, "", 1) && Free(CHORDS_MAJOR + CHORDS_MINOR + CHORDS_DIMINISHED + CHORDS_DOMINANT, "M", 1)
  {
    MajorFreeThrough2();
    DominantFree();
    FreeAppend(CHORDS_MAJOR + CHORDS_MINOR + CHORDS_DIMINISHED, CHORDS_DOMINANT, "", 1);
    FreeAppend(CHORDS_MAJOR + CHORDS_MINOR + CHORDS_DIMINISHED, CHORDS_DOMINANT, "M", 1);
  }

  lemma MajorFreeThrough4()
    ensures Free(CHORDS_MAJOR + CHORDS_MINOR + CHORDS_DIMINISHED + CHORDS_DOMINANT + CHORDS_ALTERED, "", 1) && Free(CHORDS_MAJOR + CHORDS_MINOR + CHORDS_DIMINISHED + CHORDS_DOMINANT + CHORDS_ALTERED, "M", 1)
  {
    MajorFreeThrough3();
    AlteredFree();
    FreeAppend(CHORDS_MAJOR + CHORDS_MINOR + CHORDS_DIMINISHED + CHORDS_DOMINANT, CHORDS_ALTERED, "", 1);
    FreeAppend(CHORDS_MAJOR + CHORDS_MINOR + CHORDS_DIMINISHED + CHORDS_DOMINANT, CHORDS_ALTERED, "M", 1);
  }

  lemma MajorFreeThrough5()
    ensures Free(CHORDS_MAJOR + CHORDS_MINOR + CHORDS_DIMINISHED + CHORDS_DOMINANT + CHORDS_ALTERED + CHORDS_SUSPENDED, "", 1) && Free(CHORDS_MAJOR + CHORDS_MINOR + CHORDS_DIMINISHED + CHORDS_DOMINANT + CHORDS_ALTERED + CHORDS_SUSPENDED, "M", 1)
  {
    MajorFreeThrough4();
    SuspendedFree();
    FreeAppend(CHORDS_MAJOR + CHORDS_MINOR + CHORDS_DIMINISHED + CHORDS_DOMINANT + CHORDS_ALTERED, CHORDS_SUSPENDED, "", 1);
    FreeAppend(CHORDS_MAJOR + CHORDS_MINOR + CHORDS_DIMINISHED + CHORDS_DOMINANT + CHORDS_ALTERED, CHORDS_SUSPENDED, "M", 1);
  }

  lemma MajorFreeThrough6()
    ensures Free(CHORDS_MAJOR + CHORDS_MINOR + CHORDS_DIMINISHED + CHORDS_DOMINANT + CHORDS_ALTERED + CHORDS_SUSPENDED + CHORDS_OTHER, "", 1) && Free(CHORDS_MAJOR + CHORDS_MINOR + CHORDS_DIMINISHED + CHORDS_DOMINANT + CHORDS_ALTERED + CHORDS_SUSPENDED + CHORDS_OTHER, "M", 1)
  {
    MajorFreeThrough5();
    OtherFree();
    FreeAppend(CHORDS_MAJOR + CHORDS_MINOR + CHORDS_DIMINISHED + CHORDS_DOMINANT + CHORDS_ALTERED + CHORDS_SUSPENDED, CHORDS_OTHER, "", 1);
    FreeAppend(CHORDS_MAJOR + CHORDS_MINOR + CHORDS_DIMINISHED + CHORDS_DOMINANT + CHORDS_ALTERED + CHORDS_SUSPENDED, CHORDS_OTHER, "M", 1);
  }

  lemma MajorFreeThrough7()
    ensures Free(CHORDS_MAJOR + CHORDS_MINOR + CHORDS_DIMINISHED + CHORDS_DOMINANT + CHORDS_ALTERED + CHORDS_SUSPENDED + CHORDS_OTHER + CHORDS_LEGACY_1, "", 1) && Free(CHORDS_MAJOR + CHORDS_MINOR + CHORDS_DIMINISHED + CHORDS_DOMINANT + CHORDS_ALTERED + CHORDS_SUSPENDED + CHORDS_OTHER + CHORDS_LEGACY_1, "M", 1)
  {
    MajorFreeThrough6();
    Legacy1Free();
    FreeAppend(CHORDS_MAJOR + CHORDS_MINOR + CHORDS_DIMINISHED + CHORDS_DOMINANT + CHORDS_ALTERED + CHORDS_SUSPENDED + CHORDS_OTHER, CHORDS_LEGACY_1, "", 1);
    FreeAppend(CHORDS_MAJOR + CHORDS_MINOR + CHORDS_DIMINISHED + CHORDS_DOMINANT + CHORDS_ALTERED + CHORDS_SUSPENDED + CHORDS_OTHER, CHORDS_LEGACY_1, "M", 1);
  }

  lemma MajorFreeThrough8()
    ensures Free(CHORDS_MAJOR + CHORDS_MINOR + CHORDS_DIMINISHED + CHORDS_DOMINANT + CHORDS_ALTERED + CHORDS_SUSPENDED + CHORDS_OTHER + CHORDS_LEGACY_1 + CHORDS_LEGACY_2, "", 1) && Free(CHORDS_MAJOR + CHORDS_MINOR + CHORDS_DIMINISHED + CHORDS_DOMINANT + CHORDS_ALTERED + CHORDS_SUSPENDED + CHORDS_OTHER + CHORDS_LEGACY_1 + CHORDS_LEGACY_2, "M", 1)
  {
    MajorFreeThrough7();
    Legacy2Free();
    FreeAppend(CHORDS_MAJOR + CHORDS_MINOR + CHORDS_DIMINISHED + CHORDS_DOMINANT + CHORDS_ALTERED + CHORDS_SUSPENDED + CHORDS_OTHER + CHORDS_LEGACY_1, CHORDS_LEGACY_2, "", 1);
    FreeAppend(CHORDS_MAJOR + CHORDS_MINOR + CHORDS_DIMINISHED + CHORDS_DOMINANT + CHORDS_ALTERED + CHORDS_SUSPENDED + CHORDS_OTHER + CHORDS_LEGACY_1, CHORDS_LEGACY_2, "M", 1);
  }

  lemma MajorFreeThrough9()
    ensures Free(CHORDS_MAJOR + CHORDS_MINOR + CHORDS_DIMINISHED + CHORDS_DOMINANT + CHORDS_ALTERED + CHORDS_SUSPENDED + CHORDS_OTHER + CHORDS_LEGACY_1 + CHORDS_LEGACY_2 + CHORDS_LEGACY_3, "", 1) && Free(CHORDS_MAJOR + CHORDS_MINOR + CHORDS_DIMINISHED + CHORDS_DOMINANT + CHORDS_ALTERED + CHORDS_SUSPENDED + CHORDS_OTHER + CHORDS_LEGACY_1 + CHORDS_LEGACY_2 + CHORDS_LEGACY_3, "M", 1)
  {
    MajorFreeThrough8();
    Legacy3Free();
    FreeAppend(CHORDS_MAJOR + CHORDS_MINOR + CHORDS_DIMINISHED + CHORDS_DOMINANT + CHORDS_ALTERED + CHORDS_SUSPENDED + CHORDS_OTHER + CHORDS_LEGACY_1 + CHORDS_LEGACY_2, CHORDS_LEGACY_3, "", 1);
    FreeAppend(CHORDS_MAJOR + CHORDS_MINOR + CHORDS_DIMINISHED + CHORDS_DOMINANT + CHORDS_ALTERED + CHORDS_SUSPENDED + CHORDS_OTHER + CHORDS_LEGACY_1 + CHORDS_LEGACY_2, CHORDS_LEGACY_3, "M", 1);
  }

  lemma MajorFreeThrough10()
    ensures Free(CHORDS_MAJOR + CHORDS_MINOR + CHORDS_DIMINISHED + CHORDS_DOMINANT + CHORDS_ALTERED + CHORDS_SUSPENDED + CHORDS_OTHER + CHORDS_LEGACY_1 + CHORDS_LEGACY_2 + CHORDS_LEGACY_3 + CHORDS_LEGACY_4, "", 1) && Free(CHORDS_MAJOR + CHORDS_MINOR + CHORDS_DIMINISHED + CHORDS_DOMINANT + CHORDS_ALTERED + CHORDS_SUSPENDED + CHORDS_OTHER + CHORDS_LEGACY_1 + CHORDS_LEGACY_2 + CHORDS_LEGACY_3 + CHORDS_LEGACY_4, "M", 1)
  {
    MajorFreeThrough9();
    Legacy4Free();
    FreeAppend(CHORDS_MAJOR + CHORDS_MINOR + CHORDS_DIMINISHED + CHORDS_DOMINANT + CHORDS_ALTERED + CHORDS_SUSPENDED + CHORDS_OTHER + CHORDS_LEGACY_1 + CHORDS_LEGACY_2 + CHORDS_LEGACY_3, CHORDS_LEGACY_4, "", 1);
    FreeAppend(CHORDS_MAJOR + CHORDS_MINOR + CHORDS_DIMINISHED + CHORDS_DOMINANT + CHORDS_ALTERED + CHORDS_SUSPENDED + CHORDS_OTHER + CHORDS_LEGACY_1 + CHORDS_LEGACY_2 + CHORDS_LEGACY_3, CHORDS_LEGACY_4, "M", 1);
  }

  lemma MinorFree()
    ensures Free(CHORDS_MINOR, "", 0) && Free(CHORDS_MINOR, "M", 0)
  {
    forall j | 0 <= j < |CHORDS_MINOR|
      ensures "" !in NameKeys(CHORDS_MINOR[j]) && "M" !in NameKeys(CHORDS_MINOR[j])
    {
      assert j == 0 || j == 1 || j == 2 || j == 3 || j == 4 || j == 5 || j == 6;
    }
  }

  lemma DiminishedFree()
    ensures Free(CHORDS_DIMINISHED, "", 0) && Free(CHORDS_DIMINISHED, "M", 0)
  {
    forall j | 0 <= j < |CHORDS_DIMINISHED|
      ensures "" !in NameKeys(CHORDS_DIMINISHED[j]) && "M" !in NameKeys(CHORDS_DIMINISHED[j])
    {
      assert j == 0 || j == 1 || j == 2;
    }
  }

  lemma DominantFree()
    ensures Free(CHORDS_DOMINANT, "", 0) && Free(CHORDS_DOMINANT, "M", 0)
  {
    forall j | 0 <= j < |CHORDS_DOMINANT|
      ensures "" !in NameKeys(CHORDS_DOMINANT[j]) && "M" !in NameKeys(CHORDS_DOMINANT[j])
    {
      assert j == 0 || j == 1 || j == 2 || j == 3;
    }
  }

  lemma AlteredFree()
    ensures Free(CHORDS_ALTERED, "", 0) && Free(CHORDS_ALTERED, "M", 0)
  {
    forall j | 0 <= j < |CHORDS_ALTERED|
      ensures "" !in NameKeys(CHORDS_ALTERED[j]) && "M" !in NameKeys(CHORDS_ALTERED[j])
    {
      assert j == 0 || j == 1 || j == 2;
    }
  }

  lemma SuspendedFree()
    ensures Free(CHORDS_SUSPENDED, "", 0) && Free(CHORDS_SUSPENDED, "M", 0)
  {
    forall j | 0 <= j < |CHORDS_SUSPENDED|
      ensures "" !in NameKeys(CHORDS_SUSPENDED[j]) && "M" !in NameKeys(CHORDS_SUSPENDED[j])
    {
      assert j == 0 || j == 1 || j == 2 || j == 3 || j == 4;
    }
  }

  lemma OtherFree()
    ensures Free(CHORDS_OTHER, "", 0) && Free(CHORDS_OTHER, "M", 0)
  {
    forall j | 0 <= j < |CHORDS_OTHER|
      ensures "" !in NameKeys(CHORDS_OTHER[j]) && "M" !in NameKeys(CHORDS_OTHER[j])
    {
      assert j == 0 || j == 1 || j == 2 || j == 3;
    }
  }

  lemma Legacy1Free()
    ensures Free(CHORDS_LEGACY_1, "", 0) && Free(CHORDS_LEGACY_1, "M", 0)
  {
    Legacy1FreeLow();
    Legacy1FreeHigh();
  }

  lemma Legacy1FreeLow()
    ensures forall j :: 0 <= j < 9 ==> "" !in NameKeys(CHORDS_LEGACY_1[j]) && "M" !in NameKeys(CHORDS_LEGACY_1[j])
  {
    forall j | 0 <= j < 9
      ensures "" !in NameKeys(CHORDS_LEGACY_1[j]) && "M" !in NameKeys(CHORDS_LEGACY_1[j])
    {
      assert j == 0 || j == 1 || j == 2 || j == 3 || j == 4 || j == 5 || j == 6 || j == 7 || j == 8;
    }
  }

  lemma Legacy1FreeHigh()
    ensures forall j :: 9 <= j < |CHORDS_LEGACY_1| ==> "" !in NameKeys(CHORDS_LEGACY_1[j]) && "M" !in NameKeys(CHORDS_LEGACY_1[j])
  {
    forall j | 9 <= j < |CHORDS_LEGACY_1|
      ensures "" !in NameKeys(CHORDS_LEGACY_1[j]) && "M" !in NameKeys(CHORDS_LEGACY_1[j])
    {
      assert j == 9 || j == 10 || j == 11 || j == 12 || j == 13 || j == 14 || j == 15 || j == 16 || j == 17 || j == 18;
    }
  }

  lemma Legacy2Free()
    ensures Free(CHORDS_LEGACY_2, "", 0) && Free(CHORDS_LEGACY_2, "M", 0)
  {
    Legacy2FreeLow();
    Legacy2FreeHigh();
  }

  lemma Legacy2FreeLow()
    ensures forall j :: 0 <= j < 9 ==> "" !in NameKeys(CHORDS_LEGACY_2[j]) && "M" !in NameKeys(CHORDS_LEGACY_2[j])
  {
    forall j | 0 <= j < 9
      ensures "" !in NameKeys(CHORDS_LEGACY_2[j]) && "M" !in NameKeys(CHORDS_LEGACY_2[j])
    {
      assert j == 0 || j == 1 || j == 2 || j == 3 || j == 4 || j == 5 || j == 6 || j == 7 || j == 8;
    }
  }

  lemma Legacy2FreeHigh()
    ensures forall j :: 9 <= j < |CHORDS_LEGACY_2| ==> "" !in NameKeys(CHORDS_LEGACY_2[j]) && "M" !in NameKeys(CHORDS_LEGACY_2[j])
  {
    forall j | 9 <= j < |CHORDS_LEGACY_2|
      ensures "" !in NameKeys(CHORDS_LEGACY_2[j]) && "M" !in NameKeys(CHORDS_LEGACY_2[j])
    {
      assert j == 9 || j == 10 || j == 11 || j == 12 || j == 13 || j == 14 || j == 15 || j == 16 || j == 17 || j == 18;
    }
  }

  lemma Legacy3Free()
    ensures Free(CHORDS_LEGACY_3, "", 0) && Free(CHORDS_LEGACY_3, "M", 0)
  {
    Legacy3FreeLow();
    Legacy3FreeHigh();
  }

  lemma Legacy3FreeLow()
    ensures forall j :: 0 <= j < 9 ==> "" !in NameKeys(CHORDS_LEGACY_3[j]) && "M" !in NameKeys(CHORDS_LEGACY_3[j])
  {
    forall j | 0 <= j < 9
      ensures "" !in NameKeys(CHORDS_LEGACY_3[j]) && "M" !in NameKeys(CHORDS_LEGACY_3[j])
    {
      assert j == 0 || j == 1 || j == 2 || j == 3 || j == 4 || j == 5 || j == 6 || j == 7 || j == 8;
    }
  }

  lemma Legacy3FreeHigh()
    ensures forall j :: 9 <= j < |CHORDS_LEGACY_3| ==> "" !in NameKeys(CHORDS_LEGACY_3[j]) && "M" !in NameKeys(CHORDS_LEGACY_3[j])
  {
    forall j | 9 <= j < |CHORDS_LEGACY_3|
      ensures "" !in NameKeys(CHORDS_LEGACY_3[j]) && "M" !in NameKeys(CHORDS_LEGACY_3[j])
    {
      assert j == 9 || j == 10 || j == 11 || j == 12 || j == 13 || j == 14 || j == 15 || j == 16 || j == 17 || j == 18;
    }
  }

  lemma Legacy4Free()
    ensures Free(CHORDS_LEGACY_4, "", 0) && Free(CHORDS_LEGACY_4, "M", 0)
  {
    Legacy4FreeLow();
    Legacy4FreeHigh();
  }

  lemma Legacy4FreeLow()
    ensures forall j :: 0 <= j < 9 ==> "" !in NameKeys(CHORDS_LEGACY_4[j]) && "M" !in NameKeys(CHORDS_LEGACY_4[j])
  {
    forall j | 0 <= j < 9
      ensures "" !in NameKeys(CHORDS_LEGACY_4[j]) && "M" !in NameKeys(CHORDS_LEGACY_4[j])
    {
      assert j == 0 || j == 1 || j == 2 || j == 3 || j == 4 || j == 5 || j == 6 || j == 7 || j == 8;
    }
  }

  lemma Legacy4FreeHigh()
    ensures forall j :: 9 <= j < |CHORDS_LEGACY_4| ==> "" !in NameKeys(CHORDS_LEGACY_4[j]) && "M" !in NameKeys(CHORDS_LEGACY_4[j])
  {
    forall j | 9 <= j < |CHORDS_LEGACY_4|
      ensures "" !in NameKeys(CHORDS_LEGACY_4[j]) && "M" !in NameKeys(CHORDS_LEGACY_4[j])
    {
      assert j == 9 || j == 10 || j == 11 || j == 12 || j == 13 || j == 14 || j == 15 || j == 16 || j == 17;
    }
  }

  /** After seeding, "m7b5" and "half-diminished" both find the unnamed
      entry of row 91, which overwrites the "half-diminished" chord type of
      row 17 under its own full name. */
  lemma SeededHalfDiminished(rows: seq<ChordRow>)
    requires rows == CHORDS
    ensures var c := Lookup(AddedAll(map[], RowTypes(rows)), "m7b5");
      c.name == "" && c.intervals == ["1P", "3m", "5d", "7m"] && c.quality == "Diminished" &&
      c.aliases == ["m7b5", "half-diminished", "h7", "_7b5"]
    ensures Lookup(AddedAll(map[], RowTypes(rows)), "half-diminished").name == ""
  {
    HalfDiminishedRows(rows);
    var r := rows[91];
    assert Quality(r.intervals) == "Diminished";
    assert !IsDigit("m7b5"[0]) && !IsDigit("half-diminished"[0]);
    SeededTextKey(rows, "m7b5", 91);
    SeededTextKey(rows, "half-diminished", 91);
  }

  /** After seeding, the empty chord type name and "M" find the major triad. */
  lemma SeededMajor(rows: seq<ChordRow>)
    requires rows == CHORDS
    ensures var c := Lookup(AddedAll(map[], RowTypes(rows)), "");
      c.name == "major" && c.intervals == ["1P", "3M", "5P"] && c.quality == "Major" &&
      c.aliases == ["M", ""] && !c.empty
    ensures Lookup(AddedAll(map[], RowTypes(rows)), "M").name == "major"
  {
    MajorRows(rows);
    FirstNamedBy(rows);
  }

  lemma FirstNamedBy(rows: seq<ChordRow>)
    requires |rows| > 0 && rows[0] == ChordRow(["1P", "3M", "5P"], "major", ["M", ""])
    requires Free(rows, "", 1) && Free(rows, "M", 1)
    ensures var c := Lookup(AddedAll(map[], RowTypes(rows)), "");
      c.name == "major" && c.intervals == ["1P", "3M", "5P"] && c.quality == "Major" &&
      c.aliases == ["M", ""] && !c.empty
    ensures Lookup(AddedAll(map[], RowTypes(rows)), "M").name == "major"
  {
    assert !IsDigit("M"[0]);
    var r := rows[0];
    MajorQuality(r);
    KnownQualityNotEmpty(r);
    SeededTextKey(rows, "", 0);
    SeededTextKey(rows, "M", 0);
  }

  lemma MajorQuality(r: ChordRow)
    requires r.intervals == ["1P", "3M", "5P"]
    ensures Quality(r.intervals) == "Major"
  {
    assert r.intervals[1] == "3M";
  }

  /** A row whose quality is known reaches a pitch class, so its chord type
      is not the empty set. */
  lemma KnownQualityNotEmpty(r: ChordRow)
    requires Quality(r.intervals) != "Unknown"
    ensures !RowType(r).empty
  {
    MakeChordTypeSet(r.intervals, r.names, r.fullName);
    KnownQualityChroma(r.intervals);
  }

  lemma KnownQualityChroma(intervals: seq<string>)
    requires Quality(intervals) != "Unknown"
    ensures P.ListChroma(intervals) != P.EMPTY_CHROMA
  {
    var c := P.ListChroma(intervals);
    if "5A" in intervals {
      AugmentedHasFifth(intervals);
      MarkedNotEmpty(c, 8);
    } else if "3M" in intervals {
      MajorHasThird(intervals);
      MarkedNotEmpty(c, 4);
    } else if "5d" in intervals {
      DiminishedHasFifth(intervals);
      MarkedNotEmpty(c, 6);
    } else {
      MinorHasThird(intervals);
      MarkedNotEmpty(c, 3);
    }
  }

  lemma MarkedNotEmpty(c: string, k: int)
    requires 0 <= k < |c| && c[k] == '1'
    ensures c != P.EMPTY_CHROMA
  {}

  // The sort

  predicate SortedBySetNum(s: seq<ChordType>)
  {
    forall i, j :: 0 <= i < j < |s| ==> s[i].setNum <= s[j].setNum
  }

  /** Puts `c` after every entry whose set number is not greater. */
  function InsertBySetNum(c: ChordType, sorted: seq<ChordType>): seq<ChordType>
  {
    if |sorted| == 0 then [c]
    else if c.setNum < sorted[0].setNum then [c] + sorted
    else [sorted[0]] + InsertBySetNum(c, sorted[1..])
  }

  /** `sort((a, b) => a.setNum - b.setNum)`, which is stable: a stable
      insertion sort. */
  function SortBySetNum(s: seq<ChordType>): seq<ChordType>
  {
    if |s| == 0 then [] else InsertBySetNum(s[|s| - 1], SortBySetNum(s[..|s| - 1]))
  }

  lemma {:induction false} InsertBySetNumMembers(c: ChordType, sorted: seq<ChordType>)
    ensures multiset(InsertBySetNum(c, sorted)) == multiset(sorted) + multiset{c}
  {
    if |sorted| > 0 && c.setNum >= sorted[0].setNum {
      InsertBySetNumMembers(c, sorted[1..]);
      assert sorted == [sorted[0]] + sorted[1..];
    }
  }

  predicate LowerBound(b: nat, s: seq<ChordType>)
  {
    forall j :: 0 <= j < |s| ==> b <= s[j].setNum
  }

  lemma {:induction false} InsertBySetNumBound(b: nat, c: ChordType, s: seq<ChordType>)
    requires LowerBound(b, s) && b <= c.setNum
    ensures LowerBound(b, InsertBySetNum(c, s))
  {
    if |s| > 0 && c.setNum >= s[0].setNum {
      InsertBySetNumBound(b, c, s[1..]);
    }
  }

  lemma {:induction false} InsertBySetNumSorted(c: ChordType, sorted: seq<ChordType>)
    requires SortedBySetNum(sorted)
    ensures SortedBySetNum(InsertBySetNum(c, sorted))
  {
    if |sorted| > 0 && c.setNum >= sorted[0].setNum {
      var rest := InsertBySetNum(c, sorted[1..]);
      InsertBySetNumSorted(c, sorted[1..]);
      InsertBySetNumBound(sorted[0].setNum, c, sorted[1..]);
      var r := [sorted[0]] + rest;
      forall i, j | 0 <= i < j < |r|
        ensures r[i].setNum <= r[j].setNum
      {
        assert r[j] == rest[j - 1];
        if i > 0 {
          assert r[i] == rest[i - 1];
        }
      }
    }
  }

  /** The sorted list is ordered by set number and holds the same entries. */
  lemma {:induction false} SortBySetNumSorted(s: seq<ChordType>)
    ensures SortedBySetNum(SortBySetNum(s))
    ensures multiset(SortBySetNum(s)) == multiset(s)
  {
    if |s| > 0 {
      var init := s[..|s| - 1];
      SortBySetNumSorted(init);
      InsertBySetNumSorted(s[|s| - 1], SortBySetNum(init));
      InsertBySetNumMembers(s[|s| - 1], SortBySetNum(init));
      assert s == init + [s[|s| - 1]];
    }
  }

  /** The dictionary's globals: the list of entries and the index. */
  class Dictionary {
    var chords: seq<ChordType>
    var index: map<string, ChordType>

    /** Module initialisation: every row of the table is added, then the
        entries are sorted by set number. */
    constructor ()
      ensures index == AddedAll(map[], RowTypes(CHORDS))
      ensures chords == SortBySetNum(RowTypes(CHORDS))
      ensures SortedBySetNum(chords) && multiset(chords) == multiset(RowTypes(CHORDS))
    {
      chords := [];
      index := map[];
      new;
      var rows := CHORDS;
      AddRows(rows);
      K.EmptyAppend(RowTypes(rows));
      SortChords();
    }

    /** `chords.sort((a, b) => a.setNum - b.setNum)`. */
    method SortChords()
      modifies this
      ensures chords == SortBySetNum(old(chords)) && index == old(index)
      ensures SortedBySetNum(chords) && multiset(chords) == multiset(old(chords))
    {
      SortBySetNumSorted(chords);
      chords := SortBySetNum(chords);
    }

    /** `CHORDS.forEach(([ivls, fullName, names]) => add(...))`. */
    method AddRows(rows: seq<ChordRow>)
      modifies this
      ensures chords == old(chords) + RowTypes(rows)
      ensures index == AddedAll(old(index), RowTypes(rows))
    {
      ghost var es := RowTypes(rows);
      var i := 0;
      while i < |rows|
        invariant 0 <= i <= |rows|
        invariant chords == old(chords) + es[..i]
        invariant index == AddedAll(old(index), es[..i])
      {
        assert es[i] == RowType(rows[i]);
        Add(rows[i].intervals, rows[i].names, rows[i].fullName);
        K.SliceSnoc(es, i);
        K.AppendSnoc(old(chords), es[..i], es[i]);
        K.AddedAllSnoc(old(index), es[..i], es[i], KeysOf);
        i := i + 1;
      }
      K.SliceAll(es);
    }

    /** `chordType(type)`. */
    method ChordTypeOf(name: string) returns (c: ChordType)
      ensures c == Lookup(index, name)
    {
      c := if name in index then index[name] else NO_CHORD_TYPE;
    }

    /** `keys()`, as a set. */
    method Keys() returns (keys: set<string>)
      ensures keys == index.Keys
    {
      keys := index.Keys;
    }

    /** `entries()`: a copy of the list. */
    method Entries() returns (entries: seq<ChordType>)
      ensures entries == chords
    {
      entries := chords;
    }

    /** `clear()`. */
    method Clear()
      modifies this
      ensures chords == [] && index == map[]
    {
      chords := [];
      index := map[];
    }

    /** `addAlias(chord, alias)`. */
    method AddAlias(chord: ChordType, alias: string)
      modifies this
      ensures chords == old(chords) && index == old(index)[alias := chord]
    {
      index := index[alias := chord];
    }

    /** `chord.aliases.forEach((alias) => addAlias(chord, alias))`. */
    method AddAliases(chord: ChordType, aliases: seq<string>)
      modifies this
      ensures chords == old(chords) && index == K.WriteAll(old(index), aliases, chord)
    {
      var i := 0;
      while i < |aliases|
        invariant 0 <= i <= |aliases|
        invariant chords == old(chords)
        invariant index == K.WriteAll(old(index), aliases[..i], chord)
      {
        AddAlias(chord, aliases[i]);
        K.WriteAllSnoc(old(index), aliases[..i], aliases[i], chord);
        assert aliases[..i + 1] == aliases[..i] + [aliases[i]];
        i := i + 1;
      }
      assert aliases[..|aliases|] == aliases;
    }

    /** The chord type `add` builds, made apart from the writes. */
    static method NewChordType(intervals: seq<string>, aliases: seq<string>, fullName: string) returns (c: ChordType)
      requires Addable(intervals)
      ensures c == MakeChordType(intervals, aliases, fullName)
    {
      c := MakeChordType(intervals, aliases, fullName);
    }

    /** `add(intervals, aliases, fullName)`. */
    method Add(intervals: seq<string>, aliases: seq<string>, fullName: string)
      requires Addable(intervals)
      modifies this
      ensures chords == old(chords) + [MakeChordType(intervals, aliases, fullName)]
      ensures index == Indexed(old(index), MakeChordType(intervals, aliases, fullName))
    {
      var chord := NewChordType(intervals, aliases, fullName);
      Insert(chord);
    }

    /** The writes of `add` once the chord type is built: push it, then
        index it under its name (when it has one), its set number, its chroma
        and its aliases. */
    method Insert(chord: ChordType)
      modifies this
      ensures chords == old(chords) + [chord]
      ensures index == Indexed(old(index), chord)
    {
      chords := chords + [chord];
      ghost var written: seq<string> := [];
      if chord.name != "" {
        index := index[chord.name := chord];
        K.WriteAllSnoc(old(index), written, chord.name, chord);
        written := written + [chord.name];
      }
      var num := NatToString(chord.setNum);
      index := index[num := chord];
      K.WriteAllSnoc(old(index), written, num, chord);
      written := written + [num];
      index := index[chord.chroma := chord];
      K.WriteAllSnoc(old(index), written, chord.chroma, chord);
      written := written + [chord.chroma];
      AddAliases(chord, chord.aliases);
      K.WriteAllAppend(old(index), written, chord.aliases, chord);
      assert written + chord.aliases == KeysOf(chord);
    }
  }
}
