/** The chord module (js/app.js:441-568): splitting a chord name into a tonic
    and a chord type, building a chord from the dictionary entry of its type,
    and the lists of scales and chords whose pitch-class sets include or are
    included in a chord's. The dictionaries' state is passed in: the chord
    index and list, and the scale list. */
module ChordFacade {
  import opened JsText
  import N = Note
  import T = Transpose
  import P = Pcset
  import CD = ChordDictionary
  import SD = ScaleDictionary

  /** `[tonic, type]`. */
  datatype Tokens = Tokens(tonic: string, typeName: string)

  /** `NUM_TYPES = /^(6|64|7|9|11|13)$/`: octave digits that belong to the
      chord type. */
  predicate IsNumType(oct: string)
  {
    oct == "6" || oct == "64" || oct == "7" || oct == "9" || oct == "11" || oct == "13"
  }

  /** `tokenize(name)`. */
  function Tokenize(name: string): Tokens
  {
    var t := N.NoteTokens(name);
    if t.letter == "" then Tokens("", name)
    else if t.letter == "A" && t.rest == "ug" then Tokens("", "aug")
    else if t.rest == "" && (t.oct == "4" || t.oct == "5") then Tokens(t.letter + t.acc, t.oct)
    else if IsNumType(t.oct) then Tokens(t.letter + t.acc, t.oct + t.rest)
    else Tokens(t.letter + t.acc + t.oct, t.rest)
  }

  // The shape of the note tokens

  predicate AllChar(s: string, c: char) { forall k :: 0 <= k < |s| ==> s[k] == c }

  /** What the accidental group holds once each `x` is rewritten: sharps
      only or flats only. */
  predicate AccShape(a: string) { AllChar(a, '#') || AllChar(a, 'b') }

  /** What `-?\d*` matches. */
  predicate OctShape(o: string)
  {
    if |o| > 0 && o[0] == '-' then AllDigits(o[1..]) else AllDigits(o)
  }

  lemma {:induction false} ReplaceXRun(r: string, c: char)
    requires AllChar(r, c)
    ensures c == 'x' ==> AllChar(N.ReplaceX(r), '#')
    ensures c != 'x' ==> N.ReplaceX(r) == r
  {
    if |r| > 0 {
      ReplaceXRun(r[1..], c);
    }
  }

  /** The letter is a capital from A to G, the accidentals are sharps only or
      flats only, and the octave is an optional minus sign and digits. */
  lemma NoteTokensShape(s: string)
    ensures var t := N.NoteTokens(s);
      (t.letter == "" || (|t.letter| == 1 && 'A' <= t.letter[0] <= 'G')) &&
      AccShape(t.acc) && OctShape(t.oct)
  {
    AccRunShape(s);
    OctRunShape(s);
  }

  lemma AccRunShape(s: string)
    ensures AccShape(N.ReplaceX(s[N.LetterEnd(s)..N.AccEnd(s)]))
  {
    var p1, p2 := N.LetterEnd(s), N.AccEnd(s);
    var run := s[p1..p2];
    if p1 < p2 {
      assert AllChar(run, s[p1]) by {
        RunEndRun(s, p1, c => c == s[p1]);
        forall k | 0 <= k < |run|
          ensures run[k] == s[p1]
        {
          assert run[k] == s[p1 + k];
        }
      }
      ReplaceXRun(run, s[p1]);
    }
  }

  lemma OctRunShape(s: string)
    ensures OctShape(s[N.AccEnd(s)..N.OctEnd(s)])
  {
    var p2, p3 := N.AccEnd(s), N.OctEnd(s);
    var oct := s[p2..p3];
    if p2 < |s| && s[p2] == '-' {
      RunEndRun(s, p2 + 1, IsDigit);
      assert oct[1..] == s[p2 + 1..p3];
    } else {
      RunEndRun(s, p2, IsDigit);
      if |oct| > 0 {
        assert oct[0] == s[p2];
      }
    }
  }

  /** A capital letter, accidentals of that shape and an octave of that shape
      are read back as the same three groups. */
  lemma NoteTokensOfParts(l: char, a: string, o: string)
    requires 'A' <= l <= 'G' && AccShape(a) && OctShape(o)
    ensures N.NoteTokens([l] + a + o) == N.Tokens([l], a, o, "")
  {
    var s := [l] + a + o;
    PartsEnds(l, a, o);
    if AllChar(a, '#') {
      ReplaceXRun(a, '#');
    } else {
      ReplaceXRun(a, 'b');
    }
    assert N.Upper(s[0]) == l;
  }

  /** Where the tokenizer's groups end in a name built from a letter,
      accidentals and an octave. */
  lemma PartsEnds(l: char, a: string, o: string)
    requires 'A' <= l <= 'G' && AccShape(a) && OctShape(o)
    ensures var s := [l] + a + o;
      N.LetterEnd(s) == 1 && N.AccEnd(s) == 1 + |a| && N.OctEnd(s) == |s| && N.SpaceEnd(s) == |s| &&
      s[0] == l && s[1..1 + |a|] == a && s[1 + |a|..] == o && s[|s|..] == ""
  {
    var s := [l] + a + o;
    var j := 1 + |a|;
    assert s[1..j] == a && s[j..] == o;
    if |o| > 0 {
      assert s[j] == o[0];
      assert o[0] == '-' || IsDigit(o[0]);
    }
    if |a| > 0 {
      forall k | 1 <= k < j
        ensures s[k] == s[1]
      {
        assert s[k] == a[k - 1];
      }
    }
    N.AccEndAt(s, j);
    OctPartEnd(s, j, o);
    RunEndIs(s, |s|, |s|, IsJsSpace);
  }

  lemma OctPartEnd(s: string, j: nat, o: string)
    requires j <= |s| && s[j..] == o && OctShape(o) && N.AccEnd(s) == j
    ensures N.OctEnd(s) == |s|
  {
    var p := if j < |s| && s[j] == '-' then j + 1 else j;
    forall k | p <= k < |s|
      ensures IsDigit(s[k])
    {
      assert s[k] == o[k - j];
      if p == j + 1 {
        assert o[k - j] == o[1..][k - j - 1];
      }
    }
    RunEndIs(s, p, |s|, IsDigit);
  }

  /** Whenever a tonic is split off, `note(tonic)` is a note whose name is the
      tonic itself, so `chord` keeps the tonic as `tokenize` wrote it. */
  lemma TonicIsNote(name: string)
    requires Tokenize(name).tonic != ""
    ensures N.Parse(Tokenize(name).tonic).Note? && N.Parse(Tokenize(name).tonic).Name() == Tokenize(name).tonic
  {
    var t := N.NoteTokens(name);
    NoteTokensShape(name);
    var l := t.letter[0];
    assert t.letter == [l];
    if Tokenize(name).tonic == t.letter + t.acc {
      assert Tokenize(name).tonic == [l] + t.acc + "";
      NoteTokensOfParts(l, t.acc, "");
    } else {
      assert Tokenize(name).tonic == [l] + t.acc + t.oct;
      NoteTokensOfParts(l, t.acc, t.oct);
    }
  }

  /** A name with no leading note letter is all chord type. */
  lemma TokenizeNoLetter(name: string)
    requires |name| == 0 || !N.IsLetter(name[0])
    ensures Tokenize(name) == Tokens("", name)
  {}

  /** Apart from "aug", splitting loses nothing from a name that starts with a
      capital letter and holds no `x` and no space: tonic and type rejoin to
      the name. */
  lemma TokenizeRejoins(name: string)
    requires |name| > 0 && 'A' <= name[0] <= 'G'
    requires forall k :: 0 <= k < |name| ==> name[k] != 'x' && !IsJsSpace(name[k])
    requires Tokenize(name) != Tokens("", "aug")
    ensures Tokenize(name).tonic + Tokenize(name).typeName == name
  {
    TokenizeJoinsTokens(name);
    NoteTokensRejoin(name);
  }

  /** With a letter and other than "aug", tonic and type together are the
      four note tokens in order. */
  lemma TokenizeJoinsTokens(name: string)
    requires N.NoteTokens(name).letter != "" && Tokenize(name) != Tokens("", "aug")
    ensures var t := N.NoteTokens(name);
      Tokenize(name).tonic + Tokenize(name).typeName == t.letter + t.acc + t.oct + t.rest
  {}

  lemma NoteTokensRejoin(name: string)
    requires |name| > 0 && 'A' <= name[0] <= 'G'
    requires forall k :: 0 <= k < |name| ==> name[k] != 'x' && !IsJsSpace(name[k])
    ensures var t := N.NoteTokens(name);
      t.letter != "" && t.letter + t.acc + t.oct + t.rest == name
  {
    var p2, p3 := N.AccEnd(name), N.OctEnd(name);
    assert N.LetterEnd(name) == 1;
    var acc := name[1..p2];
    NoXInSlice(name, 1, p2);
    N.ReplaceXWithoutX(acc);
    RunEndIs(name, p3, p3, IsJsSpace);
    assert N.Upper(name[0]) == name[0];
    SplitThree(name, 1, p2, p3);
  }

  lemma NoXInSlice(s: string, i: nat, j: nat)
    requires i <= j <= |s|
    requires forall k :: 0 <= k < |s| ==> s[k] != 'x'
    ensures forall k :: 0 <= k < j - i ==> s[i..j][k] != 'x'
  {
    forall k | 0 <= k < j - i
      ensures s[i..j][k] != 'x'
    {
      assert s[i..j][k] == s[i + k];
    }
  }

  lemma SplitThree(s: string, i: nat, j: nat, k: nat)
    requires 1 == i <= j <= k <= |s|
    ensures [s[0]] + s[i..j] + s[j..k] + s[k..] == s
  {
    assert s[..1] == [s[0]];
    assert s == s[..1] + s[i..j] + s[j..k] + s[k..];
  }

  /** A letter followed by text that starts with no accidental, minus sign,
      digit or space: the letter is the tonic and the text the type. */
  lemma TokensLetterThenText(s: string)
    requires |s| > 1 && N.IsLetter(s[0])
    requires !N.IsAccChar(s[1]) && s[1] != '-' && !IsDigit(s[1]) && !IsJsSpace(s[1])
    ensures N.NoteTokens(s) == N.Tokens([N.Upper(s[0])], "", "", s[1..])
  {
    N.AccEndAt(s, 1);
    RunEndIs(s, 1, 1, IsDigit);
    RunEndIs(s, 1, 1, IsJsSpace);
    assert s[1..1] == "";
  }

  /** The examples of the source's documentation. */
  lemma TokenizeExamples()
    ensures Tokenize("Cmaj7") == Tokens("C", "maj7")
    ensures Tokenize("C7") == Tokens("C", "7")
    ensures Tokenize("mMaj7") == Tokens("", "mMaj7")
    ensures Tokenize("Cnonsense") == Tokens("C", "nonsense")
    ensures Tokenize("Aug") == Tokens("", "aug")
  {
    TokensLetterThenText("Cmaj7");
    TokensLetterThenText("Cnonsense");
    TokensLetterThenText("Aug");
    assert "Cmaj7"[1..] == "maj7" && "Cnonsense"[1..] == "nonsense" && "Aug"[1..] == "ug";
    TokenizeSeventh();
  }

  lemma TokenizeSeventh()
    ensures Tokenize("C7") == Tokens("C", "7")
  {
    var s := "C7";
    N.AccEndAt(s, 1);
    RunEndIs(s, 1, 2, IsDigit);
    RunEndIs(s, 2, 2, IsJsSpace);
    assert s[1..1] == "" && s[1..2] == "7" && s[2..] == "";
  }

  /** The octave branches of `tokenize`: a lone 4 or 5 after the note is the
      chord type, other numbers from NUM_TYPES start the type, and any other
      octave stays with the note. */
  lemma TokenizeOctaves()
    ensures Tokenize("C4") == Tokens("C", "4")
    ensures Tokenize("Eb5") == Tokens("Eb", "5")
    ensures Tokenize("C64") == Tokens("C", "64")
    ensures Tokenize("C2maj7") == Tokens("C2", "maj7")
    ensures Tokenize("C4maj7") == Tokens("C4", "maj7")
  {
    TokenizeFour();
    TokenizeFlatFive();
    TokenizeSixFour();
    TokenizeOctaveTwo();
    TokenizeOctaveFour();
  }

  lemma TokenizeFour()
    ensures Tokenize("C4") == Tokens("C", "4")
  {
    var s := "C4";
    N.AccEndAt(s, 1);
    RunEndIs(s, 1, 2, IsDigit);
    RunEndIs(s, 2, 2, IsJsSpace);
    assert s[1..1] == "" && s[1..2] == "4" && s[2..] == "";
  }

  lemma TokenizeFlatFive()
    ensures Tokenize("Eb5") == Tokens("Eb", "5")
  {
    var s := "Eb5";
    N.AccEndAt(s, 2);
    RunEndIs(s, 2, 3, IsDigit);
    RunEndIs(s, 3, 3, IsJsSpace);
    assert s[1..2] == "b" && N.ReplaceX("b") == "b" && s[2..3] == "5" && s[3..] == "";
  }

  lemma TokenizeSixFour()
    ensures Tokenize("C64") == Tokens("C", "64")
  {
    var s := "C64";
    N.AccEndAt(s, 1);
    RunEndIs(s, 1, 3, IsDigit);
    RunEndIs(s, 3, 3, IsJsSpace);
    assert s[1..1] == "" && s[1..3] == "64" && s[3..] == "";
  }

  lemma TokenizeOctaveTwo()
    ensures Tokenize("C2maj7") == Tokens("C2", "maj7")
  {
    var s := "C2maj7";
    N.AccEndAt(s, 1);
    RunEndIs(s, 1, 2, IsDigit);
    RunEndIs(s, 2, 2, IsJsSpace);
    assert s[1..1] == "" && s[1..2] == "2" && s[2..] == "maj7";
  }

  lemma TokenizeOctaveFour()
    ensures Tokenize("C4maj7") == Tokens("C4", "maj7")
  {
    var s := "C4maj7";
    N.AccEndAt(s, 1);
    RunEndIs(s, 1, 2, IsDigit);
    RunEndIs(s, 2, 2, IsJsSpace);
    assert s[1..1] == "" && s[1..2] == "4" && s[2..] == "maj7";
  }

  /** A bare capital letter is a tonic with the empty chord type. */
  lemma TokenizeLetter(s: string)
    requires |s| == 1 && 'A' <= s[0] <= 'G'
    ensures Tokenize(s) == Tokens(s, "")
  {
    N.AccEndAt(s, 1);
    RunEndIs(s, 1, 1, IsDigit);
    RunEndIs(s, 1, 1, IsJsSpace);
    assert s[1..1] == "" && s[1..] == "" && s[..1] == s;
  }

  // chord()

  /** A chord: the fields of its chord type, with the name replaced by tonic
      and type, the type name, the tonic and the notes. */
  datatype Chord =
    | NoChord
    | Chord(setNum: nat, chroma: string, normalized: string, quality: string, intervals: seq<string>,
            aliases: seq<string>, name: string, typeName: string, tonic: string, notes: seq<string>)
  {
    /** The `chroma` property; "" for NoChord. */
    function Chroma(): string { if NoChord? then "" else chroma }

    /** The `tonic` property as it is concatenated; NoChord's null tonic is
        never concatenated (see ExtendedOfNoChord). */
    function Tonic(): string { if NoChord? then "" else tonic }
  }

  /** Each interval transposed from the tonic. */
  function TransposeAll(tonic: string, intervals: seq<string>): (notes: seq<string>)
    ensures |notes| == |intervals|
  {
    seq(|intervals|, k requires 0 <= k < |intervals| => T.Transpose(tonic, intervals[k]))
  }

  /** `chord(src)` for a chord name, looking the type up in `index`. */
  function ChordOf(index: map<string, CD.ChordType>, src: string): Chord
  {
    var tokens := Tokenize(src);
    var tonic := N.Parse(tokens.tonic).Name();
    var st := CD.Lookup(index, tokens.typeName);
    if st.empty || src == "" then NoChord
    else
      Chord(st.setNum, st.chroma, st.normalized, st.quality, st.intervals, st.aliases,
            if tonic != "" then tonic + " " + st.name else st.name, st.name, tonic,
            if tonic != "" then TransposeAll(tonic, st.intervals) else [])
  }

  /** The empty name and a type the index does not know give NoChord; so does
      a type whose entry is the empty set. */
  lemma ChordOfNoChord(index: map<string, CD.ChordType>, src: string)
    ensures ChordOf(index, src).NoChord? <==>
              src == "" || Tokenize(src).typeName !in index || index[Tokenize(src).typeName].empty
  {}

  /** A chord found: its tonic is the one `tokenize` split off, its name is
      the tonic, a space and the type's name (the type's name alone without a
      tonic), and its notes are the tonic moved by each interval of the type
      (none without a tonic). */
  lemma ChordOfFound(index: map<string, CD.ChordType>, src: string)
    requires ChordOf(index, src).Chord?
    ensures var c, t := ChordOf(index, src), Tokenize(src);
      var st := index[t.typeName];
      c.tonic == t.tonic && c.typeName == st.name && c.intervals == st.intervals &&
      c.chroma == st.chroma && c.quality == st.quality && c.aliases == st.aliases &&
      c.name == (if t.tonic != "" then t.tonic + " " + st.name else st.name) &&
      |c.notes| == (if t.tonic != "" then |st.intervals| else 0) &&
      forall k :: 0 <= k < |c.notes| ==> c.notes[k] == T.Transpose(t.tonic, st.intervals[k])
  {
    var t := Tokenize(src);
    if t.tonic != "" {
      TonicIsNote(src);
    } else {
      assert N.Parse("").NoNote?;
    }
  }

  /** With the dictionary as seeded, "C" is the C major triad: the type is
      the major entry, which the empty alias reaches. */
  lemma ChordOfC(index: map<string, CD.ChordType>)
    requires index == CD.AddedAll(map[], CD.RowTypes(CD.CHORDS))
    ensures var c := ChordOf(index, "C");
      c.Chord? && c.name == "C major" && c.tonic == "C" && c.typeName == "major" &&
      c.intervals == ["1P", "3M", "5P"] && c.quality == "Major" &&
      c.notes == [T.Transpose("C", "1P"), T.Transpose("C", "3M"), T.Transpose("C", "5P")]
  {
    SeededMajorEntry(index);
    ChordOfMajor(index);
  }

  /** The seeded entry under the empty key is the major triad. */
  lemma SeededMajorEntry(index: map<string, CD.ChordType>)
    requires index == CD.AddedAll(map[], CD.RowTypes(CD.CHORDS))
    ensures "" in index && !index[""].empty && index[""].name == "major" &&
      index[""].intervals == ["1P", "3M", "5P"] && index[""].quality == "Major"
  {
    CD.SeededMajor(CD.CHORDS);
    assert CD.Lookup(index, "").name == "major";
  }

  lemma ChordOfMajor(index: map<string, CD.ChordType>)
    requires "" in index && !index[""].empty && index[""].name == "major" &&
      index[""].intervals == ["1P", "3M", "5P"] && index[""].quality == "Major"
    ensures var c := ChordOf(index, "C");
      c.Chord? && c.name == "C major" && c.tonic == "C" && c.typeName == "major" &&
      c.intervals == ["1P", "3M", "5P"] && c.quality == "Major" &&
      c.notes == [T.Transpose("C", "1P"), T.Transpose("C", "3M"), T.Transpose("C", "5P")]
  {
    ChordOfLetter(index, "C");
    CMajorName();
  }

  lemma CMajorName()
    ensures "C" + " " + "major" == "C major"
  {}

  /** The same for any bare letter, so that no literal is taken apart. */
  lemma ChordOfLetter(index: map<string, CD.ChordType>, src: string)
    requires |src| == 1 && 'A' <= src[0] <= 'G'
    requires "" in index && !index[""].empty && index[""].intervals == ["1P", "3M", "5P"]
    ensures var c := ChordOf(index, src);
      c.Chord? && c.name == src + " " + index[""].name && c.tonic == src && c.typeName == index[""].name &&
      c.intervals == index[""].intervals && c.quality == index[""].quality &&
      c.notes == [T.Transpose(src, "1P"), T.Transpose(src, "3M"), T.Transpose(src, "5P")]
  {
    TokenizeLetter(src);
    ChordOfTyped(index, src, src, "");
    TransposeThree(src, "1P", "3M", "5P");
  }

  /** A name split into a tonic and a known, non-empty type is the chord of
      that type on that tonic. */
  lemma ChordOfTyped(index: map<string, CD.ChordType>, src: string, tonic: string, typeName: string)
    requires Tokenize(src) == Tokens(tonic, typeName) && tonic != ""
    requires typeName in index && !index[typeName].empty
    ensures var st := index[typeName];
      ChordOf(index, src) ==
        Chord(st.setNum, st.chroma, st.normalized, st.quality, st.intervals, st.aliases,
              tonic + " " + st.name, st.name, tonic, TransposeAll(tonic, st.intervals))
  {
    TonicIsNote(src);
  }

  lemma TransposeThree(tonic: string, a: string, b: string, c: string)
    ensures TransposeAll(tonic, [a, b, c]) == [T.Transpose(tonic, a), T.Transpose(tonic, b), T.Transpose(tonic, c)]
  {}

  // chordScales(), extended() and reduced()

  /** `xs.filter(keep).map(f)`. */
  function Pick<T>(xs: seq<T>, keep: T -> bool, f: T -> string): (r: seq<string>)
    ensures |r| <= |xs|
  {
    if |xs| == 0 then []
    else (if keep(xs[0]) then [f(xs[0])] else []) + Pick(xs[1..], keep, f)
  }

  /** A name is picked exactly when some kept entry maps to it. */
  lemma {:induction false} PickMembers<T>(xs: seq<T>, keep: T -> bool, f: T -> string, y: string)
    ensures y in Pick(xs, keep, f) <==> exists i :: 0 <= i < |xs| && keep(xs[i]) && f(xs[i]) == y
  {
    if |xs| > 0 {
      PickMembers(xs[1..], keep, f, y);
      if y in Pick(xs[1..], keep, f) {
        var i :| 0 <= i < |xs[1..]| && keep(xs[1..][i]) && f(xs[1..][i]) == y;
        assert xs[i + 1] == xs[1..][i];
      }
      if exists i :: 0 <= i < |xs| && keep(xs[i]) && f(xs[i]) == y {
        var i :| 0 <= i < |xs| && keep(xs[i]) && f(xs[i]) == y;
        if i > 0 {
          assert xs[1..][i - 1] == xs[i];
        }
      }
    }
  }

  /** Nothing is kept, nothing is picked. */
  lemma {:induction false} PickNone<T>(xs: seq<T>, keep: T -> bool, f: T -> string)
    requires forall i :: 0 <= i < |xs| ==> !keep(xs[i])
    ensures Pick(xs, keep, f) == []
  {
    if |xs| > 0 {
      forall i | 0 <= i < |xs[1..]|
        ensures !keep(xs[1..][i])
      {
        assert xs[1..][i] == xs[i + 1];
      }
      PickNone(xs[1..], keep, f);
    }
  }

  /** `chord.aliases[0]`, which is `undefined` for an entry without aliases
      and so concatenates as "undefined". */
  function FirstAlias(c: CD.ChordType): string
  {
    if |c.aliases| == 0 then "undefined" else c.aliases[0]
  }

  /** `chordScales(name)`: the names of the scales, in list order, whose
      pitch-class set includes the chord's. */
  function ChordScales(index: map<string, CD.ChordType>, scales: seq<SD.ScaleType>, name: string): seq<string>
  {
    ScalesOf(ChordOf(index, name), scales)
  }

  function ScalesOf(c: Chord, scales: seq<SD.ScaleType>): seq<string>
  {
    var chroma := c.Chroma();
    Pick(scales, (s: SD.ScaleType) => P.IsSupersetOf(P.Text(chroma), P.Text(s.chroma)),
         (s: SD.ScaleType) => s.name)
  }

  /** `extended(name)`: the chords whose pitch-class set properly includes
      the chord's, each written as the tonic and the chord's first alias. */
  function Extended(index: map<string, CD.ChordType>, chords: seq<CD.ChordType>, name: string): seq<string>
  {
    ExtensionsOf(ChordOf(index, name), chords)
  }

  function ExtensionsOf(c: Chord, chords: seq<CD.ChordType>): seq<string>
  {
    var chroma, tonic := c.Chroma(), c.Tonic();
    Pick(chords, (e: CD.ChordType) => P.IsSupersetOf(P.Text(chroma), P.Text(e.chroma)),
         (e: CD.ChordType) => tonic + FirstAlias(e))
  }

  /** `reduced(name)`: the chords whose pitch-class set is properly included
      in the chord's, written the same way. */
  function Reduced(index: map<string, CD.ChordType>, chords: seq<CD.ChordType>, name: string): seq<string>
  {
    ReductionsOf(ChordOf(index, name), chords)
  }

  function ReductionsOf(c: Chord, chords: seq<CD.ChordType>): seq<string>
  {
    var chroma, tonic := c.Chroma(), c.Tonic();
    Pick(chords, (e: CD.ChordType) => P.IsSubsetOf(P.Text(chroma), P.Text(e.chroma)),
         (e: CD.ChordType) => tonic + FirstAlias(e))
  }

  /** The chroma has at least one note. */
  predicate HasNote(chroma: string)
    requires P.IsChroma(chroma)
  {
    exists k :: 0 <= k < 12 && chroma[k] == '1'
  }

  /** Every note of `small` is a note of `large`, and the two differ. */
  predicate ProperPart(small: string, large: string)
    requires P.IsChroma(small) && P.IsChroma(large)
  {
    small != large && forall k :: 0 <= k < 12 ==> small[k] == '1' ==> large[k] == '1'
  }

  /** A scale is listed exactly when its notes include the chord's (and are
      not the same set). */
  lemma ChordScalesMembers(index: map<string, CD.ChordType>, scales: seq<SD.ScaleType>, name: string, y: string)
    requires ChordOf(index, name).Chord? && P.IsChroma(ChordOf(index, name).chroma)
    requires forall i :: 0 <= i < |scales| ==> P.IsChroma(scales[i].chroma)
    ensures y in ChordScales(index, scales, name) <==>
              exists i :: 0 <= i < |scales| && scales[i].name == y &&
                HasNote(ChordOf(index, name).chroma) && ProperPart(ChordOf(index, name).chroma, scales[i].chroma)
  {
    ScalesOfMembers(ChordOf(index, name), scales, y);
  }

  lemma ScalesOfMembers(c: Chord, scales: seq<SD.ScaleType>, y: string)
    requires c.Chord? && P.IsChroma(c.chroma)
    requires forall i :: 0 <= i < |scales| ==> P.IsChroma(scales[i].chroma)
    ensures y in ScalesOf(c, scales) <==>
              exists i :: 0 <= i < |scales| && scales[i].name == y && HasNote(c.chroma) && ProperPart(c.chroma, scales[i].chroma)
  {
    var keep := (s: SD.ScaleType) => P.IsSupersetOf(P.Text(c.Chroma()), P.Text(s.chroma));
    PickMembers(scales, keep, (s: SD.ScaleType) => s.name, y);
    forall i | 0 <= i < |scales|
      ensures keep(scales[i]) <==> HasNote(c.chroma) && ProperPart(c.chroma, scales[i].chroma)
    {
      P.TextSuperset(c.chroma, scales[i].chroma);
    }
  }

  /** An extension is listed exactly when its notes properly include the
      chord's; it is named by the tonic and its first alias. */
  lemma ExtendedMembers(index: map<string, CD.ChordType>, chords: seq<CD.ChordType>, name: string, y: string)
    requires ChordOf(index, name).Chord? && P.IsChroma(ChordOf(index, name).chroma)
    requires forall i :: 0 <= i < |chords| ==> P.IsChroma(chords[i].chroma)
    ensures y in Extended(index, chords, name) <==>
              exists i :: 0 <= i < |chords| && y == ChordOf(index, name).tonic + FirstAlias(chords[i]) &&
                HasNote(ChordOf(index, name).chroma) && ProperPart(ChordOf(index, name).chroma, chords[i].chroma)
  {
    ExtensionsOfMembers(ChordOf(index, name), chords, y);
  }

  lemma ExtensionsOfMembers(c: Chord, chords: seq<CD.ChordType>, y: string)
    requires c.Chord? && P.IsChroma(c.chroma)
    requires forall i :: 0 <= i < |chords| ==> P.IsChroma(chords[i].chroma)
    ensures y in ExtensionsOf(c, chords) <==>
              exists i :: 0 <= i < |chords| && y == c.tonic + FirstAlias(chords[i]) &&
                HasNote(c.chroma) && ProperPart(c.chroma, chords[i].chroma)
  {
    var keep := (e: CD.ChordType) => P.IsSupersetOf(P.Text(c.Chroma()), P.Text(e.chroma));
    PickMembers(chords, keep, (e: CD.ChordType) => c.Tonic() + FirstAlias(e), y);
    forall i | 0 <= i < |chords|
      ensures keep(chords[i]) <==> HasNote(c.chroma) && ProperPart(c.chroma, chords[i].chroma)
    {
      P.TextSuperset(c.chroma, chords[i].chroma);
    }
  }

  /** A reduction is listed exactly when its notes are a proper part of the
      chord's (which must have a note; the part may be empty); it is named by
      the tonic and its first alias. */
  lemma ReducedMembers(index: map<string, CD.ChordType>, chords: seq<CD.ChordType>, name: string, y: string)
    requires ChordOf(index, name).Chord? && P.IsChroma(ChordOf(index, name).chroma)
    requires forall i :: 0 <= i < |chords| ==> P.IsChroma(chords[i].chroma)
    ensures y in Reduced(index, chords, name) <==>
              exists i :: 0 <= i < |chords| && y == ChordOf(index, name).tonic + FirstAlias(chords[i]) &&
                HasNote(ChordOf(index, name).chroma) && ProperPart(chords[i].chroma, ChordOf(index, name).chroma)
  {
    ReductionsOfMembers(ChordOf(index, name), chords, y);
  }

  lemma ReductionsOfMembers(c: Chord, chords: seq<CD.ChordType>, y: string)
    requires c.Chord? && P.IsChroma(c.chroma)
    requires forall i :: 0 <= i < |chords| ==> P.IsChroma(chords[i].chroma)
    ensures y in ReductionsOf(c, chords) <==>
              exists i :: 0 <= i < |chords| && y == c.tonic + FirstAlias(chords[i]) &&
                HasNote(c.chroma) && ProperPart(chords[i].chroma, c.chroma)
  {
    var keep := (e: CD.ChordType) => P.IsSubsetOf(P.Text(c.Chroma()), P.Text(e.chroma));
    PickMembers(chords, keep, (e: CD.ChordType) => c.Tonic() + FirstAlias(e), y);
    forall i | 0 <= i < |chords|
      ensures keep(chords[i]) <==> HasNote(c.chroma) && ProperPart(chords[i].chroma, c.chroma)
    {
      P.TextSubset(c.chroma, chords[i].chroma);
    }
  }

  /** An unknown chord has the chroma "", the empty set, which nothing
      includes and which includes nothing: all three lists are empty, so the
      null tonic of NoChord is never concatenated. */
  lemma NoChordLists(index: map<string, CD.ChordType>, scales: seq<SD.ScaleType>, chords: seq<CD.ChordType>,
                     name: string)
    requires ChordOf(index, name).NoChord?
    ensures ChordScales(index, scales, name) == [] && Extended(index, chords, name) == [] &&
            Reduced(index, chords, name) == []
  {
    NoChordPicksNothing(ChordOf(index, name), scales, chords);
  }

  lemma NoChordPicksNothing(c: Chord, scales: seq<SD.ScaleType>, chords: seq<CD.ChordType>)
    requires c.NoChord?
    ensures ScalesOf(c, scales) == [] && ExtensionsOf(c, chords) == [] && ReductionsOf(c, chords) == []
  {
    assert !P.IsChroma("");
    forall i | 0 <= i < |scales|
      ensures !P.IsSupersetOf(P.Text(""), P.Text(scales[i].chroma))
    {
      P.TextNotChroma("", P.Text(scales[i].chroma));
    }
    forall i | 0 <= i < |chords|
      ensures !P.IsSupersetOf(P.Text(""), P.Text(chords[i].chroma)) &&
              !P.IsSubsetOf(P.Text(""), P.Text(chords[i].chroma))
    {
      P.TextNotChroma("", P.Text(chords[i].chroma));
    }
    PickNone(scales, (s: SD.ScaleType) => P.IsSupersetOf(P.Text(""), P.Text(s.chroma)),
             (s: SD.ScaleType) => s.name);
    PickNone(chords, (e: CD.ChordType) => P.IsSupersetOf(P.Text(""), P.Text(e.chroma)),
             (e: CD.ChordType) => "" + FirstAlias(e));
    PickNone(chords, (e: CD.ChordType) => P.IsSubsetOf(P.Text(""), P.Text(e.chroma)),
             (e: CD.ChordType) => "" + FirstAlias(e));
  }
}
