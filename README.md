# dechord's music-theory core, modelled in Dafny

dechord is a browser chord trainer that reads chord names, lays their notes
out on a MIDI keyboard and draws the keys as an SVG piano. Its music theory
comes from the tonal library, vendored in `js/app.js`. This project models
that library's core:

- pitch coordinates: a pitch as a step, an alteration, an octave and a
  direction, encoded as a line-of-fifths vector;
- the note parser and the interval parser;
- `transpose` and `distance`;
- pitch-class sets: the 12-character chroma, the set number, the normalized
  rotation, modes, and the strict subset and superset tests;
- the chord and scale dictionaries;
- the chord module: `tokenize`, `chord`, `chordScales`, `extended` and
  `reduced`;
- the array helpers and the integer MIDI helpers.

It also models three parts of dechord's own TypeScript:

- `chordToMidiNotes` (src/lib/music.ts);
- `trimStart` (src/lib/string.ts);
- the SVG piano's key-state bookkeeping (src/lib/PianoSVG/index.ts).

The tonal code is pure and indexes everything by string keys, so most of
it is modelled as datatypes and functions. Loops in the source become
methods with loop invariants, proved against a function:

- `ascR`/`descR`, `chromaToIntervals` and `listToChroma`;
- `chordToMidiNotes`, `trimStart`, `wkCountToId` and `nextExisting`.

Three parts of the source update state in place, and each is a class whose
methods state the new state:

- the two dictionaries (a list plus a key index, with `add`, `clear` and
  the seeding sort);
- the piano's `render`, which edits the 128 key states and the key
  elements in place.

In the piano model:

- the key states and the key elements are arrays;
- the SVG document is its two groups of key elements (white, black), each
  a sequence of note ids in document order;
- an element is the fields the renderer sets on it.

Files, in dependency order:

| File | What it holds |
|---|---|
| `wrappers.dfy` | Option and Result |
| `jstext.dfy` | digits, number-to-string, JavaScript `%`, white space |
| `bits.dfy` | binary numerals, `&` and `\|` |
| `pitch.dfy` | pitch coordinates |
| `note.dfy` | the note parser |
| `interval.dfy` | the interval parser |
| `transpose.dfy` | `transpose` and `distance` |
| `arrayutils.dfy` | the array helpers |
| `pcset.dfy` | pitch-class sets |
| `keyindex.dfy` | the key index both dictionaries keep |
| `chorddict.dfy` | the chord dictionary |
| `scaledict.dfy` | the scale dictionary |
| `chord.dfy` | the chord module |
| `midi.dfy` | the MIDI helpers |
| `music.dfy` | `chordToMidiNotes` |
| `stringutil.dfy` | `trimStart` |
| `pianosvg.dfy` | the SVG piano |

## Model

| member | source | states |
|---|---|---|
| Pitch.Unaltered | js/app.js:1212-1215 | The result is in 0..6 and is (f + 1) mod 7 for every integer f, negative ones included. |
| Pitch.Encode | js/app.js:1187-1195 | A pitch without an octave encodes to a coordinate without one, and a NaN octave stays NaN. |
| Pitch.Decode | js/app.js:1201-1210 | A decoded pitch has a step in 0..6 and the coordinate's direction; octave presence carries over. |
| Pitch.StepsToOctsFromFifths | js/app.js:1182-1186 | Each entry of the octave table is floor(FIFTHS[step] * 7 / 12). |
| Pitch.DecodeEncode | js/app.js:1187-1210 | Decoding an ascending pitch's encoding gives back the pitch, with or without an octave. |
| Pitch.DecodeEncodeDescending | js/app.js:1187-1210 | A descending pitch comes back from the negated coordinate. |
| Pitch.EncodeDecode | js/app.js:1187-1210 | Encoding a decoded coordinate gives back the coordinate. |
| Pitch.EncodeDecodeDescending | js/app.js:1187-1210 | Decoding with direction -1 and encoding again gives the negated coordinate. |
| Pitch.EncodeSemitones | js/app.js:1187-1195 | 7 * fifths + 12 * octaves equals the pitch's semitones above C0. |
| Pitch.EncodeSteps | js/app.js:1187-1195 | 4 * fifths + 7 * octaves equals the pitch's diatonic step count. |
| Note.NoteTokens | js/app.js:1241-1248 | The corrected tokenizer: a letter, one run of one accidental, an octave of `-?digits` and the trailing text. NoteTokensAsWritten and NoteTokensAsWrittenAgrees tie it to the regex as written; PitchNameTokens shows it inverts the name. |
| Note.NoteTokensAsWritten | js/app.js:1241-1248 | When the note regex matches, its groups are the tokens of the corrected tokenizer. None stands for the null match that makes `m[1]` throw. |
| Note.NoteTokensAsWrittenAgrees | js/app.js:1241-1248 | When no line terminator follows the spaces, the regex matches and gives the corrected tokens. |
| Note.NoteTokensAsWrittenThrows | js/app.js:1241-1248 | `note("Ch\n")` throws as written; the corrected tokenizer leaves "h\n" as trailing text, so the note is NoNote. |
| Note.LetterStep | js/app.js:1264 | `(charCode + 3) % 7` maps the letters A to G onto steps 0..6. |
| Note.AccToAltAltToAcc | js/app.js:1221-1226 | Reading the accidentals written for an alteration gives back the alteration. |
| Note.PitchName | js/app.js:1291-1299 | `pitchName`. PitchNameTokens and FromPitchRoundTrip state that the name parses back to the pitch. |
| Note.PitchNameTokens | js/app.js:1245-1299 | A pitch's name tokenizes back into its letter, accidentals and octave, with no trailing text. |
| Note.FromPitchRoundTrip | js/app.js:1232-1299 | `note(pitch)` is a note with the pitch's step, alteration and octave; a NaN octave is dropped. |
| Note.Parse | js/app.js:1256-1290 | `parse(noteName)`. ParseNames, ParseEmpty, ParseChroma, ParseHeight, ParseMidi and ParseCoherent state its fields, and FromPitchRoundTrip and CoordToNoteCoord its inverses. |
| Note.ParseNames | js/app.js:1256-1290 | name = pc + octave text, pc = letter + accidentals, and the letter is one of A to G. |
| Note.ParseEmpty | js/app.js:1256-1260 | `note` gives NoNote exactly when the letter is missing or text trails. |
| Note.ParseChroma | js/app.js:1270 | For at most 120 flats, the chroma is in 0..11 and equals (SEMI[step] + alt) mod 12. |
| Note.ParseHeight | js/app.js:1270-1272 | height = SEMI[step] + alt + 12 * (oct + 1). |
| Note.ParseHeightFromCoord | js/app.js:1267-1272 | height = 7 * fifths + 12 * octaves + 12, from the coordinate. |
| Note.ParseMidi | js/app.js:1271-1273 | There is a MIDI number exactly when the height is a number in 0..127, and it is then the height. The octave "-" gives none. With no octave, the height is taken at octave -100, so only a note whose SEMI[step] + alt is in 1188..1315 (at least 1177 sharps) has one. |
| Note.ParseBb4 | js/app.js:1256-1290 | `note("Bb4")` has name Bb4, pc Bb, MIDI 70 and chroma 10. |
| Note.ParseC4 | js/app.js:1256-1290 | C4 has coordinate [0, 4], height 60, step 0 and octave 4. |
| Note.ParseBSharp3 | js/app.js:1256-1290 | B#3 has coordinate [12, -3] and height 60, the same as C4. |
| Note.ParseNatural | js/app.js:1256-1290 | A letter followed only by digits is the natural note of that letter; its chroma is the letter's semitone number. |
| Note.ParseSharp | js/app.js:1256-1290 | A letter, one '#' and digits give alteration 1 and chroma one above the natural's. |
| Note.ParseCoherent | js/app.js:1256-1290 | Every parsed note's coordinate is the encoding of its step, alteration and octave. |
| Note.CoordToNote | js/app.js:1252-1254 | `coordToNote`. CoordToNoteCoord, CoordToNoteOfCoherent and CoordToNoteFSharp state the note it gives. |
| Note.CoordToNoteCoord | js/app.js:1252-1254 | `coordToNote` gives a note whose coordinate is the given one and whose name parses back to the same note. |
| Note.CoordToNoteOfCoherent | js/app.js:1252-1254 | The note rebuilt from a note's coordinate is named by its own step, alteration and octave. |
| Note.CoordToNoteFSharp | js/app.js:1252-1254 | Coordinates [6, 0] and [6] name F#3 and F#. |
| Note.FromPitchHeight | js/app.js:1232-1273 | For any alteration, a pitch with an octave names a note with the height formula's height, and that note has a MIDI number exactly when the height is in 0..127. |
| Note.FromPitchChroma | js/app.js:1232-1270 | A pitch's note has chroma (SEMI[step] + alt) mod 12. |
| Interval.TonalTokens | js/app.js:1303-1316 | Number-then-quality form: a match gives a signed decimal number and a quality the regex allows. |
| Interval.ShorthandTokens | js/app.js:1305-1316 | Quality-then-number form: the same, searched along the string with only the end anchored. |
| Interval.Tokenize | js/app.js:1310-1316 | The number token is either empty or a signed decimal, and then the quality is a legal one. |
| Interval.TokenizeName | js/app.js:1303-1316 | A number followed by a quality tokenizes to exactly those two. |
| Interval.TonalTokensNone | js/app.js:1303-1306 | The anchored form needs a sign or digit in front. |
| Interval.TokenizeShorthand | js/app.js:1305-1316 | A quality followed by a number tokenizes to the number and the quality. |
| Interval.Parse | js/app.js:1338-1385 | `interval(name)`. ParseName, ParseShorthand, ParseShape, ParseSize and ParseNoInterval state what it accepts and what it builds; FromPitchRoundTrip is its inverse. |
| Interval.ParseShorthand | js/app.js:1310-1385 | Both notations give the same interval ("M3" is "3M"). |
| Interval.FromTokensCanonical | js/app.js:1354-1362 | A number's written form (sign, leading zeros) does not change the interval: the name is canonical. |
| Interval.ParseName | js/app.js:1349-1385 | Parsing an interval's own name gives the same interval. |
| Interval.FromTokensNoInterval | js/app.js:1349-1360 | NoInterval exactly when nothing matched, or when a nonzero number names a major-type step with quality P. |
| Interval.ParseNoInterval | js/app.js:1349-1360 | The same rule for `interval(s)` on any string. |
| Interval.ParseMajorablePerfect | js/app.js:1356-1360 | A second, third, sixth or seventh with quality P, in any octave or direction, is NoInterval. |
| Interval.FromTokensShape | js/app.js:1356-1369 | Step, octave, direction, simple number and type agree with the number, e.g. \|num\| = step + 1 + 7 * oct. Semitones are dir * (SIZES[step] + alt + 12 * oct). The coordinate encodes the pitch. |
| Interval.ParseShape | js/app.js:1356-1366 | The same shape facts for `interval(s)`. |
| Interval.ParseSize | js/app.js:1367-1369 | 7 * fifths + 12 * octaves = semitones, and chroma = semitones mod 12, in 0..11. |
| Interval.FromTokensSize | js/app.js:1367-1369 | The same for an interval built from tokens. |
| Interval.FromTokensOf | js/app.js:1349-1385 | The interval of number n and a legal quality q has the step, octave, direction and alteration that n and q give. |
| Interval.ChromaRem | js/app.js:1368 | The double JavaScript remainder `((x % 12) + 12) % 12` is x mod 12. |
| Interval.IntervalCoordSemitones | js/app.js:1367-1369 | The coordinate of (step, alt, oct, dir) measures dir * (SIZES[step] + alt + 12 * oct) semitones. |
| Interval.QToAlt | js/app.js:1395-1406 | `qToAlt`. QToAltAltToQ and AltToQQToAlt make it the inverse of AltToQ on legal qualities. |
| Interval.AltToQ | js/app.js:1420-1433 | `altToQ`. AltToQIsQuality states that it writes a legal quality for up to four A or d, and QToAltAltToQ that QToAlt reads it back. |
| Interval.QToAltAltToQ | js/app.js:1395-1433 | qToAlt(type, altToQ(type, alt)) = alt for every alteration. |
| Interval.AltToQQToAlt | js/app.js:1395-1433 | altToQ(type, qToAlt(type, q)) = q for every quality legal for the type. |
| Interval.AltToQIsQuality | js/app.js:1420-1433 | altToQ writes a legal quality for up to four A or d. |
| Interval.PitchName | js/app.js:1408-1418 | `pitchName` for intervals. FromPitchRoundTrip and CoordToIntervalDirCoord state that the name parses back to the pitch's interval. |
| Interval.FromPitchRoundTrip | js/app.js:1338-1418 | `interval(pitch)` has the pitch's step, alteration, octave and direction and its coordinate is the pitch's encoding. |
| Interval.ParseP5 | js/app.js:1367 | P5 is 7 semitones. |
| Interval.ParseM3 | js/app.js:1357-1361 | m3 is of major type. |
| Interval.CoordToInterval | js/app.js:1389-1394 | `coordToInterval`, descending when the size in semitones is negative. CoordToIntervalCoord gives its meaning where size and step count agree in sign; CoordToIntervalMisnumbers shows the name it gives where they do not. |
| Interval.DecodeAscending | js/app.js:1201-1210 | Within 33 fifths and with no negative step count, the decoded pitch has an octave of at least 0 and an alteration that four A or d can write. |
| Interval.CoordToIntervalDirCoord | js/app.js:1389-1394 | Read in a direction that agrees with the sign of its step count, a coordinate within 33 fifths names an interval with that coordinate, direction and size, and the name parses back to it. |
| Interval.CoordToIntervalCoord | js/app.js:1389-1394 | Within 33 fifths, where size and step count do not point opposite ways: the interval has the coordinate, descends exactly when the size is negative, has that size, and its name parses back to it. |
| Interval.CoordToIntervalMisnumbers | js/app.js:1389-1394 | Where size and step count point opposite ways, the decoded pitch has interval number step + 1 + 7 * octave at most 0. |
| Transpose.DistanceCoord | js/app.js:1477-1482 | The distance coordinate always has an octave part. |
| Transpose.Transpose | js/app.js:1447-1458 | `transpose(noteName, intervalName)`. TransposeCoord states that it adds coordinates; TransposeInvalid and TransposeByZero give the empty results; DistanceRoundTrip makes Distance its inverse. |
| Transpose.TransposeNoteCoord | js/app.js:1453-1458 | The transposed name parses to a note whose coordinate is that sum. |
| Transpose.TransposeCoord | js/app.js:1447-1458 | For names that parse, the result parses to the note at the component-wise sum of coordinates (a pitch class stays a pitch class). |
| Transpose.TransposeInvalid | js/app.js:1447-1452 | `transpose` gives "" when the note or the interval does not parse. |
| Transpose.TransposeByZero | js/app.js:1447-1458 | Transposing by an interval numbered 0 gives "". |
| Transpose.TransposeExamples | js/app.js:1443-1444 | transpose("d3", "3M") = "F#3" and transpose("D", "3M") = "F#". |
| Transpose.DistanceAsWritten | js/app.js:1471-1484 | `distance` as written. DistanceAsWrittenMeaning gives its meaning where size and step count agree in sign, DistanceAgrees ties it to the corrected Distance there, and DistanceAsWrittenMisnumbers and DistanceAsWrittenUnisonDown show where it goes wrong. |
| Transpose.Distance | js/app.js:1471-1484 | The corrected `distance`: descending by the steps spanned, and a pitch-class distance kept ascending. DistanceRoundTrip makes Transpose its inverse; DistanceAgrees ties it to the code as written. |
| Transpose.DescendsMeaning | js/app.js:1477-1484 | Between notes with octaves, the corrected distance descends exactly when the second note is on a lower step (octaves counted), or on the same step and lower in pitch. |
| Transpose.PitchClassAscending | js/app.js:1462-1484 | A pitch-class distance within 33 fifths spans no negative number of steps or semitones and is ascending, as the documentation of `distance` says. |
| Transpose.DistanceAgrees | js/app.js:1471-1484 | Where size and step count of the difference do not point opposite ways, `distance` as written and the corrected distance give the same name. |
| Transpose.DistanceAsWrittenMeaning | js/app.js:1471-1484 | Within 33 fifths, where size and step count do not point opposite ways: `distance` as written parses to an interval with the difference as coordinate and size, descending exactly when the size is negative. |
| Transpose.DistanceAsWrittenMisnumbers | js/app.js:1471-1484 | Where size and step count point opposite ways, `distance` as written names a pitch whose interval number is at most 0. |
| Transpose.DistanceInvalid | js/app.js:1471-1476 | `distance` gives "" when either note does not parse. |
| Transpose.IntervalZeroA | js/app.js:1349-1369 | "0A" parses to the interval numbered 0 with quality A. |
| Transpose.UnisonDownCoord | js/app.js:1389-1394 | The coordinate [12, -7] has size 0 and step count -1; `coordToInterval` names it "0A", and read descending it is "-2d". |
| Transpose.DistanceAsWrittenUnisonDown | js/app.js:1471-1484 | As written, distance("C4", "B#3") = "0A", and transposing C4 by it gives "". |
| Transpose.BetweenRoundTrip | js/app.js:1447-1484 | For notes less than 34 fifths apart without the NaN octave, the corrected interval has the corrected coordinate and reparses to itself. Transposing the first note by it names the second, or its pitch class from a pitch class; from a note with an octave to a pitch class it gives a note with the second's step and alteration. |
| Transpose.DistanceRoundTrip | js/app.js:1447-1484 | For names of notes less than 34 fifths apart without the NaN octave, the corrected distance parses to an interval with the corrected coordinate. Between notes with octaves that is the coordinate difference and transposing `from` by it names `to`; from a pitch class it names `to`'s pitch class. |
| Transpose.DistancePitchClassUnison | js/app.js:1462-1484 | Corrected: distance("C", "B#") = "7A", ascending, and transposing C by it gives B#. |
| Transpose.DistanceAsWrittenPitchClassUnison | js/app.js:1471-1484 | As written, distance("C", "B#") = "0A", not an ascending interval. |
| Transpose.DistanceUnisonDown | js/app.js:1471-1484 | Corrected: distance("C4", "B#3") = "-2d", and transposing C4 by it gives "B#3". |
| ArrayUtils.AscR | js/app.js:9-15 | Element k of the n elements is b + k. |
| ArrayUtils.DescR | js/app.js:17-23 | Element k of the n elements is b - k. |
| ArrayUtils.Range | js/app.js:35-37 | The range starts at `from`, ends at `to` and moves by one each step. It holds exactly the integers between them. |
| ArrayUtils.Rotate | js/app.js:49-53 | Element k is arr[(k + times) mod len], for negative `times` too. |
| ArrayUtils.RotateRotate | js/app.js:49-53 | Rotating by t and then by s is rotating by s + t. |
| ArrayUtils.RotateInverse | js/app.js:49-53 | Rotating by -t undoes rotating by t. |
| ArrayUtils.Compact | js/app.js:63-65 | Compacting never lengthens the list. |
| ArrayUtils.CompactMembers | js/app.js:63-65 | The result holds exactly the present, non-empty strings of the list. |
| ArrayUtils.CompactAppend | js/app.js:63-65 | Compacting keeps order: it distributes over concatenation. |
| ArrayUtils.CompactPresent | js/app.js:63-65 | A list of present non-empty strings is kept whole. |
| ArrayUtils.InsertAt | js/app.js:143-145 | Splicing x in at pos puts it there and adds exactly one x to the multiset. |
| ArrayUtils.Spread | js/app.js:142-146 | Element k is the permutation with x spliced in at k. |
| ArrayUtils.SpreadAll | js/app.js:141-147 | The fold yields \|perms\| * n lists of length n. |
| ArrayUtils.SpreadAllMembers | js/app.js:141-147 | Its members are exactly the splicings of x into the given permutations. |
| ArrayUtils.Permutations | js/app.js:137-148 | Every result has the input's length. |
| ArrayUtils.PermutationsCount | js/app.js:137-148 | There are \|arr\|! results. |
| ArrayUtils.PermutationsArePermutations | js/app.js:137-148 | Each result is a rearrangement of the input (same multiset). |
| ArrayUtils.PermutationsComplete | js/app.js:137-148 | Every rearrangement of the input is among the results. |
| Bits.BitAndBits | js/app.js:816 | Bit i of a & b is bit i of a and of b. |
| Bits.BitOrBits | js/app.js:836 | Bit i of a \| b is bit i of a or of b. |
| Bits.ToBinaryValue | js/app.js:705-706 | parseInt(n.toString(2), 2) = n. |
| Bits.ToBinaryOfValue | js/app.js:705-706 | A numeral with no leading zero is what toString(2) writes for its value. |
| Bits.BinaryValueBit | js/app.js:706 | Bit i of a numeral's value is its i-th digit from the right. |
| Pcset.ChromaToIntervals | js/app.js:739-747 | The push loop's result is the interval list of the chroma. |
| Pcset.IntervalsFromMembers | js/app.js:731-747 | IVLS[k] is listed exactly when position k of the chroma is '1', once per '1', in ascending order. |
| Pcset.AllChromas | js/app.js:757-760 | `chromas()` has 2048 entries. |
| Pcset.AllChromasMeaning | js/app.js:748-760 | Entry k is the chroma of set number 2048 + k and starts with '1'. Every chroma starting with '1' is listed. |
| Pcset.ChromaOfSetNum | js/app.js:705-758 | Each number 2048..4095 is written as a 12-character chroma starting with '1'. |
| Pcset.Rotations | js/app.js:880-883 | `chromaRotations` gives one rotation per character. |
| Pcset.Candidates | js/app.js:886-888 | Every candidate kept for `normalized` is at least 2048. |
| Pcset.CandidatesRange | js/app.js:884-888 | For a chroma, the candidates all lie in 2048..4095. |
| Pcset.FourDigitOrder | js/app.js:889 | On 4-digit numbers, string order agrees with numeric order. |
| Pcset.SortedFirstIsMin | js/app.js:886-889 | The first element after the string sort is the numeric minimum of the candidates. |
| Pcset.Normalized | js/app.js:884-891 | `normalize`. NormalizedMeaning and LeastRotation state that it is the least-valued rotation starting with '1'. |
| Pcset.ChromaToPcset | js/app.js:884-899 | `chromaToPcset`. GetSetNum, HasChroma, IntervalsFromMembers and NormalizedMeaning state its set number, chroma, intervals and normalized rotation. |
| Pcset.NormalizedMeaning | js/app.js:884-891 | For a chroma with a '1', `normalized` is a rotation that starts with '1', and no such rotation has a smaller value. |
| Pcset.LeastRotation | js/app.js:884-891 | `normalized` is toString(2) of the least-valued rotation that starts with '1'. |
| Pcset.ListToChroma | js/app.js:901-916 | The marking loop's chroma is the list's chroma. |
| Pcset.ReadNameChroma | js/app.js:909-914 | The loop body of `listToChroma`: it reads one name through NameChroma, as a note first and else as an interval. Its meaning for the whole list is in ListChromaMembers. |
| Pcset.ListChroma | js/app.js:901-916 | A list of names always yields a 12-character chroma. |
| Pcset.MarksMembers | js/app.js:906-916 | Slot k is marked exactly when some name has chroma k. |
| Pcset.ListChromaMembers | js/app.js:901-916 | Position k of the chroma is '1' exactly when some name of the list reads as chroma k. |
| Pcset.IntervalNameChroma | js/app.js:910-914 | A name like "3M" is no note; its chroma is the interval's. |
| Pcset.ListChromaTriad | js/app.js:901-916 | C, E, G give "100010010000". |
| Pcset.ListChromaVoicing | js/app.js:901-916 | c6, e4, g3 give the same chroma as C, E, G. |
| Pcset.ListChromaThird | js/app.js:901-916 | e6, c4 give "100010000000". |
| Pcset.Get | js/app.js:719-730 | `pcset(src)`. SourceChroma, GetSetNum, HasChroma and TextPcset state its fields. |
| Pcset.SourceChroma | js/app.js:719-728 | The chroma `pcset` works from is a non-empty binary string. |
| Pcset.EmptyChromaValue | js/app.js:696-703 | The empty chroma is a chroma whose value is 0. |
| Pcset.GetSetNum | js/app.js:884-886 | setNum is the chroma read in binary and below 4096; the chroma is the one the source gave. |
| Pcset.HasChroma | js/app.js:719-730 | For a 12-character chroma, pitch class k is in the set exactly when position k is '1'. |
| Pcset.IsEqual | js/app.js:793-795 | `isEqual`. IsEqualChromas states it on chromas given as text. |
| Pcset.IsEqualChromas | js/app.js:793-795 | Two chromas given as text are equal sets exactly when they are the same text. |
| Pcset.SubsetNumMeaning | js/app.js:816 | `s && s !== o && (o & s) === o` holds exactly when s is nonzero, differs from o, and has every bit of o. |
| Pcset.SupersetNumMeaning | js/app.js:836 | `s && s !== o && (o \| s) === o` holds exactly when s is nonzero, differs from o, and o has every bit of s. |
| Pcset.SubsetHas | js/app.js:811-818 | The subset test in pitch classes: the first set is nonempty, the sets differ, and every class of the notes is in the set. |
| Pcset.SupersetHas | js/app.js:831-838 | The superset test in pitch classes: each class of the set is in the notes, and the sets differ. |
| Pcset.IsSubsetOf | js/app.js:811-818 | `isSubsetOf(set)(notes)`. SubsetMeaning, SubsetChromas and TextSubset state it in pitch classes and on chromas. |
| Pcset.IsSupersetOf | js/app.js:831-838 | `isSupersetOf(set)(notes)`. SupersetMeaning, SupersetChromasOf and TextSuperset state it in pitch classes and on chromas. |
| Pcset.SubsetMeaning | js/app.js:811-818 | `isSubsetOf(set)(notes)` in pitch classes, for any sources. |
| Pcset.SupersetMeaning | js/app.js:831-838 | `isSupersetOf(set)(notes)` in pitch classes, for any sources. Equal sets pass neither test. |
| Pcset.SubsetChromas | js/app.js:811-818 | The subset test read off the two chromas. |
| Pcset.SubsetChromasOf | js/app.js:811-818 | The same, on set values. |
| Pcset.SupersetChromasOf | js/app.js:831-838 | The superset test read off the two chromas. |
| Pcset.TextPcset | js/app.js:719-730 | A chroma given as text is the set's chroma, and its value is the set number. |
| Pcset.TextSubset | js/app.js:811-818 | Subset on chromas given as text: the set has a '1', the chromas differ, and each '1' of the notes is a '1' of the set. |
| Pcset.TextSuperset | js/app.js:831-838 | Superset on chromas given as text: the set has a '1', the chromas differ, and each '1' of the set is a '1' of the notes. |
| Pcset.TextNotChroma | js/app.js:811-838 | A text that is no chroma (such as a chord's empty chroma) is the empty set and passes neither test. |
| Pcset.SubsetExample | js/app.js:807-808 | inCMajor(["e6", "c4"]) is true. |
| Pcset.SupersetExample | js/app.js:827-829 | extendsCMajor(["c6", "e4", "g3"]) is false. |
| Pcset.Modes | js/app.js:775-783 | `modes(set, normalize)`. ModesAll and ModesNormalized state its result for each value of `normalize`. |
| Pcset.ModeCandidates | js/app.js:779-782 | One candidate per chroma position. |
| Pcset.ModesAll | js/app.js:775-783 | Unnormalized, the modes are all rotations, rotation i at position i. |
| Pcset.ModesNormalized | js/app.js:775-783 | Normalized, there is one mode per '1' of the chroma, each a rotation starting with '1'. |
| Pcset.IncludedInMeaning | js/app.js:853-859 | A note is in a set exactly when it parses and its pitch class is in the set. |
| Pcset.IsNoteIncludedInSet | js/app.js:853-859 | `isNoteIncludedInSet(set)(note)`. IsNoteIncludedInSetMeaning and IncludedExample state it in pitch classes. |
| Pcset.IsNoteIncludedInSetMeaning | js/app.js:853-859 | `isNoteIncludedInSet(set)(note)`, stated in the same pitch-class terms. |
| Pcset.IncludedExample | js/app.js:848-852 | With the set C, E, G: C4 is included and C#4 is not. |
| Pcset.FilterBy | js/app.js:873-878 | Filtering never lengthens the list. |
| Pcset.FilterByMembers | js/app.js:873-878 | The filtered list holds exactly the listed notes that are in the set. |
| Pcset.FilterByAppend | js/app.js:873-878 | Filtering keeps order: it distributes over concatenation. |
| Pcset.Filter | js/app.js:873-878 | `filter(set)(notes)`. FilterMembers and FilterByAppend state which notes it keeps and that it keeps order. |
| Pcset.FilterMembers | js/app.js:873-878 | `filter(set)(notes)` holds exactly the notes `isNoteIncludedInSet` accepts. |
| KeyIndex.WriteAllMeaning | js/app.js:373-376 | After the alias writes, each alias maps to the entry and every other key keeps what it had. |
| KeyIndex.LastWins | js/app.js:367-393 | A key resolves to the last added entry that has it. |
| KeyIndex.NoEntryHas | js/app.js:334-377 | A key no added entry has keeps its old value or stays absent. |
| KeyIndex.TextKeyNotNumeric | js/app.js:371-372 | A key with a non-digit character is never a set-number key or a chroma key. |
| ChordDictionary.MakeChordType | js/app.js:362-366 | The chord type `add` builds. MakeChordTypeSet states its chroma, set number and emptiness; RowTypeText its fields. |
| ChordDictionary.MakeChordTypeSet | js/app.js:362-366 | A new chord type carries the interval list's chroma. Its set number is that chroma in binary, and it is empty exactly when the chroma is. |
| ChordDictionary.Quality | js/app.js:378-389 | `getQuality`. QualityChroma, MajorQuality and KnownQualityNotEmpty state its precedence and what backs it. |
| ChordDictionary.QualityChroma | js/app.js:378-389 | Each quality the precedence 5A > 3M > 5d > 3m assigns is backed by the interval's '1' in the chroma. |
| ChordDictionary.MajorQuality | js/app.js:378-389 | 1P 3M 5P is Major. |
| ChordDictionary.KnownQualityNotEmpty | js/app.js:378-389 | A chord of known quality is not empty. |
| ChordDictionary.Lookup | js/app.js:334-336 | `get(type)` on the index. IndexedLookup, SeededTextKey and SeededTextKeyAbsent state what each key finds. |
| ChordDictionary.IndexedLookup | js/app.js:334-377 | After `add`, each key of the new type finds it; other keys find what they found before. |
| ChordDictionary.TextKeyOf | js/app.js:368-373 | Among text keys, a type is indexed under its name (when non-empty) and its aliases only. |
| ChordDictionary.RowTypeText | js/app.js:362-393 | A table row becomes a type with the row's name, aliases, intervals and quality. |
| ChordDictionary.RowKeys | js/app.js:368-376 | A row's text keys are its name and aliases. |
| ChordDictionary.SeededTextKey | js/app.js:334-393 | After seeding, a text key finds the last row that has it. |
| ChordDictionary.SeededTextKeyAbsent | js/app.js:324-336 | A text key no row has finds NoChordType. |
| ChordDictionary.HalfDiminishedRows | js/app.js:304 | Row 91 is the unnamed m7b5 row, and no later row has its aliases. |
| ChordDictionary.MajorRows | js/app.js:204 | Row 0 is major with aliases "M" and "", and no later row has them. |
| ChordDictionary.SeededHalfDiminished | js/app.js:304 | "m7b5" and "half-diminished" find the unnamed entry 1P 3m 5d 7m, of Diminished quality. |
| ChordDictionary.SeededMajor | js/app.js:204 | "" and "M" find the major entry 1P 3M 5P. |
| ChordDictionary.InsertBySetNumMembers | js/app.js:394 | Insertion adds exactly the one entry. |
| ChordDictionary.InsertBySetNumSorted | js/app.js:394 | Insertion keeps the list in ascending set-number order. |
| ChordDictionary.SortBySetNum | js/app.js:394 | The seeding sort by set number. SortBySetNumSorted states that it orders and permutes the list. |
| ChordDictionary.SortBySetNumSorted | js/app.js:394 | The sort's result is ordered by set number and is a permutation of its input. |
| ChordDictionary.Dictionary.constructor | js/app.js:325-394 | Seeding indexes every row in order, then sorts the list by set number; the list is a permutation of the rows. |
| ChordDictionary.Dictionary.SortChords | js/app.js:394 | The in-place sort orders the list and permutes it; the index is unchanged. |
| ChordDictionary.Dictionary.AddRows | js/app.js:390-393 | Adding rows appends their types and indexes each in turn. |
| ChordDictionary.Dictionary.ChordTypeOf | js/app.js:334-336 | `chordType(name)` is the index entry or NoChordType. |
| ChordDictionary.Dictionary.Keys | js/app.js:340-342 | The keys are the index's keys. |
| ChordDictionary.Dictionary.Entries | js/app.js:346-348 | A copy of the list. |
| ChordDictionary.Dictionary.Clear | js/app.js:352-355 | The list and the index become empty. |
| ChordDictionary.Dictionary.AddAlias | js/app.js:375-377 | Only the alias key changes. |
| ChordDictionary.Dictionary.AddAliases | js/app.js:373 | Each alias in order maps to the type; the list is unchanged. |
| ChordDictionary.Dictionary.Add | js/app.js:362-374 | The new type is appended and indexed under all of its keys. |
| ChordDictionary.Dictionary.Insert | js/app.js:367-373 | Appends a built type and indexes it. |
| ScaleDictionary.MakeScaleType | js/app.js:1134-1136 | The scale type `add` builds. MakeScaleTypeFields states its fields. |
| ScaleDictionary.MakeScaleTypeFields | js/app.js:1136 | A new scale type carries the chroma of its intervals, that chroma's value, and its name, intervals and aliases. |
| ScaleDictionary.Lookup | js/app.js:1106-1108 | `get(type)` on the index. IndexedLookup, SeededTextKey and SeededTextKeyAbsent state what each key finds. |
| ScaleDictionary.IndexedLookup | js/app.js:1106-1146 | After `add`, each key of the new type finds it; other keys are unchanged. |
| ScaleDictionary.RowKeys | js/app.js:1138-1141 | A row's text keys are its name and aliases. |
| ScaleDictionary.SeededTextKey | js/app.js:1106-1150 | After seeding, a text key finds the last row that has it. |
| ScaleDictionary.SeededTextKeyAbsent | js/app.js:1096-1108 | A text key no row has finds NoScaleType. |
| ScaleDictionary.SeededRows | js/app.js:1031-1067 | The rows dorian b2, neopolitan major, aeolian and major. |
| ScaleDictionary.SeededDorianB2 | js/app.js:1031-1056 | "dorian b2" finds neopolitan major, the later row that has it as an alias, not the scale named dorian b2. |
| ScaleDictionary.SeededMajorMinor | js/app.js:1056-1067 | "minor" finds aeolian and "major" finds major. |
| ScaleDictionary.Dictionary.constructor | js/app.js:1097-1150 | Seeding appends every row in table order and indexes each in turn. |
| ScaleDictionary.Dictionary.AddRows | js/app.js:1147-1150 | Adding rows appends their types and indexes each in turn. |
| ScaleDictionary.Dictionary.ScaleTypeOf | js/app.js:1106-1108 | `scaleType(name)` is the index entry or NoScaleType. |
| ScaleDictionary.Dictionary.Keys | js/app.js:1118-1120 | The keys are the index's keys. |
| ScaleDictionary.Dictionary.Entries | js/app.js:1112-1114 | A copy of the list. |
| ScaleDictionary.Dictionary.Clear | js/app.js:1124-1127 | The list and the index become empty. |
| ScaleDictionary.Dictionary.AddAlias | js/app.js:1144-1146 | Only the alias key changes. |
| ScaleDictionary.Dictionary.AddAliases | js/app.js:1141 | Each alias in order maps to the type. |
| ScaleDictionary.Dictionary.Add | js/app.js:1134-1143 | Returns the new type, appended and indexed under its name, set number, chroma and aliases. |
| ScaleDictionary.Dictionary.Insert | js/app.js:1137-1141 | Appends a built type and indexes it. |
| ChordFacade.Tokenize | js/app.js:473-491 | `tokenize(name)`. TokenizeNoLetter, TokenizeLetter, TokenizeRejoins and TokenizeJoinsTokens state its branches, and TonicIsNote states that the tonic is a note. TokenizeExamples and TokenizeOctaves give each branch an example. The model follows the code: "Cnonsense" gives ["C", "nonsense"], not the [null, "nonsense"] of the doc comment. |
| ChordFacade.NoteTokensShape | js/app.js:1241-1248 | The note tokens have an upper-case letter or none, one run of one accidental, and an octave of `-?digits`. |
| ChordFacade.TonicIsNote | js/app.js:474-498 | A non-empty tonic token parses as a note named by exactly that token. |
| ChordFacade.TokenizeNoLetter | js/app.js:475-477 | Without a leading letter, the tokens are "" and the whole name. |
| ChordFacade.TokenizeRejoins | js/app.js:473-491 | For a name with an upper-case letter, no 'x' and no space, tonic + type is the name, except "Aug". |
| ChordFacade.TokenizeJoinsTokens | js/app.js:473-491 | tonic + type rejoins the note tokens. |
| ChordFacade.TokenizeExamples | js/app.js:473-491 | Cmaj7 gives [C, maj7]; C7 gives [C, 7]; mMaj7 gives ["", mMaj7]; Cnonsense gives [C, nonsense]; Aug gives ["", aug]. |
| ChordFacade.TokenizeOctaves | js/app.js:481-489 | C4 gives [C, 4] and Eb5 gives [Eb, 5]: a lone 4 or 5 is the type. C64 gives [C, 64]: a NUM_TYPES number starts the type. C2maj7 gives [C2, maj7] and C4maj7 gives [C4, maj7]: other octaves stay with the note. |
| ChordFacade.TokenizeLetter | js/app.js:473-491 | A lone letter is a tonic with the empty type. |
| ChordFacade.TransposeAll | js/app.js:505 | One note per interval. |
| ChordFacade.ChordOf | js/app.js:496-509 | `chord(name)`. ChordOfNoChord and ChordOfFound state both outcomes; ChordOfTyped, ChordOfLetter and ChordOfC give whole values. |
| ChordFacade.ChordOfNoChord | js/app.js:496-502 | `chord` gives NoChord exactly for "", an unknown type or an empty type. |
| ChordFacade.ChordOfFound | js/app.js:496-509 | A found chord has the type's fields and the tonic. Its name is tonic + " " + type, or the type without a tonic. Its notes are the tonic transposed by each interval, or none. |
| ChordFacade.ChordOfTyped | js/app.js:496-509 | The whole chord value for a known type with a tonic. |
| ChordFacade.ChordOfLetter | js/app.js:496-509 | A lone letter is the "" entry's chord on that tonic. |
| ChordFacade.ChordOfMajor | js/app.js:496-509 | With the major entry under "", "C" is C major, with notes C transposed by 1P, 3M and 5P. |
| ChordFacade.SeededMajorEntry | js/app.js:204 | The seeded index holds the major entry under "". |
| ChordFacade.ChordOfC | js/app.js:496-509 | With the seeded dictionary, chord("C") is C major. |
| ChordFacade.Pick | js/app.js:536-538 | filter-then-map never lengthens the list. |
| ChordFacade.PickMembers | js/app.js:536-554 | y is in the result exactly when some kept entry maps to y. |
| ChordFacade.PickNone | js/app.js:536-538 | Nothing kept, nothing listed. |
| ChordFacade.ChordScales | js/app.js:533-539 | `chordScales(name)`. ChordScalesMembers states which scale names it lists. |
| ChordFacade.Extended | js/app.js:549-555 | `extended(name)`. ExtendedMembers states which chord names it lists. |
| ChordFacade.Reduced | js/app.js:562-568 | `reduced(name)`. ReducedMembers states which chord names it lists. |
| ChordFacade.ChordScalesMembers | js/app.js:533-539 | `chordScales(name)` lists exactly the scale names whose chroma strictly contains the chord's non-empty chroma. |
| ChordFacade.ScalesOfMembers | js/app.js:533-539 | The same, for a chord value. |
| ChordFacade.ExtendedMembers | js/app.js:549-555 | When the chord's own chroma has a note, `extended(name)` lists tonic + first alias of exactly the chords whose chroma properly contains the chord's. When it has none, the list is empty. |
| ChordFacade.ExtensionsOfMembers | js/app.js:549-555 | The same, for a chord value. |
| ChordFacade.ReducedMembers | js/app.js:562-568 | When the chord's own chroma has a note, `reduced(name)` lists tonic + first alias of exactly the chords whose chroma is a proper part of the chord's, the empty chroma included. When it has none, the list is empty. |
| ChordFacade.ReductionsOfMembers | js/app.js:562-568 | The same, for a chord value. |
| ChordFacade.NoChordLists | js/app.js:533-568 | No chord, no scales, extensions or reductions. |
| ChordFacade.NoChordPicksNothing | js/app.js:533-568 | The same, for the NoChord value. |
| Midi.ToMidi | js/app.js:606-612 | `toMidi` on text. ToMidiNumber, ToMidiOfLetter and ToMidiPitchName state what it reads, and MidiToNoteNameRoundTrip makes it the inverse of `midiToNoteName`. |
| Midi.IsMidi | js/app.js:589-591 | `isMidi` on a number: 0..127. ToMidiNumber states that `toMidi` keeps a number exactly when it holds. |
| Midi.ToMidiNumber | js/app.js:589-609 | A number is kept exactly when it is in 0..127. |
| Midi.ToMidiOfLetter | js/app.js:606-612 | For a note name, `toMidi` is the note's MIDI number, or none. |
| Midi.ToMidiC4 | js/app.js:602 | toMidi("C4") = 60. |
| Midi.MidiToNoteName | js/app.js:665-675 | Only a pitch-class request for a negative number off a multiple of 12 finds no name (`undefined`). |
| Midi.PitchClassSpelling | js/app.js:645-646 | Entry i of SHARPS and FLATS spells a pitch class of semitone number i with at most one accidental. |
| Midi.MidiPitchSpelling | js/app.js:665-675 | The spelled pitch has the number's pitch class. |
| Midi.MidiToNoteNameSpells | js/app.js:665-675 | The name is the pitch name of that spelling, at octave floor(midi / 12) - 1, or without one. |
| Midi.NameOfMidiPitch | js/app.js:665-675 | The same for any result of `midiToNoteName`. |
| Midi.ToMidiPitchName | js/app.js:606-612 | A pitch's name in range reads back as its MIDI number. |
| Midi.MidiToNoteNameRoundTrip | js/app.js:606-675 | toMidi(midiToNoteName(m)) = m for 0 <= m <= 127, with sharps or flats. |
| Midi.PitchChroma | js/app.js:1232-1270 | A spelled pitch's note has its pitch class as chroma. |
| Midi.MidiToPitchClassChroma | js/app.js:665-672 | The pitch-class name of m parses to a note whose chroma is m mod 12. |
| Midi.MidiToNoteNameExamples | js/app.js:658-661 | 61 is Db4, Db, C#4 or C#. |
| Music.ChordToMidiNotes | src/lib/music.ts:9-40 | An error exactly for a bad `wrapTo`; otherwise the placement of the notes that have a MIDI number at octave 0. |
| Music.PlaceNote | src/lib/music.ts:19-33 | The loop body places one number as Place does; the placement rules are in PlaceOctaves, PlaceFirst, PlaceLater and PlaceClimbs. |
| Music.OctaveZeroMidiOfPitchClass | src/lib/music.ts:17 | For the name of any pitch class, whatever its alteration, `toMidi(n + '0')` is 12 + SEMI[step] + alt when that is in 0..127, and null otherwise. |
| Music.Place | src/lib/music.ts:19-33 | The placement of one octave-0 number after those placed so far. PlaceOctaves, PlaceFirst, PlaceLater and PlaceClimbs state its rules. |
| Music.PlaceNext | src/lib/music.ts:15-38 | One turn of the loop extends the placed prefix by one note, or skips it. |
| Music.Kept | src/lib/music.ts:15-37 | Skipping notes never lengthens the list. |
| Music.KeptAppend | src/lib/music.ts:15-38 | Skipping keeps the order of `c.notes`. |
| Music.KeptOne | src/lib/music.ts:17-37 | A note is kept exactly when `toMidi(n + '0')` is not null. |
| Music.PlaceAll | src/lib/music.ts:15-38 | One output per kept note. |
| Music.PlaceOctaves | src/lib/music.ts:19-33 | Placing moves a number only by octaves, at most 24 down and 12 up. |
| Music.PlaceAllOctaves | src/lib/music.ts:17-33 | Each output differs from its octave-0 number by a multiple of 12, so the pitch class is kept. |
| Music.PlaceAllPrefix | src/lib/music.ts:15-38 | The first j outputs depend only on the first j notes. |
| Music.PlaceFirst | src/lib/music.ts:19-27 | The first note is lowered 12 exactly when its octave-0 number exceeds 12. |
| Music.PlaceLater | src/lib/music.ts:19-33 | A later note is raised 12 when below the previous output, then lowered 12 only if it stays above it. With `wrapTo`, it is lowered again when more than `wrapTo` above the first output. |
| Music.PlaceClimbs | src/lib/music.ts:21-27 | Without `wrapTo`, a note near the previous output lands at most an octave above it and not below it. |
| StringUtil.TrimStart | src/lib/string.ts:1-13 | The loop returns a suffix of s. The dropped prefix is spaces, tabs, newlines and returns, and the result is empty or starts with another character. |
| StringUtil.TrimmedStart | src/lib/string.ts:1-13 | What `trimStart` returns. TrimmedStartShape, TrimmedStartUnchanged, TrimmedStartIdempotent and TrimmedStartPrefix state it. |
| StringUtil.TrimmedStartShape | src/lib/string.ts:5-12 | The same facts about the specification. |
| StringUtil.TrimmedStartUnchanged | src/lib/string.ts:9 | A string not starting with those characters is returned unchanged. |
| StringUtil.TrimmedStartIdempotent | src/lib/string.ts:5-12 | Trimming twice is trimming once. |
| StringUtil.TrimmedStartPrefix | src/lib/string.ts:6-7 | A prefix of those characters is dropped whole. |
| PianoSvg.WhiteBelowOctaves | src/lib/PianoSVG/index.ts:166-227 | The white keys below id number 7 per full octave plus those below id's position in its octave. |
| PianoSvg.WhiteBelowMonotonic | src/lib/PianoSVG/index.ts:221-227 | The count never decreases and grows by at most one per id. |
| PianoSvg.WkCountToId | src/lib/PianoSVG/index.ts:217-228 | Throws "Invalid id for count: " + id exactly outside 0..127. Otherwise it counts the white keys below id. |
| PianoSvg.FirstLit | src/lib/PianoSVG/index.ts:238-243 | A key found is at or above the start and below 128. |
| PianoSvg.NextOf | src/lib/PianoSVG/index.ts:236-244 | A key found lies strictly above id and below 128. |
| PianoSvg.FirstLitMeaning | src/lib/PianoSVG/index.ts:236-244 | The key found is the first lit key of the colour; when none is found, no key of the colour is lit. |
| PianoSvg.NextExisting | src/lib/PianoSVG/index.ts:236-244 | The scan returns the smallest lit id above id with the same colour, or undefined when there is none. |
| PianoSvg.UpdatedFields | src/lib/PianoSVG/index.ts:52-59 | Each geometry field given is written and every other field is kept. |
| PianoSvg.UpdatedIdempotent | src/lib/PianoSVG/index.ts:52-59 | Updating twice with the same state is updating once, and an empty state changes nothing. |
| PianoSvg.CreateKeyEl | src/lib/PianoSVG/index.ts:72-92 | Throws exactly for a falsy key state. Otherwise the element has the note's id and colour, with the key class and the state's class. |
| PianoSvg.GroupUnique | src/lib/PianoSVG/index.ts:95-112 | A colour group's order is fixed by which elements exist. |
| PianoSvg.GroupMembers | src/lib/PianoSVG/index.ts:40-112 | A note is in its colour's group exactly when its state is not 0. |
| PianoSvg.GroupInsert | src/lib/PianoSVG/index.ts:108-111 | Inserting before the first later element of the colour keeps the group ascending and complete. |
| PianoSvg.GroupRemove | src/lib/PianoSVG/index.ts:129-131 | Removing an element keeps the rest of its group in order. |
| PianoSvg.NextPositionFound | src/lib/PianoSVG/index.ts:102-108 | When `nextExisting` finds an element, inserting before it is the sorted position. |
| PianoSvg.NextPositionNone | src/lib/PianoSVG/index.ts:109-111 | When it finds none, appending is the sorted position. |
| PianoSvg.InsertLinks | src/lib/PianoSVG/index.ts:95-112 | An insert that does not throw keeps both groups ordered and complete. |
| PianoSvg.Patched | src/lib/PianoSVG/index.ts:123-147 | The element a key has after one patch. PatchedAgrees, PatchedStyled and PatchedState state it. |
| PianoSvg.PatchedAgrees | src/lib/PianoSVG/index.ts:123-147 | After a patch a note has an element exactly when its stored state is not 0. |
| PianoSvg.PatchedStyled | src/lib/PianoSVG/index.ts:133-142 | After a patch an element carries exactly its key class and the new state's class. |
| PianoSvg.PatchedState | src/lib/PianoSVG/index.ts:123-148 | One patch keeps states and elements in agreement, and keeps classes right. |
| PianoSvg.Piano.constructor | src/lib/PianoSVG/index.ts:20-49 | Default geometry, every state 0, no element, empty groups. |
| PianoSvg.Piano.UpdateState | src/lib/PianoSVG/index.ts:52-59 | The geometry becomes the update of the old one. |
| PianoSvg.Piano.InsertKeyElement | src/lib/PianoSVG/index.ts:95-112 | Throws "Already existing DOM Element for id: " + i and changes nothing when there is one. Throws "Element expected at " + next when the next key's element is missing. Otherwise inserts into the colour's group before the next lit key of the colour. |
| PianoSvg.Piano.RemoveElement | src/lib/PianoSVG/index.ts:128-132 | The element is removed from its array slot and from its group. |
| PianoSvg.Piano.Reclass | src/lib/PianoSVG/index.ts:133-142 | The old state's class is taken off and the new one's put on. |
| PianoSvg.Piano.AddKey | src/lib/PianoSVG/index.ts:143-145 | A new element is created and inserted without a throw. |
| PianoSvg.Piano.PatchKey | src/lib/PianoSVG/index.ts:124-148 | Patching one changed note stores `ks \|\| 0`, patches its element and keeps the invariant. |
| PianoSvg.Piano.Render | src/lib/PianoSVG/index.ts:115-151 | The geometry is updated. Without keys nothing else changes. With keys each state becomes `s.keys[i] \|\| 0` and each element is patched as the specification says. An element exists exactly for a non-zero state, and groups stay ordered. |
| PianoSvg.Piano.RenderKeys | src/lib/PianoSVG/index.ts:122-148 | After the loop over all notes every stored state is `curKeys[i] \|\| 0` and every element is patched from its old element and old state. The groups stay valid, and the class invariant holds whenever it held before. |

## Left out

- Floating point is not modelled: `midiToFreq`, `freqToMidi`, the note's `freq`, `Math.round` in `midiToNoteName`, and the keys' x position (`idToX`). Element geometry is `real` and is not checked against the browser's number formatting.
- `shuffle` needs a random source and is not modelled.
- `sortedNoteNames` and `sortedUniqNoteNames` are not modelled. Their comparator subtracts heights that can be NaN.
- The chord module's `transpose` (js/app.js:519-525) is not modelled. With no tonic it returns the unbound global `name`.
- The memo caches of `note`, `interval` and `pcset` are not modelled. Each is treated as the pure function the cache stores.
- `note` and `interval` are modelled on strings and on pitches. Their dispatch on a named object (`src.name`) and on other values is a JavaScript type test with no music in it.
- `chord` is modelled with a string source; its array-of-tokens argument is not.
- Pcset.Get: the `pcset` cache is not modelled, and `Throws` names the sources that throw while their chroma is not yet cached: a number whose decimal digits form a chroma, and a one-element list whose name is a chroma other than the empty one (the cache starts with EmptyPcset, so ["000000000000"] finds it). Once such a chroma has been cached by an earlier call, JavaScript returns the cached set instead of throwing; every member on sources excludes these sources whatever the cache holds.
- Note.Parse, Note.NoteTokens, ChordFacade.Tokenize, ChordFacade.ChordOf, Transpose.Transpose, Transpose.Distance, Midi.ToMidi, Pcset.NameChroma and Pcset.ListChroma: these use the corrected tokenizer, which reads a name with a line terminator in its trailing text (such as "Ch\n" or "Cmaj7\n") as a name with trailing text. The JavaScript regex as written (js/app.js:1241-1248) finds no match there and `m[1]` throws; that throw is not modelled outside Note.NoteTokensAsWritten (see Findings).
- Pcset.Modes: `normalize` is an explicit argument; the JavaScript default `normalize = true` is not a separate member.
- Midi.ToMidi: numeric strings other than plain digits or blanks ("+5", " 7", "1e2") are read as note names; JavaScript's `+` coercion is not modelled further.
- Music.ChordToMidiNotes: `wrapTo` is an integer; a non-integer `wrapTo` is not modelled, and the thrown message and `console.warn` are not part of the contract.
- The dictionary tables are stored already split into lists, exactly as `split(" ")` yields them.
- ChordDictionary.Dictionary.Keys: returns the index's keys as a set. `Object.keys` (js/app.js:340-342) returns an array whose order (integer-like keys ascending, then insertion order) is not modelled.
- ScaleDictionary.Dictionary.Keys: the same, for js/app.js:1118-1120.
- ChordDictionary.Dictionary.ChordTypeOf: the index is a map with no prototype, so a name such as "toString" finds NoChordType (and so does ChordDictionary.Lookup, which ChordFacade.ChordOf uses), where JavaScript's plain-object lookup (js/app.js:334-336) returns the inherited `Object.prototype` member.
- ScaleDictionary.Dictionary.ScaleTypeOf: the same, for js/app.js:1106-1108.
- ChordDictionary.SortBySetNumSorted: `Array.prototype.sort` stability is not stated; the model's insertion sort is stable, and only ordering and permutation are proved.
- ScaleDictionary.Dictionary.Add: the optional `aliases` argument is always given; the table rows always pass it.
- ChordFacade.ChordScalesMembers, ExtendedMembers and ReducedMembers rely on every entry's chroma being a 12-character chroma, which `add` guarantees; the seeded lists' contents are not enumerated.
- The NoChord tonic is `null` in the source; no model list reaches the string concatenation with it (NoChordLists), and the model's NoChord has no tonic field.
- The piano's container classes (`classRoot`, `classWGroup`, `classBGroup`) and the SVG element creation are not modelled.
- PianoSvg.Piano.Render: key states are integers, null or undefined; NaN and non-integer states are not modelled.
- PianoSvg.WkCountToId: `Number.isSafeInteger` is not modelled beyond the integer range check, since the argument is an integer.
- The interval number 0 (js/app.js:1356-1357) gives undefined table lookups; it is modelled as its own case, `ZeroInterval`, and the properties are stated for numbers other than 0.
- A perfect-type step with quality M or m is not rejected by the code (js/app.js:1358 tests only P on major-type steps); the model follows the code.
- Note.ParseChroma, Note.FromPitchChroma, Pcset.IncludedInMeaning and Pcset.IsNoteIncludedInSetMeaning are stated for at most 120 flats. Past that, the chroma `(SEMI[step] + alt + 120) % 12` can be negative, because JavaScript's `%` keeps the sign; `charAt` of a negative index is "", so such a note is in no set.
- Note.Parse and Interval.Parse read octave texts and interval numbers as unbounded integers. JavaScript's `+` and `parseInt` give a double, which loses precision past 2^53 and becomes Infinity past about 10^308; those digit runs are not modelled as JavaScript reads them.
- Interval qualities are at most four A or d, as the regex allows; the quality round trips are stated for those.
- Transpose.DistanceRoundTrip and Transpose.BetweenRoundTrip are stated for notes less than 34 fifths apart: past that, the interval's quality would need more than four A or d, which the interval regex does not read back. Notes with the octave NaN (the octave text "-", as in "C-") are excluded.
- Transpose.BetweenRoundTrip: from a note with an octave to a pitch class, the transposed note is promised only the second note's step and alteration and some octave, not which octave.
- Transpose.Distance models the corrected direction rule (see Findings); `distance` as written is Transpose.DistanceAsWritten.
- MusicPlayer, the input adapters and the UI files are device, audio and framework glue and are not modelled; nor is the deprecated `parseChord`.

## Findings

| source | as written | input that shows it | evidently intended | confidence | as-written member | corrected member |
|---|---|---|---|---|---|---|
| js/app.js:1241-1248 | The note regex ends in `\s*(.*)$`; `.` does not match a line terminator, so after a non-space character a newline makes `exec` return null and `m[1]` throws. | `note("Ch\n")` | `note` returns NoNote for a name with trailing text instead of throwing. | medium, not executed | Note.NoteTokensAsWrittenThrows | Note.ParseEmpty |
| js/app.js:1471-1484 | `coordToInterval` makes an interval descending exactly when its size in semitones is negative. When the size and the step count point opposite ways, for a unison-sized step down or up, the decoded interval number is 0 or less (Transpose.DistanceAsWrittenMisnumbers). | `distance("C4", "B#3")` gives "0A", and `transpose("C4", "0A")` gives ""; `distance("C", "B#")` gives "0A" too. | Transposing by the distance reaches the second note: distance("C4", "B#3") = "-2d", and between pitch classes the ascending distance("C", "B#") = "7A". | medium, not executed | Transpose.DistanceAsWrittenUnisonDown | Transpose.DistanceRoundTrip |
