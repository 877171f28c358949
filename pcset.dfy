/** Pitch-class sets (js/app.js:696-918): the 12-character chroma (a '1' for
    each pitch class present, C first), its value `setNum` read in binary,
    the canonical rotation `normalized`, the intervals from C, the modes and
    the strict subset and superset tests. */
module Pcset {
  import opened JsText
  import opened Wrappers
  import opened Bits
  import N = Note
  import I = Interval
  import A = ArrayUtils
  import Pitch

  datatype Pcset = Pcset(empty: bool, name: string, setNum: nat, chroma: string,
                         normalized: string, intervals: seq<string>)

  const EMPTY_CHROMA: string := "000000000000"

  /** `EmptyPcset`, also the value the cache starts with for EMPTY_CHROMA. */
  const EMPTY_PCSET: Pcset := Pcset(true, "", 0, EMPTY_CHROMA, EMPTY_CHROMA, [])

  /** `isChroma`: the text `/^[01]{12}$/` matches. */
  predicate IsChroma(s: string) { |s| == 12 && IsBinary(s) }

  /** `isPcsetNum` for an integer. */
  predicate IsPcsetNum(n: int) { 0 <= n <= 4095 }

  /** What `pcset` may be given: a string, a number, a list of note or
      interval names, an object with a `chroma` property, or anything else. */
  datatype Source =
    | Text(text: string)
    | Number(n: int)
    | Names(names: seq<string>)
    | Object(value: Pcset)
    | OtherValue

  /** The sources `pcset` throws on when their chroma is not yet in its
      cache: `isChroma` reads a number or a list as text, so a number whose
      decimal digits are twelve 0s and 1s, or a list whose only name is such
      a string, passes it, and `chroma.split` then fails on a value that is
      not a string. A list holding only the empty chroma finds EmptyPcset,
      with which the cache starts, and does not throw. */
  predicate Throws(src: Source)
  {
    (src.Number? && src.n >= 0 && IsChroma(NatToString(src.n))) ||
    (src.Names? && |src.names| == 1 && IsChroma(src.names[0]) && src.names[0] != EMPTY_CHROMA)
  }

  // Intervals

  const IVLS: seq<string> := ["1P", "2m", "2M", "3m", "3M", "4P", "5d", "5P", "6m", "6M", "7m", "7M"]

  /** The intervals of the positions `i` … 11 of a chroma that hold a '1'
      (`charAt` past the end of the string gives "", never "1"). */
  function IntervalsFrom(chroma: string, i: nat): seq<string>
    requires i <= 12
    decreases 12 - i
  {
    if i == 12 then []
    else (if i < |chroma| && chroma[i] == '1' then [IVLS[i]] else []) + IntervalsFrom(chroma, i + 1)
  }

  /** `chromaToIntervals`: the push loop over the twelve positions. */
  method ChromaToIntervals(chroma: string) returns (intervals: seq<string>)
    ensures intervals == IntervalsFrom(chroma, 0)
  {
    intervals := [];
    var i := 0;
    while i < 12
      invariant 0 <= i <= 12
      invariant intervals + IntervalsFrom(chroma, i) == IntervalsFrom(chroma, 0)
    {
      var one := i < |chroma| && chroma[i] == '1';
      IntervalsPush(intervals, chroma, i);
      if one {
        intervals := intervals + [IVLS[i]];
      }
      i := i + 1;
    }
  }

  lemma IntervalsPush(acc: seq<string>, chroma: string, i: nat)
    requires i < 12
    ensures acc + IntervalsFrom(chroma, i) ==
              (if i < |chroma| && chroma[i] == '1' then acc + [IVLS[i]] else acc) + IntervalsFrom(chroma, i + 1)
  {
    var rest := IntervalsFrom(chroma, i + 1);
    if i < |chroma| && chroma[i] == '1' {
      assert acc + ([IVLS[i]] + rest) == (acc + [IVLS[i]]) + rest;
    } else {
      assert [] + rest == rest;
    }
  }

  /** Interval `IVLS[k]` is listed exactly when position `k` of the chroma
      holds a '1'; the list has one interval per '1' and follows the
      positions in ascending order. */
  lemma {:induction false} IntervalsFromMembers(chroma: string, i: nat)
    requires i <= 12
    ensures forall k :: 0 <= k < 12 ==>
              (IVLS[k] in IntervalsFrom(chroma, i) <==> i <= k && k < |chroma| && chroma[k] == '1')
    ensures |IntervalsFrom(chroma, i)| == Ones(chroma, i)
    decreases 12 - i
  {
    if i < 12 {
      IntervalsFromMembers(chroma, i + 1);
    }
  }

  /** The number of '1's at positions `i` … 11. */
  function Ones(chroma: string, i: nat): nat
    requires i <= 12
    decreases 12 - i
  {
    if i == 12 then 0 else (if i < |chroma| && chroma[i] == '1' then 1 else 0) + Ones(chroma, i + 1)
  }

  // Normalisation

  /** `chromaRotations(chroma)`: rotation `i` read from position `i`. */
  function Rotations(chroma: string): (r: seq<string>)
    ensures |r| == |chroma|
  {
    seq(|chroma|, i requires 0 <= i < |chroma| => A.Rotate(i, chroma))
  }

  /** `.map(chromaToNumber).filter(n => n >= 2048)`. */
  function Candidates(rs: seq<string>): (r: seq<nat>)
    requires forall k :: 0 <= k < |rs| ==> IsBinary(rs[k])
    ensures forall x :: x in r ==> x >= 2048
  {
    if |rs| == 0 then []
    else
      var rest := Candidates(rs[1..]);
      var v := BinaryValue(rs[0]);
      if v >= 2048 then [v] + rest else rest
  }

  /** JavaScript's `<` on strings: by code units, a proper prefix first. */
  predicate LexLess(s: string, t: string)
  {
    if |s| == 0 then |t| > 0
    else if |t| == 0 then false
    else if s[0] != t[0] then s[0] < t[0]
    else LexLess(s[1..], t[1..])
  }

  /** `.sort()[0]`: the default sort compares the numbers as decimal
      strings, so the first element is the one whose decimal string is
      least. */
  function SortedFirst(xs: seq<nat>): nat
    requires |xs| > 0
  {
    if |xs| == 1 then xs[0]
    else
      var m := SortedFirst(xs[1..]);
      if LexLess(NatToString(m), NatToString(xs[0])) then m else xs[0]
  }

  function Min(xs: seq<nat>): (m: nat)
    requires |xs| > 0
    ensures m in xs && forall x :: x in xs ==> m <= x
  {
    if |xs| == 1 then xs[0]
    else
      var m := Min(xs[1..]);
      assert forall x :: x in xs ==> x == xs[0] || x in xs[1..];
      if m < xs[0] then m else xs[0]
  }

  lemma DigitCharCode(d: nat)
    requires d < 10
    ensures DigitChar(d) as int == '0' as int + d
  {}

  /** The decimal string of a four-digit number, digit by digit. */
  lemma FourDigits(a: nat) returns (d0: nat, d1: nat, d2: nat, d3: nat)
    requires 1000 <= a <= 9999
    ensures d0 < 10 && d1 < 10 && d2 < 10 && d3 < 10
    ensures a == 1000 * d0 + 100 * d1 + 10 * d2 + d3
    ensures NatToString(a) == [DigitChar(d0), DigitChar(d1), DigitChar(d2), DigitChar(d3)]
  {
    var q1 := a / 10;
    var q2 := q1 / 10;
    var q3 := q2 / 10;
    d0, d1, d2, d3 := q3, q2 % 10, q1 % 10, a % 10;
    assert NatToString(q3) == [DigitChar(d0)];
    assert NatToString(q2) == [DigitChar(d0), DigitChar(d1)];
    assert NatToString(q1) == [DigitChar(d0), DigitChar(d1), DigitChar(d2)];
  }

  lemma LexLessCons(s: string, t: string)
    requires |s| > 0 && |t| > 0
    ensures LexLess(s, t) == if s[0] != t[0] then s[0] < t[0] else LexLess(s[1..], t[1..])
  {}

  /** JavaScript's `<` on two four-character strings. */
  lemma LexLessFour(s: string, t: string)
    requires |s| == 4 && |t| == 4
    ensures LexLess(s, t) <==>
              s[0] < t[0] || (s[0] == t[0] && (s[1] < t[1] || (s[1] == t[1] &&
              (s[2] < t[2] || (s[2] == t[2] && s[3] < t[3])))))
  {
    LexLessCons(s, t);
    LexLessCons(s[1..], t[1..]);
    LexLessCons(s[2..], t[2..]);
    LexLessCons(s[3..], t[3..]);
    assert s[1..][1..] == s[2..] && t[1..][1..] == t[2..];
    assert s[2..][1..] == s[3..] && t[2..][1..] == t[3..];
    assert |s[3..][1..]| == 0 && |t[3..][1..]| == 0;
  }

  /** On four-digit numbers the string order is the numeric order. */
  lemma FourDigitOrder(a: nat, b: nat)
    requires 1000 <= a <= 9999 && 1000 <= b <= 9999
    ensures LexLess(NatToString(a), NatToString(b)) <==> a < b
  {
    var a0, a1, a2, a3 := FourDigits(a);
    var b0, b1, b2, b3 := FourDigits(b);
    LexLessFour(NatToString(a), NatToString(b));
    DigitCharOrder(a0, b0);
    DigitCharOrder(a1, b1);
    DigitCharOrder(a2, b2);
    DigitCharOrder(a3, b3);
    DigitsOrder(a0, a1, a2, a3, b0, b1, b2, b3);
  }

  lemma DigitCharOrder(x: nat, y: nat)
    requires x < 10 && y < 10
    ensures DigitChar(x) < DigitChar(y) <==> x < y
    ensures DigitChar(x) == DigitChar(y) <==> x == y
  {
    DigitCharCode(x);
    DigitCharCode(y);
  }

  /** Four decimal digits compare as the number they write. */
  lemma DigitsOrder(a0: nat, a1: nat, a2: nat, a3: nat, b0: nat, b1: nat, b2: nat, b3: nat)
    requires a0 < 10 && a1 < 10 && a2 < 10 && a3 < 10 && b0 < 10 && b1 < 10 && b2 < 10 && b3 < 10
    ensures (a0 < b0 || (a0 == b0 && (a1 < b1 || (a1 == b1 && (a2 < b2 || (a2 == b2 && a3 < b3)))))) <==>
            1000 * a0 + 100 * a1 + 10 * a2 + a3 < 1000 * b0 + 100 * b1 + 10 * b2 + b3
  {}

  /** Since every candidate lies in 2048 … 4095, the string sort picks the
      least candidate. */
  lemma {:induction false} SortedFirstIsMin(xs: seq<nat>)
    requires |xs| > 0 && forall x :: x in xs ==> 2048 <= x <= 4095
    ensures SortedFirst(xs) == Min(xs)
  {
    if |xs| > 1 {
      assert forall x :: x in xs[1..] ==> x in xs;
      SortedFirstIsMin(xs[1..]);
      var m := Min(xs[1..]);
      assert m in xs;
      assert xs[0] in xs;
      FourDigitOrder(m, xs[0]);
    }
  }

  /** The normalized chroma: the least rotation value of at least 2048 in
      binary, or "NaN" (`Number(undefined).toString(2)`) when there is none. */
  function Normalized(chroma: string): string
    requires IsBinary(chroma)
  {
    var cands := Candidates(Rotations(chroma));
    if |cands| == 0 then "NaN" else ToBinary(SortedFirst(cands))
  }

  /** `chromaToPcset(chroma)`. */
  function ChromaToPcset(chroma: string): Pcset
    requires IsBinary(chroma)
  {
    Pcset(false, "", BinaryValue(chroma), chroma, Normalized(chroma), IntervalsFrom(chroma, 0))
  }

  // Lists of names

  /** The chroma a name contributes to `listToChroma`: the note's, or when it
      is no note the interval's (an interval numbered 0 has the chroma NaN,
      which sets no position). */
  function NameChroma(name: string): Option<int>
  {
    var n := N.Parse(name);
    if n.Note? then Some(n.chroma)
    else
      var i := I.Parse(name);
      if i.Interval? then Some(i.chroma) else None
  }

  /** The chroma of each name of a list. */
  function Chromas(names: seq<string>): (cs: seq<Option<int>>)
    ensures |cs| == |names|
  {
    seq(|names|, j requires 0 <= j < |names| => NameChroma(names[j]))
  }

  /** The positions the loop of `listToChroma` has set after the chromas
      `cs`; a negative chroma (more than 120 flats) names an array property
      that `join` ignores. */
  function Marks(cs: seq<Option<int>>): (m: seq<bool>)
    ensures |m| == 12
  {
    if |cs| == 0 then seq(12, _ => false)
    else
      var m := Marks(cs[..|cs| - 1]);
      var c := cs[|cs| - 1];
      if c.Some? && 0 <= c.value < 12 then m[c.value := true] else m
  }

  function MarksText(m: seq<bool>): (s: string)
    requires |m| == 12
    ensures IsChroma(s)
  {
    seq(12, k requires 0 <= k < 12 => if m[k] then '1' else '0')
  }

  /** What `listToChroma(names)` returns. */
  function ListChroma(names: seq<string>): (s: string)
    ensures IsChroma(s)
  {
    if |names| == 0 then EMPTY_CHROMA else MarksText(Marks(Chromas(names)))
  }

  /** A name written as a positive number followed by a quality that fits
      its step is no note (it starts with a digit) but an interval, and
      contributes the interval's chroma. */
  lemma IntervalNameChroma(s: string, n: int, q: string)
    requires n >= 1 && I.QualityFits(I.TYPES[(n - 1) % 7], q) && s == IntToString(n) + q
    ensures var i := I.FromTokens(I.Tokens(IntToString(n), q));
      i.Interval? && NameChroma(s) == Some(i.chroma)
  {
    assert N.LetterEnd(s) == 0;
    I.TokenizeName(n, q);
    I.FromTokensOf(n, q);
  }

  method ReadNameChroma(name: string) returns (c: Option<int>)
    ensures c == NameChroma(name)
  {
    var n := N.Parse(name);
    if n.Note? {
      c := Some(n.chroma);
    } else {
      var i := I.Parse(name);
      c := if i.Interval? then Some(i.chroma) else None;
    }
  }

  /** `listToChroma(names)`: fills a 12-slot array of 0s and 1s and joins it. */
  method ListToChroma(names: seq<string>) returns (chroma: string)
    ensures chroma == ListChroma(names)
  {
    if |names| == 0 {
      return EMPTY_CHROMA;
    }
    ghost var cs := Chromas(names);
    var binary := new int[12](_ => 0);
    var i := 0;
    assert binary[..] == MarksBits(Marks(cs[..0]));
    while i < |names|
      invariant 0 <= i <= |names|
      invariant binary[..] == MarksBits(Marks(cs[..i]))
    {
      var c := ReadNameChroma(names[i]);
      assert c == cs[i];
      MarksStep(cs, i);
      if c.Some? && 0 <= c.value < 12 {
        MarksBitsSet(Marks(cs[..i]), c.value);
        binary[c.value] := 1;
      }
      i := i + 1;
    }
    assert cs[..|names|] == cs;
    var bits := binary[..];
    chroma := seq(12, k requires 0 <= k < 12 => if bits[k] == 1 then '1' else '0');
    JoinedMarks(bits, Marks(cs));
  }

  /** The 0/1 array that holds the marks. */
  function MarksBits(m: seq<bool>): (bits: seq<int>)
    requires |m| == 12
    ensures |bits| == 12
  {
    seq(12, k requires 0 <= k < 12 => if m[k] then 1 else 0)
  }

  lemma MarksBitsSet(m: seq<bool>, c: int)
    requires |m| == 12 && 0 <= c < 12
    ensures MarksBits(m[c := true]) == MarksBits(m)[c := 1]
  {}

  /** Joining the 0/1 array gives the text of the marks it holds. */
  lemma JoinedMarks(bits: seq<int>, m: seq<bool>)
    requires |m| == 12 && bits == MarksBits(m)
    ensures seq(12, k requires 0 <= k < 12 => if bits[k] == 1 then '1' else '0') == MarksText(m)
  {}

  lemma MarksStep(cs: seq<Option<int>>, i: nat)
    requires i < |cs|
    ensures Marks(cs[..i + 1]) ==
              if cs[i].Some? && 0 <= cs[i].value < 12 then Marks(cs[..i])[cs[i].value := true] else Marks(cs[..i])
  {
    assert cs[..i + 1][..i] == cs[..i];
  }

  /** Position `k` is set exactly when some chroma of the list is `k`. */
  lemma {:induction false} MarksMembers(cs: seq<Option<int>>, k: int)
    requires 0 <= k < 12
    ensures Marks(cs)[k] <==> Some(k) in cs
  {
    if |cs| > 0 {
      var init := cs[..|cs| - 1];
      MarksMembers(init, k);
      assert cs == init + [cs[|cs| - 1]];
    }
  }

  /** Position `k` of the chroma of a list is '1' exactly when some name of
      the list has chroma `k`. */
  lemma ListChromaMembers(names: seq<string>, k: int)
    requires 0 <= k < 12
    ensures ListChroma(names)[k] == '1' <==>
              exists j :: 0 <= j < |names| && NameChroma(names[j]) == Some(k)
  {
    if |names| > 0 {
      var cs := Chromas(names);
      MarksMembers(cs, k);
      if Some(k) in cs {
        var j :| 0 <= j < |cs| && cs[j] == Some(k);
        assert NameChroma(names[j]) == Some(k);
      }
      if exists j :: 0 <= j < |names| && NameChroma(names[j]) == Some(k) {
        var j :| 0 <= j < |names| && NameChroma(names[j]) == Some(k);
        assert cs[j] == Some(k);
      }
    } else {
      assert EMPTY_CHROMA[k] == '0';
    }
  }

  // pcset()

  /** The chroma `pcset(src)` works from. */
  function SourceChroma(src: Source): (c: string)
    ensures IsBinary(c) && |c| > 0
  {
    match src
    case Text(t) => if IsChroma(t) then t else EMPTY_CHROMA
    case Number(n) => if IsPcsetNum(n) then ToBinary(n) else EMPTY_CHROMA
    case Names(names) => ListChroma(names)
    case Object(p) => if IsChroma(p.chroma) then p.chroma else EMPTY_CHROMA
    case OtherValue => EMPTY_CHROMA
  }

  /** `pcset(src)`: the cache starts out holding EmptyPcset for the empty
      chroma and otherwise holds what chromaToPcset computes. */
  function Get(src: Source): Pcset
    requires !Throws(src)
  {
    var c := SourceChroma(src);
    if c == EMPTY_CHROMA then EMPTY_PCSET else ChromaToPcset(c)
  }

  lemma EmptyChromaValue()
    ensures IsChroma(EMPTY_CHROMA) && BinaryValue(EMPTY_CHROMA) == 0
  {
    var s := EMPTY_CHROMA;
    assert forall k :: 0 <= k < 12 ==> s[k] == '0';
    forall i: nat
      ensures !Bit(BinaryValue(s), i)
    {
      BinaryValueBit(s, i);
    }
    BitOfZero(0);
    forall i: nat
      ensures Bit(BinaryValue(s), i) == Bit(0, i)
    {
      BitOfZero(i);
    }
    BitsEqual(BinaryValue(s), 0);
  }

  /** The set number is the chroma read in binary, and below 4096. */
  lemma GetSetNum(src: Source)
    requires !Throws(src)
    ensures Get(src).setNum == BinaryValue(Get(src).chroma) < 4096
    ensures Get(src).chroma == SourceChroma(src)
  {
    EmptyChromaValue();
    var c := SourceChroma(src);
    BinaryValueBounds(c);
    if src.Number? && IsPcsetNum(src.n) {
      ToBinaryValue(src.n);
    } else {
      assert |c| == 12;
    }
  }

  /** Pitch class `k` (0 for C … 11 for B) is in a set: bit `11 - k` of its
      set number. */
  predicate Has(p: Pcset, k: int)
    requires 0 <= k < 12
  {
    Bit(p.setNum, 11 - k)
  }

  /** For a full 12-character chroma, `Has` reads position `k` of it. */
  lemma HasChroma(src: Source, k: int)
    requires !Throws(src) && 0 <= k < 12 && |Get(src).chroma| == 12
    ensures Has(Get(src), k) <==> Get(src).chroma[k] == '1'
  {
    var p := Get(src);
    GetSetNum(src);
    HasOf(p, k);
  }

  /** `isEqual(s1, s2)`. */
  predicate IsEqual(s1: Source, s2: Source)
    requires !Throws(s1) && !Throws(s2)
  {
    Get(s1).setNum == Get(s2).setNum
  }

  /** Two chromas given as text are equal sets exactly when they are the same text. */
  lemma IsEqualChromas(t1: string, t2: string)
    requires IsChroma(t1) && IsChroma(t2)
    ensures IsEqual(Text(t1), Text(t2)) <==> t1 == t2
  {
    GetSetNum(Text(t1));
    GetSetNum(Text(t2));
    if IsEqual(Text(t1), Text(t2)) {
      BinaryValueInjective(t1, t2);
    }
  }

  /** The test of `isSubsetOf` on set numbers `s` (of the set) and `o` (of
      the notes): `s && s !== o && (o & s) === o`, where 0 is falsy. */
  predicate SubsetNum(s: nat, o: nat) { s != 0 && s != o && BitAnd(o, s) == o }

  /** The test of `isSupersetOf`: `s && s !== o && (o | s) === o`. */
  predicate SupersetNum(s: nat, o: nat) { s != 0 && s != o && BitOr(o, s) == o }

  /** `isSubsetOf(set)(notes)` with `set` as `s1` and `notes` as `s2`. */
  predicate IsSubsetOf(s1: Source, s2: Source)
    requires !Throws(s1) && !Throws(s2)
  {
    SubsetNum(Get(s1).setNum, Get(s2).setNum)
  }

  /** `isSupersetOf(set)(notes)` with `set` as `s1` and `notes` as `s2`. */
  predicate IsSupersetOf(s1: Source, s2: Source)
    requires !Throws(s1) && !Throws(s2)
  {
    SupersetNum(Get(s1).setNum, Get(s2).setNum)
  }

  /** For 12-bit numbers, `SubsetNum(s, o)` says that every bit of `o` is a
      bit of `s` and the two differ. */
  lemma SubsetNumMeaning(s: nat, o: nat)
    requires o < 4096
    ensures SubsetNum(s, o) <==> s != 0 && s != o && forall i :: 0 <= i < 12 ==> Bit(o, i) ==> Bit(s, i)
  {
    BitAndSubset(o, s);
    if forall i :: 0 <= i < 12 ==> Bit(o, i) ==> Bit(s, i) {
      forall i: nat | Bit(o, i)
        ensures Bit(s, i)
      {
        if i >= 12 {
          assert Pow2(12) == 4096;
          BitHigh(o, 12, i);
        }
      }
    } else {
      var i: nat :| i < 12 && Bit(o, i) && !Bit(s, i);
      BitAndBits(o, s, i);
    }
  }

  /** For 12-bit numbers, `SupersetNum(s, o)` says that every bit of `s` is a
      bit of `o` and the two differ. */
  lemma SupersetNumMeaning(s: nat, o: nat)
    requires s < 4096
    ensures SupersetNum(s, o) <==> s != 0 && s != o && forall i :: 0 <= i < 12 ==> Bit(s, i) ==> Bit(o, i)
  {
    BitOrSuperset(o, s);
    if forall i :: 0 <= i < 12 ==> Bit(s, i) ==> Bit(o, i) {
      forall i: nat | Bit(s, i)
        ensures Bit(o, i)
      {
        if i >= 12 {
          assert Pow2(12) == 4096;
          BitHigh(s, 12, i);
        }
      }
    } else {
      var i: nat :| i < 12 && Bit(s, i) && !Bit(o, i);
      BitOrBits(o, s, i);
    }
  }

  /** `SubsetNum` read through pitch classes. */
  lemma SubsetHas(p1: Pcset, p2: Pcset)
    requires p2.setNum < 4096
    ensures SubsetNum(p1.setNum, p2.setNum) <==>
              p1.setNum != 0 && p1.setNum != p2.setNum &&
              forall k :: 0 <= k < 12 ==> Has(p2, k) ==> Has(p1, k)
  {
    SubsetNumMeaning(p1.setNum, p2.setNum);
    if forall k :: 0 <= k < 12 ==> Has(p2, k) ==> Has(p1, k) {
      forall i | 0 <= i < 12 && Bit(p2.setNum, i)
        ensures Bit(p1.setNum, i)
      {
        assert Has(p2, 11 - i);
      }
    } else {
      var k :| 0 <= k < 12 && Has(p2, k) && !Has(p1, k);
      BitAndBits(p2.setNum, p1.setNum, 11 - k);
    }
  }

  /** `SupersetNum` read through pitch classes. */
  lemma SupersetHas(p1: Pcset, p2: Pcset)
    requires p1.setNum < 4096
    ensures SupersetNum(p1.setNum, p2.setNum) <==>
              p1.setNum != 0 && p1.setNum != p2.setNum &&
              forall k :: 0 <= k < 12 ==> Has(p1, k) ==> Has(p2, k)
  {
    SupersetNumMeaning(p1.setNum, p2.setNum);
    if forall k :: 0 <= k < 12 ==> Has(p1, k) ==> Has(p2, k) {
      forall i | 0 <= i < 12 && Bit(p1.setNum, i)
        ensures Bit(p2.setNum, i)
      {
        assert Has(p1, 11 - i);
      }
    } else {
      var k :| 0 <= k < 12 && Has(p1, k) && !Has(p2, k);
      BitOrBits(p2.setNum, p1.setNum, 11 - k);
    }
  }

  /** Every pitch class of `s2` is in `s1`, and the two sets differ and `s1`
      is not empty. The test is false for equal sets. */
  lemma SubsetMeaning(s1: Source, s2: Source)
    requires !Throws(s1) && !Throws(s2)
    ensures IsSubsetOf(s1, s2) <==>
              Get(s1).setNum != 0 && Get(s1).setNum != Get(s2).setNum &&
              forall k :: 0 <= k < 12 ==> Has(Get(s2), k) ==> Has(Get(s1), k)
  {
    GetSetNum(s2);
    SubsetHas(Get(s1), Get(s2));
  }

  /** `s1` is not empty, differs from `s2`, and every pitch class of `s1` is
      in `s2`: `s2` holds all of `s1` and more. */
  lemma SupersetMeaning(s1: Source, s2: Source)
    requires !Throws(s1) && !Throws(s2)
    ensures IsSupersetOf(s1, s2) <==>
              Get(s1).setNum != 0 && Get(s1).setNum != Get(s2).setNum &&
              forall k :: 0 <= k < 12 ==> Has(Get(s1), k) ==> Has(Get(s2), k)
  {
    GetSetNum(s1);
    SupersetHas(Get(s1), Get(s2));
  }

  // Normalized

  /** For a chroma with at least one '1', the normalized chroma is a rotation
      of it that starts with '1', and its value is the least among the
      rotations that start with '1'. */
  lemma NormalizedMeaning(chroma: string)
    requires IsChroma(chroma) && exists k :: 0 <= k < 12 && chroma[k] == '1'
    ensures exists i :: 0 <= i < 12 && Normalized(chroma) == A.Rotate(i, chroma)
    ensures Normalized(chroma)[0] == '1'
    ensures forall i :: 0 <= i < 12 && A.Rotate(i, chroma)[0] == '1' ==>
              BinaryValue(Normalized(chroma)) <= BinaryValue(A.Rotate(i, chroma))
  {
    var i := LeastRotation(chroma);
    var r := A.Rotate(i, chroma);
    RotationValue(chroma, i);
    ToBinaryOfValue(r);
  }

  /** The rotation whose value the string sort puts first. */
  lemma LeastRotation(chroma: string) returns (i: int)
    requires IsChroma(chroma) && exists k :: 0 <= k < 12 && chroma[k] == '1'
    ensures 0 <= i < 12 && A.Rotate(i, chroma)[0] == '1'
    ensures IsBinary(A.Rotate(i, chroma))
    ensures Normalized(chroma) == ToBinary(BinaryValue(A.Rotate(i, chroma)))
    ensures forall j :: 0 <= j < 12 && A.Rotate(j, chroma)[0] == '1' ==>
              BinaryValue(A.Rotate(i, chroma)) <= BinaryValue(A.Rotate(j, chroma))
  {
    var k :| 0 <= k < 12 && chroma[k] == '1';
    var m := NormalizedIsMin(chroma, k);
    i := RotationOfValue(chroma, m);
    MinBelowRotations(chroma, m);
  }

  /** The string sort picks the least candidate. */
  lemma NormalizedIsMin(chroma: string, k: int) returns (m: nat)
    requires IsChroma(chroma) && 0 <= k < 12 && chroma[k] == '1'
    ensures RotationsBinaryOk(chroma)
    ensures m in Candidates(Rotations(chroma))
    ensures forall x :: x in Candidates(Rotations(chroma)) ==> m <= x
    ensures Normalized(chroma) == ToBinary(m)
  {
    RotationValue(chroma, k);
    CandidateOf(chroma, k);
    var cands := Candidates(Rotations(chroma));
    CandidatesRange(chroma);
    SortedFirstIsMin(cands);
    m := Min(cands);
  }

  lemma RotationOfValue(chroma: string, m: nat) returns (i: int)
    requires IsChroma(chroma) && RotationsBinaryOk(chroma) && m in Candidates(Rotations(chroma))
    ensures 0 <= i < 12 && A.Rotate(i, chroma)[0] == '1'
    ensures IsBinary(A.Rotate(i, chroma)) && BinaryValue(A.Rotate(i, chroma)) == m
  {
    var rs := Rotations(chroma);
    i := CandidateFrom(rs, m);
    assert rs[i] == A.Rotate(i, chroma);
    RotationValue(chroma, i);
  }

  lemma MinBelowRotations(chroma: string, m: nat)
    requires IsChroma(chroma) && RotationsBinaryOk(chroma)
    requires forall x :: x in Candidates(Rotations(chroma)) ==> m <= x
    ensures forall j :: 0 <= j < 12 && A.Rotate(j, chroma)[0] == '1' ==>
              m <= BinaryValue(A.Rotate(j, chroma))
  {
    forall j | 0 <= j < 12 && A.Rotate(j, chroma)[0] == '1'
      ensures m <= BinaryValue(A.Rotate(j, chroma))
    {
      CandidateOf(chroma, j);
    }
  }

  /** The value of a rotation that starts with '1' is a candidate. */
  lemma CandidateOf(chroma: string, j: int)
    requires IsChroma(chroma) && 0 <= j < 12 && A.Rotate(j, chroma)[0] == '1'
    ensures RotationsBinaryOk(chroma)
    ensures BinaryValue(A.Rotate(j, chroma)) in Candidates(Rotations(chroma))
  {
    RotationsBinary(chroma);
    RotationValue(chroma, j);
    var rs := Rotations(chroma);
    assert rs[j] == A.Rotate(j, chroma);
    CandidatesHas(rs, j);
  }

  predicate RotationsBinaryOk(chroma: string)
  {
    forall k :: 0 <= k < |Rotations(chroma)| ==> IsBinary(Rotations(chroma)[k])
  }

  /** Every candidate of a 12-character chroma lies in 2048 … 4095. */
  lemma CandidatesRange(chroma: string)
    requires IsChroma(chroma)
    ensures RotationsBinaryOk(chroma)
    ensures forall x :: x in Candidates(Rotations(chroma)) ==> 2048 <= x <= 4095
  {
    RotationsBinary(chroma);
    forall x | x in Candidates(Rotations(chroma))
      ensures x <= 4095
    {
      CandidateBelow(chroma, x);
    }
  }

  lemma CandidateBelow(chroma: string, x: nat)
    requires IsChroma(chroma) && RotationsBinaryOk(chroma) && x in Candidates(Rotations(chroma))
    ensures x <= 4095
  {
    var rs := Rotations(chroma);
    var k := CandidateFrom(rs, x);
    assert rs[k] == A.Rotate(k, chroma);
    RotationValue(chroma, k);
    BinaryValueBounds(rs[k]);
    Pow2Twelve();
  }

  lemma {:induction false} CandidatesHas(rs: seq<string>, k: int)
    requires forall j :: 0 <= j < |rs| ==> IsBinary(rs[j])
    requires 0 <= k < |rs| && BinaryValue(rs[k]) >= 2048
    ensures BinaryValue(rs[k]) in Candidates(rs)
  {
    if k > 0 {
      assert rs[1..][k - 1] == rs[k];
      CandidatesHas(rs[1..], k - 1);
    }
  }

  lemma {:induction false} CandidateFrom(rs: seq<string>, x: nat) returns (k: int)
    requires forall j :: 0 <= j < |rs| ==> IsBinary(rs[j])
    requires x in Candidates(rs)
    ensures 0 <= k < |rs| && BinaryValue(rs[k]) == x && x >= 2048
  {
    if BinaryValue(rs[0]) >= 2048 && x == BinaryValue(rs[0]) {
      k := 0;
    } else {
      assert x in Candidates(rs[1..]);
      k := CandidateFrom(rs[1..], x);
      assert rs[1..][k] == rs[k + 1];
      k := k + 1;
    }
  }

  lemma ModSelf(k: int)
    requires 0 <= k < 12
    ensures (0 + k) % 12 == k
  {}

  lemma RotationsBinary(chroma: string)
    requires IsBinary(chroma)
    ensures forall k :: 0 <= k < |chroma| ==> IsBinary(Rotations(chroma)[k])
  {
    forall k | 0 <= k < |chroma|
      ensures IsBinary(Rotations(chroma)[k])
    {
      var r := Rotations(chroma)[k];
      forall j | 0 <= j < |r|
        ensures r[j] == '0' || r[j] == '1'
      {
        assert r[j] == chroma[(j + k) % |chroma|];
      }
    }
  }

  /** A rotation of a 12-character chroma has a value of at least 2048
      exactly when it starts with '1'. */
  lemma RotationValue(chroma: string, i: int)
    requires IsChroma(chroma) && 0 <= i < 12
    ensures IsBinary(A.Rotate(i, chroma)) && |A.Rotate(i, chroma)| == 12
    ensures A.Rotate(i, chroma)[0] == chroma[i]
    ensures BinaryValue(A.Rotate(i, chroma)) >= 2048 <==> A.Rotate(i, chroma)[0] == '1'
  {
    RotationsBinary(chroma);
    var r := Rotations(chroma)[i];
    assert r == A.Rotate(i, chroma);
    ModSelf(i);
    BinaryValueBounds(r);
    assert Pow2(11) == 2048;
    if r[0] == '0' {
      BinaryValueBounds(r[1..]);
      assert r == [r[0]] + r[1..];
      ZeroPrefixValue(r);
    }
  }

  /** A leading '0' adds nothing to a numeral's value. */
  lemma ZeroPrefixValue(r: string)
    requires IsBinary(r) && |r| > 0 && r[0] == '0'
    ensures BinaryValue(r) == BinaryValue(r[1..])
  {
    forall i: nat
      ensures Bit(BinaryValue(r), i) == Bit(BinaryValue(r[1..]), i)
    {
      BinaryValueBit(r, i);
      BinaryValueBit(r[1..], i);
      if i < |r| - 1 {
        assert r[1..][|r| - 2 - i] == r[|r| - 1 - i];
      }
    }
    BitsEqual(BinaryValue(r), BinaryValue(r[1..]));
  }

  // Modes

  /** The list `modes` maps: rotation `i` of the chroma's characters, or
      null when normalising and it starts with '0'. */
  function ModeCandidates(chroma: string, normalize: bool): (r: seq<Option<string>>)
    ensures |r| == |chroma|
  {
    seq(|chroma|, i requires 0 <= i < |chroma| =>
      var r := A.Rotate(i, chroma);
      if normalize && r[0] == '0' then None else Some(r))
  }

  /** `modes(set, normalize)`. */
  function Modes(src: Source, normalize: bool): seq<string>
    requires !Throws(src)
  {
    A.Compact(ModeCandidates(Get(src).chroma, normalize))
  }

  /** Without normalising, the modes are the rotations of the chroma, one
      per position. */
  lemma ModesAll(src: Source)
    requires !Throws(src)
    ensures |Modes(src, false)| == |Get(src).chroma|
    ensures forall i :: 0 <= i < |Get(src).chroma| ==> Modes(src, false)[i] == A.Rotate(i, Get(src).chroma)
  {
    RotationsAll(Get(src).chroma);
  }

  lemma RotationsAll(c: string)
    ensures |A.Compact(ModeCandidates(c, false))| == |c|
    ensures forall i :: 0 <= i < |c| ==> A.Compact(ModeCandidates(c, false))[i] == A.Rotate(i, c)
  {
    A.CompactPresent(ModeCandidates(c, false));
  }

  /** Normalised, the modes of a 12-character chroma are the rotations that
      start with '1': one per '1' of the chroma. */
  lemma NormalizedModes(c: string)
    requires IsChroma(c)
    ensures |A.Compact(ModeCandidates(c, true))| == Ones(c, 0)
    ensures forall m :: m in A.Compact(ModeCandidates(c, true)) ==>
              |m| == 12 && m[0] == '1' && exists i :: 0 <= i < 12 && m == A.Rotate(i, c)
  {
    var xs := ModeCandidates(c, true);
    ModesCount(c, 0);
    assert xs[0..] == xs;
    A.CompactMembers(xs);
    forall m | m in A.Compact(xs)
      ensures |m| == 12 && m[0] == '1' && exists i :: 0 <= i < 12 && m == A.Rotate(i, c)
    {
      assert Some(m) in xs;
      var i :| 0 <= i < 12 && xs[i] == Some(m);
      ModSelf(i);
    }
  }

  /** `modes(set, true)` of a set with a 12-character chroma. */
  lemma ModesNormalized(src: Source)
    requires !Throws(src) && IsChroma(Get(src).chroma)
    ensures |Modes(src, true)| == Ones(Get(src).chroma, 0)
    ensures forall m :: m in Modes(src, true) ==>
              |m| == 12 && m[0] == '1' && exists i :: 0 <= i < 12 && m == A.Rotate(i, Get(src).chroma)
  {
    NormalizedModes(Get(src).chroma);
  }

  lemma {:induction false} ModesCount(c: string, i: nat)
    requires IsChroma(c) && i <= 12
    ensures |A.Compact(ModeCandidates(c, true)[i..])| == Ones(c, i)
    decreases 12 - i
  {
    var xs := ModeCandidates(c, true);
    if i < 12 {
      ModesCount(c, i + 1);
      assert xs[i..] == [xs[i]] + xs[i + 1..];
      A.CompactAppend([xs[i]], xs[i + 1..]);
      ModSelf(i);
      assert A.Rotate(i, c)[0] == c[i];
      assert [xs[i]][1..] == [];
    } else {
      assert xs[i..] == [];
    }
  }

  // The examples of the source's documentation

  /** A letter with an optional octave number names the letter's pitch class. */
  lemma NaturalChroma(s: string, c: int)
    requires |s| > 0 && N.IsLetter(s[0]) && forall k :: 1 <= k < |s| ==> IsDigit(s[k])
    requires c == Pitch.SEMI[N.LetterStep(N.Upper(s[0]))]
    ensures NameChroma(s) == Some(c)
  {
    N.ParseNatural(s);
  }

  lemma ListChromaOf(names: seq<string>, cs: seq<Option<int>>)
    requires |names| > 0 && Chromas(names) == cs
    ensures ListChroma(names) == MarksText(Marks(cs))
  {}

  lemma MarksOfThree(a: int, b: int, c: int)
    requires 0 <= a < 12 && 0 <= b < 12 && 0 <= c < 12
    ensures Marks([Some(a), Some(b), Some(c)]) == seq(12, _ => false)[a := true][b := true][c := true]
  {
    var cs := [Some(a), Some(b), Some(c)];
    MarksOfTwo(a, b);
    assert cs[..2] == [Some(a), Some(b)];
  }

  lemma MarksOfTwo(a: int, b: int)
    requires 0 <= a < 12 && 0 <= b < 12
    ensures Marks([Some(a), Some(b)]) == seq(12, _ => false)[a := true][b := true]
  {
    var cs := [Some(a), Some(b)];
    assert cs[..1] == [Some(a)] && cs[..1][..0] == [];
    assert Marks([]) == seq(12, _ => false);
    assert Marks([Some(a)]) == seq(12, _ => false)[a := true];
  }

  /** `listToChroma(["C", "E", "G"])`. */
  lemma ListChromaTriad(x: string, y: string, z: string)
    requires x == "C" && y == "E" && z == "G"
    ensures ListChroma([x, y, z]) == "100010010000"
  {
    NaturalChroma(x, 0);
    NaturalChroma(y, 4);
    NaturalChroma(z, 7);
    ChromasOfThree(x, y, z);
    ThreeChroma([x, y, z], 0, 4, 7);
    TriadText();
  }

  /** `listToChroma(["c6", "e4", "g3"])`. */
  lemma ListChromaVoicing(x: string, y: string, z: string)
    requires x == "c6" && y == "e4" && z == "g3"
    ensures ListChroma([x, y, z]) == "100010010000"
  {
    NaturalChroma(x, 0);
    NaturalChroma(y, 4);
    NaturalChroma(z, 7);
    ChromasOfThree(x, y, z);
    ThreeChroma([x, y, z], 0, 4, 7);
    TriadText();
  }

  /** `listToChroma(["e6", "c4"])`. */
  lemma ListChromaThird(x: string, y: string)
    requires x == "e6" && y == "c4"
    ensures ListChroma([x, y]) == "100010000000"
  {
    NaturalChroma(x, 4);
    NaturalChroma(y, 0);
    ChromasOfTwo(x, y);
    TwoChroma([x, y], 4, 0);
    ThirdText();
  }

  lemma ThreeChroma(names: seq<string>, a: int, b: int, c: int)
    requires |names| == 3 && 0 <= a < 12 && 0 <= b < 12 && 0 <= c < 12
    requires Chromas(names) == [Some(a), Some(b), Some(c)]
    ensures ListChroma(names) == MarksText(seq(12, _ => false)[a := true][b := true][c := true])
  {
    ListChromaOf(names, [Some(a), Some(b), Some(c)]);
    MarksTextOfThree([Some(a), Some(b), Some(c)], a, b, c);
  }

  lemma ChromasOfThree(x: string, y: string, z: string)
    ensures Chromas([x, y, z]) == [NameChroma(x), NameChroma(y), NameChroma(z)]
  {
    ChromasOfTwo(x, y);
    ChromasSnoc([x, y], z);
    assert [x, y] + [z] == [x, y, z];
  }

  lemma ChromasOfTwo(x: string, y: string)
    ensures Chromas([x, y]) == [NameChroma(x), NameChroma(y)]
  {
    ChromasOfOne(x);
    ChromasSnoc([x], y);
    assert [x] + [y] == [x, y];
  }

  lemma ChromasOfOne(x: string)
    ensures Chromas([x]) == [NameChroma(x)]
  {}

  /** The chroma of one more name is one more chroma. */
  lemma ChromasSnoc(names: seq<string>, x: string)
    ensures Chromas(names + [x]) == Chromas(names) + [NameChroma(x)]
  {
    var l, r := Chromas(names + [x]), Chromas(names) + [NameChroma(x)];
    forall j | 0 <= j < |l|
      ensures l[j] == r[j]
    {
      if j < |names| {
        assert (names + [x])[j] == names[j];
      }
    }
  }

  lemma MarksTextOfThree(cs: seq<Option<int>>, a: int, b: int, c: int)
    requires 0 <= a < 12 && 0 <= b < 12 && 0 <= c < 12
    requires cs == [Some(a), Some(b), Some(c)]
    ensures MarksText(Marks(cs)) == MarksText(seq(12, _ => false)[a := true][b := true][c := true])
  {
    MarksOfThree(a, b, c);
  }

  lemma TwoChroma(names: seq<string>, a: int, b: int)
    requires |names| == 2 && 0 <= a < 12 && 0 <= b < 12
    requires Chromas(names) == [Some(a), Some(b)]
    ensures ListChroma(names) == MarksText(seq(12, _ => false)[a := true][b := true])
  {
    ListChromaOf(names, [Some(a), Some(b)]);
    MarksTextOfTwo([Some(a), Some(b)], a, b);
  }

  lemma MarksTextOfTwo(cs: seq<Option<int>>, a: int, b: int)
    requires 0 <= a < 12 && 0 <= b < 12
    requires cs == [Some(a), Some(b)]
    ensures MarksText(Marks(cs)) == MarksText(seq(12, _ => false)[a := true][b := true])
  {
    MarksOfTwo(a, b);
  }

  lemma TriadText()
    ensures MarksText(seq(12, _ => false)[0 := true][4 := true][7 := true]) == "100010010000"
  {}

  lemma ThirdText()
    ensures MarksText(seq(12, _ => false)[4 := true][0 := true]) == "100010000000"
  {}

  /** The set number of a list of names, from its chroma. */
  lemma NamesSetNum(names: seq<string>, chroma: string, v: nat)
    requires |names| != 1 && ListChroma(names) == chroma && chroma != EMPTY_CHROMA
    requires v == BinaryValue(chroma)
    ensures !Throws(Names(names)) && Get(Names(names)).setNum == v
  {}

  /** `Has` reads position `k` of a 12-character chroma whose value is the
      set number. */
  lemma HasOf(p: Pcset, k: int)
    requires IsChroma(p.chroma) && p.setNum == BinaryValue(p.chroma) && 0 <= k < 12
    ensures Has(p, k) <==> p.chroma[k] == '1'
  {
    BinaryValueBit(p.chroma, 11 - k);
  }

  /** The subset test on the chromas: `p1`'s chroma has a '1', the chromas
      differ, and every '1' of `p2`'s chroma is a '1' of `p1`'s. */
  lemma SubsetChromasOf(p1: Pcset, p2: Pcset)
    requires IsChroma(p1.chroma) && p1.setNum == BinaryValue(p1.chroma)
    requires IsChroma(p2.chroma) && p2.setNum == BinaryValue(p2.chroma)
    ensures SubsetNum(p1.setNum, p2.setNum) <==>
              (exists k :: 0 <= k < 12 && p1.chroma[k] == '1') &&
              p1.chroma != p2.chroma &&
              forall k :: 0 <= k < 12 ==> p2.chroma[k] == '1' ==> p1.chroma[k] == '1'
  {
    BinaryValueBounds(p2.chroma);
    assert Pow2(12) == 4096;
    SubsetHas(p1, p2);
    HasAll(p1);
    HasAll(p2);
    if p1.setNum == p2.setNum {
      BinaryValueInjective(p1.chroma, p2.chroma);
    }
    NonZeroChroma(p1);
  }

  lemma HasAll(p: Pcset)
    requires IsChroma(p.chroma) && p.setNum == BinaryValue(p.chroma)
    ensures forall k :: 0 <= k < 12 ==> (Has(p, k) <==> p.chroma[k] == '1')
  {
    forall k | 0 <= k < 12
      ensures Has(p, k) <==> p.chroma[k] == '1'
    {
      HasOf(p, k);
    }
  }

  /** A set number is zero exactly when its chroma has no '1'. */
  lemma NonZeroChroma(p: Pcset)
    requires IsChroma(p.chroma) && p.setNum == BinaryValue(p.chroma)
    ensures p.setNum != 0 <==> exists k :: 0 <= k < 12 && p.chroma[k] == '1'
  {
    if exists k :: 0 <= k < 12 && p.chroma[k] == '1' {
      var k :| 0 <= k < 12 && p.chroma[k] == '1';
      HasOf(p, k);
      BitOfZero(11 - k);
    } else {
      assert p.chroma == EMPTY_CHROMA;
      EmptyChromaValue();
    }
  }

  /** For sets with 12-character chromas the subset test reads the chromas. */
  lemma SubsetChromas(s1: Source, s2: Source)
    requires !Throws(s1) && !Throws(s2)
    requires |Get(s1).chroma| == 12 && |Get(s2).chroma| == 12
    ensures IsSubsetOf(s1, s2) <==>
              (exists k :: 0 <= k < 12 && Get(s1).chroma[k] == '1') &&
              Get(s1).chroma != Get(s2).chroma &&
              forall k :: 0 <= k < 12 ==> Get(s2).chroma[k] == '1' ==> Get(s1).chroma[k] == '1'
  {
    GetSetNum(s1);
    GetSetNum(s2);
    SubsetChromasOf(Get(s1), Get(s2));
  }

  /** The superset test on the chromas: `p1`'s chroma has a '1', the chromas
      differ, and every '1' of `p1`'s chroma is a '1' of `p2`'s. */
  lemma SupersetChromasOf(p1: Pcset, p2: Pcset)
    requires IsChroma(p1.chroma) && p1.setNum == BinaryValue(p1.chroma)
    requires IsChroma(p2.chroma) && p2.setNum == BinaryValue(p2.chroma)
    ensures SupersetNum(p1.setNum, p2.setNum) <==>
              (exists k :: 0 <= k < 12 && p1.chroma[k] == '1') &&
              p1.chroma != p2.chroma &&
              forall k :: 0 <= k < 12 ==> p1.chroma[k] == '1' ==> p2.chroma[k] == '1'
  {
    BinaryValueBounds(p1.chroma);
    assert Pow2(12) == 4096;
    SupersetHas(p1, p2);
    forall k | 0 <= k < 12
      ensures (Has(p1, k) <==> p1.chroma[k] == '1') && (Has(p2, k) <==> p2.chroma[k] == '1')
    {
      HasOf(p1, k);
      HasOf(p2, k);
    }
    if p1.setNum == p2.setNum {
      BinaryValueInjective(p1.chroma, p2.chroma);
    }
    if exists k :: 0 <= k < 12 && p1.chroma[k] == '1' {
      var k :| 0 <= k < 12 && p1.chroma[k] == '1';
      BitOfZero(11 - k);
    } else {
      assert p1.chroma == EMPTY_CHROMA;
      EmptyChromaValue();
    }
  }

  /** A chroma given as text is the set it spells. */
  lemma TextPcset(c: string)
    requires IsChroma(c)
    ensures Get(Text(c)).chroma == c && Get(Text(c)).setNum == BinaryValue(c)
  {
    GetSetNum(Text(c));
  }

  /** For two chromas given as text, `isSubsetOf(a)(b)`: `a` has a '1', the
      two differ and every '1' of `b` is a '1' of `a`. */
  lemma TextSubset(a: string, b: string)
    requires IsChroma(a) && IsChroma(b)
    ensures IsSubsetOf(Text(a), Text(b)) <==>
              (exists k :: 0 <= k < 12 && a[k] == '1') && a != b &&
              forall k :: 0 <= k < 12 ==> b[k] == '1' ==> a[k] == '1'
  {
    TextPcset(a);
    TextPcset(b);
    SubsetChromasOf(Get(Text(a)), Get(Text(b)));
  }

  /** For two chromas given as text, `isSupersetOf(a)(b)`: `a` has a '1',
      the two differ and every '1' of `a` is a '1' of `b`. */
  lemma TextSuperset(a: string, b: string)
    requires IsChroma(a) && IsChroma(b)
    ensures IsSupersetOf(Text(a), Text(b)) <==>
              (exists k :: 0 <= k < 12 && a[k] == '1') && a != b &&
              forall k :: 0 <= k < 12 ==> a[k] == '1' ==> b[k] == '1'
  {
    TextPcset(a);
    TextPcset(b);
    SupersetChromasOf(Get(Text(a)), Get(Text(b)));
  }

  /** Text that is not a chroma is the empty set, which is neither a subset
      nor a superset of anything. */
  lemma TextNotChroma(a: string, b: Source)
    requires !IsChroma(a) && !Throws(b)
    ensures !IsSubsetOf(Text(a), b) && !IsSupersetOf(Text(a), b)
  {
    EmptyChromaValue();
  }

  /** `inCMajor(["e6", "c4"])` is true. */
  lemma SubsetExample(major: Source, third: Source)
    requires major == Names(["C", "E", "G"]) && third == Names(["e6", "c4"])
    ensures !Throws(major) && !Throws(third)
    ensures IsSubsetOf(major, third)
  {
    TriadSource(major);
    ThirdSource(third);
    SubsetTriadThird(Get(major), Get(third));
  }

  /** The set of C, E, G. */
  lemma TriadSource(src: Source)
    requires src == Names(["C", "E", "G"])
    ensures !Throws(src) && Get(src).chroma == "100010010000"
    ensures Get(src).setNum == BinaryValue(Get(src).chroma)
  {
    ListChromaTriad("C", "E", "G");
    GetSetNum(src);
  }

  /** The set of e6, c4. */
  lemma ThirdSource(src: Source)
    requires src == Names(["e6", "c4"])
    ensures !Throws(src) && Get(src).chroma == "100010000000"
    ensures Get(src).setNum == BinaryValue(Get(src).chroma)
  {
    ListChromaThird("e6", "c4");
    GetSetNum(src);
  }

  /** The set of c6, e4, g3. */
  lemma VoicingSource(src: Source)
    requires src == Names(["c6", "e4", "g3"])
    ensures !Throws(src) && Get(src).chroma == "100010010000"
    ensures Get(src).setNum == BinaryValue(Get(src).chroma)
  {
    ListChromaVoicing("c6", "e4", "g3");
    GetSetNum(src);
  }

  lemma SubsetTriadThird(p1: Pcset, p2: Pcset)
    requires p1.chroma == "100010010000" && p1.setNum == BinaryValue(p1.chroma)
    requires p2.chroma == "100010000000" && p2.setNum == BinaryValue(p2.chroma)
    ensures SubsetNum(p1.setNum, p2.setNum)
  {
    assert p1.chroma[0] == '1' && p1.chroma[7] != p2.chroma[7];
    SubsetChromasOf(p1, p2);
  }

  /** `extendsCMajor(["c6", "e4", "g3"])` is false: the notes are the set itself. */
  lemma SupersetExample(major: Source, voicing: Source)
    requires major == Names(["C", "E", "G"]) && voicing == Names(["c6", "e4", "g3"])
    ensures !Throws(major) && !Throws(voicing)
    ensures !IsSupersetOf(major, voicing)
  {
    TriadSource(major);
    VoicingSource(voicing);
  }

  // All chromas

  /** The set numbers `2048 + k` … 4095 written in binary. */
  function ChromasFrom(k: nat): (r: seq<string>)
    requires k <= 2048
    ensures |r| == 2048 - k
    decreases 2048 - k
  {
    if k == 2048 then [] else [ToBinary(2048 + k)] + ChromasFrom(k + 1)
  }

  /** `chromas()`: the set numbers 2048 … 4095 written in binary. */
  function AllChromas(): (r: seq<string>)
    ensures |r| == 2048
  {
    ChromasFrom(0)
  }

  lemma {:induction false} ChromasFromAt(k: nat)
    requires k <= 2048
    ensures forall i :: 0 <= i < 2048 - k ==> ChromasFrom(k)[i] == ToBinary(2048 + k + i)
    decreases 2048 - k
  {
    if k < 2048 {
      ChromasFromAt(k + 1);
    }
  }

  lemma Pow2Twelve()
    ensures Pow2(11) == 2048 && Pow2(12) == 4096
  {}

  /** A set number from 2048 to 4095 is written as a chroma starting with C. */
  lemma ChromaOfSetNum(n: nat)
    requires 2048 <= n < 4096
    ensures IsChroma(ToBinary(n)) && ToBinary(n)[0] == '1' && BinaryValue(ToBinary(n)) == n
  {
    Pow2Twelve();
    ToBinaryLength(n, 12);
    ToBinaryValue(n);
  }

  /** `chromas()` lists, in ascending order of set number, exactly the
      chromas that start with C. */
  lemma AllChromasMeaning()
    ensures forall k :: 0 <= k < 2048 ==>
      IsChroma(AllChromas()[k]) && AllChromas()[k][0] == '1' && BinaryValue(AllChromas()[k]) == 2048 + k
    ensures forall c :: IsChroma(c) && c[0] == '1' ==> c in AllChromas()
  {
    AllChromasEntries();
    AllChromasComplete();
  }

  lemma AllChromasEntries()
    ensures forall k :: 0 <= k < 2048 ==>
      IsChroma(AllChromas()[k]) && AllChromas()[k][0] == '1' && BinaryValue(AllChromas()[k]) == 2048 + k
  {
    forall k | 0 <= k < 2048
      ensures IsChroma(AllChromas()[k]) && AllChromas()[k][0] == '1' && BinaryValue(AllChromas()[k]) == 2048 + k
    {
      AllChromasEntry(k);
    }
  }

  lemma AllChromasEntry(k: int)
    requires 0 <= k < 2048
    ensures IsChroma(AllChromas()[k]) && AllChromas()[k][0] == '1' && BinaryValue(AllChromas()[k]) == 2048 + k
  {
    ChromasFromAt(0);
    var c := AllChromas()[k];
    assert c == ToBinary(2048 + k);
    ChromaOfSetNum(2048 + k);
  }

  lemma AllChromasComplete()
    ensures forall c :: IsChroma(c) && c[0] == '1' ==> c in AllChromas()
  {
    forall c | IsChroma(c) && c[0] == '1'
      ensures c in AllChromas()
    {
      AllChromasHas(c);
    }
  }

  lemma AllChromasHas(c: string)
    requires IsChroma(c) && c[0] == '1'
    ensures c in AllChromas()
  {
    var k := ChromaIndex(c);
    ChromasFromAt(0);
    assert AllChromas()[k] == ToBinary(2048 + k);
  }

  /** A chroma starting with '1' is written by its value, in 2048 … 4095. */
  lemma ChromaIndex(c: string) returns (k: int)
    requires IsChroma(c) && c[0] == '1'
    ensures 0 <= k < 2048 && c == ToBinary(2048 + k)
  {
    Pow2Twelve();
    BinaryValueBounds(c);
    ToBinaryOfValue(c);
    k := BinaryValue(c) - 2048;
  }

  // Notes in a set

  /** `isNoteIncludedInSet` for the set `p`: the note parses and its chroma
      indexes a '1' of the set's chroma (`charAt` outside the string gives ""). */
  predicate IncludedIn(p: Pcset, noteName: string)
  {
    var n := N.Parse(noteName);
    n.Note? && 0 <= n.chroma < |p.chroma| && p.chroma[n.chroma] == '1'
  }

  /** `isNoteIncludedInSet(pcs)(noteName)`. */
  predicate IsNoteIncludedInSet(pcs: Source, noteName: string)
    requires !Throws(pcs)
  {
    IncludedIn(Get(pcs), noteName)
  }

  /** A note with at most 120 flats is in a set exactly when it parses and
      the set has its pitch class. */
  lemma IncludedInMeaning(p: Pcset, noteName: string)
    requires IsChroma(p.chroma) && p.setNum == BinaryValue(p.chroma)
    requires N.Parse(noteName).Note? ==> N.Parse(noteName).alt >= -120
    ensures N.Parse(noteName).Note? ==> 0 <= N.Parse(noteName).chroma < 12
    ensures IncludedIn(p, noteName) <==> N.Parse(noteName).Note? && Has(p, N.Parse(noteName).chroma)
  {
    if N.Parse(noteName).Note? {
      N.ParseChroma(noteName);
      HasOf(p, N.Parse(noteName).chroma);
    }
  }

  lemma IsNoteIncludedInSetMeaning(pcs: Source, noteName: string)
    requires !Throws(pcs) && |Get(pcs).chroma| == 12
    requires N.Parse(noteName).Note? ==> N.Parse(noteName).alt >= -120
    ensures N.Parse(noteName).Note? ==> 0 <= N.Parse(noteName).chroma < 12
    ensures IsNoteIncludedInSet(pcs, noteName) <==>
            N.Parse(noteName).Note? && Has(Get(pcs), N.Parse(noteName).chroma)
  {
    GetSetNum(pcs);
    IncludedInMeaning(Get(pcs), noteName);
  }

  /** The notes of a list that are in the set `p`, in their order. */
  function FilterBy(p: Pcset, notes: seq<string>): (r: seq<string>)
    ensures |r| <= |notes|
  {
    if |notes| == 0 then []
    else (if IncludedIn(p, notes[0]) then [notes[0]] else []) + FilterBy(p, notes[1..])
  }

  /** `filter(pcs)(notes)`. */
  function Filter(pcs: Source, notes: seq<string>): seq<string>
    requires !Throws(pcs)
  {
    FilterBy(Get(pcs), notes)
  }

  /** The filtered list holds exactly the notes of the list that are in the set. */
  lemma {:induction false} FilterByMembers(p: Pcset, notes: seq<string>)
    ensures forall x :: x in FilterBy(p, notes) <==> x in notes && IncludedIn(p, x)
  {
    if |notes| > 0 {
      FilterByMembers(p, notes[1..]);
      assert notes == [notes[0]] + notes[1..];
    }
  }

  /** Filtering keeps the order of the list: filtering two lists one after
      the other is filtering their concatenation. */
  lemma {:induction false} FilterByAppend(p: Pcset, a: seq<string>, b: seq<string>)
    ensures FilterBy(p, a + b) == FilterBy(p, a) + FilterBy(p, b)
  {
    if |a| > 0 {
      var ab := a + b;
      assert ab[0] == a[0];
      assert ab[1..] == a[1..] + b;
      FilterByAppend(p, a[1..], b);
      FilterByCons(p, ab);
      FilterByCons(p, a);
    } else {
      assert a + b == b;
    }
  }

  lemma FilterByCons(p: Pcset, notes: seq<string>)
    requires |notes| > 0
    ensures FilterBy(p, notes) == (if IncludedIn(p, notes[0]) then [notes[0]] else []) + FilterBy(p, notes[1..])
  {}

  lemma FilterMembers(pcs: Source, notes: seq<string>)
    requires !Throws(pcs)
    ensures forall x :: x in Filter(pcs, notes) <==> x in notes && IsNoteIncludedInSet(pcs, x)
  {
    FilterByMembers(Get(pcs), notes);
  }

  /** The notes C4 and C#4 against a set whose chroma is C, E, G. */
  lemma IncludedInTriad(p: Pcset, c4: string, cSharp4: string)
    requires p.chroma == "100010010000" && c4 == "C4" && cSharp4 == "C#4"
    ensures IncludedIn(p, c4) && !IncludedIn(p, cSharp4)
  {
    N.ParseNatural(c4);
    N.ParseSharp(cSharp4);
    assert N.LetterStep('C') == 0;
  }

  /** `isNoteInCMajor('C4')` is true and `isNoteInCMajor('C#4')` false, for
      the set C, E, G. */
  lemma IncludedExample(major: Source, c4: string, cSharp4: string)
    requires major == Names(["C", "E", "G"]) && c4 == "C4" && cSharp4 == "C#4"
    ensures !Throws(major)
    ensures IsNoteIncludedInSet(major, c4) && !IsNoteIncludedInSet(major, cSharp4)
  {
    TriadSource(major);
    IncludedInTriad(Get(major), c4, cSharp4);
  }
}
