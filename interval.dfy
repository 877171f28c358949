/** The interval model (js/app.js:1300-1413): the tokenizer of interval names in
    both notations ("3M" and "M3"), the parser that derives number, quality,
    alteration, direction, size and coordinate, and the inverse direction from
    a pitch (an interval's step, alteration, octave and direction) to its name. */
module Interval {
  import opened JsText
  import opened Pitch
  import opened Wrappers

  /** An interval whose step has a perfect form (unison, fourth, fifth) or a
      major form (second, third, sixth, seventh). */
  datatype Kind = Perfectable | Majorable

  /** `TYPES = "PMMPPMM"`, by step. */
  const TYPES: seq<Kind> := [Perfectable, Majorable, Majorable, Perfectable, Perfectable, Majorable, Majorable]

  /** `TYPES[step] === "M"` is false for a step outside 0..6. */
  function KindOf(step: int): Kind
  {
    if ValidStep(step) then TYPES[step] else Perfectable
  }

  /** The number and quality groups of the interval regular expression. */
  datatype Tokens = Tokens(num: string, q: string)

  predicate AllChar(s: string, c: char) { forall k :: 0 <= k < |s| ==> s[k] == c }

  /** A quality either notation can produce. */
  predicate IsQuality(q: string)
  {
    q == "m" || q == "M" || q == "P" ||
    (1 <= |q| <= 4 && (AllChar(q, 'A') || AllChar(q, 'd')))
  }

  /** The tonal notation `^([-+]?\d+)(d{1,4}|m|M|P|A{1,4})`, tried only at the
      start of the string and not anchored at its end. */
  function TonalTokens(s: string): (r: Option<Tokens>)
    ensures r.Some? ==> IsSignedDigits(r.value.num) && IsQuality(r.value.q)
  {
    var a := if |s| > 0 && (s[0] == '-' || s[0] == '+') then 1 else 0;
    var d := RunEnd(s, a, IsDigit);
    if d == a || d == |s| then None
    else
      assert AllDigits(s[a..d]) by {
        RunEndRun(s, a, IsDigit);
        forall k | 0 <= k < d - a ensures IsDigit(s[a..d][k]) { assert s[a..d][k] == s[a + k]; }
      }
      assert s[..d][a..] == s[a..d];
      var c := s[d];
      if c == 'd' || c == 'A' then
        var e := RunEnd(s, d, x => x == c);
        var e4 := if e > d + 4 then d + 4 else e;
        assert AllChar(s[d..e4], c) by {
          RunEndRun(s, d, x => x == c);
          forall k | 0 <= k < e4 - d ensures s[d..e4][k] == c { assert s[d..e4][k] == s[d + k]; }
        }
        Some(Tokens(s[..d], s[d..e4]))
      else if c == 'm' || c == 'M' || c == 'P' then
        assert s[d..d + 1] == [c];
        Some(Tokens(s[..d], s[d..d + 1]))
      else None
  }

  /** The shorthand qualities in the order the alternation tries them. */
  const SHORTHAND: seq<string> := ["AA", "A", "P", "M", "m", "d", "dd"]

  /** The first shorthand quality, from the `k`-th on, that matches at `i` and is
      followed by `[-+]?\d+` up to the end of the string. */
  function ShorthandAt(s: string, i: nat, k: nat): (r: Option<string>)
    requires i <= |s| && k <= |SHORTHAND|
    ensures r.Some? ==> r.value in SHORTHAND && i + |r.value| <= |s| &&
                        s[i..i + |r.value|] == r.value && IsSignedDigits(s[i + |r.value|..])
    decreases |SHORTHAND| - k
  {
    if k == |SHORTHAND| then None
    else
      var q := SHORTHAND[k];
      if i + |q| <= |s| && s[i..i + |q|] == q && IsSignedDigits(s[i + |q|..]) then Some(q)
      else ShorthandAt(s, i, k + 1)
  }

  /** `(AA|A|P|M|m|d|dd)([-+]?\d+)$` searched for from position `i` on. */
  function ShorthandTokens(s: string, i: nat): (r: Option<Tokens>)
    requires i <= |s|
    ensures r.Some? ==> IsSignedDigits(r.value.num) && IsQuality(r.value.q)
    decreases |s| - i
  {
    if i == |s| then None
    else match ShorthandAt(s, i, 0)
      case Some(q) => ShorthandIsQuality(q); Some(Tokens(s[i + |q|..], q))
      case None => ShorthandTokens(s, i + 1)
  }

  lemma ShorthandIsQuality(q: string)
    requires q in SHORTHAND
    ensures IsQuality(q)
  {
    assert AllChar("AA", 'A') && AllChar("dd", 'd');
  }

  /** `tokenize$1`: the tonal form at the start wins; otherwise the leftmost
      shorthand match; `["", ""]` when neither matches. */
  function Tokenize(s: string): (t: Tokens)
    ensures t.num == "" || (IsSignedDigits(t.num) && IsQuality(t.q))
  {
    match TonalTokens(s)
    case Some(t) => t
    case None =>
      match ShorthandTokens(s, 0)
      case Some(t) => t
      case None => Tokens("", "")
  }

  function Abs(n: int): nat { if n < 0 then -n else n }

  /** `qToAlt`. */
  function QToAlt(kind: Kind, q: string): int
  {
    if (q == "M" && kind == Majorable) || (q == "P" && kind == Perfectable) then 0
    else if q == "m" && kind == Majorable then -1
    else if |q| > 0 && AllChar(q, 'A') then |q|
    else if |q| > 0 && AllChar(q, 'd') then (if kind == Perfectable then -|q| else -(|q| + 1))
    else 0
  }

  /** `altToQ`. */
  function AltToQ(kind: Kind, alt: int): string
  {
    if alt == 0 then (if kind == Majorable then "M" else "P")
    else if alt == -1 && kind == Majorable then "m"
    else if alt > 0 then Repeat('A', alt)
    else Repeat('d', if kind == Perfectable then -alt else -(alt + 1))
  }

  /** The result of `interval`. The number 0 (as in "0P" or "-0A") passes the
      parser but then meets no step: its step is -1, and its size, chroma and
      coordinate are NaN; ZeroInterval keeps the fields that are still defined
      (number 0, direction 1, simple number 0, octave -1, perfectable). */
  datatype Interval =
    | NoInterval
    | ZeroInterval(name: string, q: string, alt: int)
    | Interval(name: string, num: int, q: string, step: int, alt: int, dir: int, kind: Kind,
               simple: int, semitones: int, chroma: int, coord: Coord, oct: int)
  {
    /** The `name` property; "" for the NoInterval sentinel. */
    function Name(): string { if NoInterval? then "" else name }
  }

  /** `parse$1`. */
  function Parse(s: string): Interval
  {
    FromTokens(Tokenize(s))
  }

  /** `parse$1` once the name is tokenized. */
  function FromTokens(t: Tokens): Interval
    requires t.num == "" || IsSignedDigits(t.num)
  {
    if t.num == "" then NoInterval
    else
      var num := SignedDigitsValue(t.num);
      if num == 0 then ZeroInterval(IntToString(0) + t.q, t.q, QToAlt(Perfectable, t.q))
      else
        var step := (Abs(num) - 1) % 7;
        var kind := TYPES[step];
        if kind == Majorable && t.q == "P" then NoInterval
        else
          var dir := if num < 0 then -1 else 1;
          var simple := if num == 8 || num == -8 then num else dir * (step + 1);
          var alt := QToAlt(kind, t.q);
          var oct := (Abs(num) - 1) / 7;
          var semitones := dir * (SEMI[step] + alt + 12 * oct);
          var chroma := JsRem(JsRem(dir * (SEMI[step] + alt), 12) + 12, 12);
          Interval(IntToString(num) + t.q, num, t.q, step, alt, dir, kind, simple,
                   semitones, chroma, Encode(Pitch(step, alt, Int(oct), dir)), oct)
  }

  /** `"" + n` for a number that may be NaN. */
  function NumToString(n: Num): string
  {
    match n
    case Int(v) => IntToString(v)
    case _ => "NaN"
  }

  /** `pitchName$1`: the name of an interval given as a pitch; an absent octave
      counts as 0 and a direction of 0 gives "". */
  function PitchName(p: Pitch): string
  {
    if p.dir == 0 then ""
    else
      var num := match p.oct
        case Undefined => Int(p.step + 1)
        case Int(o) => Int(p.step + 1 + 7 * o)
        case NaN => NaN;
      (if p.dir < 0 then "-" else "") + NumToString(num) + AltToQ(KindOf(p.step), p.alt)
  }

  /** `interval(pitch)`. */
  function FromPitch(p: Pitch): Interval
  {
    Parse(PitchName(p))
  }

  /** The size in semitones of a coordinate with an octave part. */
  function Size(c: Coord): int
    requires c.octs.Int?
  {
    7 * c.fifths + 12 * c.octs.v
  }

  /** The number of diatonic steps a coordinate with an octave part spans. */
  function Steps(c: Coord): int
    requires c.octs.Int?
  {
    4 * c.fifths + 7 * c.octs.v
  }

  /** `coordToInterval`: the interval of a coordinate, descending when its size
      in semitones is negative; an absent octave part counts as 0. */
  function CoordToInterval(c: Coord): Interval
  {
    var o := if c.octs.Undefined? then Int(0) else c.octs;
    var ivl := Coord(c.fifths, o);
    CoordToIntervalDir(ivl, o.Int? && Size(ivl) < 0)
  }

  /** The interval a coordinate names when read in the given direction: the
      coordinate decoded as ascending, or its negation decoded as descending. */
  function CoordToIntervalDir(c: Coord, descending: bool): Interval
  {
    if descending then FromPitch(Decode(Negate(c), -1)) else FromPitch(Decode(c, 1))
  }

  /** The qualities valid for a kind: "P" only for perfectable steps, "M" and
      "m" only for majorable ones. */
  predicate QualityFits(kind: Kind, q: string)
  {
    IsQuality(q) &&
    (kind == Majorable ==> q != "P") &&
    (kind == Perfectable ==> q != "M" && q != "m")
  }

  /** altToQ names the alteration that qToAlt reads back, for every alteration. */
  lemma QToAltAltToQ(kind: Kind, alt: int)
    ensures QToAlt(kind, AltToQ(kind, alt)) == alt
  {
    var q := AltToQ(kind, alt);
    if alt > 0 {
      assert q[0] == 'A' && AllChar(q, 'A');
    } else if alt < 0 && !(alt == -1 && kind == Majorable) {
      assert q[0] == 'd' && AllChar(q, 'd');
    }
  }

  /** qToAlt and altToQ are inverse on the qualities that fit the kind. */
  lemma AltToQQToAlt(kind: Kind, q: string)
    requires QualityFits(kind, q)
    ensures AltToQ(kind, QToAlt(kind, q)) == q
  {
    if q != "m" && q != "M" && q != "P" {
      if AllChar(q, 'A') {
        assert Repeat('A', |q|) == q;
      } else {
        assert Repeat('d', |q|) == q;
      }
    }
  }

  /** altToQ writes a quality both notations can read when the alteration is
      within four steps of the plain quality. */
  lemma AltToQIsQuality(kind: Kind, alt: int)
    requires -4 <= alt <= 4 || (kind == Majorable && alt == -5)
    ensures QualityFits(kind, AltToQ(kind, alt))
  {
    var q := AltToQ(kind, alt);
    if alt > 0 {
      assert q[0] == 'A' && AllChar(q, 'A');
    } else if alt < 0 && !(alt == -1 && kind == Majorable) {
      assert q[0] == 'd' && AllChar(q, 'd');
    }
  }

  /** A number written by IntToString followed by a quality is read back as
      those two tokens by the tonal notation. */
  lemma {:induction false} TokenizeName(n: int, q: string)
    requires IsQuality(q)
    ensures Tokenize(IntToString(n) + q) == Tokens(IntToString(n), q)
  {
    var N := IntToString(n);
    var s := N + q;
    NumberRun(n, q);
    var c := q[0];
    if c == 'd' || c == 'A' {
      assert AllChar(q, c);
      RunEndIs(s, |N|, |s|, x => x == c);
    }
    assert s[..|N|] == N && s[|N|..] == q;
  }

  /** In a number written by IntToString and followed by a quality, the digits
      after the optional sign run up to the quality. */
  lemma NumberRun(n: int, q: string)
    requires IsQuality(q)
    ensures var s := IntToString(n) + q; var a := if s[0] == '-' || s[0] == '+' then 1 else 0;
      a < |IntToString(n)| && RunEnd(s, a, IsDigit) == |IntToString(n)|
  {
    var N := IntToString(n);
    var s := N + q;
    var a := if s[0] == '-' || s[0] == '+' then 1 else 0;
    assert a == (if n < 0 then 1 else 0);
    assert forall k :: a <= k < |N| ==> IsDigit(s[k]) by {
      if n < 0 {
        assert N[1..] == NatToString(-n);
        forall k | a <= k < |N| ensures IsDigit(s[k]) { assert s[k] == N[1..][k - 1]; }
      } else {
        forall k | a <= k < |N| ensures IsDigit(s[k]) { assert s[k] == N[k]; }
      }
    }
    assert s[|N|] == q[0];
    RunEndIs(s, a, |N|, IsDigit);
  }

  /** A string that starts with neither a sign nor a digit has no tonal form. */
  lemma TonalTokensNone(s: string)
    requires |s| > 0 && !IsDigit(s[0]) && s[0] != '-' && s[0] != '+'
    ensures TonalTokens(s).None?
  {
    RunEndIs(s, 0, 0, IsDigit);
  }

  /** The `k`-th shorthand quality does not match at `i`: the search moves on. */
  lemma ShorthandAtSkip(s: string, i: nat, k: nat)
    requires i <= |s| && k < |SHORTHAND|
    requires var r := SHORTHAND[k];
      !(i + |r| <= |s| && s[i..i + |r|] == r && IsSignedDigits(s[i + |r|..]))
    ensures ShorthandAt(s, i, k) == ShorthandAt(s, i, k + 1)
  {}

  /** A shorthand quality before a number reads as the same tokens as the
      number followed by the quality ("M3" as "3M"). */
  lemma {:induction false} TokenizeShorthand(q: string, n: int)
    requires q in SHORTHAND
    ensures Tokenize(q + IntToString(n)) == Tokens(IntToString(n), q)
  {
    var N := IntToString(n);
    var s := q + N;
    IntToStringValue(n);
    assert s[|q|..] == N;
    assert s[0] == q[0];
    TonalTokensNone(s);
    ShorthandFirstMatch(q, N);
    assert ShorthandTokens(s, 0) == Some(Tokens(N, q));
  }

  /** Before a signed number, the first shorthand quality to match is the
      one written. */
  lemma ShorthandFirstMatch(q: string, N: string)
    requires q in SHORTHAND && IsSignedDigits(N)
    ensures ShorthandAt(q + N, 0, 0) == Some(q)
  {
    var s := q + N;
    var k :| 0 <= k < |SHORTHAND| && SHORTHAND[k] == q;
    forall j | 0 <= j < k
      ensures ShorthandAt(s, 0, j) == ShorthandAt(s, 0, j + 1)
    {
      ShorthandSkipEarlier(q, N, j, k);
    }
    ShorthandAtChain(s, 0, k);
    assert s[0..|q|] == q && s[|q|..] == N;
    assert ShorthandAt(s, 0, k) == Some(q);
  }

  /** A quality tried before the written one does not match. */
  lemma ShorthandSkipEarlier(q: string, N: string, j: nat, k: nat)
    requires j < k < |SHORTHAND| && SHORTHAND[k] == q && IsSignedDigits(N)
    ensures ShorthandAt(q + N, 0, j) == ShorthandAt(q + N, 0, j + 1)
  {
    var s := q + N;
    var r := SHORTHAND[j];
    assert s[0] == q[0];
    assert r[0] != q[0] || (r == "AA" && q == "A") || (r == "d" && q == "dd");
    if r == "AA" && q == "A" {
      assert s[1..] == N;
    }
    if r == "d" && q == "dd" {
      assert !IsSignedDigits(s[1..]) by { assert s[1..][0] == 'd'; }
    }
    ShorthandAtSkip(s, 0, j);
  }

  lemma {:induction false} ShorthandAtChain(s: string, i: nat, k: nat)
    requires i <= |s| && k <= |SHORTHAND|
    requires forall j :: 0 <= j < k ==> ShorthandAt(s, i, j) == ShorthandAt(s, i, j + 1)
    ensures ShorthandAt(s, i, 0) == ShorthandAt(s, i, k)
  {
    if k > 0 {
      ShorthandAtChain(s, i, k - 1);
    }
  }

  /** Both notations give the same interval. */
  lemma ParseShorthand(q: string, n: int)
    requires q in SHORTHAND
    ensures Parse(q + IntToString(n)) == Parse(IntToString(n) + q)
  {
    TokenizeShorthand(q, n);
    TokenizeName(n, q);
  }

  /** Writing the number token canonically does not change the interval. */
  lemma FromTokensCanonical(t: Tokens)
    requires IsSignedDigits(t.num)
    ensures FromTokens(Tokens(IntToString(SignedDigitsValue(t.num)), t.q)) == FromTokens(t)
  {
    IntToStringValue(SignedDigitsValue(t.num));
  }

  /** Parsing an interval's own name gives the interval back: names are
      canonical ("M3", "+3M" and "03M" are all "3M"). */
  lemma ParseName(s: string)
    requires !Parse(s).NoInterval?
    ensures Parse(Parse(s).name) == Parse(s)
  {
    var t := Tokenize(s);
    assert Parse(s) == FromTokens(t);
    var num := SignedDigitsValue(t.num);
    assert Parse(s).name == IntToString(num) + t.q;
    TokenizeName(num, t.q);
    FromTokensCanonical(t);
  }

  /** The shape of an interval read from its tokens. */
  lemma FromTokensShape(t: Tokens)
    requires t.num == "" || IsSignedDigits(t.num)
    requires FromTokens(t).Interval?
    ensures var i := FromTokens(t);
      ValidStep(i.step) && i.oct >= 0 && i.num != 0 &&
      Abs(i.num) == i.step + 1 + 7 * i.oct &&
      (i.dir == 1 <==> i.num > 0) && (i.dir == -1 <==> i.num < 0) &&
      (Abs(i.num) != 8 ==> i.simple == i.dir * (i.step + 1)) &&
      i.kind == TYPES[i.step] &&
      i.semitones == i.dir * (SEMI[i.step] + i.alt + 12 * i.oct) &&
      i.coord == Encode(Pitch(i.step, i.alt, Int(i.oct), i.dir)) &&
      i.chroma == JsRem(JsRem(i.dir * (SEMI[i.step] + i.alt), 12) + 12, 12)
  {
    var i := FromTokens(t);
    var m := Abs(i.num) - 1;
    assert m == 7 * (m / 7) + m % 7;
  }

  /** `((x % 12) + 12) % 12` with JavaScript's remainder is the non-negative
      remainder of `x`. */
  lemma ChromaRem(x: int)
    ensures JsRem(JsRem(x, 12) + 12, 12) == x % 12
  {
    if x >= 0 {
      TwelveSplit(x % 12, x / 12);
      TwelveSplit(x % 12, 1);
    } else {
      var q, m := (-x) / 12, (-x) % 12;
      assert JsRem(x, 12) == -m;
      if m == 0 {
        TwelveSplit(0, -q);
        TwelveSplit(0, 1);
      } else {
        TwelveSplit(12 - m, -q - 1);
        TwelveSplit(12 - m, 0);
      }
    }
  }

  lemma TwelveSplit(k: int, a: int)
    requires 0 <= k < 12
    ensures (k + 12 * a) % 12 == k
  {}

  /** The coordinate of an interval with direction ±1 measures its size. */
  lemma IntervalCoordSemitones(step: int, alt: int, oct: int, dir: int)
    requires ValidStep(step) && (dir == 1 || dir == -1)
    ensures Encode(Pitch(step, alt, Int(oct), dir)).octs.Int?
    ensures 7 * Encode(Pitch(step, alt, Int(oct), dir)).fifths + 12 * Encode(Pitch(step, alt, Int(oct), dir)).octs.v
            == dir * (SEMI[step] + alt + 12 * oct)
  {
    var p := Pitch(step, alt, Int(oct), 1);
    EncodeSemitones(p, oct);
    if dir == -1 {
      assert Encode(Pitch(step, alt, Int(oct), dir)) == Negate(Encode(p));
    }
  }

  /** The shape of a parsed interval: its number spells its step and octave,
      its direction is the sign of the number and its simple number is within
      a seventh (or an octave for ±8). */
  lemma ParseShape(s: string)
    requires Parse(s).Interval?
    ensures var i := Parse(s);
      ValidStep(i.step) && i.oct >= 0 && i.num != 0 &&
      Abs(i.num) == i.step + 1 + 7 * i.oct &&
      (i.dir == 1 <==> i.num > 0) && (i.dir == -1 <==> i.num < 0) &&
      (Abs(i.num) != 8 ==> i.simple == i.dir * (i.step + 1)) &&
      i.kind == TYPES[i.step]
  {
    FromTokensShape(Tokenize(s));
  }

  /** The coordinate of a parsed interval measures its size in semitones and
      its chroma is that size reduced to 0..11. */
  lemma ParseSize(s: string)
    requires Parse(s).Interval?
    ensures var i := Parse(s);
      i.coord.octs.Int? &&
      7 * i.coord.fifths + 12 * i.coord.octs.v == i.semitones &&
      0 <= i.chroma < 12 && i.chroma == i.semitones % 12
  {
    FromTokensSize(Tokenize(s));
  }

  lemma FromTokensSize(t: Tokens)
    requires t.num == "" || IsSignedDigits(t.num)
    requires FromTokens(t).Interval?
    ensures var i := FromTokens(t);
      i.coord.octs.Int? &&
      7 * i.coord.fifths + 12 * i.coord.octs.v == i.semitones &&
      0 <= i.chroma < 12 && i.chroma == i.semitones % 12
  {
    FromTokensShape(t);
    IntervalSizes(FromTokens(t));
  }

  /** The size facts for any interval whose semitones, chroma and coordinate
      are computed the way the parser computes them. */
  lemma IntervalSizes(i: Interval)
    requires i.Interval? && ValidStep(i.step) && (i.dir == 1 || i.dir == -1)
    requires i.semitones == i.dir * (SEMI[i.step] + i.alt + 12 * i.oct)
    requires i.coord == Encode(Pitch(i.step, i.alt, Int(i.oct), i.dir))
    requires i.chroma == JsRem(JsRem(i.dir * (SEMI[i.step] + i.alt), 12) + 12, 12)
    ensures i.coord.octs.Int? &&
      7 * i.coord.fifths + 12 * i.coord.octs.v == i.semitones &&
      0 <= i.chroma < 12 && i.chroma == i.semitones % 12
  {
    IntervalCoordSemitones(i.step, i.alt, i.oct, i.dir);
    ChromaRem(i.dir * (SEMI[i.step] + i.alt));
    SizeRem(i.dir, SEMI[i.step] + i.alt, i.oct);
  }

  lemma SizeRem(dir: int, a: int, oct: int)
    requires dir == 1 || dir == -1
    ensures (dir * (a + 12 * oct)) % 12 == (dir * a) % 12
  {
    if dir == -1 {
      assert dir * (a + 12 * oct) == -a + 12 * (-oct);
    }
  }

  /** What the parser makes of a non-zero number and a quality that fits its step. */
  lemma FromTokensOf(n: int, q: string)
    requires n != 0 && QualityFits(TYPES[(Abs(n) - 1) % 7], q)
    ensures IntToString(n) != "" && IsSignedDigits(IntToString(n))
    ensures var i := FromTokens(Tokens(IntToString(n), q));
      i.Interval? && i.num == n && i.q == q && i.step == (Abs(n) - 1) % 7 &&
      i.oct == (Abs(n) - 1) / 7 && i.alt == QToAlt(TYPES[i.step], q) &&
      i.dir == (if n < 0 then -1 else 1)
  {
    IntToStringValue(n);
  }

  /** The name of a pitch with an octave is its signed interval number
      followed by its quality. */
  lemma PitchNameNumber(p: Pitch)
    requires ValidStep(p.step) && p.oct.Int? && p.oct.v >= 0 && (p.dir == 1 || p.dir == -1)
    ensures PitchName(p) == IntToString(p.dir * (p.step + 1 + 7 * p.oct.v)) + AltToQ(TYPES[p.step], p.alt)
  {
    var num := p.step + 1 + 7 * p.oct.v;
    var digits, q := NatToString(num), AltToQ(TYPES[p.step], p.alt);
    assert NumToString(Int(num)) == digits;
    if p.dir < 0 {
      assert PitchName(p) == "-" + digits + q;
      assert IntToString(p.dir * num) == "-" + digits;
    } else {
      assert PitchName(p) == "" + digits + q;
      assert "" + digits == digits;
    }
  }

  /** interval(pitch) recovers the pitch when its octave is not negative and
      its alteration has a quality of at most four letters. */
  lemma {:induction false} FromPitchRoundTrip(p: Pitch)
    requires ValidStep(p.step) && p.oct.Int? && p.oct.v >= 0 && (p.dir == 1 || p.dir == -1)
    requires -4 <= p.alt <= 4 || (TYPES[p.step] == Majorable && p.alt == -5)
    ensures FromPitch(p).Interval?
    ensures FromPitch(p).step == p.step && FromPitch(p).alt == p.alt
    ensures FromPitch(p).oct == p.oct.v && FromPitch(p).dir == p.dir
    ensures FromPitch(p).coord == Encode(p)
  {
    var num := p.step + 1 + 7 * p.oct.v;
    var kind := TYPES[p.step];
    var q := AltToQ(kind, p.alt);
    AltToQIsQuality(kind, p.alt);
    var n := p.dir * num;
    assert Abs(n) == num;
    assert (Abs(n) - 1) % 7 == p.step && (Abs(n) - 1) / 7 == p.oct.v;
    PitchNameNumber(p);
    TokenizeName(n, q);
    FromTokensOf(n, q);
    QToAltAltToQ(kind, p.alt);
    var i := FromTokens(Tokens(IntToString(n), q));
    assert FromPitch(p) == i;
    FromTokensShape(Tokens(IntToString(n), q));
  }

  /** The examples of the source's documentation: a fifth spans seven
      semitones and a third is majorable. */
  lemma ParseP5()
    ensures Parse("P5").Interval? && Parse("P5").semitones == 7
  {
    assert "P" + IntToString(5) == "P5";
    TokenizeShorthand("P", 5);
    FromTokensOf(5, "P");
  }

  lemma ParseM3()
    ensures Parse("m3").Interval? && Parse("m3").kind == Majorable
  {
    assert "m" + IntToString(3) == "m3";
    TokenizeShorthand("m", 3);
    FromTokensOf(3, "m");
  }

  /** A coordinate within 33 fifths of the unison that spans no negative number
      of steps decodes to a pitch with a non-negative octave whose alteration
      has a quality of at most four letters. */
  lemma DecodeAscending(c: Coord)
    requires c.octs.Int? && -33 <= c.fifths <= 33 && Steps(c) >= 0
    ensures Decode(c, 1).oct.Int? && Decode(c, 1).oct.v >= 0
    ensures var p := Decode(c, 1); -4 <= p.alt <= 4 || (TYPES[p.step] == Majorable && p.alt == -5)
  {
    var p1 := Decode(c, 1);
    EncodeDecode(c);
    EncodeSteps(p1, p1.oct.v);
    if p1.alt == -5 {
      assert Unaltered(c.fifths) == c.fifths + 36;
    }
  }

  /** Read in a direction that agrees with the sign of its step count, a
      coordinate within 33 fifths of the unison names an interval with that
      coordinate, that direction and that size, whose name parses back to it. */
  lemma {:induction false} CoordToIntervalDirCoord(c: Coord, descending: bool)
    requires c.octs.Int? && -33 <= c.fifths <= 33
    requires descending ==> Steps(c) <= 0
    requires !descending ==> Steps(c) >= 0
    ensures var i := CoordToIntervalDir(c, descending);
      i.Interval? && i.coord == c && i.dir == (if descending then -1 else 1) &&
      i.semitones == Size(c) && Parse(i.name) == i
  {
    var c' := if descending then Negate(c) else c;
    var dir := if descending then -1 else 1;
    DecodeAscending(c');
    var p := Decode(c', dir);
    assert p == Decode(c', 1).(dir := dir);
    FromPitchRoundTrip(p);
    if descending {
      EncodeDecodeDescending(c');
      assert Negate(c') == c;
    } else {
      EncodeDecode(c');
    }
    ParseName(PitchName(p));
    ParseSize(PitchName(p));
  }

  /** `coordToInterval` as written: for a coordinate within 33 fifths of the
      unison whose size and step count do not point opposite ways, the
      interval has that coordinate, is descending exactly when the size is
      negative, and its name parses back to it. */
  lemma CoordToIntervalCoord(c: Coord)
    requires c.octs.Int? && -33 <= c.fifths <= 33
    requires Size(c) < 0 ==> Steps(c) <= 0
    requires Size(c) >= 0 ==> Steps(c) >= 0
    ensures var i := CoordToInterval(c);
      i.Interval? && i.coord == c && (i.dir == -1 <==> Size(c) < 0) &&
      i.semitones == Size(c) && Parse(i.name) == i
  {
    assert CoordToInterval(c) == CoordToIntervalDir(c, Size(c) < 0);
    CoordToIntervalDirCoord(c, Size(c) < 0);
  }

  /** When size and step count point opposite ways (a difference that goes up
      in pitch but down a step, or the reverse), `coordToInterval` decodes a
      pitch whose interval number step + 1 + 7 * octave is at most 0: no
      interval has that name and coordinate. */
  lemma CoordToIntervalMisnumbers(c: Coord)
    requires c.octs.Int?
    requires (Size(c) >= 0 && Steps(c) < 0) || (Size(c) < 0 && Steps(c) > 0)
    ensures var d := if Size(c) < 0 then -1 else 1;
      var p := Decode(if d < 0 then Negate(c) else c, d);
      CoordToInterval(c) == FromPitch(p) && p.oct.Int? && p.step + 1 + 7 * p.oct.v <= 0
  {
    var d := if Size(c) < 0 then -1 else 1;
    var c' := if d < 0 then Negate(c) else c;
    var p1 := Decode(c', 1);
    assert Decode(c', d) == p1.(dir := d);
    assert Steps(c') < 0;
    EncodeDecode(c');
    EncodeSteps(p1, p1.oct.v);
  }

  /** `parse$1` gives NoInterval exactly when no notation matches, or when a
      nonzero number names a major-type step and the quality is P. */
  lemma FromTokensNoInterval(t: Tokens)
    requires t.num == "" || IsSignedDigits(t.num)
    ensures FromTokens(t).NoInterval? <==>
            t.num == "" ||
            (SignedDigitsValue(t.num) != 0 && TYPES[(Abs(SignedDigitsValue(t.num)) - 1) % 7] == Majorable &&
             t.q == "P")
  {}

  lemma ParseNoInterval(s: string)
    ensures var t := Tokenize(s);
            Parse(s).NoInterval? <==>
            t.num == "" ||
            (SignedDigitsValue(t.num) != 0 && TYPES[(Abs(SignedDigitsValue(t.num)) - 1) % 7] == Majorable &&
             t.q == "P")
  {
    FromTokensNoInterval(Tokenize(s));
  }

  /** A second, third, sixth or seventh (any octave, either direction) with
      quality P is no interval: "3P" and "-9P" are refused. */
  lemma ParseMajorablePerfect(n: int)
    requires n != 0 && TYPES[(Abs(n) - 1) % 7] == Majorable
    ensures Parse(IntToString(n) + "P").NoInterval?
  {
    TokenizeName(n, "P");
    IntToStringValue(n);
    FromTokensNoInterval(Tokens(IntToString(n), "P"));
  }
}
