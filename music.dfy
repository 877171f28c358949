/** dechord's `chordToMidiNotes` (src/lib/music.ts:9-40): lays the notes of
    a chord out on MIDI numbers, each note read at octave 0 and moved by
    octaves so that the chord climbs from the bottom of the keyboard. */
module Music {
  import opened JsText
  import opened Wrappers
  import M = Midi
  import N = Note
  import opened Pitch

  /** `Number.MAX_SAFE_INTEGER`. */
  const MAX_SAFE_INTEGER: int := 9007199254740991

  /** The `wrapTo` option is refused unless it is a safe integer of at least 12. */
  predicate ValidWrapTo(wrapTo: Option<int>)
  {
    wrapTo.None? || (12 <= wrapTo.value <= MAX_SAFE_INTEGER)
  }

  /** `toMidi(n + '0')`: the MIDI number of the note at octave 0, if any. */
  function OctaveZeroMidi(n: string): Option<int>
  {
    M.ToMidi(n + "0")
  }

  /** The name of a pitch class read at octave 0 has the MIDI number 12 above
      the step's semitone number plus the alteration, or none when that is
      outside 0..127. */
  lemma OctaveZeroMidiOfPitchClass(p: Pitch)
    requires ValidStep(p.step) && p.oct.Undefined?
    ensures var m := 12 + SEMI[p.step] + p.alt;
      OctaveZeroMidi(N.PitchName(p)) == if M.IsMidi(m) then Some(m) else None
  {
    var q := p.(oct := Int(0));
    PitchNameAtZero(p);
    ToMidiAtZero(q);
  }

  lemma PitchNameAtZero(p: Pitch)
    requires ValidStep(p.step) && p.oct.Undefined?
    ensures N.PitchName(p) + "0" == N.PitchName(p.(oct := Int(0)))
  {
    assert IntToString(0) == "0";
  }

  lemma ToMidiAtZero(q: Pitch)
    requires ValidStep(q.step) && q.oct == Int(0)
    ensures var m := 12 + SEMI[q.step] + q.alt;
      (M.IsMidi(m) ==> M.ToMidi(N.PitchName(q)) == Some(m)) &&
      (!M.IsMidi(m) ==> M.ToMidi(N.PitchName(q)) == None)
  {
    var name := N.PitchName(q);
    M.PitchNameLetter(q);
    N.FromPitchFields(q);
    N.HeightOfFields(N.Parse(name), name, q.step, q.alt, 0);
    M.ToMidiOfLetter(name);
  }

  /** The body of the loop for a note with a MIDI number `midi` at octave 0,
      given the numbers `notes` placed so far. */
  method PlaceNote(notes: seq<int>, midi: int, wrapTo: Option<int>) returns (i: int)
    ensures i == Place(notes, midi, wrapTo)
  {
    i := midi;
    var prevId := if |notes| > 0 then Some(notes[|notes| - 1]) else None;
    if prevId.Some? && i < prevId.value {
      i := i + 12;
    }
    if i > 12 && (prevId.None? || i - 12 > prevId.value) {
      i := i - 12;
    }
    if wrapTo.Some? {
      if |notes| > 0 && i > notes[0] + wrapTo.value {
        i := i - 12;
      }
    }
  }

  method ReadOctaveZero(n: string) returns (m: Option<int>)
    ensures m == OctaveZeroMidi(n)
  {
    m := M.ToMidi(n + "0");
  }

  /** The octave-0 MIDI numbers of the notes that have one, in order. */
  function Kept(notes: seq<string>): (r: seq<int>)
    ensures |r| <= |notes|
  {
    if |notes| == 0 then []
    else
      var m := OctaveZeroMidi(notes[|notes| - 1]);
      Kept(notes[..|notes| - 1]) + (if m.Some? then [m.value] else [])
  }

  /** Where the loop body puts MIDI number `i` given the numbers placed so
      far: up an octave when below the previous one, then down an octave when
      above 12 and still above the previous one after that, then (with
      `wrapTo`) down an octave when more than `wrapTo` above the first. */
  function Place(placed: seq<int>, i: int, wrapTo: Option<int>): int
  {
    var i1 := if |placed| > 0 && i < placed[|placed| - 1] then i + 12 else i;
    var i2 := if i1 > 12 && (|placed| == 0 || i1 - 12 > placed[|placed| - 1]) then i1 - 12 else i1;
    if wrapTo.Some? && |placed| > 0 && i2 > placed[0] + wrapTo.value then i2 - 12 else i2
  }

  /** The numbers placed for a list of octave-0 MIDI numbers, each placed
      after the ones before it. */
  function PlaceAll(ms: seq<int>, wrapTo: Option<int>): (r: seq<int>)
    ensures |r| == |ms|
  {
    if |ms| == 0 then []
    else
      var placed := PlaceAll(ms[..|ms| - 1], wrapTo);
      placed + [Place(placed, ms[|ms| - 1], wrapTo)]
  }

  /** `chordToMidiNotes(c, { wrapTo })` for the note list `c.notes`: an error
      for a bad `wrapTo`, otherwise the placed numbers of the notes that have
      a MIDI number at octave 0 (the others are skipped with a warning). */
  method ChordToMidiNotes(notes: seq<string>, wrapTo: Option<int>) returns (r: Result<seq<int>>)
    ensures r.Err? <==> !ValidWrapTo(wrapTo)
    ensures r.Ok? ==> r.value == PlaceAll(Kept(notes), wrapTo)
  {
    if wrapTo.Some? && (!(wrapTo.value <= MAX_SAFE_INTEGER) || wrapTo.value < 12) {
      return Err("Invalid wrapTo value: " + IntToString(wrapTo.value));
    }
    var out: seq<int> := [];
    var ni := 0;
    assert notes[..0] == [];
    while ni < |notes|
      invariant 0 <= ni <= |notes|
      invariant out == PlaceAll(Kept(notes[..ni]), wrapTo)
    {
      out := PlaceNext(notes, ni, out, wrapTo);
      ni := ni + 1;
    }
    assert notes[..|notes|] == notes;
    return Ok(out);
  }

  /** One turn of the loop: the note at `ni` is skipped or placed after the
      numbers placed for the notes before it. */
  method PlaceNext(notes: seq<string>, ni: nat, out: seq<int>, wrapTo: Option<int>) returns (out': seq<int>)
    requires ni < |notes| && out == PlaceAll(Kept(notes[..ni]), wrapTo)
    ensures out' == PlaceAll(Kept(notes[..ni + 1]), wrapTo)
  {
    var m := ReadOctaveZero(notes[ni]);
    KeptStep(notes, ni, m);
    ghost var before := Kept(notes[..ni]);
    ghost var after := Kept(notes[..ni + 1]);
    if m.Some? {
      var i := PlaceNote(out, m.value, wrapTo);
      assert after == before + [m.value];
      PlaceAllSnoc(before, m.value, wrapTo);
      out' := out + [i];
    } else {
      assert after == before;
      out' := out;
    }
  }

  lemma KeptStep(notes: seq<string>, ni: nat, m: Option<int>)
    requires ni < |notes| && m == OctaveZeroMidi(notes[ni])
    ensures Kept(notes[..ni + 1]) == Kept(notes[..ni]) + (if m.Some? then [m.value] else [])
  {
    assert notes[..ni + 1][..ni] == notes[..ni];
  }

  lemma PlaceAllSnoc(ms: seq<int>, x: int, wrapTo: Option<int>)
    ensures PlaceAll(ms + [x], wrapTo) == PlaceAll(ms, wrapTo) + [Place(PlaceAll(ms, wrapTo), x, wrapTo)]
  {
    assert (ms + [x])[..|ms|] == ms;
  }

  /** Placing moves a number by whole octaves only, by at most two down or
      one up, so every placed note keeps its pitch class. */
  lemma PlaceOctaves(placed: seq<int>, i: int, wrapTo: Option<int>)
    ensures (Place(placed, i, wrapTo) - i) % 12 == 0
    ensures i - 24 <= Place(placed, i, wrapTo) <= i + 12
  {}

  /** The placed numbers of a prefix are the prefix of the placed numbers:
      later notes never move earlier ones. */
  lemma {:induction false} PlaceAllPrefix(ms: seq<int>, j: nat, wrapTo: Option<int>)
    requires j <= |ms|
    ensures PlaceAll(ms[..j], wrapTo) == PlaceAll(ms, wrapTo)[..j]
    decreases |ms|
  {
    if j < |ms| {
      assert ms[..|ms| - 1][..j] == ms[..j];
      PlaceAllPrefix(ms[..|ms| - 1], j, wrapTo);
    } else {
      assert ms[..j] == ms;
    }
  }

  /** Each number is placed from the ones placed before it. */
  lemma PlaceAllAt(ms: seq<int>, k: nat, wrapTo: Option<int>)
    requires k < |ms|
    ensures PlaceAll(ms, wrapTo)[k] == Place(PlaceAll(ms, wrapTo)[..k], ms[k], wrapTo)
  {
    PlaceAllPrefix(ms, k + 1, wrapTo);
    PlaceAllPrefix(ms, k, wrapTo);
    assert ms[..k + 1][..k] == ms[..k];
  }

  /** Every placed note differs from its octave-0 MIDI number by whole
      octaves. */
  lemma PlaceAllOctaves(ms: seq<int>, wrapTo: Option<int>)
    ensures forall k :: 0 <= k < |ms| ==> (PlaceAll(ms, wrapTo)[k] - ms[k]) % 12 == 0
  {
    forall k | 0 <= k < |ms|
      ensures (PlaceAll(ms, wrapTo)[k] - ms[k]) % 12 == 0
    {
      PlaceAllAt(ms, k, wrapTo);
      PlaceOctaves(PlaceAll(ms, wrapTo)[..k], ms[k], wrapTo);
    }
  }

  /** The first note goes down an octave exactly when its octave-0 number is
      above 12. */
  lemma PlaceFirst(ms: seq<int>, wrapTo: Option<int>)
    requires |ms| > 0
    ensures PlaceAll(ms, wrapTo)[0] == if ms[0] > 12 then ms[0] - 12 else ms[0]
  {
    PlaceAllAt(ms, 0, wrapTo);
  }

  /** A later note: raised an octave when below the previous placed note, and
      after that lowered an octave only when it stays strictly above the
      previous note (and is above 12); with `wrapTo`, lowered one more octave
      when that leaves it more than `wrapTo` above the first placed note. */
  lemma PlaceLater(ms: seq<int>, k: nat, wrapTo: Option<int>)
    requires 0 < k < |ms|
    ensures var out := PlaceAll(ms, wrapTo);
      var prev := out[k - 1];
      var up := if ms[k] < prev then ms[k] + 12 else ms[k];
      var down := if up > 12 && up - 12 > prev then up - 12 else up;
      out[k] == if wrapTo.Some? && down > out[0] + wrapTo.value then down - 12 else down
  {
    PlaceAllAt(ms, k, wrapTo);
  }

  /** Without `wrapTo`, a note whose octave-0 number is less than an octave
      below and no more than two octaves above the previous placed note lands
      in the octave starting at the previous note, so the chord climbs. */
  lemma PlaceClimbs(ms: seq<int>, k: nat)
    requires 0 < k < |ms|
    requires var prev := PlaceAll(ms, None)[k - 1];
      prev >= 0 && prev - 12 <= ms[k] < prev + 24
    ensures PlaceAll(ms, None)[k - 1] <= PlaceAll(ms, None)[k] <= PlaceAll(ms, None)[k - 1] + 12
  {
    PlaceLater(ms, k, None);
  }

  /** Notes are skipped exactly when they have no MIDI number at octave 0;
      the others keep their order. */
  lemma {:induction false} KeptAppend(a: seq<string>, b: seq<string>)
    ensures Kept(a + b) == Kept(a) + Kept(b)
    decreases |b|
  {
    if |b| == 0 {
      assert a + b == a;
    } else {
      assert (a + b)[..|a + b| - 1] == a + b[..|b| - 1];
      KeptAppend(a, b[..|b| - 1]);
    }
  }

  lemma KeptOne(n: string)
    ensures Kept([n]) == if OctaveZeroMidi(n).Some? then [OctaveZeroMidi(n).value] else []
  {
    assert [n][..0] == [];
  }
}
