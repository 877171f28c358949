/** dechord's SVG piano keyboard (src/lib/PianoSVG/index.ts). The renderer
    keeps a state number for each of the 128 MIDI notes and a key element for
    each note whose state is not 0; each render stores the new states and
    patches only the elements of the notes whose state changed. The SVG
    document is modelled by its two groups of key elements, the white keys
    and the black keys (drawn on top), each as the note ids of its children in
    document order. An element is modelled by the fields the renderer sets on
    it. */
module PianoSvg {
  import opened Wrappers
  import opened JsText

  /** `NUM_NOTES`: MIDI notes 0 to 127. */
  const NUM_NOTES: nat := 128

  /** `NOTE_COLORS`, one octave from C. */
  const NOTE_COLORS: seq<char> := ['w', 'b', 'w', 'b', 'w', 'w', 'b', 'w', 'b', 'w', 'b', 'w']

  predicate IsWhite(id: nat) { NOTE_COLORS[id % 12] == 'w' }

  /** Comparing the colour characters of two notes is comparing whether they
      are white: there are only the two colours. */
  lemma SameColor(a: nat, b: nat)
    ensures (NOTE_COLORS[a % 12] == NOTE_COLORS[b % 12]) <==> (IsWhite(a) == IsWhite(b))
  {
    assert forall k :: 0 <= k < 12 ==> NOTE_COLORS[k] == 'w' || NOTE_COLORS[k] == 'b';
  }

  // wkCountToId

  /** The white keys among the notes below `id`. */
  function WhiteBelow(id: nat): nat
  {
    if id == 0 then 0 else WhiteBelow(id - 1) + (if IsWhite(id - 1) then 1 else 0)
  }

  /** The white keys before each note of an octave. */
  const WHITE_BEFORE: seq<nat> := [0, 1, 1, 2, 2, 3, 4, 4, 5, 5, 6, 6]

  /** Seven white keys in every full octave, then the count within the last
      one. */
  lemma {:induction false} WhiteBelowOctaves(id: nat)
    ensures WhiteBelow(id) == 7 * (id / 12) + WHITE_BEFORE[id % 12]
  {
    if id > 0 {
      WhiteBelowOctaves(id - 1);
      var q, r := (id - 1) / 12, (id - 1) % 12;
      assert id - 1 == 12 * q + r;
      if r < 11 {
        assert id == 12 * q + (r + 1);
        assert id / 12 == q && id % 12 == r + 1;
        assert WHITE_BEFORE[r + 1] == WHITE_BEFORE[r] + (if NOTE_COLORS[r] == 'w' then 1 else 0);
      } else {
        assert id == 12 * (q + 1);
        assert id / 12 == q + 1 && id % 12 == 0;
      }
    }
  }

  /** A higher note has at least as many white keys below it. */
  lemma {:induction false} WhiteBelowMonotonic(a: nat, b: nat)
    requires a <= b
    ensures WhiteBelow(a) <= WhiteBelow(b) <= WhiteBelow(a) + (b - a)
  {
    if a < b {
      WhiteBelowMonotonic(a, b - 1);
    }
  }

  /** `wkCountToId(id)`: the white keys below `id`; an id outside 0 to 127
      throws. */
  method WkCountToId(id: int) returns (r: Result<nat>)
    ensures r.Err? <==> !(0 <= id < NUM_NOTES)
    ensures r.Err? ==> r.message == "Invalid id for count: " + IntToString(id)
    ensures r.Ok? ==> r.value == WhiteBelow(id) && r.value == 7 * (id / 12) + WHITE_BEFORE[id % 12]
  {
    if id < 0 || id >= NUM_NOTES {
      return Err("Invalid id for count: " + IntToString(id));
    }
    var x := 0;
    var i := 0;
    while i < id
      invariant 0 <= i <= id
      invariant x == WhiteBelow(i)
    {
      if NOTE_COLORS[i % 12] == 'w' {
        x := x + 1;
      }
      i := i + 1;
    }
    WhiteBelowOctaves(id);
    return Ok(x);
  }

  // nextExisting

  /** `keys[j]` is truthy: a stored state other than 0 (an index past the end
      reads `undefined`). */
  predicate Lit(keys: seq<int>, j: nat) { j < |keys| && keys[j] != 0 }

  /** The first note from `j` on whose state is truthy and whose colour is
      the given one. */
  function FirstLit(keys: seq<int>, isWhite: bool, j: nat): (r: Option<nat>)
    ensures r.Some? ==> j <= r.value < NUM_NOTES
    decreases NUM_NOTES - j
  {
    if j >= NUM_NOTES then None
    else if Lit(keys, j) && IsWhite(j) == isWhite then Some(j)
    else FirstLit(keys, isWhite, j + 1)
  }

  /** The next note above `id` of the same colour with a truthy state. */
  function NextOf(id: nat, keys: seq<int>): (r: Option<nat>)
    ensures r.Some? ==> id < r.value < NUM_NOTES
  {
    FirstLit(keys, IsWhite(id), id + 1)
  }

  /** The note found is the smallest one from `j` on with a truthy state and
      the colour; none is found when there is no such note below 128. */
  lemma {:induction false} FirstLitMeaning(keys: seq<int>, isWhite: bool, j: nat)
    ensures var r := FirstLit(keys, isWhite, j);
      (r.Some? ==> j <= r.value < NUM_NOTES && Lit(keys, r.value) && IsWhite(r.value) == isWhite &&
                   forall k :: j <= k < r.value ==> !(Lit(keys, k) && IsWhite(k) == isWhite)) &&
      (r.None? ==> forall k :: j <= k < NUM_NOTES ==> !(Lit(keys, k) && IsWhite(k) == isWhite))
    decreases NUM_NOTES - j
  {
    if j < NUM_NOTES && !(Lit(keys, j) && IsWhite(j) == isWhite) {
      FirstLitMeaning(keys, isWhite, j + 1);
      assert FirstLit(keys, isWhite, j) == FirstLit(keys, isWhite, j + 1);
    }
  }

  /** `nextExisting(id, keys)`: the smallest note above `id`, below 128, of
      the same colour and with a truthy state, or `undefined`. */
  method NextExisting(id: nat, keys: seq<int>) returns (r: Option<nat>)
    ensures r == NextOf(id, keys)
    ensures r.Some? ==> id < r.value < NUM_NOTES && Lit(keys, r.value) && IsWhite(r.value) == IsWhite(id) &&
                        forall k :: id < k < r.value ==> !(Lit(keys, k) && IsWhite(k) == IsWhite(id))
    ensures r.None? ==> forall k :: id < k < NUM_NOTES ==> !(Lit(keys, k) && IsWhite(k) == IsWhite(id))
  {
    FirstLitMeaning(keys, IsWhite(id), id + 1);
    var color := NOTE_COLORS[id % 12];
    var i := id + 1;
    while i < NUM_NOTES
      invariant id + 1 <= i
      invariant FirstLit(keys, IsWhite(id), i) == NextOf(id, keys)
      decreases NUM_NOTES - i
    {
      SameColor(i, id);
      if i < |keys| && keys[i] != 0 && NOTE_COLORS[i % 12] == color {
        return Some(i);
      }
      i := i + 1;
    }
    return None;
  }

  // Key states, options and elements

  /** A key state as `render` receives it: `null`/`undefined`, or a number,
      the index of its class in the options (0 is no key). */
  datatype KeyState = Nil | Num(n: int)

  /** The state is truthy: a number other than 0. */
  predicate Truthy(ks: KeyState) { ks.Num? && ks.n != 0 }

  /** `curKeys[i] || 0`, the number `render` stores. */
  function Stored(ks: KeyState): int { if Truthy(ks) then ks.n else 0 }

  /** `curKeys[i] != oldKeys[i]` against a stored number: `null` and
      `undefined` differ from every number. */
  predicate Differs(ks: KeyState, prev: int) { ks.Nil? || ks.n != prev }

  /** `curKeys[i]` of an array-like that may be shorter than 128. */
  function At(keys: seq<KeyState>, i: nat): KeyState { if i < |keys| then keys[i] else Nil }

  /** The options the key elements use: the class of black keys and of
      white keys, and the class of each state number; "" stands for a class
      that is not given (as for an index past the end of `classes`). */
  datatype Options = Options(classBKey: string, classWKey: string, classes: seq<string>)

  /** `options.classes[k]`, when it is a class. */
  function StateClass(o: Options, k: int): set<string>
  {
    if 0 <= k < |o.classes| && o.classes[k] != "" then {o.classes[k]} else {}
  }

  /** The class of a key of the colour of note `id`, when there is one. */
  function KeyClass(o: Options, id: nat): set<string>
  {
    var c := if IsWhite(id) then o.classWKey else o.classBKey;
    if c != "" then {c} else {}
  }

  /** No state's class is also a key's class. */
  predicate ClassesApart(o: Options)
  {
    forall k :: 0 <= k < |o.classes| && o.classes[k] != "" ==>
      o.classes[k] != o.classWKey && o.classes[k] != o.classBKey
  }

  /** Key sizes and the drawing offset. */
  datatype Geometry = Geometry(wkWidth: real, wkHeight: real, bkWidth: real, bkHeight: real, x: real, y: real)

  /** `_DEFAULTS`. */
  const DEFAULTS: Geometry := Geometry(16.0, 80.0, 16.0 * 0.7, 80.0 * 0.6, 0.0, 0.0)

  /** What `render` is given: the key states and any geometry to change,
      each possibly absent. */
  datatype State = State(keys: Option<seq<KeyState>>, bkWidth: Option<real>, bkHeight: Option<real>,
                         wkWidth: Option<real>, wkHeight: Option<real>, x: Option<real>, y: Option<real>)

  function Or(v: Option<real>, d: real): real { if v.Some? then v.value else d }

  /** The geometry once each field present in `s` is written. */
  function Updated(g: Geometry, s: State): Geometry
  {
    Geometry(Or(s.wkWidth, g.wkWidth), Or(s.wkHeight, g.wkHeight), Or(s.bkWidth, g.bkWidth),
             Or(s.bkHeight, g.bkHeight), Or(s.x, g.x), Or(s.y, g.y))
  }

  /** Writing the same state twice is writing it once, and a state with no
      geometry writes nothing. */
  lemma UpdatedIdempotent(g: Geometry, s: State)
    ensures Updated(Updated(g, s), s) == Updated(g, s)
    ensures (s.wkWidth.None? && s.wkHeight.None? && s.bkWidth.None? && s.bkHeight.None? &&
             s.x.None? && s.y.None?) ==> Updated(g, s) == g
  {}

  /** A field present in the state is the new value; one absent keeps the
      old value. */
  lemma UpdatedFields(g: Geometry, s: State)
    ensures var u := Updated(g, s);
      (s.wkWidth.Some? ==> u.wkWidth == s.wkWidth.value) && (s.wkWidth.None? ==> u.wkWidth == g.wkWidth) &&
      (s.wkHeight.Some? ==> u.wkHeight == s.wkHeight.value) && (s.wkHeight.None? ==> u.wkHeight == g.wkHeight) &&
      (s.bkWidth.Some? ==> u.bkWidth == s.bkWidth.value) && (s.bkWidth.None? ==> u.bkWidth == g.bkWidth) &&
      (s.bkHeight.Some? ==> u.bkHeight == s.bkHeight.value) && (s.bkHeight.None? ==> u.bkHeight == g.bkHeight) &&
      (s.x.Some? ==> u.x == s.x.value) && (s.x.None? ==> u.x == g.x) &&
      (s.y.Some? ==> u.y == s.y.value) && (s.y.None? ==> u.y == g.y)
  {}

  /** A key element: its `data-noteid`, its colour, its class list and its
      `y`, `width` and `height` attributes. */
  datatype KeyEl = KeyEl(id: nat, black: bool, classes: set<string>, y: real, width: real, height: real)

  /** `createKeyEl(i, ks)`: a falsy state throws; otherwise the element of
      note `i` carries the class of its colour and the class of its state,
      and the size of its colour. */
  function CreateKeyEl(o: Options, g: Geometry, i: nat, ks: KeyState): (r: Result<KeyEl>)
    ensures r.Err? <==> !Truthy(ks)
    ensures r.Ok? ==> r.value.id == i && r.value.black == !IsWhite(i) &&
                      r.value.classes == KeyClass(o, i) + StateClass(o, ks.n)
  {
    if !Truthy(ks) then Err("Cannot create svg for non-renderable KeyState")
    else
      var w := IsWhite(i);
      Ok(KeyEl(i, !w, KeyClass(o, i) + StateClass(o, ks.n), g.y,
               if w then g.wkWidth else g.bkWidth, if w then g.wkHeight else g.bkHeight))
  }

  /** The class list after `render` takes off the class of the old state and
      puts on the class of the new one (a falsy state has no class). */
  function Reclassed(o: Options, classes: set<string>, prev: int, ks: KeyState): set<string>
  {
    var off := if prev != 0 then StateClass(o, prev) else {};
    var on := if Truthy(ks) then StateClass(o, ks.n) else {};
    classes - off + on
  }

  /** What `render` leaves as the element of note `i`, from the element and
      stored state before and the new state: nothing changes when the state
      does not differ; an element whose state turns falsy is removed; an
      element whose state stays truthy is reclassed; a note without element
      whose state turns truthy gets a new element. */
  function Patched(o: Options, g: Geometry, i: nat, el: Option<KeyEl>, prev: int, ks: KeyState): Option<KeyEl>
  {
    if !Differs(ks, prev) then el
    else if el.Some? then
      if Truthy(ks) then Some(el.value.(classes := Reclassed(o, el.value.classes, prev, ks))) else None
    else if Truthy(ks) then Some(CreateKeyEl(o, g, i, ks).value)
    else None
  }

  // The document

  /** `g` holds, in ascending order, exactly the notes of the colour that
      have an element. */
  predicate Group(els: seq<Option<KeyEl>>, g: seq<nat>, isWhite: bool)
  {
    (forall p :: 0 <= p < |g| ==> g[p] < |els| && IsWhite(g[p]) == isWhite && els[g[p]].Some?) &&
    (forall p, q :: 0 <= p < q < |g| ==> g[p] < g[q]) &&
    (forall j :: 0 <= j < |els| && IsWhite(j) == isWhite && els[j].Some? ==> j in g)
  }

  /** A note has an element exactly when its stored state is not 0. */
  predicate Agree(keys: seq<int>, els: seq<Option<KeyEl>>)
  {
    |keys| == |els| && forall j :: 0 <= j < |els| ==> (keys[j] != 0 <==> els[j].Some?)
  }

  /** Every element carries the class of its colour and the class of its
      note's stored state. */
  predicate Styled(o: Options, keys: seq<int>, els: seq<Option<KeyEl>>)
  {
    |keys| == |els| &&
    forall j :: 0 <= j < |els| && els[j].Some? ==> els[j].value.classes == KeyClass(o, j) + StateClass(o, keys[j])
  }

  /** The first position of `x` in `g`, or `|g|`. */
  function IndexOf(g: seq<nat>, x: nat): (p: nat)
    ensures p <= |g| && (p < |g| ==> g[p] == x) && (x in g ==> p < |g|)
    ensures forall q :: 0 <= q < p ==> g[q] != x
  {
    if |g| == 0 || g[0] == x then 0 else 1 + IndexOf(g[1..], x)
  }

  /** `x` inserted at position `p`. */
  function InsertAt(g: seq<nat>, p: nat, x: nat): seq<nat>
    requires p <= |g|
  {
    g[..p] + [x] + g[p..]
  }

  /** The child at position `p` taken out. */
  function RemoveAt(g: seq<nat>, p: nat): seq<nat>
    requires p < |g|
  {
    g[..p] + g[p + 1..]
  }

  lemma InsertAtAt(g: seq<nat>, p: nat, x: nat)
    requires p <= |g|
    ensures |InsertAt(g, p, x)| == |g| + 1
    ensures forall q :: 0 <= q <= |g| ==>
              InsertAt(g, p, x)[q] == (if q < p then g[q] else if q == p then x else g[q - 1])
  {}

  lemma RemoveAtAt(g: seq<nat>, p: nat)
    requires p < |g|
    ensures |RemoveAt(g, p)| == |g| - 1
    ensures forall q :: 0 <= q < |g| - 1 ==> RemoveAt(g, p)[q] == (if q < p then g[q] else g[q + 1])
  {}

  /** A group is determined by the elements: any two sequences that are
      groups of the same colour are equal. */
  lemma {:induction false} GroupUnique(els: seq<Option<KeyEl>>, g: seq<nat>, h: seq<nat>, isWhite: bool)
    requires Group(els, g, isWhite) && Group(els, h, isWhite)
    ensures g == h
  {
    SortedSameMembers(g, h);
  }

  lemma {:induction false} SortedSameMembers(g: seq<nat>, h: seq<nat>)
    requires forall p, q :: 0 <= p < q < |g| ==> g[p] < g[q]
    requires forall p, q :: 0 <= p < q < |h| ==> h[p] < h[q]
    requires forall x :: x in g <==> x in h
    ensures g == h
  {
    if |g| > 0 {
      assert g[0] in h;
    }
    if |h| > 0 {
      assert h[0] in g;
    }
    if |g| > 0 && |h| > 0 {
      SortedHeads(g, h);
      forall x
        ensures x in g[1..] <==> x in h[1..]
      {
        if x in g[1..] {
          SortedTailMember(g, h, x);
        }
        if x in h[1..] {
          SortedTailMember(h, g, x);
        }
      }
      SortedTail(g);
      SortedTail(h);
      SortedSameMembers(g[1..], h[1..]);
      assert g == [g[0]] + g[1..] && h == [h[0]] + h[1..];
    }
  }

  lemma SortedHeads(g: seq<nat>, h: seq<nat>)
    requires |g| > 0 && |h| > 0
    requires forall p, q :: 0 <= p < q < |g| ==> g[p] < g[q]
    requires forall p, q :: 0 <= p < q < |h| ==> h[p] < h[q]
    requires g[0] in h && h[0] in g
    ensures g[0] == h[0]
  {
    var a :| 0 <= a < |g| && g[a] == h[0];
    var b :| 0 <= b < |h| && h[b] == g[0];
    assert g[0] <= h[0] by {
      if a > 0 { assert g[0] < g[a]; }
    }
    assert h[0] <= g[0] by {
      if b > 0 { assert h[0] < h[b]; }
    }
  }

  lemma SortedTailMember(g: seq<nat>, h: seq<nat>, x: nat)
    requires |g| > 0 && |h| > 0 && g[0] == h[0]
    requires forall p, q :: 0 <= p < q < |g| ==> g[p] < g[q]
    requires forall x :: x in g <==> x in h
    requires x in g[1..]
    ensures x in h[1..]
  {
    var a :| 0 <= a < |g[1..]| && g[1..][a] == x;
    assert g[a + 1] == x && g[0] < g[a + 1];
    assert x in g;
    var b :| 0 <= b < |h| && h[b] == x;
    assert b != 0;
    assert h[1..][b - 1] == x;
  }

  lemma SortedTail(g: seq<nat>)
    requires |g| > 0
    requires forall p, q :: 0 <= p < q < |g| ==> g[p] < g[q]
    ensures forall p, q :: 0 <= p < q < |g[1..]| ==> g[1..][p] < g[1..][q]
  {
    forall p, q | 0 <= p < q < |g[1..]|
      ensures g[1..][p] < g[1..][q]
    {
      assert g[1..][p] == g[p + 1] && g[1..][q] == g[q + 1];
    }
  }

  /** With the elements agreeing with the stored states, a group holds
      exactly the notes of its colour whose stored state is not 0. */
  lemma GroupMembers(els: seq<Option<KeyEl>>, keys: seq<int>, g: seq<nat>, isWhite: bool, j: nat)
    requires Group(els, g, isWhite) && Agree(keys, els)
    ensures j in g <==> j < |keys| && IsWhite(j) == isWhite && keys[j] != 0
  {
    if j in g {
      var p :| 0 <= p < |g| && g[p] == j;
    }
  }

  /** Setting the element of a note of the other colour leaves a group as it
      is. */
  lemma GroupOther(els: seq<Option<KeyEl>>, g: seq<nat>, isWhite: bool, i: nat, v: Option<KeyEl>)
    requires Group(els, g, isWhite) && i < |els| && IsWhite(i) != isWhite
    ensures Group(els[i := v], g, isWhite)
  {}

  /** Replacing an element by another leaves both groups as they are. */
  lemma GroupKeep(els: seq<Option<KeyEl>>, g: seq<nat>, isWhite: bool, i: nat, e: KeyEl)
    requires Group(els, g, isWhite) && i < |els| && els[i].Some?
    ensures Group(els[i := Some(e)], g, isWhite)
  {}

  /** Inserting a new note at the position between the smaller and the
      larger ones keeps the group. */
  lemma GroupInsert(els: seq<Option<KeyEl>>, g: seq<nat>, isWhite: bool, i: nat, e: KeyEl, p: nat)
    requires Group(els, g, isWhite) && i < |els| && els[i].None? && IsWhite(i) == isWhite
    requires p <= |g| && (forall q :: 0 <= q < p ==> g[q] < i) && (forall q :: p <= q < |g| ==> i < g[q])
    ensures Group(els[i := Some(e)], InsertAt(g, p, i), isWhite)
  {
    InsertAtAt(g, p, i);
    GroupInserted(els, els[i := Some(e)], g, InsertAt(g, p, i), isWhite, i, p);
  }

  lemma GroupInserted(els: seq<Option<KeyEl>>, els': seq<Option<KeyEl>>, g: seq<nat>, h: seq<nat>, isWhite: bool,
                      i: nat, p: nat)
    requires Group(els, g, isWhite) && i < |els| && els[i].None? && IsWhite(i) == isWhite
    requires |els'| == |els| && els'[i].Some? && forall j :: 0 <= j < |els| && j != i ==> els'[j] == els[j]
    requires p <= |g| && (forall q :: 0 <= q < p ==> g[q] < i) && (forall q :: p <= q < |g| ==> i < g[q])
    requires |h| == |g| + 1 && forall q {:trigger h[q]} :: 0 <= q <= |g| ==> h[q] == (if q < p then g[q] else if q == p then i else g[q - 1])
    ensures Group(els', h, isWhite)
  {
    forall q | 0 <= q < |h|
      ensures h[q] < |els'| && IsWhite(h[q]) == isWhite && els'[h[q]].Some?
    {
    }
    InsertedSorted(g, h, i, p);
    forall j | 0 <= j < |els'| && IsWhite(j) == isWhite && els'[j].Some?
      ensures j in h
    {
      if j == i {
        var q := p;
        assert h[q] == i;
      } else {
        var a :| 0 <= a < |g| && g[a] == j;
        if a < p {
          assert h[a] == j;
        } else {
          assert h[a + 1] == j;
        }
      }
    }
  }

  /** Putting `i` in at the position where it falls keeps a list increasing. */
  lemma InsertedSorted(g: seq<nat>, h: seq<nat>, i: nat, p: nat)
    requires forall a, b :: 0 <= a < b < |g| ==> g[a] < g[b]
    requires p <= |g| && (forall q :: 0 <= q < p ==> g[q] < i) && (forall q :: p <= q < |g| ==> i < g[q])
    requires |h| == |g| + 1 && forall q {:trigger h[q]} :: 0 <= q <= |g| ==> h[q] == (if q < p then g[q] else if q == p then i else g[q - 1])
    ensures forall a, b :: 0 <= a < b < |h| ==> h[a] < h[b]
  {
    forall a, b | 0 <= a < b < |h|
      ensures h[a] < h[b]
    {
      if b < p {
        assert h[a] == g[a] && h[b] == g[b];
      } else if b == p {
        assert h[a] == g[a] && h[b] == i;
      } else if a < p {
        assert h[a] == g[a] && h[b] == g[b - 1];
      } else if a == p {
        assert h[a] == i && h[b] == g[b - 1];
      } else {
        assert h[a] == g[a - 1] && h[b] == g[b - 1];
      }
    }
  }

  /** Taking out the note whose element is removed keeps the group. */
  lemma GroupRemove(els: seq<Option<KeyEl>>, g: seq<nat>, isWhite: bool, i: nat)
    requires Group(els, g, isWhite) && i < |els| && els[i].Some? && IsWhite(i) == isWhite
    ensures IndexOf(g, i) < |g|
    ensures Group(els[i := None], RemoveAt(g, IndexOf(g, i)), isWhite)
  {
    RemoveAtAt(g, IndexOf(g, i));
    GroupRemoved(els, els[i := None], g, RemoveAt(g, IndexOf(g, i)), isWhite, i, IndexOf(g, i));
  }

  lemma GroupRemoved(els: seq<Option<KeyEl>>, els': seq<Option<KeyEl>>, g: seq<nat>, h: seq<nat>, isWhite: bool,
                     i: nat, p: nat)
    requires Group(els, g, isWhite) && i < |els| && IsWhite(i) == isWhite
    requires |els'| == |els| && els'[i].None? && forall j :: 0 <= j < |els| && j != i ==> els'[j] == els[j]
    requires p < |g| && g[p] == i
    requires |h| == |g| - 1 && forall q {:trigger h[q]} :: 0 <= q < |g| - 1 ==> h[q] == (if q < p then g[q] else g[q + 1])
    ensures Group(els', h, isWhite)
  {
    forall q | 0 <= q < |h|
      ensures h[q] < |els'| && IsWhite(h[q]) == isWhite && els'[h[q]].Some?
    {
      var a := if q < p then q else q + 1;
      assert a != p && g[a] != g[p];
    }
    forall a, b | 0 <= a < b < |h|
      ensures h[a] < h[b]
    {
      var a', b' := if a < p then a else a + 1, if b < p then b else b + 1;
      assert h[a] == g[a'] && h[b] == g[b'] && a' < b';
    }
    forall j | 0 <= j < |els'| && IsWhite(j) == isWhite && els'[j].Some?
      ensures j in h
    {
      var a :| 0 <= a < |g| && g[a] == j;
      if a < p {
        assert h[a] == j;
      } else {
        assert a != p;
        assert h[a - 1] == j;
      }
    }
  }

  /** While the notes above `i` agree with their states, the next note
      `nextExisting` finds is the first note of the group above `i` and the
      smaller ones lie below `i`. */
  lemma NextPositionFound(els: seq<Option<KeyEl>>, g: seq<nat>, keys: seq<int>, i: nat)
    requires Group(els, g, IsWhite(i)) && |els| == NUM_NOTES && i < NUM_NOTES && els[i].None?
    requires forall j :: i < j < NUM_NOTES && els[j].Some? ==> Lit(keys, j)
    requires NextOf(i, keys).Some? && els[NextOf(i, keys).value].Some?
    ensures var p := IndexOf(g, NextOf(i, keys).value);
      p < |g| && (forall q :: 0 <= q < p ==> g[q] < i) && (forall q :: p <= q < |g| ==> i < g[q])
  {
    var n := NextOf(i, keys).value;
    FirstLitMeaning(keys, IsWhite(i), i + 1);
    assert n in g;
    var p := IndexOf(g, n);
    BeforeNextBelow(els, g, keys, i, n, p);
    AfterNextAbove(els, g, i, p);
  }

  /** The children before the next lit note lie below `i`: none lies between. */
  lemma BeforeNextBelow(els: seq<Option<KeyEl>>, g: seq<nat>, keys: seq<int>, i: nat, n: nat, p: nat)
    requires Group(els, g, IsWhite(i)) && |els| == NUM_NOTES && i < NUM_NOTES && els[i].None?
    requires forall j :: i < j < NUM_NOTES && els[j].Some? ==> Lit(keys, j)
    requires i < n && p < |g| && g[p] == n
    requires forall k :: i + 1 <= k < n ==> !(Lit(keys, k) && IsWhite(k) == IsWhite(i))
    ensures forall q :: 0 <= q < p ==> g[q] < i
  {
    forall q | 0 <= q < p
      ensures g[q] < i
    {
      assert g[q] < g[p];
      assert g[q] != i;
    }
  }

  /** The children from the next lit note on lie above `i`. */
  lemma AfterNextAbove(els: seq<Option<KeyEl>>, g: seq<nat>, i: nat, p: nat)
    requires Group(els, g, IsWhite(i)) && p < |g| && i < g[p]
    ensures forall q :: p <= q < |g| ==> i < g[q]
  {
    forall q | p <= q < |g|
      ensures i < g[q]
    {
      if q > p {
        assert g[p] < g[q];
      }
    }
  }

  /** The same when `nextExisting` finds nothing: the whole group lies below
      `i`. */
  lemma NextPositionNone(els: seq<Option<KeyEl>>, g: seq<nat>, keys: seq<int>, i: nat)
    requires Group(els, g, IsWhite(i)) && |els| == NUM_NOTES && i < NUM_NOTES && els[i].None?
    requires forall j :: i < j < NUM_NOTES && els[j].Some? ==> Lit(keys, j)
    requires NextOf(i, keys).None?
    ensures forall q :: 0 <= q < |g| ==> g[q] < i
  {
    FirstLitMeaning(keys, IsWhite(i), i + 1);
    forall q | 0 <= q < |g|
      ensures g[q] < i
    {
      assert g[q] != i;
    }
  }

  /** `render` keeps the agreement of elements and stored states: when they
      agree before, the patched element of a note exists exactly when its
      stored state is not 0. */
  lemma PatchedAgrees(o: Options, g: Geometry, i: nat, el: Option<KeyEl>, prev: int, ks: KeyState)
    requires prev != 0 <==> el.Some?
    ensures Patched(o, g, i, el, prev, ks).Some? <==> Stored(ks) != 0
    ensures !Differs(ks, prev) ==> Stored(ks) == prev
  {}

  /** With no state class also a key class, a reclassed or new element
      carries the class of its colour and the class of its new state. */
  lemma PatchedStyled(o: Options, g: Geometry, i: nat, el: Option<KeyEl>, prev: int, ks: KeyState)
    requires ClassesApart(o) && (prev != 0 <==> el.Some?)
    requires el.Some? ==> el.value.classes == KeyClass(o, i) + StateClass(o, prev)
    ensures Patched(o, g, i, el, prev, ks).Some? ==>
              Patched(o, g, i, el, prev, ks).value.classes == KeyClass(o, i) + StateClass(o, Stored(ks))
  {
    if el.Some? && Differs(ks, prev) && Truthy(ks) {
      var k := KeyClass(o, i);
      var c := el.value.classes;
      var s := StateClass(o, prev);
      assert k * s == {};
      assert c - s == k;
    }
  }

  /** `nextExisting` found a note that has no element. */
  predicate Blocked(els: seq<Option<KeyEl>>, next: Option<nat>)
  {
    next.Some? && next.value < |els| && els[next.value].None?
  }

  /** The group once `i` is put before the child `next`, or appended when
      there is none. */
  function Inserted(g: seq<nat>, next: Option<nat>, i: nat): seq<nat>
  {
    if next.Some? then InsertAt(g, IndexOf(g, next.value), i) else g + [i]
  }

  /** Inserting a new element where `insertKeyElement` does keeps both groups
      linked, as long as the notes above it have elements only where their
      state is truthy. */
  lemma InsertLinks(els: seq<Option<KeyEl>>, w: seq<nat>, b: seq<nat>, keys: seq<int>, i: nat, e: KeyEl)
    requires |els| == NUM_NOTES && i < NUM_NOTES && els[i].None?
    requires Group(els, w, true) && Group(els, b, false)
    requires !Blocked(els, NextOf(i, keys))
    requires forall j :: i < j < NUM_NOTES && els[j].Some? ==> Lit(keys, j)
    ensures IsWhite(i) ==> Group(els[i := Some(e)], Inserted(w, NextOf(i, keys), i), true) &&
                           Group(els[i := Some(e)], b, false)
    ensures !IsWhite(i) ==> Group(els[i := Some(e)], w, true) &&
                            Group(els[i := Some(e)], Inserted(b, NextOf(i, keys), i), false)
  {
    if IsWhite(i) {
      InsertLinksIn(els, w, keys, i, e);
      GroupOther(els, b, false, i, Some(e));
    } else {
      InsertLinksIn(els, b, keys, i, e);
      GroupOther(els, w, true, i, Some(e));
    }
  }

  /** The same for the group of the inserted note's colour. */
  lemma InsertLinksIn(els: seq<Option<KeyEl>>, g: seq<nat>, keys: seq<int>, i: nat, e: KeyEl)
    requires |els| == NUM_NOTES && i < NUM_NOTES && els[i].None?
    requires Group(els, g, IsWhite(i))
    requires !Blocked(els, NextOf(i, keys))
    requires forall j :: i < j < NUM_NOTES && els[j].Some? ==> Lit(keys, j)
    ensures Group(els[i := Some(e)], Inserted(g, NextOf(i, keys), i), IsWhite(i))
  {
    var p := if NextOf(i, keys).Some? then IndexOf(g, NextOf(i, keys).value) else |g|;
    if NextOf(i, keys).Some? {
      NextPositionFound(els, g, keys, i);
    } else {
      NextPositionNone(els, g, keys, i);
      assert InsertAt(g, |g|, i) == g + [i];
    }
    GroupInsert(els, g, IsWhite(i), i, e, p);
  }

  /** After one step of `render`, the elements still agree with the stored
      states, and stay styled when they were. */
  lemma PatchedState(o: Options, g: Geometry, i: nat, keys: seq<int>, els: seq<Option<KeyEl>>, ks: KeyState)
    requires i < |els| && Agree(keys, els)
    ensures Agree(keys[i := Stored(ks)], els[i := Patched(o, g, i, els[i], keys[i], ks)])
    ensures Styled(o, keys, els) && ClassesApart(o) ==>
              Styled(o, keys[i := Stored(ks)], els[i := Patched(o, g, i, els[i], keys[i], ks)])
  {
    PatchedAgrees(o, g, i, els[i], keys[i], ks);
    if Styled(o, keys, els) && ClassesApart(o) {
      PatchedStyled(o, g, i, els[i], keys[i], ks);
    }
  }

  /** The renderer's state: the options, the geometry, `state.keys`, the key
      elements by note, and the children of the two groups. */
  class Piano {
    const options: Options
    var geometry: Geometry
    /** `state.keys`. */
    const keys: array<int>
    /** `keyElements`. */
    const elements: array<Option<KeyEl>>
    /** The notes of `gWhite`'s children, in document order. */
    var white: seq<nat>
    /** The notes of `gBlack`'s children, in document order. */
    var black: seq<nat>

    /** Both groups list, in ascending order, the notes of their colour that
        have an element. */
    predicate Linked()
      reads this, elements
    {
      Group(elements[..], white, true) && Group(elements[..], black, false)
    }

    /** 128 notes, linked groups, and an element for each note whose stored
        state is not 0. */
    predicate Valid()
      reads this, keys, elements
    {
      keys.Length == NUM_NOTES && elements.Length == NUM_NOTES && Linked() && Agree(keys[..], elements[..])
    }

    /** `PianoSVG(opts)`: all states 0, no elements, empty groups. */
    constructor (options: Options)
      ensures this.options == options && geometry == DEFAULTS
      ensures fresh(keys) && fresh(elements) && keys.Length == NUM_NOTES && elements.Length == NUM_NOTES
      ensures forall j :: 0 <= j < NUM_NOTES ==> keys[j] == 0 && elements[j].None?
      ensures white == [] && black == []
      ensures Valid() && Styled(options, keys[..], elements[..])
    {
      this.options := options;
      geometry := DEFAULTS;
      keys := new int[NUM_NOTES](_ => 0);
      elements := new Option<KeyEl>[NUM_NOTES](_ => None);
      white := [];
      black := [];
    }

    /** `updateState(s)`: each geometry field present in `s` is written. */
    method UpdateState(s: State)
      modifies this`geometry
      ensures geometry == Updated(old(geometry), s)
    {
      if s.wkWidth.Some? { geometry := geometry.(wkWidth := s.wkWidth.value); }
      if s.wkHeight.Some? { geometry := geometry.(wkHeight := s.wkHeight.value); }
      if s.bkWidth.Some? { geometry := geometry.(bkWidth := s.bkWidth.value); }
      if s.bkHeight.Some? { geometry := geometry.(bkHeight := s.bkHeight.value); }
      if s.x.Some? { geometry := geometry.(x := s.x.value); }
      if s.y.Some? { geometry := geometry.(y := s.y.value); }
    }

    /** `insertKeyElement(i, e)`: throws when note `i` already has an element;
        otherwise records `e` as its element and then puts it into the group
        of its colour before the element of the next note `nextExisting`
        finds, or at the end when it finds none; throws when that next note
        has no element. When the notes above `i` have elements only where
        their state is truthy, the groups stay linked. */
    method InsertKeyElement(i: nat, e: KeyEl) returns (thrown: Option<string>)
      requires i < NUM_NOTES && elements.Length == NUM_NOTES && Linked()
      modifies this`white, this`black, elements
      ensures old(elements[i]).Some? ==>
                thrown == Some("Already existing DOM Element for id: " + NatToString(i)) &&
                elements[..] == old(elements[..]) && white == old(white) && black == old(black)
      ensures old(elements[i]).None? ==> elements[..] == old(elements[..])[i := Some(e)]
      ensures old(elements[i]).None? && Blocked(old(elements[..]), NextOf(i, keys[..])) ==>
                thrown == Some("Element expected at " + NatToString(NextOf(i, keys[..]).value)) &&
                white == old(white) && black == old(black)
      ensures old(elements[i]).None? && !Blocked(old(elements[..]), NextOf(i, keys[..])) ==>
                thrown.None? &&
                if IsWhite(i) then white == Inserted(old(white), NextOf(i, keys[..]), i) && black == old(black)
                else black == Inserted(old(black), NextOf(i, keys[..]), i) && white == old(white)
      ensures thrown.None? && (forall j :: i < j < NUM_NOTES && old(elements[j]).Some? ==> Lit(keys[..], j)) ==>
                Linked()
    {
      if elements[i].Some? {
        return Some("Already existing DOM Element for id: " + NatToString(i));
      }
      ghost var els := elements[..];
      elements[i] := Some(e);
      assert elements[..] == els[i := Some(e)];
      var next := NextExisting(i, keys[..]);
      if next.Some? && elements[next.value].None? {
        return Some("Element expected at " + NatToString(next.value));
      }
      assert !Blocked(els, next);
      ghost var agree := forall j :: i < j < NUM_NOTES && els[j].Some? ==> Lit(keys[..], j);
      if agree {
        InsertLinks(els, white, black, keys[..], i, e);
      }
      if IsWhite(i) {
        white := Inserted(white, next, i);
      } else {
        black := Inserted(black, next, i);
      }
      thrown := None;
    }

    /** `el.remove()` and `keyElements[i] = null`: the element leaves its
        group and the note has no element. */
    method RemoveElement(i: nat)
      requires i < NUM_NOTES && elements.Length == NUM_NOTES && Linked() && elements[i].Some?
      modifies this`white, this`black, elements
      ensures elements[..] == old(elements[..])[i := None]
      ensures if IsWhite(i) then white == RemoveAt(old(white), IndexOf(old(white), i)) && black == old(black)
              else black == RemoveAt(old(black), IndexOf(old(black), i)) && white == old(white)
      ensures Linked()
    {
      ghost var els := elements[..];
      if IsWhite(i) {
        GroupRemove(els, white, true, i);
        GroupOther(els, black, false, i, None);
        white := RemoveAt(white, IndexOf(white, i));
      } else {
        GroupRemove(els, black, false, i);
        GroupOther(els, white, true, i, None);
        black := RemoveAt(black, IndexOf(black, i));
      }
      elements[i] := None;
      assert elements[..] == els[i := None];
    }

    /** One step of the loop of `render`, for a note whose new state differs
        from the stored one: remove, reclass or create its element, then
        store the new state. */
    method PatchKey(i: nat, ks: KeyState)
      requires i < NUM_NOTES && Valid() && Differs(ks, keys[i])
      modifies this`white, this`black, keys, elements
      ensures Valid()
      ensures keys[..] == old(keys[..])[i := Stored(ks)]
      ensures elements[..] == old(elements[..])[i := Patched(options, geometry, i, old(elements[i]), old(keys[i]), ks)]
      ensures old(Styled(options, keys[..], elements[..])) && ClassesApart(options) ==>
                Styled(options, keys[..], elements[..])
    {
      ghost var ks0, els0 := keys[..], elements[..];
      if elements[i].Some? {
        if !Truthy(ks) {
          RemoveElement(i);
        } else {
          Reclass(i, ks);
        }
      } else if Truthy(ks) {
        AddKey(i, ks);
      }
      keys[i] := Stored(ks);
      assert keys[..] == ks0[i := Stored(ks)];
      PatchedState(options, geometry, i, ks0, els0, ks);
    }

    /** The class changes of an element whose state stays truthy. */
    method Reclass(i: nat, ks: KeyState)
      requires i < NUM_NOTES && keys.Length == NUM_NOTES && elements.Length == NUM_NOTES && Linked()
      requires elements[i].Some?
      modifies elements
      ensures elements[..] ==
                old(elements[..])[i := Some(old(elements[i]).value.(classes :=
                  Reclassed(options, old(elements[i]).value.classes, keys[i], ks)))]
      ensures Linked()
    {
      ghost var els0 := elements[..];
      var e := elements[i].value;
      var e' := e.(classes := Reclassed(options, e.classes, keys[i], ks));
      GroupKeep(els0, white, true, i, e');
      GroupKeep(els0, black, false, i, e');
      elements[i] := Some(e');
      assert elements[..] == els0[i := Some(e')];
    }

    /** `insertKeyElement(i, createKeyEl(i, ks))` for a note without element
        whose state turns truthy; neither call throws. */
    method AddKey(i: nat, ks: KeyState)
      requires i < NUM_NOTES && Valid() && elements[i].None? && Truthy(ks)
      modifies this`white, this`black, elements
      ensures elements[..] == old(elements[..])[i := Some(CreateKeyEl(options, geometry, i, ks).value)]
      ensures Linked()
    {
      var created := CreateKeyEl(options, geometry, i, ks);
      ghost var ks0, els0 := keys[..], elements[..];
      forall j | i < j < NUM_NOTES && els0[j].Some?
        ensures Lit(ks0, j)
      {
        assert ks0[j] != 0;
      }
      FirstLitMeaning(ks0, IsWhite(i), i + 1);
      var thrown := InsertKeyElement(i, created.value);
      assert thrown.None?;
    }

    /** `render(s)`: writes the geometry present in `s`; without key states
        that is all. With key states, every note's stored state becomes the
        new state or 0, every note's element is patched, the elements still
        agree with the stored states and the groups stay linked, in
        ascending order. */
    method Render(s: State)
      requires Valid()
      modifies this, keys, elements
      ensures Valid()
      ensures geometry == Updated(old(geometry), s)
      ensures s.keys.None? ==>
                keys[..] == old(keys[..]) && elements[..] == old(elements[..]) && white == old(white) && black == old(black)
      ensures s.keys.Some? ==> forall j :: 0 <= j < NUM_NOTES ==> keys[j] == Stored(At(s.keys.value, j))
      ensures s.keys.Some? ==> forall j :: 0 <= j < NUM_NOTES ==>
                elements[j] == Patched(options, geometry, j, old(elements[j]), old(keys[j]), At(s.keys.value, j))
      ensures old(Styled(options, keys[..], elements[..])) && ClassesApart(options) ==>
                Styled(options, keys[..], elements[..])
    {
      UpdateState(s);
      if s.keys.Some? {
        RenderKeys(s.keys.value);
      }
    }

    /** The loop of `render` over all notes. */
    method RenderKeys(cur: seq<KeyState>)
      requires Valid()
      modifies this`white, this`black, keys, elements
      ensures Valid()
      ensures forall j :: 0 <= j < NUM_NOTES ==> keys[j] == Stored(At(cur, j))
      ensures forall j :: 0 <= j < NUM_NOTES ==>
                elements[j] == Patched(options, geometry, j, old(elements[j]), old(keys[j]), At(cur, j))
      ensures old(Styled(options, keys[..], elements[..])) && ClassesApart(options) ==>
                Styled(options, keys[..], elements[..])
    {
      ghost var k0, e0 := keys[..], elements[..];
      ghost var styled := Styled(options, k0, e0) && ClassesApart(options);
      var i := 0;
      while i < NUM_NOTES
        invariant 0 <= i <= NUM_NOTES
        invariant Valid()
        invariant forall j :: 0 <= j < i ==> keys[j] == Stored(At(cur, j))
        invariant forall j :: 0 <= j < i ==> elements[j] == Patched(options, geometry, j, e0[j], k0[j], At(cur, j))
        invariant forall j :: i <= j < NUM_NOTES ==> keys[j] == k0[j]
        invariant forall j :: i <= j < NUM_NOTES ==> elements[j] == e0[j]
        invariant styled ==> Styled(options, keys[..], elements[..])
      {
        RenderKey(i, At(cur, i));
        i := i + 1;
      }
    }

    /** One pass of the loop of `render`: a note whose new state does not
        differ from the stored one is left alone. */
    method RenderKey(i: nat, ks: KeyState)
      requires i < NUM_NOTES && Valid()
      modifies this`white, this`black, keys, elements
      ensures Valid()
      ensures keys[..] == old(keys[..])[i := Stored(ks)]
      ensures elements[..] == old(elements[..])[i := Patched(options, geometry, i, old(elements[i]), old(keys[i]), ks)]
      ensures old(Styled(options, keys[..], elements[..])) && ClassesApart(options) ==>
                Styled(options, keys[..], elements[..])
    {
      PatchedAgrees(options, geometry, i, elements[i], keys[i], ks);
      if Differs(ks, keys[i]) {
        PatchKey(i, ks);
      } else {
        assert keys[..] == keys[..][i := Stored(ks)];
        assert elements[..] == elements[..][i := Patched(options, geometry, i, elements[i], keys[i], ks)];
      }
    }
  }
}
