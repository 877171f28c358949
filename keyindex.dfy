/** The key index both dictionaries keep beside their list of entries: a
    plain object written with `index[key] = entry`, so that a later write
    under a key replaces an earlier one. `keysOf` gives, for each kind of
    entry, the keys `add` writes for it, in the order it writes them. */
module KeyIndex {
  import opened JsText
  import opened Bits

  /** `index[k] = c` for each key `k` of `keys`, in order. */
  function WriteAll<T>(index: map<string, T>, keys: seq<string>, c: T): map<string, T>
  {
    if |keys| == 0 then index else WriteAll(index, keys[..|keys| - 1], c)[keys[|keys| - 1] := c]
  }

  /** After the writes, the keys written map to `c` and every other key keeps
      its entry. */
  lemma {:induction false} WriteAllMeaning<T>(index: map<string, T>, keys: seq<string>, c: T)
    ensures forall k :: k in WriteAll(index, keys, c) <==> k in index || k in keys
    ensures forall k :: k in keys ==> WriteAll(index, keys, c)[k] == c
    ensures forall k :: k !in keys && k in index ==> WriteAll(index, keys, c)[k] == index[k]
  {
    if |keys| > 0 {
      var init := keys[..|keys| - 1];
      WriteAllMeaning(index, init, c);
      assert keys == init + [keys[|keys| - 1]];
    }
  }

  lemma WriteAllSnoc<T>(index: map<string, T>, keys: seq<string>, k: string, c: T)
    ensures WriteAll(index, keys + [k], c) == WriteAll(index, keys, c)[k := c]
  {
    assert (keys + [k])[..|keys|] == keys;
  }

  /** Writing the keys of `a` and then those of `b` is writing those of `a + b`. */
  lemma {:induction false} WriteAllAppend<T>(index: map<string, T>, a: seq<string>, b: seq<string>, c: T)
    ensures WriteAll(WriteAll(index, a, c), b, c) == WriteAll(index, a + b, c)
  {
    if |b| > 0 {
      var init := b[..|b| - 1];
      WriteAllAppend(index, a, init, c);
      assert (a + b)[..|a + b| - 1] == a + init;
    } else {
      assert a + b == a;
    }
  }

  /** The index after adding `entries` in order to `index`, each under the
      keys `keysOf` gives for it. */
  function AddedAll<T>(index: map<string, T>, entries: seq<T>, keysOf: T -> seq<string>): map<string, T>
  {
    if |entries| == 0 then index
    else
      var c := entries[|entries| - 1];
      WriteAll(AddedAll(index, entries[..|entries| - 1], keysOf), keysOf(c), c)
  }

  lemma AddedAllSnoc<T>(index: map<string, T>, entries: seq<T>, c: T, keysOf: T -> seq<string>)
    ensures AddedAll(index, entries + [c], keysOf) == WriteAll(AddedAll(index, entries, keysOf), keysOf(c), c)
  {
    assert (entries + [c])[..|entries|] == entries;
  }

  /** A key resolves to the last entry that has it. */
  lemma {:induction false} LastWins<T>(index: map<string, T>, entries: seq<T>, keysOf: T -> seq<string>,
                                       k: string, i: int)
    requires 0 <= i < |entries| && k in keysOf(entries[i])
    requires forall j :: i < j < |entries| ==> k !in keysOf(entries[j])
    ensures k in AddedAll(index, entries, keysOf) && AddedAll(index, entries, keysOf)[k] == entries[i]
  {
    var n := |entries|;
    var init := entries[..n - 1];
    WriteAllMeaning(AddedAll(index, init, keysOf), keysOf(entries[n - 1]), entries[n - 1]);
    if i < n - 1 {
      assert init[i] == entries[i];
      forall j | i < j < |init|
        ensures k !in keysOf(init[j])
      {
        assert init[j] == entries[j];
      }
      LastWins(index, init, keysOf, k, i);
    }
  }

  /** A key no added entry has keeps what it held before, or stays absent. */
  lemma {:induction false} NoEntryHas<T>(index: map<string, T>, entries: seq<T>, keysOf: T -> seq<string>,
                                         k: string)
    requires forall j :: 0 <= j < |entries| ==> k !in keysOf(entries[j])
    ensures k in AddedAll(index, entries, keysOf) <==> k in index
    ensures k in index ==> AddedAll(index, entries, keysOf)[k] == index[k]
  {
    if |entries| > 0 {
      var n := |entries|;
      var init := entries[..n - 1];
      forall j | 0 <= j < |init|
        ensures k !in keysOf(init[j])
      {
        assert init[j] == entries[j];
      }
      NoEntryHas(index, init, keysOf, k);
      WriteAllMeaning(AddedAll(index, init, keysOf), keysOf(entries[n - 1]), entries[n - 1]);
    }
  }

  /** A key that is empty or holds a character other than a decimal digit is
      neither a set number written in decimal nor a chroma, so an entry has it
      only as its name or as an alias. */
  predicate TextKey(k: string)
  {
    k == "" || exists i :: 0 <= i < |k| && !IsDigit(k[i])
  }

  lemma TextKeyNotNumeric(k: string, setNum: nat, chroma: string)
    requires TextKey(k) && IsBinary(chroma) && chroma != ""
    ensures k != NatToString(setNum) && k != chroma
  {
    if k != "" {
      var i :| 0 <= i < |k| && !IsDigit(k[i]);
      assert NatToString(setNum) != k by {
        if |NatToString(setNum)| == |k| {
          assert IsDigit(NatToString(setNum)[i]);
        }
      }
      assert chroma != k by {
        if |chroma| == |k| {
          assert IsDigit(chroma[i]);
        }
      }
    }
  }

  // Small facts about sequences, stated once for any element type so that
  // no proof about a list of entries has to look inside the entries.

  lemma SliceSnoc<T>(s: seq<T>, i: int)
    requires 0 <= i < |s|
    ensures s[..i + 1] == s[..i] + [s[i]]
  {}

  lemma EmptyAppend<T>(s: seq<T>)
    ensures [] + s == s
  {}

  lemma SliceAll<T>(s: seq<T>)
    ensures s[..|s|] == s
  {}

  lemma AppendSnoc<T>(a: seq<T>, b: seq<T>, x: T)
    ensures a + (b + [x]) == (a + b) + [x]
  {}
}
