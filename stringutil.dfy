/** dechord's `trimStart` (src/lib/string.ts:1-13): drops the spaces, tabs,
    line feeds and carriage returns at the start of a string. */
module StringUtil {

  /** The four characters `trimStart` skips. */
  predicate IsTrimmed(c: char) { c == ' ' || c == '\t' || c == '\n' || c == '\r' }

  /** The string from its first character outside the four onwards. */
  function TrimmedStart(s: string): string
  {
    if |s| > 0 && IsTrimmed(s[0]) then TrimmedStart(s[1..]) else s
  }

  /** `trimStart(s)`: the index loop advances past the skipped characters and
      returns the rest, or `s` itself when nothing was skipped, or "" when the
      whole string was skipped. */
  method TrimStart(s: string) returns (r: string)
    ensures r == TrimmedStart(s)
    ensures |r| <= |s| && r == s[|s| - |r|..]
    ensures forall k :: 0 <= k < |s| - |r| ==> IsTrimmed(s[k])
    ensures r == [] || !IsTrimmed(r[0])
  {
    var i := 0;
    while i < |s|
      invariant 0 <= i <= |s|
      invariant forall k :: 0 <= k < i ==> IsTrimmed(s[k])
      invariant TrimmedStart(s[i..]) == TrimmedStart(s)
    {
      if IsTrimmed(s[i]) {
        assert s[i..][1..] == s[i + 1..];
        i := i + 1;
      } else {
        r := if i < 1 then s else s[i..];
        return;
      }
    }
    r := "";
  }

  /** The result is a suffix of the input, everything removed is one of the
      four characters, and what remains does not start with one. */
  lemma {:induction false} TrimmedStartShape(s: string)
    ensures |TrimmedStart(s)| <= |s| && TrimmedStart(s) == s[|s| - |TrimmedStart(s)|..]
    ensures forall k :: 0 <= k < |s| - |TrimmedStart(s)| ==> IsTrimmed(s[k])
    ensures TrimmedStart(s) == [] || !IsTrimmed(TrimmedStart(s)[0])
  {
    if |s| > 0 && IsTrimmed(s[0]) {
      TrimmedStartShape(s[1..]);
      assert s[1..][|s| - 1 - |TrimmedStart(s)|..] == s[|s| - |TrimmedStart(s)|..];
      forall k | 0 <= k < |s| - |TrimmedStart(s)|
        ensures IsTrimmed(s[k])
      {
        if k > 0 {
          assert s[k] == s[1..][k - 1];
        }
      }
    }
  }

  /** A string that does not start with one of the four is returned as it is. */
  lemma TrimmedStartUnchanged(s: string)
    requires s == [] || !IsTrimmed(s[0])
    ensures TrimmedStart(s) == s
  {}

  /** Trimming twice is trimming once. */
  lemma TrimmedStartIdempotent(s: string)
    ensures TrimmedStart(TrimmedStart(s)) == TrimmedStart(s)
  {
    TrimmedStartShape(s);
  }

  /** Any characters of the four put in front are trimmed away again. */
  lemma {:induction false} TrimmedStartPrefix(p: string, s: string)
    requires forall k :: 0 <= k < |p| ==> IsTrimmed(p[k])
    ensures TrimmedStart(p + s) == TrimmedStart(s)
  {
    if |p| > 0 {
      assert (p + s)[1..] == p[1..] + s;
      TrimmedStartPrefix(p[1..], s);
    } else {
      assert p + s == s;
    }
  }
}
