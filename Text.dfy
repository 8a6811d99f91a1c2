/**
 * The two string operations the engine relies on: Python's substring test
 * (`t in s`) and `s.split(c)` with an explicit one-character separator.
 */
module Text {
  import opened Wrappers

  /** `t` occurs in `s` starting at index `i`. */
  ghost predicate OccursAt(s: string, t: string, i: int)
  {
    0 <= i && i + |t| <= |s| && s[i..i + |t|] == t
  }

  predicate StartsWith(s: string, p: string)
  {
    |p| <= |s| && s[..|p|] == p
  }

  /** Python's `t in s` for strings. */
  function Contains(s: string, t: string): bool
    decreases |s|
  {
    if StartsWith(s, t) then true
    else if |s| == 0 then false
    else Contains(s[1..], t)
  }

  /** An occurrence in the tail of `s` is an occurrence in `s`, one place later. */
  lemma OccursInTail(s: string, t: string, i: nat)
    requires |s| >= 1
    ensures OccursAt(s[1..], t, i) <==> OccursAt(s, t, i + 1)
  {
    if i + |t| <= |s| - 1 {
      assert s[1..][i..i + |t|] == s[i + 1..i + 1 + |t|];
    }
  }

  /** `Contains` is the substring test: some index starts an occurrence. */
  lemma {:induction false} ContainsIsSubstring(s: string, t: string)
    ensures Contains(s, t) <==> exists i :: OccursAt(s, t, i)
    decreases |s|
  {
    if StartsWith(s, t) {
      assert OccursAt(s, t, 0);
    } else if |s| == 0 {
    } else {
      ContainsIsSubstring(s[1..], t);
      forall i: nat ensures OccursAt(s[1..], t, i) <==> OccursAt(s, t, i + 1) {
        OccursInTail(s, t, i);
      }
      if exists i :: OccursAt(s, t, i) {
        var i :| OccursAt(s, t, i);
        assert i != 0;
        assert OccursAt(s[1..], t, i - 1);
      }
    }
  }

  /** Index of the first occurrence of `c` in `s`. */
  function IndexOf(s: string, c: char): (r: Option<nat>)
    ensures r.None? <==> c !in s
    ensures r.Some? ==> r.value < |s| && s[r.value] == c && c !in s[..r.value]
  {
    if |s| == 0 then None
    else if s[0] == c then Some(0)
    else
      match IndexOf(s[1..], c)
      case None => None
      case Some(k) =>
        assert s[..k + 1] == [s[0]] + s[1..][..k];
        Some(k + 1)
  }

  /** Python's `s.split(c)`: the pieces between occurrences of `c`; never empty. */
  function Split(s: string, c: char): (r: seq<string>)
    ensures |r| >= 1
    decreases |s|
  {
    match IndexOf(s, c)
    case None => [s]
    case Some(i) => [s[..i]] + Split(s[i + 1..], c)
  }

  /** No piece of a split holds the separator. */
  lemma {:induction false} SplitPiecesOmitSeparator(s: string, c: char)
    ensures forall k :: 0 <= k < |Split(s, c)| ==> c !in Split(s, c)[k]
    decreases |s|
  {
    match IndexOf(s, c)
    case None =>
    case Some(i) =>
      var rest := Split(s[i + 1..], c);
      SplitPiecesOmitSeparator(s[i + 1..], c);
      assert Split(s, c) == [s[..i]] + rest;
      assert forall k :: 1 <= k < |Split(s, c)| ==> Split(s, c)[k] == rest[k - 1];
  }

  /** `c.join(toks)`, the inverse of `Split`. */
  function Join(toks: seq<string>, c: char): string
    requires |toks| >= 1
  {
    if |toks| == 1 then toks[0] else toks[0] + [c] + Join(toks[1..], c)
  }

  /** Joining the pieces of a split gives back the string. */
  lemma {:induction false} JoinSplit(s: string, c: char)
    ensures Join(Split(s, c), c) == s
    decreases |s|
  {
    var r := IndexOf(s, c);
    if r.Some? {
      var i := r.value;
      var rest := s[i + 1..];
      var pieces := Split(rest, c);
      assert Split(s, c) == [s[..i]] + pieces;
      JoinCons(s[..i], c, pieces);
      JoinSplit(rest, c);
      SliceAround(s, i);
    }
  }

  lemma SliceAround(s: string, i: nat)
    requires i < |s|
    ensures s == s[..i] + [s[i]] + s[i + 1..]
  {
  }

  lemma JoinCons(a: string, c: char, toks: seq<string>)
    requires |toks| >= 1
    ensures Join([a] + toks, c) == a + [c] + Join(toks, c)
  {
    assert ([a] + toks)[1..] == toks;
  }

  lemma IndexOfJoined(a: string, c: char, b: string)
    requires c !in a
    ensures IndexOf(a + [c] + b, c) == Some(|a|)
    ensures (a + [c] + b)[..|a|] == a && (a + [c] + b)[|a| + 1..] == b
  {
    var s := a + [c] + b;
    assert s[|a|] == c;
    assert s[..|a|] == a;
    assert s[|a| + 1..] == b;
  }

  lemma HeadTail<T>(s: seq<T>)
    requires |s| >= 1
    ensures s == [s[0]] + s[1..]
  {
  }

  /** Splitting a join of separator-free pieces gives back the pieces. */
  lemma {:induction false} SplitJoin(toks: seq<string>, c: char)
    requires |toks| >= 1
    requires forall k :: 0 <= k < |toks| ==> c !in toks[k]
    ensures Split(Join(toks, c), c) == toks
  {
    if |toks| == 1 {
    } else {
      var rest := Join(toks[1..], c);
      IndexOfJoined(toks[0], c, rest);
      assert Split(toks[0] + [c] + rest, c) == [toks[0]] + Split(rest, c);
      SplitJoin(toks[1..], c);
      HeadTail(toks);
    }
  }

  /** `s.split(' ')[0]`: the longest prefix of `s` without a space. */
  function FirstToken(s: string): string
  {
    Split(s, ' ')[0]
  }

  /** The first token is the longest prefix of `s` without a space. */
  lemma FirstTokenIsLongestPrefix(s: string)
    ensures FirstToken(s) <= s
    ensures ' ' !in FirstToken(s)
    ensures |FirstToken(s)| == |s| || s[|FirstToken(s)|] == ' '
  {
  }
}
