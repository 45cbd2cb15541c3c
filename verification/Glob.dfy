/**
 The policy engine's pattern language. A pattern is a string in which each `*` stands for
 some run of characters, possibly empty, and every other character stands for itself.

 `Matches` says that outright: the string is the pattern with its stars filled in. The
 matcher itself never backtracks; it looks for each middle piece at its leftmost place.
 `MatchGlob` proves that this is enough.
 */
module Glob {

  const STAR: char := '*'

  function Stars(p: string): (n: nat) {
    if p == "" then 0 else (if p[0] == STAR then 1 else 0) + Stars(p[1..])
  }

  /** The pattern with its i-th star replaced by `runs[i]`. */
  function Fill(p: string, runs: seq<string>): string
    requires |runs| == Stars(p)
  {
    if p == "" then ""
    else if p[0] == STAR then runs[0] + Fill(p[1..], runs[1..])
    else [p[0]] + Fill(p[1..], runs)
  }

  /** What a pattern means. */
  ghost predicate Matches(p: string, s: string) {
    exists runs: seq<string> :: |runs| == Stars(p) && Fill(p, runs) == s
  }

  /** A star takes some leading run of the string. */
  lemma StarStep(p: string, s: string)
    requires p != "" && p[0] == STAR
    ensures Matches(p, s) <==> exists k :: 0 <= k <= |s| && Matches(p[1..], s[k..])
  {
    if Matches(p, s) {
      var runs: seq<string> :| |runs| == Stars(p) && Fill(p, runs) == s;
      assert s[|runs[0]|..] == Fill(p[1..], runs[1..]);
    }
    if k :| 0 <= k <= |s| && Matches(p[1..], s[k..]) {
      var rest: seq<string> :| |rest| == Stars(p[1..]) && Fill(p[1..], rest) == s[k..];
      var runs := [s[..k]] + rest;
      assert runs[1..] == rest;
      assert Fill(p, runs) == s[..k] + s[k..] == s;
    }
  }

  /** Any other character takes itself. */
  lemma CharStep(p: string, s: string)
    requires p != "" && p[0] != STAR
    ensures Matches(p, s) <==> s != "" && s[0] == p[0] && Matches(p[1..], s[1..])
  {
    if Matches(p, s) {
      var runs: seq<string> :| |runs| == Stars(p) && Fill(p, runs) == s;
      assert s[1..] == Fill(p[1..], runs);
    }
    if s != "" && s[0] == p[0] && Matches(p[1..], s[1..]) {
      var runs: seq<string> :| |runs| == Stars(p[1..]) && Fill(p[1..], runs) == s[1..];
      assert Fill(p, runs) == [s[0]] + s[1..] == s;
    }
  }

  /** The pieces between the stars, as `strings.Split(pattern, "*")` returns them. */
  function Split(p: string): (parts: seq<string>)
    ensures |parts| == Stars(p) + 1
  {
    if p == "" then [""]
    else
      var rest := Split(p[1..]);
      if p[0] == STAR then [""] + rest else [[p[0]] + rest[0]] + rest[1..]
  }

  predicate HasPrefix(s: string, piece: string) {
    |piece| <= |s| && s[..|piece|] == piece
  }

  predicate HasSuffix(s: string, piece: string) {
    |piece| <= |s| && s[|s| - |piece|..] == piece
  }

  /** `piece` occurs in `s` at position `k`. */
  predicate OccursAt(s: string, piece: string, k: int) {
    0 <= k <= |s| && HasPrefix(s[k..], piece)
  }

  /** The pieces after a star, in order, each at any later place, the last one at the very end. */
  ghost predicate Scattered(parts: seq<string>, s: string)
    requires parts != []
  {
    if |parts| == 1 then HasSuffix(s, parts[0])
    else exists k :: OccursAt(s, parts[0], k) && Scattered(parts[1..], s[k + |parts[0]|..])
  }

  /** The whole list of pieces: the first one is anchored at the start. */
  ghost predicate Anchored(parts: seq<string>, s: string)
    requires parts != []
  {
    if |parts| == 1 then s == parts[0]
    else HasPrefix(s, parts[0]) && Scattered(parts[1..], s[|parts[0]|..])
  }

  /** A leading star lets an anchored list start anywhere. */
  lemma ScatteredIsShiftedAnchored(parts: seq<string>, s: string)
    requires parts != []
    ensures Scattered(parts, s) <==> exists k :: 0 <= k <= |s| && Anchored(parts, s[k..])
  {
    if |parts| == 1 {
      if HasSuffix(s, parts[0]) {
        assert Anchored(parts, s[|s| - |parts[0]|..]);
      }
    } else {
      forall k | 0 <= k <= |s| && HasPrefix(s[k..], parts[0])
        ensures s[k..][|parts[0]|..] == s[k + |parts[0]|..]
      {}
      if Scattered(parts, s) {
        var k :| OccursAt(s, parts[0], k) && Scattered(parts[1..], s[k + |parts[0]|..]);
        assert Anchored(parts, s[k..]);
      }
      if k :| 0 <= k <= |s| && Anchored(parts, s[k..]) {
        assert OccursAt(s, parts[0], k);
      }
    }
  }

  /** Adding a character in front of the first piece consumes one character of the string. */
  lemma AnchoredCons(c: char, parts: seq<string>, s: string)
    requires parts != []
    ensures Anchored([[c] + parts[0]] + parts[1..], s) <==> s != "" && s[0] == c && Anchored(parts, s[1..])
  {
    var longer := [[c] + parts[0]] + parts[1..];
    assert longer[1..] == parts[1..];
    if s != "" {
      assert s == [s[0]] + s[1..];
      if |longer[0]| <= |s| {
        assert s[..|longer[0]|] == [s[0]] + s[1..][..|parts[0]|];
        assert s[|longer[0]|..] == s[1..][|parts[0]|..];
        assert s[1..][..|parts[0]|] == s[..|longer[0]|][1..];
        assert longer[0][1..] == parts[0];
      }
    }
  }

  /** Splitting at the stars keeps the meaning of the pattern. */
  lemma {:induction false} SplitKeepsMeaning(p: string, s: string)
    ensures Matches(p, s) <==> Anchored(Split(p), s)
    decreases |p|
  {
    if p == "" {
      if s == "" { assert Fill(p, []) == s; }
    } else {
      var rest := Split(p[1..]);
      if p[0] == STAR {
        StarStep(p, s);
        assert Split(p)[1..] == rest;
        forall k | 0 <= k <= |s|
          ensures Matches(p[1..], s[k..]) <==> Anchored(rest, s[k..])
        {
          SplitKeepsMeaning(p[1..], s[k..]);
        }
        ScatteredIsShiftedAnchored(rest, s);
        assert s[0..] == s;
      } else {
        CharStep(p, s);
        AnchoredCons(p[0], rest, s);
        if s != "" { SplitKeepsMeaning(p[1..], s[1..]); }
      }
    }
  }

  /** Pieces that fit in the tail of a string fit in the whole string. */
  lemma ScatteredMonotone(parts: seq<string>, s: string, k: nat)
    requires parts != [] && k <= |s|
    requires Scattered(parts, s[k..])
    ensures Scattered(parts, s)
  {
    if |parts| == 1 {
      assert s[|s| - |parts[0]|..] == s[k..][|s| - k - |parts[0]|..];
    } else {
      var j :| OccursAt(s[k..], parts[0], j) && Scattered(parts[1..], s[k..][j + |parts[0]|..]);
      assert s[k..][j..] == s[k + j..];
      assert s[k..][j + |parts[0]|..] == s[k + j + |parts[0]|..];
      assert OccursAt(s, parts[0], k + j);
    }
  }

  /** The exchange argument: taking a piece at its leftmost place never loses a match. */
  lemma LeftmostSuffices(parts: seq<string>, s: string, idx: nat)
    requires |parts| >= 2 && OccursAt(s, parts[0], idx)
    requires forall j :: 0 <= j < idx ==> !OccursAt(s, parts[0], j)
    ensures Scattered(parts, s) <==> Scattered(parts[1..], s[idx + |parts[0]|..])
  {
    if Scattered(parts, s) {
      var k :| OccursAt(s, parts[0], k) && Scattered(parts[1..], s[k + |parts[0]|..]);
      var after := s[idx + |parts[0]|..];
      assert after[k - idx..] == s[k + |parts[0]|..];
      ScatteredMonotone(parts[1..], after, k - idx);
    }
  }

  /** `strings.Index`: the leftmost place where `piece` occurs, or -1. */
  method Index(s: string, piece: string) returns (idx: int)
    ensures idx >= 0 ==> OccursAt(s, piece, idx) && forall j :: 0 <= j < idx ==> !OccursAt(s, piece, j)
    ensures idx < 0 ==> forall j :: !OccursAt(s, piece, j)
  {
    idx := 0;
    while idx + |piece| <= |s|
      invariant 0 <= idx <= |s| + 1
      invariant forall j :: 0 <= j < idx ==> !OccursAt(s, piece, j)
    {
      if s[idx..idx + |piece|] == piece {
        assert s[idx..][..|piece|] == piece;
        return;
      }
      assert !OccursAt(s, piece, idx) by {
        assert s[idx..][..|piece|] == s[idx..idx + |piece|];
      }
      idx := idx + 1;
    }
    idx := -1;
  }

  lemma StarFree(p: string)
    requires STAR !in p
    ensures Stars(p) == 0 && Fill(p, []) == p && Split(p) == [p]
  {
    if p != "" {
      assert p[0] in p;
      assert forall c :: c in p[1..] ==> c in p;
      StarFree(p[1..]);
      assert [p[0]] + p[1..] == p;
    }
  }

  lemma StarsPositive(p: string)
    requires STAR in p
    ensures Stars(p) >= 1
  {
    if p[0] != STAR {
      assert p == [p[0]] + p[1..];
      StarsPositive(p[1..]);
    }
  }

  /** A pattern without stars matches itself and nothing else. */
  lemma StarFreeMatchesOnlyItself(p: string, s: string)
    requires STAR !in p
    ensures Matches(p, s) <==> s == p
  {
    StarFree(p);
    forall runs: seq<string> | |runs| == Stars(p) ensures Fill(p, runs) == p {
      assert runs == [];
    }
    assert Fill(p, []) == p;
  }

  lemma LoneStarMatchesAll(s: string)
    ensures Matches("*", s)
  {
    var p := "*";
    assert p[1..] == "" && Stars(p[1..]) == 0 && Fill(p[1..], []) == "";
    assert [s][1..] == [];
    assert Fill(p, [s]) == s;
  }

  /** The loop over the middle pieces: each is taken at its leftmost place. */
  method MatchPieces(parts: seq<string>, str: string) returns (ok: bool)
    requires |parts| >= 2
    ensures ok <==> Anchored(parts, str)
  {
    if !HasPrefix(str, parts[0]) { return false; }
    var s := str[|parts[0]|..];
    var i := 1;
    while i < |parts| - 1
      invariant 1 <= i <= |parts| - 1
      invariant Anchored(parts, str) <==> Scattered(parts[i..], s)
    {
      var p := parts[i];
      var idx := Index(s, p);
      if idx < 0 { return false; }
      assert parts[i..][1..] == parts[i + 1..];
      LeftmostSuffices(parts[i..], s, idx);
      s := s[idx + |p|..];
      i := i + 1;
    }
    return HasSuffix(s, parts[|parts| - 1]);
  }

  /** The greedy matcher decides exactly the meaning of the pattern. */
  method MatchGlob(pattern: string, str: string) returns (ok: bool)
    ensures ok <==> Matches(pattern, str)
  {
    if pattern == "" {
      StarFreeMatchesOnlyItself(pattern, str);
      return str == "";
    }
    if STAR !in pattern {
      StarFreeMatchesOnlyItself(pattern, str);
      return pattern == str;
    }
    if pattern == "*" {
      LoneStarMatchesAll(str);
      return true;
    }
    SplitKeepsMeaning(pattern, str);
    StarsPositive(pattern);
    ok := MatchPieces(Split(pattern), str);
  }
}
