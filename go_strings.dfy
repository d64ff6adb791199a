/**
 * The parts of Go's `strings` package that the watcher's name helpers use:
 * `Index`, `Split`, `Join` and `ReplaceAll` restricted to one character.
 * Strings are sequences of characters; a Go string's bytes are not modelled.
 */
module GoStrings {
  import opened Wrappers

  /** `sep` occurs in `s` at position `i`. */
  predicate OccursAt(s: string, sep: string, i: nat) {
    i + |sep| <= |s| && s[i..i + |sep|] == sep
  }

  /** `sep` occurs in `s` at no position before `n`. */
  predicate FreeBefore(s: string, sep: string, n: nat) {
    forall j: nat :: j < n ==> !OccursAt(s, sep, j)
  }

  /** `sep` occurs nowhere in `s`. */
  predicate Free(s: string, sep: string) {
    forall j: nat :: j <= |s| ==> !OccursAt(s, sep, j)
  }

  lemma OccursAtTail(s: string, sep: string, j: nat)
    requires s != []
    ensures OccursAt(s, sep, j + 1) <==> OccursAt(s[1..], sep, j)
  {
    if j + 1 + |sep| <= |s| {
      assert s[j + 1..j + 1 + |sep|] == s[1..][j..j + |sep|];
    }
  }

  /** Shifting a search one character to the right. */
  lemma IndexTail(s: string, sep: string, r: Option<nat>)
    requires s != [] && !OccursAt(s, sep, 0)
    requires r.Some? ==> OccursAt(s[1..], sep, r.value)
    requires r.None? <==> Free(s[1..], sep)
    ensures r.Some? ==> OccursAt(s, sep, r.value + 1)
    ensures r.None? <==> Free(s, sep)
  {
    if r.Some? {
      OccursAtTail(s, sep, r.value);
    } else {
      forall j: nat | j <= |s|
        ensures !OccursAt(s, sep, j)
      {
        if j > 0 { OccursAtTail(s, sep, j - 1); }
      }
    }
  }

  /** A one-character separator occurs exactly where that character stands. */
  lemma OccursAtChar(s: string, c: char)
    ensures forall j: nat :: OccursAt(s, [c], j) <==> j < |s| && s[j] == c
  {
    forall j: nat | j < |s|
      ensures OccursAt(s, [c], j) <==> s[j] == c
    {
      assert s[j..j + 1] == [s[j]];
    }
  }

  /** strings.Index: the position of the first occurrence of `sep` in `s`. */
  function Index(s: string, sep: string): (r: Option<nat>)
    ensures r.Some? ==> OccursAt(s, sep, r.value)
    ensures r.None? <==> Free(s, sep)
    decreases |s|
  {
    if OccursAt(s, sep, 0) then Some(0)
    else if s == [] then None
    else
      var r := Index(s[1..], sep);
      IndexTail(s, sep, r);
      match r
      case None => None
      case Some(i) => Some(i + 1)
  }

  /** strings.Index finds the first occurrence: none lies before it. */
  lemma {:induction false} IndexIsFirst(s: string, sep: string)
    ensures Index(s, sep).Some? ==> FreeBefore(s, sep, Index(s, sep).value)
    decreases |s|
  {
    if !OccursAt(s, sep, 0) && s != [] {
      IndexIsFirst(s[1..], sep);
      var r := Index(s[1..], sep);
      if r.Some? {
        forall j: nat | j < r.value + 1
          ensures !OccursAt(s, sep, j)
        {
          if j > 0 { OccursAtTail(s, sep, j - 1); }
        }
      }
    }
  }

  /** strings.Split with an empty separator: one part per character. */
  function Explode(s: string): (parts: seq<string>)
    ensures |parts| == |s|
    ensures forall i :: 0 <= i < |s| ==> parts[i] == [s[i]]
  {
    seq(|s|, i requires 0 <= i < |s| => [s[i]])
  }

  /**
   * strings.Split with a non-empty separator: the pieces of `s` between
   * successive occurrences of `sep`, scanning from the left.
   */
  function SplitOn(s: string, sep: string): (parts: seq<string>)
    requires sep != []
    ensures |parts| >= 1
    decreases |s|
  {
    match Index(s, sep)
    case None => [s]
    case Some(i) => [s[..i]] + SplitOn(s[i + |sep|..], sep)
  }

  /** strings.Split: an empty separator splits after every character. */
  function Split(s: string, sep: string): (parts: seq<string>)
    ensures sep != [] ==> |parts| >= 1
    ensures sep == [] ==> |parts| == |s|
  {
    if sep == [] then Explode(s) else SplitOn(s, sep)
  }

  /** strings.Join: the parts with `sep` between neighbours. */
  function Join(parts: seq<string>, sep: string): string {
    if |parts| == 0 then ""
    else if |parts| == 1 then parts[0]
    else parts[0] + sep + Join(parts[1..], sep)
  }

  /** strings.ReplaceAll(s, [from], [to]): every `from` becomes `to`. */
  function ReplaceAllChar(s: string, from: char, to: char): (r: string)
    ensures |r| == |s|
    ensures forall i :: 0 <= i < |s| ==> r[i] == if s[i] == from then to else s[i]
  {
    seq(|s|, i requires 0 <= i < |s| => if s[i] == from then to else s[i])
  }

  /** One step of a split: the piece before the first separator, then the rest split again. */
  lemma {:induction false} SplitStep(s: string, sep: string, i: nat)
    requires sep != [] && Index(s, sep) == Some(i)
    ensures SplitOn(s, sep) == [s[..i]] + SplitOn(s[i + |sep|..], sep)
  {
  }

  /** Splitting and joining again with the same non-empty separator gives the input back. */
  lemma {:induction false} SplitJoin(s: string, sep: string)
    requires sep != []
    ensures Join(SplitOn(s, sep), sep) == s
    decreases |s|
  {
    var r := Index(s, sep);
    if r.Some? {
      var i := r.value;
      SplitStep(s, sep, i);
      var rest := s[i + |sep|..];
      SplitJoin(rest, sep);
      JoinCons(s[..i], SplitOn(rest, sep), sep);
      AroundOccurrence(s, sep, i);
    }
  }

  /** Joining a part in front of at least one other. */
  lemma JoinCons(head: string, tail: seq<string>, sep: string)
    requires tail != []
    ensures Join([head] + tail, sep) == head + sep + Join(tail, sep)
  {
    assert ([head] + tail)[1..] == tail;
  }

  /** A text is what lies before an occurrence, the occurrence, and what follows. */
  lemma AroundOccurrence(s: string, sep: string, i: nat)
    requires OccursAt(s, sep, i)
    ensures s == s[..i] + sep + s[i + |sep|..]
  {
    assert s == s[..i] + s[i..i + |sep|] + s[i + |sep|..];
  }

  /** The piece before the first separator holds no separator. */
  lemma HeadFree(s: string, sep: string, i: nat)
    requires sep != [] && Index(s, sep) == Some(i)
    ensures Free(s[..i], sep)
  {
    IndexIsFirst(s, sep);
    var head := s[..i];
    forall j: nat | j <= |head|
      ensures !OccursAt(head, sep, j)
    {
      if j + |sep| <= |head| {
        assert head[j..j + |sep|] == s[j..j + |sep|];
        assert !OccursAt(s, sep, j);
      }
    }
  }

  /** No part of a split contains the separator. */
  lemma {:induction false} SplitPartsFree(s: string, sep: string)
    requires sep != []
    ensures forall p :: p in SplitOn(s, sep) ==> Free(p, sep)
    decreases |s|
  {
    var r := Index(s, sep);
    if r.Some? {
      var i := r.value;
      SplitStep(s, sep, i);
      SplitPartsFree(s[i + |sep|..], sep);
      HeadFree(s, sep, i);
    }
  }

  /**
   * `r` is the last `seps`-separated segment of `s`: a suffix of `s` holding
   * no separator, preceded in `s` by a separator unless it is all of `s`.
   */
  predicate LastSegmentOf(r: string, s: string, seps: set<char>) {
    && |r| <= |s|
    && r == s[|s| - |r|..]
    && (forall k :: |s| - |r| <= k < |s| ==> s[k] !in seps)
    && (|r| < |s| ==> s[|s| - |r| - 1] in seps)
  }

  /** A string free of a one-character separator holds no such character. */
  lemma FreeOfChar(s: string, sep: string)
    requires |sep| == 1 && Free(s, sep)
    ensures forall k :: 0 <= k < |s| ==> s[k] != sep[0]
  {
    forall k | 0 <= k < |s|
      ensures s[k] != sep[0]
    {
      assert s[k..k + 1] == [s[k]];
      assert !OccursAt(s, sep, k);
    }
  }

  /** Joining at least two parts ends with the separator and the last part. */
  lemma {:induction false} JoinLast(parts: seq<string>, sep: string)
    requires |parts| >= 2
    ensures Join(parts, sep) == Join(parts[..|parts| - 1], sep) + sep + parts[|parts| - 1]
    decreases |parts|
  {
    var n := |parts|;
    if n > 2 {
      var init := parts[..n - 1];
      assert init[1..] == parts[1..][..n - 2];
      JoinLast(parts[1..], sep);
    }
  }

  /**
   * A separator-free text is the last segment of itself, and of any text
   * that ends with the separator and it.
   */
  lemma LastSegmentAfterSeparator(s: string, x: string, sep: string, p: string)
    requires |sep| == 1
    requires forall k :: 0 <= k < |p| ==> p[k] != sep[0]
    requires s == p || s == x + sep + p
    ensures LastSegmentOf(p, s, {sep[0]})
  {
    if s != p {
      assert s[|s| - |p|..] == p;
      assert s[|s| - |p| - 1] == sep[0];
      forall k | |s| - |p| <= k < |s|
        ensures s[k] !in {sep[0]}
      {
        assert s[k] == p[k - (|s| - |p|)];
      }
    }
  }

  /** The last part of a split on a one-character separator is the last segment. */
  lemma SplitLastPart(s: string, sep: string)
    requires |sep| == 1
    ensures var parts := SplitOn(s, sep); LastSegmentOf(parts[|parts| - 1], s, {sep[0]})
  {
    var parts := SplitOn(s, sep);
    var last := parts[|parts| - 1];
    SplitJoin(s, sep);
    SplitPartsFree(s, sep);
    assert last in parts;
    FreeOfChar(last, sep);
    var init := parts[..|parts| - 1];
    if |parts| > 1 {
      JoinLast(parts, sep);
    }
    LastSegmentAfterSeparator(s, Join(init, sep), sep, last);
  }

  /** The last part of a split on one character is the last segment. */
  lemma SplitLastChar(s: string, c: char)
    ensures var parts := SplitOn(s, [c]); LastSegmentOf(parts[|parts| - 1], s, {c})
  {
    SplitLastPart(s, [c]);
  }

  /** The last segment is unique. */
  lemma LastSegmentUnique(r1: string, r2: string, s: string, seps: set<char>)
    requires LastSegmentOf(r1, s, seps) && LastSegmentOf(r2, s, seps)
    ensures r1 == r2
  {
    if |r1| < |r2| {
      assert false;
    }
    if |r2| < |r1| {
      assert false;
    }
  }
}
