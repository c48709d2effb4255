/**
 * The string operations the legend and the vector layer rely on:
 * QString::indexOf (case sensitive), QString::split with KeepEmptyParts,
 * and the case-insensitive comparison used to look up field names.
 */
module Strings {

  /** `w` occurs in `s` at index `i`. */
  predicate OccursAt(s: string, w: string, i: nat)
  {
    i + |w| <= |s| && s[i..i + |w|] == w
  }

  /** `w` occurs somewhere in `s`. */
  ghost predicate Contains(s: string, w: string)
  {
    exists i: nat | i <= |s| :: OccursAt(s, w, i)
  }

  /** The first index at or after `k` where `w` occurs in `s`, or -1. */
  function IndexOfFrom(s: string, w: string, k: nat): (r: int)
    decreases |s| - k
  {
    if k + |w| > |s| then -1
    else if OccursAt(s, w, k) then k
    else IndexOfFrom(s, w, k + 1)
  }

  /** QString::indexOf(w) with the default start 0 and case sensitivity. */
  function IndexOf(s: string, w: string): int
  {
    IndexOfFrom(s, w, 0)
  }

  lemma {:induction false} IndexOfFromSpec(s: string, w: string, k: nat)
    ensures var r := IndexOfFrom(s, w, k);
      && (r == -1 || (k <= r && OccursAt(s, w, r)))
      && (forall j: nat :: k <= j && (r == -1 || j < r) ==> !OccursAt(s, w, j))
    decreases |s| - k
  {
    if k + |w| > |s| {
    } else if OccursAt(s, w, k) {
    } else {
      IndexOfFromSpec(s, w, k + 1);
    }
  }

  /** indexOf finds the first occurrence, and answers -1 exactly when there is none. */
  lemma IndexOfIsFirstOccurrence(s: string, w: string)
    ensures IndexOf(s, w) >= 0 <==> Contains(s, w)
    ensures IndexOf(s, w) >= 0 ==> OccursAt(s, w, IndexOf(s, w))
    ensures forall j: nat :: j < IndexOf(s, w) ==> !OccursAt(s, w, j)
  {
    IndexOfFromSpec(s, w, 0);
    if IndexOf(s, w) >= 0 {
      assert OccursAt(s, w, IndexOf(s, w) as nat);
    }
  }

  /** QString::split(sep) with KeepEmptyParts, for a non-empty separator. */
  function Split(s: string, sep: string): (pieces: seq<string>)
    requires |sep| > 0
    ensures |pieces| >= 1
    decreases |s|
  {
    var i := IndexOf(s, sep);
    if i < 0 || i + |sep| > |s| then [s]
    else [s[..i]] + Split(s[i + |sep|..], sep)
  }

  /** QStringList::join(sep). */
  function Join(pieces: seq<string>, sep: string): string
    requires |pieces| >= 1
  {
    if |pieces| == 1 then pieces[0] else pieces[0] + sep + Join(pieces[1..], sep)
  }

  /** Joining the pieces of a split with the separator gives back the original string. */
  lemma {:induction false} SplitJoin(s: string, sep: string)
    requires |sep| > 0
    ensures Join(Split(s, sep), sep) == s
    decreases |s|
  {
    var i := IndexOf(s, sep);
    if i < 0 || i + |sep| > |s| {
    } else {
      IndexOfIsFirstOccurrence(s, sep);
      var rest := s[i + |sep|..];
      SplitJoin(rest, sep);
      assert Split(s, sep) == [s[..i]] + Split(rest, sep);
      assert s[i..i + |sep|] == sep;
      assert s == s[..i] + sep + rest;
    }
  }

  /** No piece of a split contains the separator. */
  lemma {:induction false} SplitPiecesFree(s: string, sep: string)
    requires |sep| > 0
    ensures forall k :: 0 <= k < |Split(s, sep)| ==> !Contains(Split(s, sep)[k], sep)
    decreases |s|
  {
    var i := IndexOf(s, sep);
    IndexOfIsFirstOccurrence(s, sep);
    if i < 0 || i + |sep| > |s| {
    } else {
      var rest := s[i + |sep|..];
      SplitPiecesFree(rest, sep);
      var head := s[..i];
      forall j: nat | OccursAt(head, sep, j)
        ensures false
      {
        assert head[j..j + |sep|] == s[j..j + |sep|];
        assert OccursAt(s, sep, j);
      }
      assert Split(s, sep) == [head] + Split(rest, sep);
    }
  }

  /** Lower-case form of an ASCII letter; other characters are kept. */
  function LowerAscii(c: char): char
  {
    if 'A' <= c <= 'Z' then (c as int + 32) as char else c
  }

  /** QString::compare(a, b, Qt::CaseInsensitive) == 0, with ASCII case folding. */
  predicate EqualsIgnoringCase(a: string, b: string)
  {
    |a| == |b| && forall i :: 0 <= i < |a| ==> LowerAscii(a[i]) == LowerAscii(b[i])
  }
}
