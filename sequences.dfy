/**
 * Generic facts about a list built by appending one group of items after
 * another: where each group lands, how long the result is, and how often
 * an item occurs in it.
 */
module Sequences {

  /** The groups appended one after another, in order. */
  function Concat<T>(parts: seq<seq<T>>): seq<T>
  {
    if parts == [] then [] else Concat(parts[..|parts| - 1]) + parts[|parts| - 1]
  }

  /** Appending group i to the concatenation of the groups before it. */
  lemma ConcatStep<T>(parts: seq<seq<T>>, i: nat)
    requires i < |parts|
    ensures Concat(parts[..i + 1]) == Concat(parts[..i]) + parts[i]
  {
    assert parts[..i + 1][..i] == parts[..i];
  }

  lemma {:induction false} ConcatAppend<T>(xs: seq<seq<T>>, ys: seq<seq<T>>)
    ensures Concat(xs + ys) == Concat(xs) + Concat(ys)
    decreases |ys|
  {
    if ys == [] {
      assert xs + ys == xs;
    } else {
      var init, last := ys[..|ys| - 1], ys[|ys| - 1];
      assert (xs + ys)[..|xs + ys| - 1] == xs + init;
      ConcatAppend(xs, init);
    }
  }

  /** Group i sits, unchanged, right after the groups before it. */
  lemma ConcatSlice<T>(parts: seq<seq<T>>, i: nat)
    requires i < |parts|
    ensures var start := |Concat(parts[..i])|;
      start + |parts[i]| <= |Concat(parts)| && Concat(parts)[start..start + |parts[i]|] == parts[i]
  {
    assert parts == parts[..i + 1] + parts[i + 1..];
    ConcatAppend(parts[..i + 1], parts[i + 1..]);
    ConcatStep(parts, i);
  }

  function Sum(ns: seq<nat>): nat
  {
    if ns == [] then 0 else Sum(ns[..|ns| - 1]) + ns[|ns| - 1]
  }

  /** The length of the concatenation is the sum of the group lengths. */
  lemma {:induction false} ConcatLength<T>(parts: seq<seq<T>>, sizes: seq<nat>)
    requires |sizes| == |parts|
    requires forall i :: 0 <= i < |parts| ==> |parts[i]| == sizes[i]
    ensures |Concat(parts)| == Sum(sizes)
  {
    if parts != [] {
      var n := |parts|;
      ConcatLength(parts[..n - 1], sizes[..n - 1]);
    }
  }

  /** The number of times `x` occurs in `s`. */
  function Occurrences<T(==)>(s: seq<T>, x: T): nat
  {
    if s == [] then 0 else Occurrences(s[..|s| - 1], x) + (if s[|s| - 1] == x then 1 else 0)
  }

  lemma {:induction false} OccurrencesAppend<T>(s: seq<T>, t: seq<T>, x: T)
    ensures Occurrences(s + t, x) == Occurrences(s, x) + Occurrences(t, x)
    decreases |t|
  {
    if t == [] {
      assert s + t == s;
    } else {
      assert (s + t)[..|s + t| - 1] == s + t[..|t| - 1];
      OccurrencesAppend(s, t[..|t| - 1], x);
    }
  }

  /** When every group holds `x` exactly once, the concatenation holds it once per group. */
  lemma {:induction false} ConcatOccurrences<T>(parts: seq<seq<T>>, x: T)
    requires forall i :: 0 <= i < |parts| ==> Occurrences(parts[i], x) == 1
    ensures Occurrences(Concat(parts), x) == |parts|
  {
    if parts != [] {
      var n := |parts|;
      ConcatOccurrences(parts[..n - 1], x);
      OccurrencesAppend(Concat(parts[..n - 1]), parts[n - 1], x);
    }
  }

  /** A list whose last item is `x` holds `x` once more than the list without it. */
  lemma OccurrencesLast<T>(s: seq<T>, x: T)
    requires |s| > 0 && s[|s| - 1] == x
    ensures Occurrences(s[..|s| - 1], x) + 1 == Occurrences(s, x)
  {
  }

  /** A list that does not hold `x` has no occurrence of it. */
  lemma {:induction false} OccurrencesNone<T>(s: seq<T>, x: T)
    requires forall k :: 0 <= k < |s| ==> s[k] != x
    ensures Occurrences(s, x) == 0
  {
    if s != [] {
      OccurrencesNone(s[..|s| - 1], x);
    }
  }
}
