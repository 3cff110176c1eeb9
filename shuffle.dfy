/** The Fisher-Yates pass `generateTimetable` runs over its copy of the pool:
    for i from n-1 down to 1, swap element i with element floor(random * (i+1)). */
module Shuffle {
  import opened RandomSource

  function Swap<T>(s: seq<T>, i: nat, j: nat): (r: seq<T>)
    requires i < |s| && j < |s|
    ensures |r| == |s|
    ensures r[i] == s[j] && r[j] == s[i]
    ensures forall k :: 0 <= k < |s| && k != i && k != j ==> r[k] == s[k]
  {
    s[i := s[j]][j := s[i]]
  }

  lemma SwapPermutes<T>(s: seq<T>, i: nat, j: nat)
    requires i < |s| && j < |s|
    ensures multiset(Swap(s, i, j)) == multiset(s)
  {
  }

  /** The sequence left by the iterations i, i-1, ..., 1 of the shuffle loop,
      the first of them using the draw `random(cursor)`. */
  function ShuffleFrom<T>(s: seq<T>, i: int, random: nat -> real, cursor: nat): (r: seq<T>)
    requires IsRandomStream(random)
    requires -1 <= i < |s|
    ensures |r| == |s|
    decreases i + 1
  {
    if i <= 0 then s
    else ShuffleFrom(Swap(s, i, Draw(random(cursor), i + 1)), i - 1, random, cursor + 1)
  }

  /** The whole shuffle of `s`, starting at draw number `cursor`. */
  function Shuffled<T>(s: seq<T>, random: nat -> real, cursor: nat): (r: seq<T>)
    requires IsRandomStream(random)
    ensures |r| == |s|
  {
    ShuffleFrom(s, |s| - 1, random, cursor)
  }

  /** How many draws the shuffle of n elements consumes. */
  function ShuffleDraws(n: nat): nat {
    if n == 0 then 0 else n - 1
  }

  /** Whatever the draws, the shuffle only reorders: same length, same multiset. */
  lemma {:induction false} ShuffleFromPermutes<T>(s: seq<T>, i: int, random: nat -> real, cursor: nat)
    requires IsRandomStream(random)
    requires -1 <= i < |s|
    ensures |ShuffleFrom(s, i, random, cursor)| == |s|
    ensures multiset(ShuffleFrom(s, i, random, cursor)) == multiset(s)
    decreases i + 1
  {
    if i > 0 {
      SwapPermutes(s, i, Draw(random(cursor), i + 1));
      ShuffleFromPermutes(Swap(s, i, Draw(random(cursor), i + 1)), i - 1, random, cursor + 1);
    }
  }

  lemma ShuffledPermutes<T>(s: seq<T>, random: nat -> real, cursor: nat)
    requires IsRandomStream(random)
    ensures |Shuffled(s, random, cursor)| == |s|
    ensures multiset(Shuffled(s, random, cursor)) == multiset(s)
  {
    ShuffleFromPermutes(s, |s| - 1, random, cursor);
  }

  /** One iteration of the shuffle: swap position i with the drawn one, then
      continue from i-1 with the next draw. */
  lemma ShuffleFromStep<T>(s: seq<T>, i: nat, random: nat -> real, cursor: nat)
    requires IsRandomStream(random)
    requires 0 < i < |s|
    ensures Draw(random(cursor), i + 1) <= i
    ensures ShuffleFrom(s, i, random, cursor)
         == ShuffleFrom(Swap(s, i, Draw(random(cursor), i + 1)), i - 1, random, cursor + 1)
  {
  }

  /** `[a[i], a[j]] = [a[j], a[i]]` */
  method SwapInPlace<T>(a: array<T>, i: nat, j: nat)
    requires i < a.Length && j < a.Length
    modifies a
    ensures a[..] == Swap(old(a[..]), i, j)
  {
    var t := a[i];
    a[i] := a[j];
    a[j] := t;
  }

  /** One iteration of the swap loop, in place: position i is exchanged with
      the drawn index, and the rest of the shuffle continues from i-1. */
  method ShuffleStep<T>(a: array<T>, i: nat, random: nat -> real, cursor: nat)
    requires IsRandomStream(random) && 0 < i < a.Length
    modifies a
    ensures ShuffleFrom(a[..], i - 1, random, cursor + 1) == ShuffleFrom(old(a[..]), i, random, cursor)
  {
    var j := Draw(random(cursor), i + 1);
    ShuffleFromStep(a[..], i, random, cursor);
    SwapInPlace(a, i, j);
  }

  /** The swap loop over `availableSessions`, in place; returns the number of
      the next unused draw. */
  method ShuffleInPlace<T>(a: array<T>, random: nat -> real, cursor: nat) returns (next: nat)
    requires IsRandomStream(random)
    modifies a
    ensures a[..] == Shuffled(old(a[..]), random, cursor)
    ensures multiset(a[..]) == multiset(old(a[..]))
    ensures next == cursor + ShuffleDraws(a.Length)
  {
    var i := a.Length - 1;
    next := cursor;
    while i > 0
      invariant -1 <= i < a.Length && (a.Length > 0 ==> 0 <= i)
      invariant next == cursor + (a.Length - 1 - i)
      invariant ShuffleFrom(a[..], i, random, next) == Shuffled(old(a[..]), random, cursor)
    {
      ShuffleStep(a, i, random, next);
      next, i := next + 1, i - 1;
    }
    PermutedInPlace(a[..], old(a[..]), random, cursor);
  }

  /** An array left holding the shuffle of its old contents holds a
      permutation of them. */
  lemma PermutedInPlace<T>(now: seq<T>, before: seq<T>, random: nat -> real, cursor: nat)
    requires IsRandomStream(random) && now == Shuffled(before, random, cursor)
    ensures multiset(now) == multiset(before)
  {
    ShuffledPermutes(before, random, cursor);
  }
}
