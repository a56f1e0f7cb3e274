/**
 * Removing the elements at a set of offsets from an array, as Swift's
 * `remove(atOffsets:)` does, and the index-level description of its result:
 * the survivors, in their original order.
 */
module Offsets {

  /** The offsets below `n` that are not in `offsets`, in increasing order. */
  function KeptIndices(n: nat, offsets: set<nat>): (r: seq<nat>)
    ensures forall k :: 0 <= k < |r| ==> r[k] < n && r[k] !in offsets
    ensures forall k, l :: 0 <= k < l < |r| ==> r[k] < r[l]
    ensures forall i :: 0 <= i < n && i !in offsets ==> i in r
  {
    if n == 0 then []
    else KeptIndices(n - 1, offsets) + (if n - 1 in offsets then [] else [n - 1])
  }

  /** The offsets of `offsets` that lie below `n`. */
  function OffsetsBelow(n: nat, offsets: set<nat>): set<nat> {
    set i | i in offsets && i < n
  }

  /** How many elements survive: one per offset below `n` not listed. */
  lemma {:induction false} KeptIndicesCount(n: nat, offsets: set<nat>)
    ensures |KeptIndices(n, offsets)| == n - |OffsetsBelow(n, offsets)|
  {
    if n > 0 {
      KeptIndicesCount(n - 1, offsets);
      OffsetsBelowStep(n, offsets);
      PrevBelowBound(n - 1, offsets);
      assert |KeptIndices(n, offsets)| ==
        |KeptIndices(n - 1, offsets)| + (if n - 1 in offsets then 0 else 1);
    }
  }

  /** At most `n` offsets lie below `n`. */
  lemma {:induction false} PrevBelowBound(n: nat, offsets: set<nat>)
    ensures |OffsetsBelow(n, offsets)| <= n
  {
    if n > 0 {
      PrevBelowBound(n - 1, offsets);
      OffsetsBelowStep(n, offsets);
    }
  }

  /** Going from `n - 1` to `n` adds the offset `n - 1` when it is listed. */
  lemma OffsetsBelowStep(n: nat, offsets: set<nat>)
    requires n > 0
    ensures |OffsetsBelow(n, offsets)| == |OffsetsBelow(n - 1, offsets)| + (if n - 1 in offsets then 1 else 0)
  {
    var below, prev := OffsetsBelow(n, offsets), OffsetsBelow(n - 1, offsets);
    if n - 1 in offsets {
      assert below == prev + {n - 1};
    } else {
      assert below == prev;
    }
  }

  /**
   * `s.remove(atOffsets: offsets)`, as the value it leaves behind. Swift traps
   * on an offset at or beyond the end; this function ignores such offsets, and
   * `Transitions.Deleted` requires every offset to be in range, so no caller
   * that models `deleteTodo(at:)` passes one.
   */
  function RemoveOffsets<T>(s: seq<T>, offsets: set<nat>): (r: seq<T>)
    ensures |r| <= |s|
    ensures forall x :: x in r ==> x in s
    ensures forall i :: 0 <= i < |s| && i !in offsets ==> s[i] in r
  {
    if |s| == 0 then []
    else
      var last := |s| - 1;
      RemoveOffsets(s[..last], offsets) + (if last in offsets then [] else [s[last]])
  }

  /** The result of `RemoveOffsets` is the input read at the kept offsets. */
  lemma {:induction false} RemoveOffsetsSelectsKept<T>(s: seq<T>, offsets: set<nat>)
    ensures |RemoveOffsets(s, offsets)| == |KeptIndices(|s|, offsets)|
    ensures forall k :: 0 <= k < |RemoveOffsets(s, offsets)| ==>
      RemoveOffsets(s, offsets)[k] == s[KeptIndices(|s|, offsets)[k]]
  {
    if |s| > 0 {
      RemoveOffsetsSelectsKept(s[..|s| - 1], offsets);
    }
  }

  /** Proof helper: offsets at or beyond the end remove nothing from the value. */
  lemma {:induction false} RemoveOffsetsBeyondEnd<T>(s: seq<T>, offsets: set<nat>)
    requires forall i :: i in offsets ==> i >= |s|
    ensures RemoveOffsets(s, offsets) == s
  {
    if |s| > 0 {
      RemoveOffsetsBeyondEnd(s[..|s| - 1], offsets);
      assert s[..|s| - 1] + [s[|s| - 1]] == s;
    }
  }
}
