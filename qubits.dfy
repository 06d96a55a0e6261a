/**
 * Qubit relabelling by a reordered qubit list, as reorder_qubits does it:
 * a qubit q found at index idx of the list becomes n - 1 - idx, where n is
 * the qubit count; a qubit that is not in the list keeps its label.
 */
module Qubits {
  import opened Common

  /** The last index of q in s, if any (the source's loop lets the last match win). */
  function LastIndex(s: seq<int>, q: int): (r: Option<nat>)
    ensures r.Some? ==> r.value < |s| && s[r.value] == q
    ensures r.Some? ==> forall k :: r.value < k < |s| ==> s[k] != q
    ensures r.None? <==> q !in s
  {
    if |s| == 0 then None
    else if s[|s| - 1] == q then Some(|s| - 1)
    else LastIndex(s[..|s| - 1], q)
  }

  /** The new label of qubit q. */
  function Relabel(list: seq<int>, n: int, q: int): int
  {
    match LastIndex(list, q)
    case None => q
    case Some(idx) => n - 1 - idx
  }

  /** list holds each of 0..n-1 exactly once. */
  predicate IsPermutation(list: seq<int>, n: nat)
  {
    |list| == n &&
    (forall i :: 0 <= i < n ==> 0 <= list[i] < n) &&
    (forall q :: 0 <= q < n ==> q in list) &&
    (forall i, j :: 0 <= i < j < n ==> list[i] != list[j])
  }

  /** A label in the list maps to n - 1 - (its position). */
  lemma RelabelOfEntry(list: seq<int>, n: nat, idx: nat)
    requires IsPermutation(list, n) && idx < n
    ensures Relabel(list, n, list[idx]) == n - 1 - idx
  {
    assert list[idx] in list;
  }

  /** With a permutation, qubits 0..n-1 stay within 0..n-1. */
  lemma RelabelInRange(list: seq<int>, n: nat, q: int)
    requires IsPermutation(list, n) && 0 <= q < n
    ensures 0 <= Relabel(list, n, q) < n
  {
    match LastIndex(list, q)
    case None =>
    case Some(idx) =>
  }

  /** With a permutation, distinct qubits get distinct labels. */
  lemma RelabelInjective(list: seq<int>, n: nat, p: int, q: int)
    requires IsPermutation(list, n) && 0 <= p < n && 0 <= q < n && p != q
    ensures Relabel(list, n, p) != Relabel(list, n, q)
  {
    assert p in list && q in list;
  }

  /** With a permutation, every label 0..n-1 is reached. */
  lemma RelabelOnto(list: seq<int>, n: nat, r: nat)
    requires IsPermutation(list, n) && r < n
    ensures 0 <= list[n - 1 - r] < n && Relabel(list, n, list[n - 1 - r]) == r
  {
    RelabelOfEntry(list, n, n - 1 - r);
  }

  /** "No qubit" (-1) is never in a permutation of 0..n-1 and keeps its label. */
  lemma RelabelKeepsNone(list: seq<int>, n: nat)
    requires IsPermutation(list, n)
    ensures Relabel(list, n, -1) == -1
  {
    assert -1 !in list;
  }
}
