// Searching in sequences, and sequences without repetition.
module Sequences {

  predicate NoRepeats<T(==)>(values: seq<T>) {
    forall i, j :: 0 <= i < j < |values| ==> values[i] != values[j]
  }

  /** The first position of a value that is looked for, or the length of the sequence. */
  function FirstIndex<T>(values: seq<T>, found: T -> bool): (i: nat)
    ensures i <= |values|
    ensures i < |values| ==> found(values[i])
    ensures forall j :: 0 <= j < i ==> !found(values[j])
  {
    if |values| == 0 || found(values[0]) then 0 else 1 + FirstIndex(values[1..], found)
  }

  function IndexOf<T(==)>(values: seq<T>, value: T): (i: nat)
    ensures i <= |values|
    ensures i < |values| ==> values[i] == value
    ensures forall j :: 0 <= j < i ==> values[j] != value
  {
    FirstIndex(values, v => v == value)
  }
}
