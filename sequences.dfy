/** What both versions of the game mean by a snake body free of repeated
    cells, the property their collision rule keeps. */
module Sequences {

  /** No cell occurs twice in `s`. */
  predicate Distinct<T(==)>(s: seq<T>) {
    forall i, j :: 0 <= i < j < |s| ==> s[i] != s[j]
  }
}
