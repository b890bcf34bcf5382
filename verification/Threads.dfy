/** Threads, as all machines name them. */
module Threads {
  type Tid = nat

  /** No thread occurs twice. */
  predicate Distinct(q: seq<Tid>) {
    forall i, j :: 0 <= i < j < |q| ==> q[i] != q[j]
  }
}
