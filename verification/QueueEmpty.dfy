/** `CoQueue::is_empty` (src/lockless_queue.rs): exact about one instant only up to a chunk boundary. */
module QueueEmpty {
  import opened Threads
  import opened QueueIndex
  import opened CoQueue
  import opened QueueInvariant
  import opened QueueRuns
  import opened QueueTheorems

  /** What `is_empty` answers from the head word and the tail word it has read. */
  predicate IsEmpty(headWord: nat, tailWord: nat) {
    Pos(headWord) == Pos(tailWord)
  }

  /** The head stands on a sentinel and the tail has just stepped over it. */
  predicate AcrossSentinel(headWord: nat, tailWord: nat) {
    Offset(headWord) == CHUNK_CAP && Pos(tailWord) == Pos(headWord) + 1
  }

  /** At one instant the words agree on the count exactly when they are equal or the sentinel is between them. */
  lemma EmptyAtOnce(s: State)
    requires HeapInv(s) && TailInv(s) && HeadInv(s)
    ensures |s.poppers| <= |s.pushed|
    ensures Contents(s) == [] <==> IsEmpty(s.headIndex, s.tailIndex) || AcrossSentinel(s.headIndex, s.tailIndex)
  {
    HeadBehindTail(s);
  }

  lemma PushKeepsHead(s: State, t: Tid, c: Choice)
    requires HeapInv(s) && t < |s.pcs| && PushThreadInv(s, t, s.pcs[t])
    ensures PushNext(s, t, c).headIndex == s.headIndex
  {
  }

  lemma PopMovesHeadUp(s: State, t: Tid, c: Choice)
    requires HeapInv(s) && t < |s.pcs| && PopThreadInv(s, t, s.pcs[t]) && InPop(s.pcs[t])
    ensures Pos(s.headIndex) <= Pos(PopNext(s, t, c).headIndex)
  {
  }

  lemma StepMovesHeadUp(threads: nat, bound: nat, schedule: Schedule, e: (Tid, Choice))
    requires IsBound(bound)
    ensures Pos(Run(threads, bound, schedule).headIndex) <= Pos(Run(threads, bound, schedule + [e]).headIndex)
  {
    RunExtends(threads, bound, schedule, e);
    if e.0 < threads {
      var s := Run(threads, bound, schedule);
      if InPop(s.pcs[e.0]) {
        PopMovesHeadUp(s, e.0, e.1);
      } else {
        PushKeepsHead(s, e.0, e.1);
      }
    }
  }

  /** What no step decreases, no run decreases. */
  lemma {:induction false} NeverDecreases(f: Schedule -> nat,
                                          before: Schedule, between: Schedule)
    requires forall q, e :: f(q) <= f(q + [e])
    ensures f(before) <= f(before + between)
    decreases |between|
  {
    if between == [] {
      assert before + between == before;
    } else {
      var n := |between| - 1;
      NeverDecreases(f, before, between[..n]);
      assert before + between == before + between[..n] + [between[n]];
    }
  }

  /** The head never moves back. */
  lemma HeadMovesUp(threads: nat, bound: nat, before: Schedule, between: Schedule)
    requires IsBound(bound)
    ensures Pos(Run(threads, bound, before).headIndex) <= Pos(Run(threads, bound, before + between).headIndex)
  {
    var f: Schedule -> nat := q => Pos(Run(threads, bound, q).headIndex);
    forall q, e ensures f(q) <= f(q + [e]) {
      StepMovesHeadUp(threads, bound, q, e);
    }
    NeverDecreases(f, before, between);
  }

  /**
   `is_empty` reads the head after `before` and the tail after any further steps `between`. It answers true
   exactly if the queue is empty when it reads the tail, the head has not moved since it was read, and the
   sentinel is not between them; so true is always right, and false is wrong at a chunk boundary.
   */
  lemma EmptyAnswer(threads: nat, bound: nat, before: Schedule, between: Schedule)
    requires IsBound(bound)
    ensures var first, s := Run(threads, bound, before), Run(threads, bound, before + between);
      && |s.poppers| <= |s.pushed|
      && (IsEmpty(first.headIndex, s.tailIndex) <==>
            && Contents(s) == [] && Pos(first.headIndex) == Pos(s.headIndex)
            && !AcrossSentinel(s.headIndex, s.tailIndex))
  {
    HeadMovesUp(threads, bound, before, between);
    EmptyAtOnce(Run(threads, bound, before + between));
  }
}
