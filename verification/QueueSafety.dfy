/** What the theorems about `CoQueue` say of every run: any number of threads, any schedule, both loop bounds. */
module QueueSafety {
  import opened Threads
  import opened QueueIndex
  import opened CoQueue
  import opened QueueInvariant
  import opened QueueRuns
  import opened QueueTheorems
  import opened QueueLenDrop

  /** The next step of any thread touches only live memory, and returns `Err` only from an empty queue. */
  lemma EveryStepIsSafe(threads: nat, bound: nat, schedule: Schedule, t: Tid)
    requires IsBound(bound) && t < threads
    ensures var s := Run(threads, bound, schedule);
      && (Touches(s.pcs[t]).Some? ==> Touches(s.pcs[t]).value < |s.heap| && Touches(s.pcs[t]).value !in s.freed)
      && (ReturnsErr(s, t) ==> |s.poppers| == |s.pushed|)
  {
    var s := Run(threads, bound, schedule);
    if Touches(s.pcs[t]).Some? {
      NoUseAfterFree(s, t);
    }
    if ReturnsErr(s, t) {
      ErrMeansEmpty(s, t);
    }
  }

  /** A CAS that succeeds works on the chunk of its index, and a pop claims only what a push has claimed. */
  lemma EveryClaimIsSafe(threads: nat, bound: nat, schedule: Schedule, t: Tid, c: Choice)
    requires IsBound(bound) && t < threads
    ensures var s := Run(threads, bound, schedule);
      && (Enqueues(s, t, c) ==>
            && Block(s.tailIndex) < |s.chain| && Offset(s.tailIndex) < CHUNK_CAP
            && s.pcs[t].mine == s.chain[Block(s.tailIndex)])
      && (Dequeues(s, t, c) ==>
            && Block(s.headIndex) < |s.chain| && Offset(s.headIndex) < CHUNK_CAP
            && s.pcs[t].mine == s.chain[Block(s.headIndex)] && |s.poppers| < |s.pushed|)
  {
    var s := Run(threads, bound, schedule);
    ClaimWorksOnItsChunk(s, t, c);
    if Dequeues(s, t, c) {
      ClaimIsBehindTail(s, t, c);
    }
  }

  lemma ClaimIsBehindTail(s: State, t: Tid, c: Choice)
    requires Inv(s) && t < |s.pcs| && Dequeues(s, t, c)
    ensures |s.poppers| < |s.pushed|
  {
    assert ThreadInv(s, t);
    HeadBehindTail(s);
  }

  /** Destruction is a single baton: one holder per chunk, everything behind it READ. */
  lemma EveryBatonIsSingle(threads: nat, bound: nat, schedule: Schedule, t: Tid, u: Tid)
    requires IsBound(bound) && t < threads && u < threads
    requires var s := Run(threads, bound, schedule);
      Destroying(s.pcs[t]) && Destroying(s.pcs[u]) && s.pcs[t].mine == s.pcs[u].mine
    ensures t == u
    ensures var s := Run(threads, bound, schedule); var pc := s.pcs[t];
      pc.mine < |s.heap| && AllReadBelow(s.heap[pc.mine].slots, pc.i) && pc.mine !in s.freed
  {
    OneDestroyer(Run(threads, bound, schedule), t, u);
  }

  /** With the shorter bound every drained chunk has been released; with the bound as written none ever is. */
  lemma EveryDrainedChunk(threads: nat, bound: nat, schedule: Schedule, j: nat)
    requires IsBound(bound)
    requires var s := Run(threads, bound, schedule); j < |s.chain| && Drained(s, j)
    ensures var s := Run(threads, bound, schedule);
      s.chain[j] in s.freed <==> bound == CHUNK_CAP - 1
  {
    DrainedChunks(Run(threads, bound, schedule), j);
  }

  /** What `drop` finds when nobody uses the queue any more. */
  lemma EveryQuiescentRun(threads: nat, bound: nat, schedule: Schedule, j: nat)
    requires IsBound(bound) && Quiescent(Run(threads, bound, schedule)) && j < |Run(threads, bound, schedule).chain|
    ensures var s := Run(threads, bound, schedule);
      s.chain[j] in s.freed <==> j < Block(s.headIndex) && bound == CHUNK_CAP - 1
  {
    BeforeDrop(Run(threads, bound, schedule), j);
  }
}
