/** What the invariant of `CoQueue` means: FIFO order, emptiness, memory safety and reclamation. */
module QueueTheorems {
  import opened Wrappers
  import opened Threads
  import opened QueueIndex
  import opened CoQueue
  import opened QueueInvariant
  import opened QueueRuns

  // ---------- A FIFO queue ----------

  lemma HeadBehindTail(s: State)
    requires HeapInv(s) && TailInv(s) && HeadInv(s)
    ensures |s.poppers| <= |s.pushed|
    ensures Pos(s.headIndex) < Pos(s.tailIndex) && Offset(s.headIndex) < CHUNK_CAP ==> |s.poppers| < |s.pushed|
    ensures Pos(s.headIndex) == Pos(s.tailIndex) ==> |s.poppers| == |s.pushed|
  {
    CountMonotone(s.headIndex, s.tailIndex);
  }

  /**
   Every step is a step of a FIFO queue: the tail CAS appends its value, the head CAS removes the
   oldest value of a queue that is not empty, and no other step changes the contents.
   */
  lemma StepRefinesFifo(s: State, t: Tid, c: Choice)
    requires Inv(s) && t < |s.pcs| && ThreadInv(s, t)
    ensures |s.poppers| <= |s.pushed| && |Next(s, t, c).poppers| <= |Next(s, t, c).pushed|
    ensures Enqueues(s, t, c) ==> Contents(Next(s, t, c)) == Contents(s) + [s.pcs[t].item]
    ensures Dequeues(s, t, c) ==> Contents(s) != [] && Contents(Next(s, t, c)) == Contents(s)[1..]
    ensures !Enqueues(s, t, c) && !Dequeues(s, t, c) ==> Contents(Next(s, t, c)) == Contents(s)
  {
    HeadBehindTail(s);
  }

  /** The decoded index of rank `k`. */
  function PlaceOf(k: nat): (at: Place)
    ensures at.offset < CHUNK_CAP && Ticket(at) == k
  {
    Place(k / CHUNK_CAP, k % CHUNK_CAP)
  }

  /** Claimed ranks lie in published chunks. */
  lemma RankIsPublished(s: State, k: nat)
    requires HeapInv(s) && TailInv(s) && HeadInv(s) && k < |s.pushed|
    ensures PlaceOf(k).block < |s.chain|
  {
  }

  /**
   In every state, the pop of rank k has returned the value of the push of rank k, or its thread is
   still at work on it; so nothing is lost, duplicated or reordered.
   */
  lemma PopsReturnPushes(s: State, k: nat)
    requires Inv(s) && k < |s.poppers|
    ensures k < |s.pushed|
    ensures if k in s.returned then s.returned[k] == s.pushed[k]
            else s.poppers[k] < |s.pcs| && WorkPlace(s.pcs[s.poppers[k]]) == Some(PlaceOf(k))
  {
    HeadBehindTail(s);
    RankIsPublished(s, k);
    var at := PlaceOf(k);
    assert SlotInv(s, at.block, at.offset);
    assert Place(at.block, at.offset) == at;
  }

  predicate Quiescent(s: State) {
    forall t :: 0 <= t < |s.pcs| ==> s.pcs[t].Idle?
  }

  /** When every thread is idle, the returned values are exactly the first pushed ones, in order. */
  lemma QuiescentPops(s: State)
    requires Inv(s) && Quiescent(s)
    ensures |s.poppers| <= |s.pushed|
    ensures forall k :: k in s.returned <==> 0 <= k < |s.poppers|
    ensures forall k :: 0 <= k < |s.poppers| ==> k in s.returned && s.returned[k] == s.pushed[k]
  {
    HeadBehindTail(s);
    forall k: nat | k < |s.poppers| ensures k in s.returned && s.returned[k] == s.pushed[k] {
      PopsReturnPushes(s, k);
    }
  }

  // ---------- Chunks and indices ----------

  /**
   A CAS that succeeds from an index works on the chunk of that index, although index and pointer
   were loaded separately.
   */
  lemma ClaimWorksOnItsChunk(s: State, t: Tid, c: Choice)
    requires Inv(s) && t < |s.pcs|
    ensures Enqueues(s, t, c) ==>
      Block(s.tailIndex) < |s.chain| && Offset(s.tailIndex) < CHUNK_CAP && s.pcs[t].mine == s.chain[Block(s.tailIndex)]
    ensures Dequeues(s, t, c) ==>
      Block(s.headIndex) < |s.chain| && Offset(s.headIndex) < CHUNK_CAP && s.pcs[t].mine == s.chain[Block(s.headIndex)]
  {
    assert ThreadInv(s, t);
  }

  lemma PushWorksInChain(s: State, t: Tid)
    requires HeapInv(s) && t < |s.pcs| && PushThreadInv(s, t, s.pcs[t]) && PushPlace(s.pcs[t]).Some?
    ensures PushClaimed(s, t, s.pcs[t].at, s.pcs[t].mine, s.pcs[t].item)
  {
  }

  lemma PopWorksInChain(s: State, t: Tid)
    requires HeapInv(s) && t < |s.pcs| && PopThreadInv(s, t, s.pcs[t]) && WorkPlace(s.pcs[t]).Some?
    ensures PopClaimed(s, t, s.pcs[t].at, s.pcs[t].mine)
    ensures PopPlace(s.pcs[t]).Some? ==> PopUnread(s, t, s.pcs[t].at, s.pcs[t].mine)
    ensures PopPlace(s.pcs[t]).None? ==> s.baton[s.pcs[t].at.block] == Held(t, s.pcs[t].i)
  {
  }

  /** The pusher and the popper of one rank meet in the same slot. */
  lemma SameRankSameSlot(s: State, t: Tid, u: Tid)
    requires Inv(s) && t < |s.pcs| && u < |s.pcs|
    requires PushPlace(s.pcs[t]).Some? && WorkPlace(s.pcs[u]).Some? && Ticket(s.pcs[t].at) == Ticket(s.pcs[u].at)
    ensures s.pcs[t].at.offset == s.pcs[u].at.offset && s.pcs[t].mine == s.pcs[u].mine
  {
    assert ThreadInv(s, t) && ThreadInv(s, u);
    PushWorksInChain(s, t);
    PopWorksInChain(s, u);
  }

  /** HAS_NEXT in the head index means that the tail has left the head's chunk; head never passes tail. */
  lemma HasNextIsSound(threads: nat, bound: nat, schedule: Schedule)
    requires IsBound(bound)
    ensures var s := Run(threads, bound, schedule);
      && Pos(s.headIndex) <= Pos(s.tailIndex)
      && (HasNext(s.headIndex) ==> Block(s.headIndex) < Block(s.tailIndex))
  {
  }

  /** A pop that skips the test for emptiness, because of HAS_NEXT, claims a slot some push has claimed. */
  lemma SkippingTheTestIsSafe(s: State, t: Tid, c: Choice)
    requires Inv(s) && t < |s.pcs| && Dequeues(s, t, c) && HasNext(s.pcs[t].head)
    ensures |s.poppers| < |s.pushed|
  {
    HeadBehindTail(s);
    assert ThreadInv(s, t);
  }

  /** `pop` returns `Err` in this step. */
  predicate ReturnsErr(s: State, t: Tid)
    requires t < |s.pcs|
  {
    s.pcs[t].PopLoadTail? && Pos(s.pcs[t].head) == Pos(s.tailIndex)
  }

  /** It does so only when the queue is empty at that moment, however old its head index is. */
  lemma ErrMeansEmpty(s: State, t: Tid)
    requires Inv(s) && t < |s.pcs| && ReturnsErr(s, t)
    ensures |s.poppers| <= |s.pushed| && Contents(s) == []
    ensures s.pcs[t].head == s.headIndex
  {
    assert ThreadInv(s, t);
    HeadBehindTail(s);
  }

  // ---------- Reclamation ----------

  /** A destroyer holds the baton of its chunk, which is not released, and every slot it has passed is READ. */
  lemma DestroyerHoldsBaton(s: State, t: Tid)
    requires Inv(s) && t < |s.pcs| && Destroying(s.pcs[t])
    ensures var pc := s.pcs[t]; var j := pc.at.block;
      && j < |s.chain| && pc.mine == s.chain[j] && pc.mine < |s.heap| && s.owner[pc.mine] == Linked(j)
      && s.baton[j] == Held(t, pc.i) && AllReadBelow(s.heap[pc.mine].slots, pc.i) && pc.mine !in s.freed
  {
    assert ThreadInv(s, t);
    PopWorksInChain(s, t);
    assert BatonInv(s, s.pcs[t].at.block);
  }

  /** At most one thread is destroying a chunk, and every slot it has passed is READ. */
  lemma OneDestroyer(s: State, t: Tid, u: Tid)
    requires Inv(s) && t < |s.pcs| && u < |s.pcs| && Destroying(s.pcs[t]) && Destroying(s.pcs[u])
    requires s.pcs[t].mine == s.pcs[u].mine
    ensures t == u
    ensures var pc := s.pcs[t]; pc.mine < |s.heap| && AllReadBelow(s.heap[pc.mine].slots, pc.i) && pc.mine !in s.freed
  {
    DestroyerHoldsBaton(s, t);
    DestroyerHoldsBaton(s, u);
  }

  /** How far the release of a chunk has come. */
  function Progress(b: Baton): (p: nat) {
    match b
    case Waiting => 0
    case Held(_, i) => 2 * i + 1
    case Parked(i) => 2 * i + 2
    case Released => 2 * CHUNK_CAP + 2
  }

  lemma DestroyProgress(s: State, t: Tid, j: nat)
    requires HeapInv(s) && t < |s.pcs| && PopThreadInv(s, t, s.pcs[t]) && Destroying(s.pcs[t])
    requires j < |s.chain| && BatonInv(s, s.pcs[t].at.block)
    ensures j < |DestroyNext(s, t).baton|
    ensures var b, b' := s.baton[j], DestroyNext(s, t).baton[j]; b' != b ==> Progress(b) < Progress(b')
  {
  }

  /** Marking a slot READ takes the baton up only where it was left, and moves it on. */
  lemma MarkProgress(s: State, t: Tid, j: nat)
    requires HeapInv(s) && t < |s.pcs| && PopThreadInv(s, t, s.pcs[t]) && s.pcs[t].PopMark?
    requires j < |s.chain| && BatonInv(s, s.pcs[t].at.block)
    ensures j < |TakeNext(s, t).baton|
    ensures var b, b' := s.baton[j], TakeNext(s, t).baton[j]; b' != b ==> Progress(b) < Progress(b')
  {
  }

  lemma PushProgress(s: State, t: Tid, c: Choice, j: nat)
    requires HeapInv(s) && t < |s.pcs| && PushThreadInv(s, t, s.pcs[t]) && j < |s.chain|
    ensures j < |PushNext(s, t, c).baton| && PushNext(s, t, c).baton[j] == s.baton[j]
  {
  }

  lemma PopProgress(s: State, t: Tid, c: Choice, j: nat)
    requires HeapInv(s) && t < |s.pcs| && PopThreadInv(s, t, s.pcs[t]) && InPop(s.pcs[t]) && j < |s.chain|
    requires !Destroying(s.pcs[t]) && !s.pcs[t].PopMark?
    ensures j < |PopNext(s, t, c).baton|
    ensures var b, b' := s.baton[j], PopNext(s, t, c).baton[j]; b' != b ==> Progress(b) < Progress(b')
  {
  }

  /** The baton of a chunk only ever moves forward, to larger slots and then to the release. */
  lemma BatonMovesUp(s: State, t: Tid, c: Choice, j: nat)
    requires Inv(s) && t < |s.pcs| && ThreadInv(s, t) && j < |s.chain|
    ensures j < |Next(s, t, c).baton|
    ensures var b, b' := s.baton[j], Next(s, t, c).baton[j]; b' != b ==> Progress(b) < Progress(b')
  {
    if Destroying(s.pcs[t]) {
      PopWorksInChain(s, t);
      assert BatonInv(s, s.pcs[t].at.block);
      DestroyProgress(s, t, j);
    } else if s.pcs[t].PopMark? {
      assert BatonInv(s, s.pcs[t].at.block);
      MarkProgress(s, t, j);
    } else if InPop(s.pcs[t]) {
      PopProgress(s, t, c, j);
    } else {
      PushProgress(s, t, c, j);
    }
  }

  /** The chunk whose memory the next step of a thread accesses or releases. */
  function Touches(pc: Pc): (a: Option<Addr>) {
    if pc.PopPeek? then Some(pc.next)
    else if PushPlace(pc).Some? && !pc.PushStoreChunk? && !pc.PushStoreIndex? then Some(pc.mine)
    else if WorkPlace(pc).Some? && !pc.PopStoreChunk? && !pc.PopStoreIndex? then Some(pc.mine)
    else None
  }

  lemma PushedChunkIsLive(s: State, t: Tid)
    requires Inv(s) && t < |s.pcs| && PushPlace(s.pcs[t]).Some?
    ensures s.pcs[t].mine < |s.heap| && s.pcs[t].mine !in s.freed
  {
    assert ThreadInv(s, t);
    PushWorksInChain(s, t);
    var at := s.pcs[t].at;
    assert BatonInv(s, at.block) && SlotInv(s, at.block, at.offset);
  }

  lemma PoppedChunkIsLive(s: State, t: Tid)
    requires Inv(s) && t < |s.pcs| && WorkPlace(s.pcs[t]).Some?
    ensures s.pcs[t].mine < |s.heap| && s.pcs[t].mine !in s.freed
  {
    assert ThreadInv(s, t);
    PopWorksInChain(s, t);
    var at := s.pcs[t].at;
    assert BatonInv(s, at.block) && SlotInv(s, at.block, at.offset);
  }

  /** A chunk that head has not reached the end of is not released. */
  lemma UnpoppedChunkIsLive(s: State, j: nat)
    requires Inv(s) && j < |s.chain| && |s.poppers| < CHUNK_CAP * (j + 1)
    ensures s.chain[j] !in s.freed
  {
    assert BatonInv(s, j);
  }

  /** No thread ever accesses, or releases again, a chunk that has been released. */
  lemma NoUseAfterFree(s: State, t: Tid)
    requires Inv(s) && t < |s.pcs| && Touches(s.pcs[t]).Some?
    ensures Touches(s.pcs[t]).value < |s.heap| && Touches(s.pcs[t]).value !in s.freed
  {
    assert ThreadInv(s, t);
    if s.pcs[t].PopPeek? {
      UnpoppedChunkIsLive(s, s.pcs[t].at.block + 1);
    } else if PushPlace(s.pcs[t]).Some? {
      PushedChunkIsLive(s, t);
    } else {
      PoppedChunkIsLive(s, t);
    }
  }

  /** The j-th chunk is fully popped and no pop is at work in it any more. */
  predicate Drained(s: State, j: nat) {
    && CHUNK_CAP * (j + 1) <= |s.poppers|
    && forall t :: 0 <= t < |s.pcs| && WorkPlace(s.pcs[t]).Some? ==> s.pcs[t].at.block != j
  }

  /**
   What the loop bound of `destroy` decides: with CHUNK_CAP - 1 every drained chunk has been released;
   with CHUNK_CAP, as written, its baton is stuck at the last slot, which is never marked READ.
   */
  lemma DrainedChunks(s: State, j: nat)
    requires Inv(s) && j < |s.chain| && Drained(s, j)
    ensures s.bound == CHUNK_CAP - 1 ==> s.chain[j] in s.freed
    ensures s.bound == CHUNK_CAP ==> s.baton[j] == Parked(CHUNK_CAP - 1) && s.chain[j] !in s.freed
  {
    assert BatonInv(s, j);
    assert SlotInv(s, j, CHUNK_CAP - 1);
    if s.baton[j].Parked? {
      assert SlotInv(s, j, s.baton[j].i);
    }
  }

  lemma LastSlotBlocksRelease(s: State, j: nat)
    requires Inv(s) && j < |s.chain| && s.bound == CHUNK_CAP
    ensures s.chain[j] !in s.freed
  {
    assert BatonInv(s, j) && SlotInv(s, j, CHUNK_CAP - 1);
  }

  /** With the bound as written, no run ever reaches the release at the end of `destroy`. */
  lemma NeverReleasedAsWritten(threads: nat, schedule: Schedule)
    ensures Run(threads, CHUNK_CAP, schedule).freed == {}
  {
    var s := Run(threads, CHUNK_CAP, schedule);
    forall a: Addr ensures a !in s.freed {
      if a < |s.heap| && s.owner[a].Linked? && s.owner[a].position < |s.chain| {
        LastSlotBlocksRelease(s, s.owner[a].position);
      }
    }
  }

  /** No other pop is at work in a chunk about to be released. */
  lemma ReleaseAfterReaders(s: State, t: Tid, u: Tid)
    requires Inv(s) && t < |s.pcs| && s.pcs[t].DestroyLoad? && s.pcs[t].i >= s.bound && s.bound == CHUNK_CAP - 1
    requires u < |s.pcs| && u != t && WorkPlace(s.pcs[u]).Some?
    ensures s.pcs[u].at.block != s.pcs[t].at.block
  {
    assert ThreadInv(s, t) && ThreadInv(s, u);
    PopWorksInChain(s, t);
    PopWorksInChain(s, u);
    assert BatonInv(s, s.pcs[t].at.block);
  }

  /** No push is at work in a chunk about to be released. */
  lemma ReleaseAfterWriters(s: State, t: Tid, u: Tid)
    requires Inv(s) && t < |s.pcs| && s.pcs[t].DestroyLoad? && s.pcs[t].i >= s.bound && s.bound == CHUNK_CAP - 1
    requires u < |s.pcs| && PushPlace(s.pcs[u]).Some?
    ensures s.pcs[u].at.block != s.pcs[t].at.block
  {
    assert ThreadInv(s, t) && ThreadInv(s, u);
    PopWorksInChain(s, t);
    PushWorksInChain(s, u);
    assert BatonInv(s, s.pcs[t].at.block);
    assert SlotInv(s, s.pcs[u].at.block, s.pcs[u].at.offset);
  }

  /** A release step: it happens once per chunk, after the last reader and writer of the chunk. */
  lemma ReleaseIsLast(s: State, t: Tid, c: Choice)
    requires Inv(s) && t < |s.pcs| && s.pcs[t].DestroyLoad? && s.pcs[t].i >= s.bound
    ensures s.pcs[t].mine !in s.freed && s.bound == CHUNK_CAP - 1
    ensures Drained(s.(pcs := s.pcs[t := Idle]), s.pcs[t].at.block)
    ensures forall u :: 0 <= u < |s.pcs| && PushPlace(s.pcs[u]).Some? ==> s.pcs[u].at.block != s.pcs[t].at.block
  {
    assert ThreadInv(s, t);
    PopWorksInChain(s, t);
    var j := s.pcs[t].at.block;
    assert BatonInv(s, j) && SlotInv(s, j, CHUNK_CAP - 1);
    forall u | 0 <= u < |s.pcs| && u != t && WorkPlace(s.pcs[u]).Some? ensures s.pcs[u].at.block != j {
      ReleaseAfterReaders(s, t, u);
    }
    forall u | 0 <= u < |s.pcs| && PushPlace(s.pcs[u]).Some? ensures s.pcs[u].at.block != j {
      ReleaseAfterWriters(s, t, u);
    }
  }
}
