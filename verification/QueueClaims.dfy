/** The steps of `CoQueue` that claim an index or publish a chunk keep the invariant. */
module QueueClaims {
  import opened Wrappers
  import opened Threads
  import opened QueueIndex
  import opened CoQueue
  import opened QueueInvariant
  import opened QueueRely
  import opened QueueSteps

  // ---------- Claiming a slot by CAS on an index ----------

  /** The tail CAS: `t` becomes the pusher of the next rank. */
  predicate PushClaims(s: State, s': State, t: Tid, at: Place)
    requires t < |s.pcs| == |s'.pcs|
  {
    && |s'.pushed| == |s.pushed| + 1
    && s' == s.(tailIndex := s.tailIndex + 2, pcs := s.pcs[t := s'.pcs[t]],
                pushed := s.pushed + [s'.pushed[|s.pushed|]], pushers := s.pushers + [t])
    && Free(s.pcs[t]) && PushPlace(s'.pcs[t]) == Some(at) && WorkPlace(s'.pcs[t]) == None
    && !s'.pcs[t].PushStoreIndex? && !s'.pcs[t].PushStoreNext?
    && at == Place(Block(s.tailIndex), Offset(s.tailIndex)) && at.offset < CHUNK_CAP
    && |s.pushed| == |s.pushers| == Ticket(at)
  }

  lemma PushClaimSlot(s: State, s': State, t: Tid, at: Place, j: nat, o: nat)
    requires HeapInv(s) && HeapInv(s') && t < |s.pcs| == |s'.pcs| && PushClaims(s, s', t, at)
    requires j < |s.chain| && o < CHUNK_CAP && SlotInv(s, j, o)
    ensures SlotInv(s', j, o)
  {
    assert Ticket(Place(j, o)) == Ticket(at) ==> Place(j, o) == at;
  }

  lemma PushClaimChunks(s: State, s': State, t: Tid, at: Place)
    requires HeapInv(s) && ChunksInv(s) && t < |s.pcs| == |s'.pcs| && PushClaims(s, s', t, at)
    ensures HeapInv(s') && ChunksInv(s')
  {
    NextInBlock(s.tailIndex);
    assert HeapInv(s');
    forall j | 0 <= j < |s.chain| ensures LinkInv(s', j) && BatonInv(s', j) {
      assert LinkInv(s, j) && BatonInv(s, j);
    }
    forall j, o | 0 <= j < |s.chain| && 0 <= o < CHUNK_CAP ensures SlotInv(s', j, o) {
      assert SlotInv(s, j, o);
      PushClaimSlot(s, s', t, at, j, o);
    }
  }

  lemma PushClaimRely(s: State, s': State, t: Tid, at: Place)
    requires HeapInv(s) && HeapInv(s') && t < |s.pcs| == |s'.pcs| && PushClaims(s, s', t, at)
    ensures forall u :: 0 <= u < |s.pcs| && u != t ==> Rely(s, s', u)
  {
    NextInBlock(s.tailIndex);
    forall u | 0 <= u < |s.pcs| && u != t ensures Rely(s, s', u) {
      forall a | 0 <= a < |s.heap| ensures RelyPrivate(s, s', u, a) {
      }
      forall j, o | 0 <= j < |s.chain| && 0 <= o < CHUNK_CAP ensures RelySlot(s, s', u, j, o) {
      }
    }
  }

  lemma PushClaimTail(s: State, t: Tid, item: Value, box: Option<Addr>, tail: nat, mine: Addr, c: Choice)
    requires HeapInv(s) && TailInv(s) && t < |s.pcs| && s.pcs[t] == PushClaim(item, box, tail, mine)
    requires PushThreadInv(s, t, s.pcs[t]) && s.tailIndex == tail && !c.spurious
    ensures TailInv(PushClaimStep(s, t, item, box, tail, mine, c))
  {
    NextInBlock(tail);
  }

  lemma PushClaimHead(s: State, t: Tid, item: Value, box: Option<Addr>, tail: nat, mine: Addr, c: Choice)
    requires HeadInv(s) && t < |s.pcs| && s.pcs[t] == PushClaim(item, box, tail, mine)
    requires Offset(tail) < CHUNK_CAP && (Offset(tail) + 1 == CHUNK_CAP ==> box.Some?)
    requires s.tailIndex == tail && !c.spurious
    ensures HeadInv(PushClaimStep(s, t, item, box, tail, mine, c))
  {
    NextInBlock(tail);
    CountMonotone(s.headIndex, s.tailIndex);
  }

  lemma PushClaimFrame(s: State, t: Tid, item: Value, box: Option<Addr>, tail: nat, mine: Addr, c: Choice)
    requires HeapInv(s) && TailInv(s) && t < |s.pcs| && s.pcs[t] == PushClaim(item, box, tail, mine)
    requires PushThreadInv(s, t, s.pcs[t]) && s.tailIndex == tail && !c.spurious
    ensures var s' := PushClaimStep(s, t, item, box, tail, mine, c);
      |s'.pcs| == |s.pcs| && PushClaims(s, s', t, Place(Block(tail), Offset(tail)))
  {
  }

  lemma PushClaimThread(s: State, t: Tid, item: Value, box: Option<Addr>, tail: nat, mine: Addr, c: Choice)
    requires HeapInv(s) && TailInv(s) && ChunksInv(s) && t < |s.pcs| && s.pcs[t] == PushClaim(item, box, tail, mine)
    requires PushThreadInv(s, t, s.pcs[t]) && s.tailIndex == tail && !c.spurious
    ensures var s' := PushClaimStep(s, t, item, box, tail, mine, c);
      && |s'.pcs| == |s.pcs| && HeapInv(s') && ThreadInv(s', t)
  {
    NextInBlock(tail);
    assert SlotInv(s, Block(tail), Offset(tail));
  }

  lemma PushClaimKeepsInv(s: State, t: Tid, item: Value, box: Option<Addr>, tail: nat, mine: Addr, c: Choice)
    requires Inv(s) && t < |s.pcs| && s.pcs[t] == PushClaim(item, box, tail, mine) && ThreadInv(s, t)
    requires s.tailIndex == tail && !c.spurious
    ensures Inv(PushClaimStep(s, t, item, box, tail, mine, c))
  {
    var s' := PushClaimStep(s, t, item, box, tail, mine, c);
    var at := Place(Block(tail), Offset(tail));
    PushClaimTail(s, t, item, box, tail, mine, c);
    PushClaimHead(s, t, item, box, tail, mine, c);
    PushClaimFrame(s, t, item, box, tail, mine, c);
    PushClaimThread(s, t, item, box, tail, mine, c);
    PushClaimChunks(s, s', t, at);
    PushClaimRely(s, s', t, at);
    Conclude(s, s', t);
  }

  lemma PushRetryKeepsInv(s: State, t: Tid, item: Value, box: Option<Addr>, tail: nat, mine: Addr, c: Choice)
    requires Inv(s) && t < |s.pcs| && s.pcs[t] == PushClaim(item, box, tail, mine) && ThreadInv(s, t)
    requires s.tailIndex != tail || c.spurious
    ensures Inv(PushClaimStep(s, t, item, box, tail, mine, c))
  {
    FreeStep(s, PushClaimStep(s, t, item, box, tail, mine, c), t);
  }

  /** The head CAS: `t` becomes the popper of the next rank. */
  predicate PopClaims(s: State, s': State, t: Tid, at: Place)
    requires t < |s.pcs| == |s'.pcs|
  {
    && s' == s.(headIndex := s'.headIndex, pcs := s.pcs[t := s'.pcs[t]], poppers := s.poppers + [t])
    && Free(s.pcs[t]) && PopPlace(s'.pcs[t]) == WorkPlace(s'.pcs[t]) == Some(at) && PushPlace(s'.pcs[t]) == None
    && at.offset < CHUNK_CAP && |s.poppers| == Ticket(at)
    && s.headIndex <= s'.headIndex && Offset(s.headIndex) < CHUNK_CAP
  }

  lemma PopClaimChunks(s: State, s': State, t: Tid, at: Place)
    requires HeapInv(s) && ChunksInv(s) && t < |s.pcs| == |s'.pcs| && PopClaims(s, s', t, at)
    ensures HeapInv(s') && ChunksInv(s')
  {
    forall j | 0 <= j < |s.chain| ensures LinkInv(s', j) {
      assert LinkInv(s, j);
    }
    forall j, o | 0 <= j < |s.chain| && 0 <= o < CHUNK_CAP ensures SlotInv(s', j, o) {
      assert SlotInv(s, j, o);
      assert Ticket(Place(j, o)) == Ticket(at) ==> Place(j, o) == at;
    }
    forall j | 0 <= j < |s.chain| ensures BatonInv(s', j) {
      assert BatonInv(s, j);
      assert Ticket(Place(j, CHUNK_CAP - 1)) == Ticket(at) ==> Place(j, CHUNK_CAP - 1) == at;
    }
  }

  lemma PopClaimRely(s: State, s': State, t: Tid, at: Place)
    requires HeapInv(s) && HeapInv(s') && t < |s.pcs| == |s'.pcs| && PopClaims(s, s', t, at)
    ensures forall u :: 0 <= u < |s.pcs| && u != t ==> Rely(s, s', u)
  {
    forall u | 0 <= u < |s.pcs| && u != t ensures Rely(s, s', u) {
      forall a | 0 <= a < |s.heap| ensures RelyPrivate(s, s', u, a) {
      }
      forall j, o | 0 <= j < |s.chain| && 0 <= o < CHUNK_CAP ensures RelySlot(s, s', u, j, o) {
      }
    }
  }

  lemma NewHead(s: State, head: nat, newHead: nat)
    requires HeadInv(s) && s.headIndex == head && Offset(head) < CHUNK_CAP && Pos(newHead) == Pos(head) + 1
    ensures Block(newHead) == Block(head) && Offset(newHead) == Offset(head) + 1 && Count(newHead) == Count(head) + 1
    ensures head < newHead
  {
    NextInBlock(head);
    SamePos(head + 2, newHead);
  }

  lemma PopClaimEnds(s: State, t: Tid, head: nat, newHead: nat, mine: Addr, c: Choice)
    requires HeapInv(s) && TailInv(s) && HeadInv(s) && t < |s.pcs| && s.pcs[t] == PopClaim(head, newHead, mine)
    requires PopThreadInv(s, t, s.pcs[t]) && s.headIndex == head && !c.spurious
    ensures var s' := PopClaimStep(s, t, head, newHead, mine, c); TailInv(s') && HeadInv(s')
  {
    NewHead(s, head, newHead);
  }

  lemma PopClaimThread(s: State, t: Tid, head: nat, newHead: nat, mine: Addr, c: Choice)
    requires HeapInv(s) && HeadInv(s) && ChunksInv(s) && ReturnInv(s)
    requires t < |s.pcs| && s.pcs[t] == PopClaim(head, newHead, mine)
    requires PopThreadInv(s, t, s.pcs[t]) && s.headIndex == head && !c.spurious
    ensures var s' := PopClaimStep(s, t, head, newHead, mine, c);
      && |s'.pcs| == |s.pcs| && PopClaims(s, s', t, Place(Block(head), Offset(head)))
      && HeapInv(s') && ThreadInv(s', t)
  {
    NewHead(s, head, newHead);
    assert SlotInv(s, Block(head), Offset(head));
    assert BatonInv(s, Block(head));
  }

  lemma PopClaimKeepsInv(s: State, t: Tid, head: nat, newHead: nat, mine: Addr, c: Choice)
    requires Inv(s) && t < |s.pcs| && s.pcs[t] == PopClaim(head, newHead, mine) && ThreadInv(s, t)
    requires s.headIndex == head && !c.spurious
    ensures Inv(PopClaimStep(s, t, head, newHead, mine, c))
  {
    var s' := PopClaimStep(s, t, head, newHead, mine, c);
    var at := Place(Block(head), Offset(head));
    PopClaimEnds(s, t, head, newHead, mine, c);
    PopClaimThread(s, t, head, newHead, mine, c);
    PopClaimChunks(s, s', t, at);
    PopClaimRely(s, s', t, at);
    Conclude(s, s', t);
  }

  lemma PopRetryKeepsInv(s: State, t: Tid, head: nat, newHead: nat, mine: Addr, c: Choice)
    requires Inv(s) && t < |s.pcs| && s.pcs[t] == PopClaim(head, newHead, mine) && ThreadInv(s, t)
    requires s.headIndex != head || c.spurious
    ensures Inv(PopClaimStep(s, t, head, newHead, mine, c))
  {
    FreeStep(s, PopClaimStep(s, t, head, newHead, mine, c), t);
  }

  // ---------- Publishing a chunk ----------

  /** Chunk `a`, private to `t` until now, becomes the last chunk of the chain. */
  predicate Publishes(s: State, s': State, t: Tid, a: Addr)
    requires t < |s.pcs| == |s'.pcs| && HeapInv(s)
  {
    && OwnChunk(s, t, a)
    && s' == s.(tailChunk := s'.tailChunk, installer := s'.installer, pcs := s.pcs[t := s'.pcs[t]],
                chain := s.chain + [a], owner := s.owner[a := Linked(|s.chain|)], baton := s.baton + [Waiting])
    && PushPlace(s'.pcs[t]) == PushPlace(s.pcs[t]) && WorkPlace(s'.pcs[t]) == WorkPlace(s.pcs[t]) == None
    && !s.pcs[t].PushStoreIndex? && !s.pcs[t].PushStoreNext?
    && |s.poppers| <= |s.pushers| <= CHUNK_CAP * |s.chain|
    && (s.chain != [] ==>
          && s'.pcs[t].PushStoreIndex? && s'.pcs[t].at == Place(|s.chain| - 1, CHUNK_CAP - 1)
          && |s.pushers| == CHUNK_CAP * |s.chain| && s.pushers[|s.pushers| - 1] == t)
  }

  lemma PublishHeap(s: State, s': State, t: Tid, a: Addr)
    requires HeapInv(s) && t < |s.pcs| == |s'.pcs| && Publishes(s, s', t, a)
    ensures HeapInv(s')
  {
  }

  lemma PublishChunks(s: State, s': State, t: Tid, a: Addr)
    requires HeapInv(s) && ChunksInv(s) && HeapInv(s') && t < |s.pcs| == |s'.pcs| && Publishes(s, s', t, a)
    ensures ChunksInv(s')
  {
    forall j | 0 <= j < |s'.chain| ensures LinkInv(s', j) {
      assert j < |s.chain| ==> LinkInv(s, j);
    }
    forall j, o | 0 <= j < |s'.chain| && 0 <= o < CHUNK_CAP ensures SlotInv(s', j, o) {
      assert j < |s.chain| ==> SlotInv(s, j, o);
    }
    forall j | 0 <= j < |s'.chain| ensures BatonInv(s', j) {
      assert j < |s.chain| ==> BatonInv(s, j);
    }
  }

  lemma PublishRely(s: State, s': State, t: Tid, a: Addr)
    requires HeapInv(s) && TailInv(s) && HeapInv(s') && t < |s.pcs| == |s'.pcs| && Publishes(s, s', t, a)
    requires s'.installer == s.installer || forall u :: 0 <= u < |s.pcs| && u != t ==> !s.pcs[u].PushStoreHead?
    ensures forall u :: 0 <= u < |s.pcs| && u != t ==> Rely(s, s', u)
  {
    forall u | 0 <= u < |s.pcs| && u != t ensures Rely(s, s', u) {
      forall a | 0 <= a < |s.heap| ensures RelyPrivate(s, s', u, a) {
      }
      forall j, o | 0 <= j < |s.chain| && 0 <= o < CHUNK_CAP ensures RelySlot(s, s', u, j, o) {
      }
    }
  }

  lemma InstallEnds(s: State, t: Tid, item: Value, box: Option<Addr>, tail: nat, made: Addr)
    requires HeapInv(s) && TailInv(s) && HeadInv(s) && t < |s.pcs| && s.pcs[t] == PushInstall(item, box, tail, made)
    requires PushThreadInv(s, t, s.pcs[t]) && s.tailChunk == None
    ensures var s' := PushInstallStep(s, t, item, box, tail, made);
      && |s'.pcs| == |s.pcs| && Publishes(s, s', t, made)
      && HeapInv(s') && TailInv(s') && HeadInv(s') && ThreadInv(s', t)
  {
    var s' := PushInstallStep(s, t, item, box, tail, made);
    PublishHeap(s, s', t, made);
  }

  lemma InstallKeepsInv(s: State, t: Tid, item: Value, box: Option<Addr>, tail: nat, made: Addr)
    requires Inv(s) && t < |s.pcs| && s.pcs[t] == PushInstall(item, box, tail, made) && ThreadInv(s, t)
    requires s.tailChunk == None
    ensures Inv(PushInstallStep(s, t, item, box, tail, made))
  {
    var s' := PushInstallStep(s, t, item, box, tail, made);
    InstallEnds(s, t, item, box, tail, made);
    PublishChunks(s, s', t, made);
    forall u | 0 <= u < |s.pcs| && u != t ensures !s.pcs[u].PushStoreHead? {
      assert ThreadInv(s, u);
    }
    PublishRely(s, s', t, made);
    Conclude(s, s', t);
  }

  /** The loser of the race to install the first chunk keeps its chunk as a spare. */
  lemma InstallFailKeepsInv(s: State, t: Tid, item: Value, box: Option<Addr>, tail: nat, made: Addr)
    requires Inv(s) && t < |s.pcs| && s.pcs[t] == PushInstall(item, box, tail, made) && ThreadInv(s, t)
    requires s.tailChunk != None
    ensures Inv(PushInstallStep(s, t, item, box, tail, made))
  {
    FreeStep(s, PushInstallStep(s, t, item, box, tail, made), t);
  }

  lemma PushStoreChunkEnds(s: State, t: Tid, item: Value, at: Place, mine: Addr, next: Addr, newTail: nat)
    requires HeapInv(s) && TailInv(s) && HeadInv(s) && t < |s.pcs|
    requires s.pcs[t] == PushStoreChunk(item, at, mine, next, newTail) && PushThreadInv(s, t, s.pcs[t])
    requires LinkInv(s, at.block)
    ensures var s' := PushStoreChunkStep(s, t, item, at, mine, next, newTail);
      && |s'.pcs| == |s.pcs| && Publishes(s, s', t, next) && s'.installer == s.installer
      && HeapInv(s') && TailInv(s') && HeadInv(s') && ThreadInv(s', t)
  {
    var s' := PushStoreChunkStep(s, t, item, at, mine, next, newTail);
    CountMonotone(s.headIndex, s.tailIndex);
    RollingTailIsLast(s, t);
    PublishHeap(s, s', t, next);
  }

  lemma PushStoreChunkKeepsInv(s: State, t: Tid, item: Value, at: Place, mine: Addr, next: Addr, newTail: nat)
    requires Inv(s) && t < |s.pcs| && s.pcs[t] == PushStoreChunk(item, at, mine, next, newTail) && ThreadInv(s, t)
    ensures Inv(PushStoreChunkStep(s, t, item, at, mine, next, newTail))
  {
    var s' := PushStoreChunkStep(s, t, item, at, mine, next, newTail);
    PushStoreChunkEnds(s, t, item, at, mine, next, newTail);
    PublishChunks(s, s', t, next);
    PublishRely(s, s', t, next);
    Conclude(s, s', t);
  }
}
