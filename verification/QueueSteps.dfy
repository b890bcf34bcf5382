/** Every step of `CoQueue` keeps the invariant. */
module QueueSteps {
  import opened Wrappers
  import opened Threads
  import opened QueueIndex
  import opened CoQueue
  import opened QueueInvariant
  import opened QueueRely

  // ---------- Steps that leave slots, chain and logs alone ----------

  lemma QuietStep(s: State, s': State, t: Tid)
    requires Inv(s) && t < |s.pcs| == |s'.pcs| && SameChunks(s, s', t) && SameRollers(s, s', t)
    requires HeapInv(s') && TailInv(s') && HeadInv(s') && ThreadInv(s', t)
    ensures Inv(s')
  {
    SameChunksKeepInv(s, s', t);
    SameChunksRely(s, s', t);
    Conclude(s, s', t);
  }

  lemma HeapReadsNoPcs(s: State, s': State)
    requires HeapInv(s) && s' == s.(pcs := s'.pcs)
    ensures HeapInv(s')
  {
  }

  lemma SeekReadsNoPcs(s: State, s': State, t: Tid, pc: Pc)
    requires HeapInv(s) && HeapInv(s') && s' == s.(pcs := s'.pcs) && PushThreadInv(s, t, pc) && Seeking(pc)
    ensures PushThreadInv(s', t, pc)
  {
  }

  lemma ClaimReadsNoPcs(s: State, s': State, t: Tid, pc: Pc)
    requires HeapInv(s) && HeapInv(s') && s' == s.(pcs := s'.pcs) && PushThreadInv(s, t, pc) && PushPlace(pc).Some?
    ensures PushThreadInv(s', t, pc)
  {
    var p := PushClaimed(s, t, pc.at, pc.mine, pc.item);
    assert p == PushClaimed(s', t, pc.at, pc.mine, pc.item);
  }

  lemma PushInvReadsNoPcs(s: State, s': State, t: Tid, pc: Pc)
    requires HeapInv(s) && s' == s.(pcs := s'.pcs) && PushThreadInv(s, t, pc)
    ensures HeapInv(s') && PushThreadInv(s', t, pc)
  {
    HeapReadsNoPcs(s, s');
    if Seeking(pc) {
      SeekReadsNoPcs(s, s', t, pc);
    } else if PushPlace(pc).Some? {
      ClaimReadsNoPcs(s, s', t, pc);
    }
  }

  lemma PopInvReadsNoPcs(s: State, s': State, t: Tid, pc: Pc)
    requires HeapInv(s) && s' == s.(pcs := s'.pcs) && PopThreadInv(s, t, pc)
    ensures HeapInv(s') && PopThreadInv(s', t, pc)
  {
  }

  /** `pc'` rolls over the same index, if any, as `pc`. */
  predicate SameRolling(pc: Pc, pc': Pc) {
    && (pc.PushStoreChunk? <==> pc'.PushStoreChunk?) && (pc.PushStoreIndex? <==> pc'.PushStoreIndex?)
    && (pc.PushStoreHead? <==> pc'.PushStoreHead?) && (Rolling(pc) <==> Rolling(pc'))
  }

  lemma EndsKeepInv(s: State, s': State, t: Tid)
    requires TailInv(s) && HeadInv(s) && t < |s.pcs| == |s'.pcs|
    requires s' == s.(pcs := s.pcs[t := s'.pcs[t]], heap := s'.heap, owner := s'.owner, baton := s'.baton,
                      freed := s'.freed, returned := s'.returned)
    requires SameRolling(s.pcs[t], s'.pcs[t])
    ensures TailInv(s') && HeadInv(s')
  {
  }

  /** A step that only moves `t`, between program points with the same duties. */
  lemma LocalStep(s: State, t: Tid, pc: Pc)
    requires Inv(s) && t < |s.pcs| && SameRole(s.pcs[t], pc) && SameRolling(s.pcs[t], pc)
    requires PushThreadInv(s, t, pc) && PopThreadInv(s, t, pc)
    ensures Inv(Goto(s, t, pc))
  {
    var s' := Goto(s, t, pc);
    PushInvReadsNoPcs(s, s', t, pc);
    PopInvReadsNoPcs(s, s', t, pc);
    EndsKeepInv(s, s', t);
    QuietStep(s, s', t);
  }

  /** A program point without claims or duties. */
  predicate Free(pc: Pc) {
    WorkPlace(pc) == None && PushPlace(pc) == None && !pc.PushStoreHead?
  }

  predicate FreeTarget(s: State, s': State, t: Tid)
    requires HeapInv(s)
  {
    && t < |s.pcs| == |s'.pcs| && s' == Goto(s, t, s'.pcs[t]) && Free(s'.pcs[t])
    && PushThreadInv(s, t, s'.pcs[t]) && PopThreadInv(s, t, s'.pcs[t])
  }

  lemma FreeStep(s: State, s': State, t: Tid)
    requires Inv(s) && t < |s.pcs| && Free(s.pcs[t]) && FreeTarget(s, s', t)
    ensures Inv(s')
  {
    LocalStep(s, t, s'.pcs[t]);
  }

  lemma AllocKeepsHeap(s: State, t: Tid, pc: Pc)
    requires HeapInv(s) && t < |s.pcs| && s.pcs[t].PushTest? && (pc.PushTest? || pc.PushInstall?)
    ensures var s' := Alloc(Goto(s, t, pc), t);
      HeapInv(s') && SameChunks(s, s', t) && SameRollers(s, s', t) && PopThreadInv(s', t, pc)
  {
  }

  /** A step that allocates a chunk for `t`. */
  lemma AllocStep(s: State, t: Tid, pc: Pc)
    requires Inv(s) && t < |s.pcs| && s.pcs[t].PushTest? && (pc.PushTest? || pc.PushInstall?)
    requires var s' := Alloc(Goto(s, t, pc), t); HeapInv(s') ==> PushThreadInv(s', t, pc)
    ensures Inv(Alloc(Goto(s, t, pc), t))
  {
    var s' := Alloc(Goto(s, t, pc), t);
    EndsKeepInv(s, s', t);
    AllocKeepsHeap(s, t, pc);
    QuietStep(s, s', t);
  }

  lemma StartKeepsInv(s: State, t: Tid, c: Choice)
    requires Inv(s) && t < |s.pcs| && s.pcs[t].Idle?
    ensures Inv(StartStep(s, t, c))
  {
    LocalStep(s, t, StartStep(s, t, c).pcs[t]);
  }

  lemma PushLoadKeepsInv(s: State, t: Tid)
    requires Inv(s) && t < |s.pcs| && ThreadInv(s, t)
    ensures s.pcs[t].PushLoadIndex? ==> Inv(Goto(s, t, PushLoadChunk(s.pcs[t].item, s.pcs[t].box, s.tailIndex)))
    ensures s.pcs[t].PushLoadChunk? ==>
      Inv(Goto(s, t, PushTest(s.pcs[t].item, s.pcs[t].box, s.pcs[t].tail, s.tailChunk)))
  {
    var pc := s.pcs[t];
    if pc.PushLoadIndex? {
      LocalStep(s, t, PushLoadChunk(pc.item, pc.box, s.tailIndex));
    } else if pc.PushLoadChunk? {
      LocalStep(s, t, PushTest(pc.item, pc.box, pc.tail, s.tailChunk));
    }
  }

  lemma PushTestAllocKeepsInv(s: State, t: Tid, item: Value, box: Option<Addr>, tail: nat, chunk: Option<Addr>)
    requires Inv(s) && t < |s.pcs| && s.pcs[t] == PushTest(item, box, tail, chunk) && Offset(tail) != CHUNK_CAP
    requires chunk == None || (Offset(tail) + 1 == CHUNK_CAP && box == None)
    ensures Inv(PushTestStep(s, t, item, box, tail, chunk))
  {
    assert ThreadInv(s, t);
    if Offset(tail) + 1 == CHUNK_CAP && box == None {
      AllocStep(s, t, PushTest(item, Some(|s.heap|), tail, chunk));
    } else {
      AllocStep(s, t, PushInstall(item, box, tail, |s.heap|));
    }
  }

  lemma PushTestKeepsInv(s: State, t: Tid, item: Value, box: Option<Addr>, tail: nat, chunk: Option<Addr>)
    requires Inv(s) && t < |s.pcs| && s.pcs[t] == PushTest(item, box, tail, chunk)
    ensures Inv(PushTestStep(s, t, item, box, tail, chunk))
  {
    if Offset(tail) == CHUNK_CAP {
      assert ThreadInv(s, t);
      LocalStep(s, t, PushLoadIndex(item, box));
    } else if chunk == None || (Offset(tail) + 1 == CHUNK_CAP && box == None) {
      PushTestAllocKeepsInv(s, t, item, box, tail, chunk);
    } else {
      assert ThreadInv(s, t);
      LocalStep(s, t, PushClaim(item, box, tail, chunk.value));
    }
  }

  lemma PopLoadKeepsInv(s: State, t: Tid)
    requires Inv(s) && t < |s.pcs| && ThreadInv(s, t)
    ensures s.pcs[t].PopLoadIndex? ==> Inv(Goto(s, t, PopLoadChunk(s.headIndex)))
    ensures s.pcs[t].PopLoadChunk? ==> Inv(Goto(s, t, PopTest(s.pcs[t].head, s.headChunk)))
  {
    var pc := s.pcs[t];
    if pc.PopLoadIndex? {
      LocalStep(s, t, PopLoadChunk(s.headIndex));
    } else if pc.PopLoadChunk? {
      LocalStep(s, t, PopTest(pc.head, s.headChunk));
    }
  }

  /** A head index with HAS_NEXT, if still current, is in a chunk that tail has left. */
  lemma HasNextIsBehind(s: State, head: nat)
    requires HeadInv(s) && HasNext(head)
    ensures Pos(head + 2) == Pos(head) + 1
    ensures head == s.headIndex ==> Pos(head) < Pos(s.tailIndex) && Block(head) < Block(s.tailIndex)
  {
    if Pos(s.tailIndex) <= Pos(head) {
      CountMonotone(s.tailIndex, head);
    }
  }

  lemma PopTestPc(s: State, t: Tid, head: nat, chunk: Option<Addr>)
    requires HeapInv(s) && HeadInv(s) && t < |s.pcs| && PopThreadInv(s, t, PopTest(head, chunk))
    ensures FreeTarget(s, PopTestStep(s, t, head, chunk), t)
  {
    if HasNext(head) {
      HasNextIsBehind(s, head);
    }
  }

  lemma PopTestKeepsInv(s: State, t: Tid, head: nat, chunk: Option<Addr>)
    requires Inv(s) && t < |s.pcs| && s.pcs[t] == PopTest(head, chunk) && ThreadInv(s, t)
    ensures Inv(PopTestStep(s, t, head, chunk))
  {
    PopTestPc(s, t, head, chunk);
    FreeStep(s, PopTestStep(s, t, head, chunk), t);
  }

  /** A pop that does not return `Err` has seen a tail beyond its head. */
  lemma PopNewHead(s: State, head: nat, newHead: nat)
    requires HeadInv(s) && head <= s.headIndex && Pos(head) != Pos(s.tailIndex) && !HasNext(head)
    requires newHead == if Block(head) != Block(s.tailIndex) then head + 3 else head + 2
    ensures Pos(newHead) == Pos(head) + 1
    ensures head == s.headIndex ==> Pos(head) < Pos(s.tailIndex)
    ensures head == s.headIndex && HasNext(newHead) ==> Block(head) < Block(s.tailIndex)
  {
    CountMonotone(head, s.tailIndex);
  }

  lemma PopClaimPc(s: State, t: Tid, head: nat, newHead: nat, mine: Addr)
    requires HeapInv(s) && HeadInv(s) && PopThreadInv(s, t, PopLoadTail(head, Some(mine)))
    requires Pos(head) != Pos(s.tailIndex)
    requires newHead == if Block(head) != Block(s.tailIndex) then head + 3 else head + 2
    ensures PopThreadInv(s, t, PopClaim(head, newHead, mine))
  {
    PopNewHead(s, head, newHead);
  }

  lemma PopTurnsBackKeepsInv(s: State, t: Tid, pc: Pc)
    requires Inv(s) && t < |s.pcs| && s.pcs[t].PopLoadTail? && (pc.Idle? || pc.PopLoadIndex?)
    ensures Inv(Goto(s, t, pc))
  {
    LocalStep(s, t, pc);
  }

  lemma PopTestedKeepsInv(s: State, t: Tid, head: nat, newHead: nat, mine: Addr)
    requires Inv(s) && t < |s.pcs| && s.pcs[t] == PopLoadTail(head, Some(mine)) && ThreadInv(s, t)
    requires Pos(head) != Pos(s.tailIndex)
    requires newHead == if Block(head) != Block(s.tailIndex) then head + 3 else head + 2
    ensures Inv(Goto(s, t, PopClaim(head, newHead, mine)))
  {
    PopClaimPc(s, t, head, newHead, mine);
    LocalStep(s, t, PopClaim(head, newHead, mine));
  }

  lemma PopLoadTailKeepsInv(s: State, t: Tid, head: nat, chunk: Option<Addr>)
    requires Inv(s) && t < |s.pcs| && s.pcs[t] == PopLoadTail(head, chunk) && ThreadInv(s, t)
    ensures Inv(PopLoadTailStep(s, t, head, chunk))
  {
    if Pos(head) == Pos(s.tailIndex) || chunk == None {
      PopTurnsBackKeepsInv(s, t, if Pos(head) == Pos(s.tailIndex) then Idle else PopLoadIndex);
    } else {
      PopTestedKeepsInv(s, t, head, if Block(head) != Block(s.tailIndex) then head + 3 else head + 2, chunk.value);
    }
  }

  lemma PopWaitNextKeepsInv(s: State, t: Tid, at: Place, mine: Addr, newHead: nat)
    requires Inv(s) && t < |s.pcs| && s.pcs[t] == PopWaitNext(at, mine, newHead) && ThreadInv(s, t)
    ensures Inv(PopWaitNextStep(s, t, at, mine, newHead))
  {
    if s.heap[mine].next.Some? {
      assert LinkInv(s, at.block);
      LocalStep(s, t, PopPeek(at, mine, newHead, s.heap[mine].next.value));
    }
  }

  /** HAS_NEXT is set on the next index only if the tail has left the next chunk. */
  lemma PopPeekPc(s: State, t: Tid, at: Place, mine: Addr, newHead: nat, next: Addr)
    requires HeapInv(s) && t < |s.pcs| && PopThreadInv(s, t, PopPeek(at, mine, newHead, next))
    requires LinkInv(s, at.block + 1)
    ensures PopThreadInv(s, t, PopPeekStep(s, t, at, mine, newHead, next).pcs[t])
  {
    var clear := newHead - newHead % 2;
    SamePos(clear, newHead);
    NextBlock(clear);
    SamePos(clear + 2, clear + 3);
  }

  lemma PopPeekKeepsInv(s: State, t: Tid, at: Place, mine: Addr, newHead: nat, next: Addr)
    requires Inv(s) && t < |s.pcs| && s.pcs[t] == PopPeek(at, mine, newHead, next) && ThreadInv(s, t)
    ensures Inv(PopPeekStep(s, t, at, mine, newHead, next))
  {
    assert LinkInv(s, at.block + 1);
    PopPeekPc(s, t, at, mine, newHead, next);
    LocalStep(s, t, PopPeekStep(s, t, at, mine, newHead, next).pcs[t]);
  }

  lemma PopWaitWriteKeepsInv(s: State, t: Tid, at: Place, mine: Addr)
    requires Inv(s) && t < |s.pcs| && s.pcs[t] == PopWaitWrite(at, mine) && ThreadInv(s, t)
    ensures Inv(PopWaitWriteStep(s, t, at, mine))
  {
    assert SlotInv(s, at.block, at.offset);
    if SlotAt(s, mine, at.offset).write {
      LocalStep(s, t, PopRead(at, mine));
    }
  }

  lemma PopReadKeepsInv(s: State, t: Tid, at: Place, mine: Addr)
    requires Inv(s) && t < |s.pcs| && s.pcs[t] == PopRead(at, mine) && ThreadInv(s, t) && at.offset + 1 != CHUNK_CAP
    ensures Inv(PopReadStep(s, t, at, mine))
  {
    assert SlotInv(s, at.block, at.offset);
    LocalStep(s, t, PopMark(at, mine, SlotAt(s, mine, at.offset).value.value));
  }

  lemma DestroySkipKeepsInv(s: State, t: Tid, at: Place, mine: Addr, got: Value, i: nat)
    requires Inv(s) && t < |s.pcs| && s.pcs[t] == DestroyLoad(at, mine, got, i) && ThreadInv(s, t)
    requires i < s.bound && !SlotAt(s, mine, i).read
    ensures Inv(DestroyLoadStep(s, t, at, mine, got, i))
  {
    LocalStep(s, t, DestroyMark(at, mine, got, i));
  }

  lemma LenKeepsInv(s: State, t: Tid)
    requires Inv(s) && t < |s.pcs| && ThreadInv(s, t)
    ensures s.pcs[t].LenLoadTail? ==> Inv(Goto(s, t, LenLoadHead(s.tailIndex)))
    ensures s.pcs[t].LenLoadHead? ==> Inv(Goto(s, t, LenCheck(s.pcs[t].tail, s.headIndex, s.tailIndex)))
  {
    var pc := s.pcs[t];
    if pc.LenLoadTail? {
      LocalStep(s, t, LenLoadHead(s.tailIndex));
    } else if pc.LenLoadHead? {
      LocalStep(s, t, LenCheck(pc.tail, s.headIndex, s.tailIndex));
    }
  }

  lemma LenCheckKeepsInv(s: State, t: Tid)
    requires Inv(s) && t < |s.pcs| && ThreadInv(s, t) && s.pcs[t].LenCheck?
    ensures Inv(Goto(s, t, if s.tailIndex == s.pcs[t].tail then Idle else LenLoadTail))
  {
    LocalStep(s, t, if s.tailIndex == s.pcs[t].tail then Idle else LenLoadTail);
  }

  // ---------- The words of head and tail ----------

  /** Only the thread that installed the first chunk ever stands before the store to head.chunk. */
  lemma OneInstaller(s: State, t: Tid)
    requires Inv(s) && (s.headChunk.Some? || s.installer == t)
    ensures forall u :: 0 <= u < |s.pcs| && u != t ==> !s.pcs[u].PushStoreHead?
  {
    forall u | 0 <= u < |s.pcs| && u != t ensures !s.pcs[u].PushStoreHead? {
      assert ThreadInv(s, u);
    }
  }

  lemma PushStoreHeadEnds(s: State, t: Tid, item: Value, box: Option<Addr>, tail: nat, first: Addr)
    requires HeapInv(s) && TailInv(s) && HeadInv(s) && t < |s.pcs| && s.pcs[t] == PushStoreHead(item, box, tail, first)
    requires PushThreadInv(s, t, s.pcs[t])
    ensures var s' := PushStoreHeadStep(s, t, item, box, tail, first);
      HeapInv(s') && TailInv(s') && HeadInv(s') && PushThreadInv(s', t, s'.pcs[t])
  {
  }

  lemma PushStoreHeadKeepsInv(s: State, t: Tid, item: Value, box: Option<Addr>, tail: nat, first: Addr)
    requires Inv(s) && t < |s.pcs| && s.pcs[t] == PushStoreHead(item, box, tail, first) && ThreadInv(s, t)
    ensures Inv(PushStoreHeadStep(s, t, item, box, tail, first))
  {
    var s' := PushStoreHeadStep(s, t, item, box, tail, first);
    PushStoreHeadEnds(s, t, item, box, tail, first);
    OneInstaller(s, t);
    QuietStep(s, s', t);
  }

  lemma PushStoreIndexEnds(s: State, t: Tid, item: Value, at: Place, mine: Addr, next: Addr, newTail: nat)
    requires HeapInv(s) && TailInv(s) && HeadInv(s) && t < |s.pcs|
    requires s.pcs[t] == PushStoreIndex(item, at, mine, next, newTail) && PushThreadInv(s, t, s.pcs[t])
    ensures var s' := PushStoreIndexStep(s, t, item, at, mine, next, newTail);
      HeapInv(s') && TailInv(s') && HeadInv(s') && PushThreadInv(s', t, s'.pcs[t])
  {
    NextBlock(newTail);
  }

  lemma PushStoreIndexKeepsInv(s: State, t: Tid, item: Value, at: Place, mine: Addr, next: Addr, newTail: nat)
    requires Inv(s) && t < |s.pcs| && s.pcs[t] == PushStoreIndex(item, at, mine, next, newTail) && ThreadInv(s, t)
    ensures Inv(PushStoreIndexStep(s, t, item, at, mine, next, newTail))
  {
    var s' := PushStoreIndexStep(s, t, item, at, mine, next, newTail);
    NextBlock(newTail);
    PushStoreIndexEnds(s, t, item, at, mine, next, newTail);
    RollingTailIsLast(s, t);
    QuietStep(s, s', t);
  }

  lemma PopStoreChunkTail(s: State, t: Tid, at: Place, mine: Addr, next: Addr, nextIndex: nat)
    requires HeapInv(s) && TailInv(s) && t < |s.pcs| && s.pcs[t] == PopStoreChunk(at, mine, next, nextIndex)
    ensures var s' := Goto(s, t, PopStoreIndex(at, mine, nextIndex)).(headChunk := Some(next));
      HeapInv(s') && TailInv(s')
  {
  }

  lemma PopStoreChunkEnds(s: State, t: Tid, at: Place, mine: Addr, next: Addr, nextIndex: nat)
    requires HeapInv(s) && TailInv(s) && HeadInv(s) && t < |s.pcs|
    requires s.pcs[t] == PopStoreChunk(at, mine, next, nextIndex) && PopThreadInv(s, t, s.pcs[t])
    ensures var s' := Goto(s, t, PopStoreIndex(at, mine, nextIndex)).(headChunk := Some(next));
      HeapInv(s') && TailInv(s') && HeadInv(s') && PopThreadInv(s', t, s'.pcs[t])
  {
    PopStoreChunkTail(s, t, at, mine, next, nextIndex);
  }

  lemma PopStoreChunkKeepsInv(s: State, t: Tid, at: Place, mine: Addr, next: Addr, nextIndex: nat)
    requires Inv(s) && t < |s.pcs| && s.pcs[t] == PopStoreChunk(at, mine, next, nextIndex) && ThreadInv(s, t)
    ensures Inv(Goto(s, t, PopStoreIndex(at, mine, nextIndex)).(headChunk := Some(next)))
  {
    var s' := Goto(s, t, PopStoreIndex(at, mine, nextIndex)).(headChunk := Some(next));
    PopStoreChunkEnds(s, t, at, mine, next, nextIndex);
    RollingHeadIsLast(s, t, at, mine);
    OneInstaller(s, t);
    QuietStep(s, s', t);
  }

  lemma PopStoreIndexEnds(s: State, t: Tid, at: Place, mine: Addr, nextIndex: nat)
    requires HeapInv(s) && TailInv(s) && HeadInv(s) && t < |s.pcs| && s.pcs[t] == PopStoreIndex(at, mine, nextIndex)
    requires PopThreadInv(s, t, s.pcs[t])
    ensures var s' := Goto(s, t, PopWaitWrite(at, mine)).(headIndex := nextIndex);
      && s.headIndex <= nextIndex
      && HeapInv(s') && TailInv(s') && HeadInv(s') && PopThreadInv(s', t, s'.pcs[t])
  {
  }

  lemma PopStoreIndexKeepsInv(s: State, t: Tid, at: Place, mine: Addr, nextIndex: nat)
    requires Inv(s) && t < |s.pcs| && s.pcs[t] == PopStoreIndex(at, mine, nextIndex) && ThreadInv(s, t)
    ensures Inv(Goto(s, t, PopWaitWrite(at, mine)).(headIndex := nextIndex))
  {
    var s' := Goto(s, t, PopWaitWrite(at, mine)).(headIndex := nextIndex);
    PopStoreIndexEnds(s, t, at, mine, nextIndex);
    RollingHeadIsLast(s, t, at, mine);
    QuietStep(s, s', t);
  }
}
