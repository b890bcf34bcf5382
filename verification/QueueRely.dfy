/**
 What one thread of `CoQueue` may rely on while another one steps, and that its own part of the
 invariant survives any such step.
 */
module QueueRely {
  import opened Wrappers
  import opened Threads
  import opened QueueIndex
  import opened CoQueue
  import opened QueueInvariant

  /** The two index words only grow; whoever stands on a sentinel is the only one to move it on. */
  predicate RelyIndex(s: State, s': State, u: Tid) {
    && s.tailIndex <= s'.tailIndex && Block(s.tailIndex) <= Block(s'.tailIndex)
    && s.headIndex <= s'.headIndex && (s.headChunk.Some? ==> s'.headChunk.Some?)
    && s.chain <= s'.chain && s.pushed <= s'.pushed && s.pushers <= s'.pushers && s.poppers <= s'.poppers
    && (Offset(s.tailIndex) == CHUNK_CAP && s.pushers != [] && s.pushers[|s.pushers| - 1] == u ==>
          s'.tailIndex == s.tailIndex && s'.chain == s.chain)
    && (Offset(s.headIndex) == CHUNK_CAP && s.poppers != [] && s.poppers[|s.poppers| - 1] == u ==>
          s'.headIndex == s.headIndex && s'.headChunk == s.headChunk)
    && (u < |s.pcs| && s.pcs[u].PushStoreHead? ==> s'.headChunk == s.headChunk && s'.installer == s.installer)
  }

  /** A private chunk stays private and untouched. */
  predicate RelyPrivate(s: State, s': State, u: Tid, a: Addr)
    requires HeapInv(s) && HeapInv(s')
  {
    a < |s.heap| && s.owner[a] == Private(u) ==> a < |s'.heap| && s'.owner[a] == Private(u) && s'.heap[a] == s.heap[a]
  }

  /** Marks are never taken back, and the marks `u` is to set are not set by others. */
  predicate RelySlot(s: State, s': State, u: Tid, j: nat, o: nat)
    requires HeapInv(s) && HeapInv(s') && s.chain <= s'.chain && j < |s.chain| && o < CHUNK_CAP
  {
    var k := Ticket(Place(j, o));
    var slot := SlotAt(s, s.chain[j], o);
    var slot' := SlotAt(s', s.chain[j], o);
    && (slot.write ==> slot'.write && slot'.value == slot.value)
    && (k < |s.pushers| && s.pushers[k] == u && !slot.write ==> !slot'.write && slot'.value == slot.value)
    && (k < |s.poppers| && s.poppers[k] == u && !slot.read ==> !slot'.read)
    && (k < |s.poppers| && s.poppers[k] == u && k !in s.returned ==> k !in s'.returned)
    && (o + 1 == CHUNK_CAP && k < |s.pushers| && s.pushers[k] == u && s.heap[s.chain[j]].next == None ==>
          s'.heap[s.chain[j]].next == None)
    && (o + 1 == CHUNK_CAP && k < |s.poppers| && s.poppers[k] == u && s.baton[j].Waiting? ==> s'.baton[j].Waiting?)
    && (s.baton[j].Held? && s.baton[j].tid == u ==> s'.baton[j] == s.baton[j])
  }

  ghost predicate Rely(s: State, s': State, u: Tid)
    requires HeapInv(s) && HeapInv(s')
  {
    && s'.bound == s.bound
    && u < |s.pcs| == |s'.pcs| && s'.pcs[u] == s.pcs[u]
    && RelyIndex(s, s', u)
    && (forall a :: 0 <= a < |s.heap| ==> RelyPrivate(s, s', u, a))
    && (forall j, o :: 0 <= j < |s.chain| && 0 <= o < CHUNK_CAP ==> RelySlot(s, s', u, j, o))
  }

  /** The pusher standing on the tail's sentinel is the last one that claimed a slot. */
  lemma RollingTailIsLast(s: State, u: Tid)
    requires HeapInv(s) && TailInv(s) && u < |s.pcs| && PushThreadInv(s, u, s.pcs[u])
    requires s.pcs[u].PushStoreChunk? || s.pcs[u].PushStoreIndex?
    ensures Offset(s.tailIndex) == CHUNK_CAP && s.pushers != [] && s.pushers[|s.pushers| - 1] == u
  {
  }

  lemma RollingHeadIsLast(s: State, u: Tid, at: Place, mine: Addr)
    requires HeapInv(s) && HeadInv(s) && RollingHead(s, u, at, mine)
    ensures Offset(s.headIndex) == CHUNK_CAP && s.poppers != [] && s.poppers[|s.poppers| - 1] == u
  {
  }

  lemma SeekStable(s: State, s': State, u: Tid)
    requires HeapInv(s) && TailInv(s) && HeapInv(s') && Rely(s, s', u) && PushThreadInv(s, u, s.pcs[u])
    requires Seeking(s.pcs[u])
    ensures PushThreadInv(s', u, s'.pcs[u])
  {
    var pc := s.pcs[u];
    if pc.PushInstall? {
      assert RelyPrivate(s, s', u, pc.made);
    }
    if pc.box.Some? {
      assert RelyPrivate(s, s', u, pc.box.value);
    }
  }

  lemma PushRollStable(s: State, s': State, u: Tid)
    requires HeapInv(s) && TailInv(s) && HeapInv(s') && Rely(s, s', u) && PushThreadInv(s, u, s.pcs[u])
    requires s.pcs[u].PushStoreChunk? || s.pcs[u].PushStoreIndex?
    ensures PushThreadInv(s', u, s'.pcs[u])
  {
    var pc := s.pcs[u];
    assert RelySlot(s, s', u, pc.at.block, pc.at.offset);
    RollingTailIsLast(s, u);
    if pc.PushStoreChunk? {
      assert RelyPrivate(s, s', u, pc.next);
    }
  }

  lemma PushStable(s: State, s': State, u: Tid)
    requires HeapInv(s) && TailInv(s) && HeapInv(s') && Rely(s, s', u) && PushThreadInv(s, u, s.pcs[u])
    ensures PushThreadInv(s', u, s'.pcs[u])
  {
    var pc := s.pcs[u];
    if Seeking(pc) {
      SeekStable(s, s', u);
    } else if pc.PushStoreChunk? || pc.PushStoreIndex? {
      PushRollStable(s, s', u);
    } else if PushPlace(pc).Some? {
      assert RelySlot(s, s', u, pc.at.block, pc.at.offset);
    }
  }

  lemma RollingStable(s: State, s': State, u: Tid)
    requires HeapInv(s) && HeadInv(s) && HeapInv(s') && Rely(s, s', u) && PopThreadInv(s, u, s.pcs[u])
    requires Rolling(s.pcs[u])
    ensures PopThreadInv(s', u, s'.pcs[u])
  {
    var pc := s.pcs[u];
    assert RelySlot(s, s', u, pc.at.block, pc.at.offset);
    RollingHeadIsLast(s, u, pc.at, pc.mine);
  }

  lemma PopStable(s: State, s': State, u: Tid)
    requires HeapInv(s) && HeadInv(s) && HeapInv(s') && Rely(s, s', u) && PopThreadInv(s, u, s.pcs[u])
    requires Pos(s.tailIndex) <= Pos(s'.tailIndex)
    ensures PopThreadInv(s', u, s'.pcs[u])
  {
    var pc := s.pcs[u];
    if Rolling(pc) {
      RollingStable(s, s', u);
    } else if WorkPlace(pc).Some? {
      assert RelySlot(s, s', u, pc.at.block, pc.at.offset);
    }
  }

  /** Enough to conclude that a step of `t` keeps the invariant. */
  lemma Conclude(s: State, s': State, t: Tid)
    requires Inv(s) && t < |s.pcs| == |s'.pcs|
    requires HeapInv(s') && TailInv(s') && HeadInv(s') && ReturnInv(s') && ChunksInv(s') && ThreadInv(s', t)
    requires forall u :: 0 <= u < |s.pcs| && u != t ==> Rely(s, s', u)
    ensures Inv(s')
  {
    forall u | 0 <= u < |s.pcs| && u != t ensures ThreadInv(s', u) {
      assert ThreadInv(s, u) && Rely(s, s', u);
      PushStable(s, s', u);
      PopStable(s, s', u);
    }
  }

  // ---------- Steps that leave slots, chain and logs alone ----------

  /** `pc'` stands for the same claims as `pc`, as far as the global part can tell. */
  predicate SameRole(pc: Pc, pc': Pc) {
    && PushPlace(pc) == PushPlace(pc') && PopPlace(pc) == PopPlace(pc') && WorkPlace(pc) == WorkPlace(pc')
    && (pc.PushStoreIndex? || pc.PushStoreNext? <==> pc'.PushStoreIndex? || pc'.PushStoreNext?)
    && (pc.DestroyLoad? || pc.DestroyMark? ==> (pc'.DestroyLoad? || pc'.DestroyMark?) && pc'.i == pc.i)
  }

  /** Everything the chunk invariants read, up to new private chunks and the role of `t`. */
  predicate SameChunks(s: State, s': State, t: Tid)
    requires t < |s.pcs| == |s'.pcs|
  {
    && s'.bound == s.bound && s.heap <= s'.heap && s'.freed == s.freed
    && s'.chain == s.chain && s.owner <= s'.owner && s'.baton == s.baton
    && s'.pushed == s.pushed && s'.pushers == s.pushers && s'.poppers == s.poppers && s'.returned == s.returned
    && s'.pcs == s.pcs[t := s'.pcs[t]] && SameRole(s.pcs[t], s'.pcs[t])
    && s.tailIndex <= s'.tailIndex && s.headIndex <= s'.headIndex
  }

  lemma SameChunksKeepInv(s: State, s': State, t: Tid)
    requires HeapInv(s) && ChunksInv(s) && t < |s.pcs| == |s'.pcs| && SameChunks(s, s', t) && HeapInv(s')
    ensures ChunksInv(s')
  {
    forall j | 0 <= j < |s.chain| ensures LinkInv(s', j) {
      assert LinkInv(s, j);
    }
    forall j, o | 0 <= j < |s.chain| && 0 <= o < CHUNK_CAP ensures SlotInv(s', j, o) {
      assert SlotInv(s, j, o);
    }
    forall j | 0 <= j < |s.chain| ensures BatonInv(s', j) {
      assert BatonInv(s, j);
    }
  }

  /** The rollers of other threads are not disturbed. */
  predicate SameRollers(s: State, s': State, t: Tid)
    requires t < |s.pcs|
  {
    && (s'.tailIndex == s.tailIndex || (s.pushers != [] && s.pushers[|s.pushers| - 1] == t))
    && ((s'.headIndex == s.headIndex && s'.headChunk == s.headChunk) ||
        (s.poppers != [] && s.poppers[|s.poppers| - 1] == t) ||
        (Offset(s.headIndex) != CHUNK_CAP && s.headIndex == s'.headIndex))
    && (s'.headChunk != s.headChunk ==> forall u :: 0 <= u < |s.pcs| && u != t ==> !s.pcs[u].PushStoreHead?)
    && s'.installer == s.installer && (s.headChunk.Some? ==> s'.headChunk.Some?)
  }

  lemma SameChunksRely(s: State, s': State, t: Tid)
    requires HeapInv(s) && t < |s.pcs| == |s'.pcs| && SameChunks(s, s', t) && HeapInv(s') && SameRollers(s, s', t)
    ensures forall u :: 0 <= u < |s.pcs| && u != t ==> Rely(s, s', u)
  {
    CountMonotone(s.tailIndex, s'.tailIndex);
    forall u | 0 <= u < |s.pcs| && u != t ensures Rely(s, s', u) {
      forall a | 0 <= a < |s.heap| ensures RelyPrivate(s, s', u, a) {
      }
      forall j, o | 0 <= j < |s.chain| && 0 <= o < CHUNK_CAP ensures RelySlot(s, s', u, j, o) {
      }
    }
  }
}
