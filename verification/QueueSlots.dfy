/** The steps of `CoQueue` on a chunk it shares with other threads keep the invariant. */
module QueueSlots {
  import opened Wrappers
  import opened Threads
  import opened QueueIndex
  import opened CoQueue
  import opened QueueInvariant
  import opened QueueRely
  import opened QueueSteps

  /**
   A step of `t` on the chunk of `at`, which is in the chain: one slot or the link changes, possibly
   with the baton of that chunk, and the pop of `t` may return.
   */
  predicate OnChunk(s: State, s': State, t: Tid, at: Place)
    requires HeapInv(s)
  {
    && t < |s.pcs| == |s'.pcs| && at.block < |s.chain| && at.offset < CHUNK_CAP
    && |s'.heap| == |s.heap| && |s'.baton| == |s.baton|
    && s' == s.(pcs := s.pcs[t := s'.pcs[t]], freed := s'.freed, returned := s'.returned,
                heap := s.heap[s.chain[at.block] := s'.heap[s.chain[at.block]]],
                baton := s.baton[at.block := s'.baton[at.block]])
    && |s'.heap[s.chain[at.block]].slots| == CHUNK_CAP
    && (s'.freed == s.freed || s'.freed == s.freed + {s.chain[at.block]})
    && (s'.returned == s.returned ||
        (Ticket(at) < |s.poppers| && s.poppers[Ticket(at)] == t && s'.returned.Keys == s.returned.Keys + {Ticket(at)} &&
         forall k :: k in s.returned && k != Ticket(at) ==> s'.returned[k] == s.returned[k]))
  }

  /** What changed in the chunk was for `t` to change. */
  predicate OwnChange(s: State, s': State, t: Tid, j: nat, o: nat)
    requires HeapInv(s) && HeapInv(s') && s'.chain == s.chain && j < |s.chain| && o < CHUNK_CAP
  {
    var k := Ticket(Place(j, o));
    var slot := SlotAt(s, s.chain[j], o);
    var slot' := SlotAt(s', s.chain[j], o);
    && (slot.write ==> slot'.write && slot'.value == slot.value)
    && (slot.write != slot'.write || slot.value != slot'.value ==> k < |s.pushers| && s.pushers[k] == t)
    && (slot.read != slot'.read ==> k < |s.poppers| && s.poppers[k] == t)
    && (o + 1 == CHUNK_CAP && s.heap[s.chain[j]].next != s'.heap[s.chain[j]].next ==>
          k < |s.pushers| && s.pushers[k] == t)
    && (o + 1 == CHUNK_CAP && s.baton[j].Waiting? && !s'.baton[j].Waiting? ==> k < |s.poppers| && s.poppers[k] == t)
  }

  lemma OnChunkRely(s: State, s': State, t: Tid, at: Place)
    requires HeapInv(s) && HeapInv(s') && OnChunk(s, s', t, at)
    requires forall o :: 0 <= o < CHUNK_CAP ==> OwnChange(s, s', t, at.block, o)
    requires s'.baton[at.block] == s.baton[at.block] || (s.baton[at.block].Held? ==> s.baton[at.block].tid == t)
    ensures forall u :: 0 <= u < |s.pcs| && u != t ==> Rely(s, s', u)
  {
    forall u | 0 <= u < |s.pcs| && u != t ensures Rely(s, s', u) {
      forall a | 0 <= a < |s.heap| ensures RelyPrivate(s, s', u, a) {
      }
      forall j, o | 0 <= j < |s.chain| && 0 <= o < CHUNK_CAP ensures RelySlot(s, s', u, j, o) {
        if j == at.block {
          assert OwnChange(s, s', t, at.block, o);
        } else {
          assert s.owner[s.chain[j]] != s.owner[s.chain[at.block]];
        }
      }
    }
  }

  /** The claims of `t` are at `at`, if anywhere. */
  predicate OnlyAt(pc: Pc, at: Place) {
    && (PushPlace(pc).Some? ==> PushPlace(pc) == Some(at))
    && (WorkPlace(pc).Some? ==> WorkPlace(pc) == Some(at))
  }

  lemma OtherChunks(s: State, s': State, t: Tid, at: Place, j: nat)
    requires HeapInv(s) && HeapInv(s') && OnChunk(s, s', t, at) && j < |s.chain| && j != at.block
    requires OnlyAt(s.pcs[t], at) && LinkInv(s, j) && BatonInv(s, j)
    ensures LinkInv(s', j) && BatonInv(s', j)
  {
    assert s.owner[s.chain[j]] != s.owner[s.chain[at.block]];
  }

  lemma OtherSlots(s: State, s': State, t: Tid, at: Place, j: nat, o: nat)
    requires HeapInv(s) && HeapInv(s') && OnChunk(s, s', t, at) && j < |s.chain| && o < CHUNK_CAP && Place(j, o) != at
    requires OnlyAt(s.pcs[t], at) && SlotInv(s, j, o)
    requires j == at.block ==>
      SlotAt(s', s.chain[j], o) == SlotAt(s, s.chain[j], o).(destroy := SlotAt(s', s.chain[j], o).destroy)
    ensures SlotInv(s', j, o)
  {
    if j != at.block {
      assert s.owner[s.chain[j]] != s.owner[s.chain[at.block]];
    }
    assert Ticket(Place(j, o)) != Ticket(at);
  }

  /** A step on a shared chunk changes there only what is for `t` to change. */
  ghost predicate ChunkStepFrame(s: State, s': State, t: Tid, at: Place)
    requires HeapInv(s)
  {
    && HeapInv(s') && OnChunk(s, s', t, at) && OnlyAt(s.pcs[t], at) && SameRolling(s.pcs[t], s'.pcs[t])
    && (forall o :: 0 <= o < CHUNK_CAP ==> OwnChange(s, s', t, at.block, o))
    && (forall o :: 0 <= o < CHUNK_CAP && o != at.offset ==>
          SlotAt(s', s.chain[at.block], o) ==
          SlotAt(s, s.chain[at.block], o).(destroy := SlotAt(s', s.chain[at.block], o).destroy))
    && (s'.baton[at.block] == s.baton[at.block] || (s.baton[at.block].Held? ==> s.baton[at.block].tid == t))
  }

  /** All that is to be checked locally about a step on a shared chunk. */
  ghost predicate ChunkStepOk(s: State, s': State, t: Tid, at: Place)
    requires HeapInv(s)
  {
    && ChunkStepFrame(s, s', t, at)
    && LinkInv(s', at.block) && BatonInv(s', at.block) && SlotInv(s', at.block, at.offset)
    && ReturnInv(s') && ThreadInv(s', t)
  }

  lemma ChunkStep(s: State, s': State, t: Tid, at: Place)
    requires Inv(s) && ChunkStepOk(s, s', t, at)
    ensures Inv(s')
  {
    forall j | 0 <= j < |s.chain| ensures LinkInv(s', j) && BatonInv(s', j) {
      assert LinkInv(s, j) && BatonInv(s, j);
      if j != at.block {
        OtherChunks(s, s', t, at, j);
      }
    }
    forall j, o | 0 <= j < |s.chain| && 0 <= o < CHUNK_CAP ensures SlotInv(s', j, o) {
      assert SlotInv(s, j, o);
      if Place(j, o) != at {
        OtherSlots(s, s', t, at, j, o);
      }
    }
    EndsKeepInv(s, s', t);
    OnChunkRely(s, s', t, at);
    Conclude(s, s', t);
  }

  /** The invariants of the chunk and slot of `at`. */
  predicate AtInv(s: State, at: Place) {
    && HeapInv(s) && ReturnInv(s) && at.block < |s.chain| && at.offset < CHUNK_CAP
    && LinkInv(s, at.block) && BatonInv(s, at.block) && SlotInv(s, at.block, at.offset)
  }

  lemma StoreNextOk(s: State, t: Tid, item: Value, at: Place, mine: Addr, next: Addr)
    requires AtInv(s, at) && t < |s.pcs| && s.pcs[t] == PushStoreNext(item, at, mine, next) && ThreadInv(s, t)
    ensures ChunkStepOk(s, PushStoreNextStep(s, t, item, at, mine, next), t, at)
  {
  }

  // ---------- Steps on one slot ----------

  /** A step of `t` on slot `i` of its chunk: the new slot, baton and program point, and what it returns. */
  datatype Edit = Edit(i: nat, slot: Slot, baton: Baton, pc: Pc, release: bool, result: Option<Value>)

  function Apply(s: State, t: Tid, at: Place, e: Edit): (s': State)
    requires HeapInv(s) && t < |s.pcs| && at.block < |s.chain| && e.i < CHUNK_CAP
  {
    var a := s.chain[at.block];
    s.(heap := s.heap[a := s.heap[a].(slots := s.heap[a].slots[e.i := e.slot])],
       baton := s.baton[at.block := e.baton], pcs := s.pcs[t := e.pc],
       freed := if e.release then s.freed + {a} else s.freed,
       returned := if e.result.Some? then s.returned[Ticket(at) := e.result.value] else s.returned)
  }

  /** The edit is for `t` to make. */
  predicate Allowed(s: State, t: Tid, at: Place, e: Edit)
    requires HeapInv(s)
  {
    && t < |s.pcs| && at.block < |s.chain| && at.offset < CHUNK_CAP && e.i < CHUNK_CAP
    && OnlyAt(s.pcs[t], at) && SameRolling(s.pcs[t], e.pc)
    && !s.pcs[t].PushStoreIndex? && !s.pcs[t].PushStoreNext?
    && (var slot := SlotAt(s, s.chain[at.block], e.i);
        && (slot.write ==> e.slot.write && e.slot.value == slot.value)
        && (e.slot != slot.(destroy := e.slot.destroy) ==> e.i == at.offset)
        && (slot.write != e.slot.write || slot.value != e.slot.value ==>
              Ticket(at) < |s.pushers| && s.pushers[Ticket(at)] == t)
        && (slot.read != e.slot.read ==> Ticket(at) < |s.poppers| && s.poppers[Ticket(at)] == t))
    && (s.baton[at.block].Held? && e.baton != s.baton[at.block] ==> s.baton[at.block].tid == t)
    && (s.baton[at.block].Waiting? && !e.baton.Waiting? ==>
          at.offset + 1 == CHUNK_CAP && Ticket(at) < |s.poppers| && s.poppers[Ticket(at)] == t)
    && (e.result.Some? ==>
          && Ticket(at) < |s.poppers| && s.poppers[Ticket(at)] == t
          && Ticket(at) < |s.pushed| && e.result.value == s.pushed[Ticket(at)])
  }

  lemma EditFrame(s: State, t: Tid, at: Place, e: Edit)
    requires HeapInv(s) && Allowed(s, t, at, e)
    ensures ChunkStepFrame(s, Apply(s, t, at, e), t, at)
  {
    var s' := Apply(s, t, at, e);
    assert HeapInv(s');
    forall o | 0 <= o < CHUNK_CAP ensures OwnChange(s, s', t, at.block, o) {
    }
  }

  lemma EditLinks(s: State, t: Tid, at: Place, e: Edit)
    requires AtInv(s, at) && Allowed(s, t, at, e)
    ensures var s' := Apply(s, t, at, e); HeapInv(s') && LinkInv(s', at.block) && ReturnInv(s')
  {
  }

  /** An allowed edit that leaves its own slot, baton and thread in order keeps the invariant. */
  predicate EditOk(s: State, t: Tid, at: Place, e: Edit)
    requires HeapInv(s)
  {
    && Allowed(s, t, at, e)
    && var s' := Apply(s, t, at, e);
       HeapInv(s') && SlotInv(s', at.block, at.offset) && BatonInv(s', at.block) && ThreadInv(s', t)
  }

  lemma EditKeepsInv(s: State, s': State, t: Tid, at: Place, e: Edit)
    requires Inv(s) && EditOk(s, t, at, e) && s' == Apply(s, t, at, e)
    ensures Inv(s')
  {
    EditFrame(s, t, at, e);
    assert LinkInv(s, at.block) && BatonInv(s, at.block) && SlotInv(s, at.block, at.offset);
    EditLinks(s, t, at, e);
    ChunkStep(s, s', t, at);
  }

  lemma WriteAllowed(s: State, t: Tid, item: Value, at: Place, mine: Addr)
    requires HeapInv(s) && t < |s.pcs| && s.pcs[t] == PushWrite(item, at, mine) && PushThreadInv(s, t, s.pcs[t])
    ensures var slot := SlotAt(s, mine, at.offset);
      Allowed(s, t, at,
              Edit(at.offset, slot.(value := Some(item)), s.baton[at.block], PushMark(item, at, mine), false, None))
  {
  }

  lemma WriteOk(s: State, t: Tid, item: Value, at: Place, mine: Addr)
    requires AtInv(s, at) && t < |s.pcs| && s.pcs[t] == PushWrite(item, at, mine) && ThreadInv(s, t)
    ensures var slot := SlotAt(s, mine, at.offset);
      EditOk(s, t, at,
             Edit(at.offset, slot.(value := Some(item)), s.baton[at.block], PushMark(item, at, mine), false, None))
  {
    WriteAllowed(s, t, item, at, mine);
  }

  lemma MarkAllowed(s: State, t: Tid, item: Value, at: Place, mine: Addr)
    requires HeapInv(s) && t < |s.pcs| && s.pcs[t] == PushMark(item, at, mine) && PushThreadInv(s, t, s.pcs[t])
    ensures var slot := SlotAt(s, mine, at.offset);
      Allowed(s, t, at, Edit(at.offset, slot.(write := true), s.baton[at.block], Idle, false, None))
  {
  }

  lemma MarkOk(s: State, t: Tid, item: Value, at: Place, mine: Addr)
    requires AtInv(s, at) && t < |s.pcs| && s.pcs[t] == PushMark(item, at, mine) && ThreadInv(s, t)
    ensures var slot := SlotAt(s, mine, at.offset);
      EditOk(s, t, at, Edit(at.offset, slot.(write := true), s.baton[at.block], Idle, false, None))
  {
    MarkAllowed(s, t, item, at, mine);
  }

  /** The reader of the last slot starts the baton of its chunk. */
  lemma PopReadLastOk(s: State, t: Tid, at: Place, mine: Addr)
    requires AtInv(s, at) && t < |s.pcs| && s.pcs[t] == PopRead(at, mine) && ThreadInv(s, t)
    requires at.offset + 1 == CHUNK_CAP
    ensures var slot := SlotAt(s, mine, at.offset);
      EditOk(s, t, at, Edit(at.offset, slot, Held(t, 0), DestroyLoad(at, mine, slot.value.value, 0), false, None))
  {
  }

  /** DESTROY on a slot not yet READ means that the baton is parked there. */
  lemma DestroyMeansParked(s: State, at: Place)
    requires AtInv(s, at)
    requires SlotAt(s, s.chain[at.block], at.offset).destroy && !SlotAt(s, s.chain[at.block], at.offset).read
    ensures s.baton[at.block] == Parked(at.offset)
  {
  }

  lemma PopMarkOk(s: State, t: Tid, at: Place, mine: Addr, got: Value)
    requires AtInv(s, at) && t < |s.pcs| && s.pcs[t] == PopMark(at, mine, got) && ThreadInv(s, t)
    requires !SlotAt(s, mine, at.offset).destroy
    ensures var slot := SlotAt(s, mine, at.offset);
      EditOk(s, t, at, Edit(at.offset, slot.(read := true), s.baton[at.block], Idle, false, Some(got)))
  {
  }

  /** A reader that finds DESTROY takes the baton over. */
  lemma PopTakeOverOk(s: State, t: Tid, at: Place, mine: Addr, got: Value)
    requires AtInv(s, at) && t < |s.pcs| && s.pcs[t] == PopMark(at, mine, got) && ThreadInv(s, t)
    requires SlotAt(s, mine, at.offset).destroy
    ensures var slot := SlotAt(s, mine, at.offset); var i := at.offset + 1;
      EditOk(s, t, at, Edit(at.offset, slot.(read := true), Held(t, i), DestroyLoad(at, mine, got, i), false, None))
  {
    DestroyMeansParked(s, at);
  }

  lemma DestroyNextOk(s: State, t: Tid, at: Place, mine: Addr, got: Value, i: nat)
    requires AtInv(s, at) && t < |s.pcs| && s.pcs[t] == DestroyLoad(at, mine, got, i) && ThreadInv(s, t)
    requires i < s.bound && SlotAt(s, mine, i).read
    ensures var slot := SlotAt(s, mine, i);
      EditOk(s, t, at, Edit(i, slot, Held(t, i + 1), DestroyLoad(at, mine, got, i + 1), false, None))
  {
  }

  lemma ReleaseOk(s: State, t: Tid, at: Place, mine: Addr, got: Value, i: nat)
    requires AtInv(s, at) && t < |s.pcs| && s.pcs[t] == DestroyLoad(at, mine, got, i) && ThreadInv(s, t)
    requires i >= s.bound
    ensures EditOk(s, t, at, Edit(at.offset, SlotAt(s, mine, at.offset), Released, Idle, true, Some(got)))
  {
  }

  lemma DestroyPassAllowed(s: State, t: Tid, at: Place, mine: Addr, got: Value, i: nat)
    requires HeapInv(s) && t < |s.pcs| && s.pcs[t] == DestroyMark(at, mine, got, i) && PopThreadInv(s, t, s.pcs[t])
    ensures var slot := SlotAt(s, mine, i);
      Allowed(s, t, at, Edit(i, slot.(destroy := true), Held(t, i + 1), DestroyLoad(at, mine, got, i + 1), false, None))
  {
  }

  lemma DestroyPassOk(s: State, t: Tid, at: Place, mine: Addr, got: Value, i: nat)
    requires AtInv(s, at) && t < |s.pcs| && s.pcs[t] == DestroyMark(at, mine, got, i) && ThreadInv(s, t)
    requires SlotAt(s, mine, i).read
    ensures var slot := SlotAt(s, mine, i);
      EditOk(s, t, at, Edit(i, slot.(destroy := true), Held(t, i + 1), DestroyLoad(at, mine, got, i + 1), false, None))
  {
    DestroyPassAllowed(s, t, at, mine, got, i);
  }

  /** The baton is left at a slot that is still being read. */
  lemma DestroyParkOk(s: State, t: Tid, at: Place, mine: Addr, got: Value, i: nat)
    requires AtInv(s, at) && t < |s.pcs| && s.pcs[t] == DestroyMark(at, mine, got, i) && ThreadInv(s, t)
    requires !SlotAt(s, mine, i).read
    ensures var slot := SlotAt(s, mine, i);
      EditOk(s, t, at, Edit(i, slot.(destroy := true), Parked(i), Idle, false, Some(got)))
  {
  }
}
