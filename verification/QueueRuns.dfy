/** Theorems about every run of `CoQueue`. */
module QueueRuns {
  import opened Wrappers
  import opened Threads
  import opened QueueIndex
  import opened CoQueue
  import opened QueueInvariant
  import opened QueueSteps
  import opened QueueClaims
  import opened QueueSlots

  // ---------- Every step keeps the invariant ----------

  lemma AtPlace(s: State, at: Place)
    requires Inv(s) && at.block < |s.chain| && at.offset < CHUNK_CAP
    ensures AtInv(s, at)
  {
    assert LinkInv(s, at.block) && BatonInv(s, at.block) && SlotInv(s, at.block, at.offset);
  }

  lemma SameHeap(s: State, at: Place, i: nat)
    requires HeapInv(s) && at.block < |s.chain| && i < CHUNK_CAP
    ensures var a := s.chain[at.block];
      s.heap[a := s.heap[a].(slots := s.heap[a].slots[i := s.heap[a].slots[i]])] == s.heap
  {
    var a := s.chain[at.block];
    assert s.heap[a].slots[i := s.heap[a].slots[i]] == s.heap[a].slots;
  }

  /** Where a thread works, as far as the edits below need it. */
  predicate Works(s: State, t: Tid, at: Place, mine: Addr)
    requires HeapInv(s)
  {
    t < |s.pcs| && at.block < |s.chain| && at.offset < CHUNK_CAP && mine == s.chain[at.block]
  }

  lemma WriteKeepsInv(s: State, t: Tid, item: Value, at: Place, mine: Addr)
    requires Inv(s) && t < |s.pcs| && ThreadInv(s, t) && s.pcs[t] == PushWrite(item, at, mine)
    ensures Inv(FillNext(s, t))
  {
    AtPlace(s, at);
    assert s.baton[at.block := s.baton[at.block]] == s.baton;
    WriteOk(s, t, item, at, mine);
    var slot := SlotAt(s, mine, at.offset).(value := Some(item));
    EditKeepsInv(s, FillNext(s, t), t, at,
                 Edit(at.offset, slot, s.baton[at.block], PushMark(item, at, mine), false, None));
  }

  lemma MarkKeepsInv(s: State, t: Tid, item: Value, at: Place, mine: Addr)
    requires Inv(s) && t < |s.pcs| && ThreadInv(s, t) && s.pcs[t] == PushMark(item, at, mine)
    ensures Inv(FillNext(s, t))
  {
    AtPlace(s, at);
    assert s.baton[at.block := s.baton[at.block]] == s.baton;
    MarkOk(s, t, item, at, mine);
    var slot := SlotAt(s, mine, at.offset).(write := true);
    EditKeepsInv(s, FillNext(s, t), t, at, Edit(at.offset, slot, s.baton[at.block], Idle, false, None));
  }

  lemma ReadLastKeepsInv(s: State, t: Tid, at: Place, mine: Addr)
    requires Inv(s) && t < |s.pcs| && s.pcs[t] == PopRead(at, mine) && ThreadInv(s, t) && at.offset + 1 == CHUNK_CAP
    ensures Inv(PopReadStep(s, t, at, mine))
  {
    AtPlace(s, at);
    PopReadLastOk(s, t, at, mine);
    SameHeap(s, at, at.offset);
    var slot := SlotAt(s, mine, at.offset);
    EditKeepsInv(s, PopReadStep(s, t, at, mine), t, at,
                 Edit(at.offset, slot, Held(t, 0), DestroyLoad(at, mine, slot.value.value, 0), false, None));
  }

  lemma TakeOverIsEdit(s: State, t: Tid, at: Place, mine: Addr, got: Value, slot: Slot, i: nat)
    requires HeapInv(s) && Works(s, t, at, mine) && i == at.offset + 1
    requires SlotAt(s, mine, at.offset).destroy && slot == SlotAt(s, mine, at.offset).(read := true)
    ensures PopMarkStep(s, t, at, mine, got) ==
      Apply(s, t, at, Edit(at.offset, slot, Held(t, i), DestroyLoad(at, mine, got, i), false, None))
  {
  }

  lemma TakeOverKeepsInv(s: State, t: Tid, at: Place, mine: Addr, got: Value)
    requires Inv(s) && t < |s.pcs| && s.pcs[t] == PopMark(at, mine, got) && ThreadInv(s, t)
    requires SlotAt(s, mine, at.offset).destroy
    ensures Inv(PopMarkStep(s, t, at, mine, got))
  {
    AtPlace(s, at);
    PopTakeOverOk(s, t, at, mine, got);
    var slot, i := SlotAt(s, mine, at.offset).(read := true), at.offset + 1;
    TakeOverIsEdit(s, t, at, mine, got, slot, i);
    EditKeepsInv(s, PopMarkStep(s, t, at, mine, got), t, at,
                 Edit(at.offset, slot, Held(t, i), DestroyLoad(at, mine, got, i), false, None));
  }

  lemma FirstMarkIsEdit(s: State, t: Tid, at: Place, mine: Addr, got: Value, slot: Slot)
    requires HeapInv(s) && Works(s, t, at, mine)
    requires !SlotAt(s, mine, at.offset).destroy && slot == SlotAt(s, mine, at.offset).(read := true)
    ensures PopMarkStep(s, t, at, mine, got) ==
      Apply(s, t, at, Edit(at.offset, slot, s.baton[at.block], Idle, false, Some(got)))
  {
    assert s.baton[at.block := s.baton[at.block]] == s.baton;
  }

  lemma FirstMarkKeepsInv(s: State, t: Tid, at: Place, mine: Addr, got: Value)
    requires Inv(s) && t < |s.pcs| && s.pcs[t] == PopMark(at, mine, got) && ThreadInv(s, t)
    requires !SlotAt(s, mine, at.offset).destroy
    ensures Inv(PopMarkStep(s, t, at, mine, got))
  {
    AtPlace(s, at);
    PopMarkOk(s, t, at, mine, got);
    var slot := SlotAt(s, mine, at.offset).(read := true);
    FirstMarkIsEdit(s, t, at, mine, got, slot);
    EditKeepsInv(s, PopMarkStep(s, t, at, mine, got), t, at,
                 Edit(at.offset, slot, s.baton[at.block], Idle, false, Some(got)));
  }

  lemma PopMarkKeepsInv(s: State, t: Tid, at: Place, mine: Addr, got: Value)
    requires Inv(s) && t < |s.pcs| && s.pcs[t] == PopMark(at, mine, got) && ThreadInv(s, t)
    ensures Inv(PopMarkStep(s, t, at, mine, got))
  {
    if SlotAt(s, mine, at.offset).destroy {
      TakeOverKeepsInv(s, t, at, mine, got);
    } else {
      FirstMarkKeepsInv(s, t, at, mine, got);
    }
  }

  lemma ReleaseIsEdit(s: State, t: Tid, at: Place, mine: Addr, got: Value, i: nat)
    requires HeapInv(s) && Works(s, t, at, mine) && i >= s.bound
    ensures DestroyLoadStep(s, t, at, mine, got, i) ==
      Apply(s, t, at, Edit(at.offset, SlotAt(s, mine, at.offset), Released, Idle, true, Some(got)))
  {
    SameHeap(s, at, at.offset);
  }

  lemma ReleaseKeepsInv(s: State, t: Tid, at: Place, mine: Addr, got: Value, i: nat)
    requires Inv(s) && t < |s.pcs| && s.pcs[t] == DestroyLoad(at, mine, got, i) && ThreadInv(s, t) && i >= s.bound
    ensures Inv(DestroyLoadStep(s, t, at, mine, got, i))
  {
    AtPlace(s, at);
    ReleaseOk(s, t, at, mine, got, i);
    ReleaseIsEdit(s, t, at, mine, got, i);
    EditKeepsInv(s, DestroyLoadStep(s, t, at, mine, got, i), t, at,
                 Edit(at.offset, SlotAt(s, mine, at.offset), Released, Idle, true, Some(got)));
  }

  lemma DestroyNextIsEdit(s: State, t: Tid, at: Place, mine: Addr, got: Value, i: nat)
    requires HeapInv(s) && Works(s, t, at, mine) && i < s.bound && SlotAt(s, mine, i).read
    ensures DestroyLoadStep(s, t, at, mine, got, i) ==
      Apply(s, t, at, Edit(i, SlotAt(s, mine, i), Held(t, i + 1), DestroyLoad(at, mine, got, i + 1), false, None))
  {
    SameHeap(s, at, i);
  }

  lemma DestroyNextKeepsInv(s: State, t: Tid, at: Place, mine: Addr, got: Value, i: nat)
    requires Inv(s) && t < |s.pcs| && s.pcs[t] == DestroyLoad(at, mine, got, i) && ThreadInv(s, t)
    requires i < s.bound && SlotAt(s, mine, i).read
    ensures Inv(DestroyLoadStep(s, t, at, mine, got, i))
  {
    AtPlace(s, at);
    DestroyNextOk(s, t, at, mine, got, i);
    DestroyNextIsEdit(s, t, at, mine, got, i);
    EditKeepsInv(s, DestroyLoadStep(s, t, at, mine, got, i), t, at,
                 Edit(i, SlotAt(s, mine, i), Held(t, i + 1), DestroyLoad(at, mine, got, i + 1), false, None));
  }

  lemma DestroyLoadKeepsInv(s: State, t: Tid, at: Place, mine: Addr, got: Value, i: nat)
    requires Inv(s) && t < |s.pcs| && s.pcs[t] == DestroyLoad(at, mine, got, i) && ThreadInv(s, t)
    ensures Inv(DestroyLoadStep(s, t, at, mine, got, i))
  {
    if i >= s.bound {
      ReleaseKeepsInv(s, t, at, mine, got, i);
    } else if SlotAt(s, mine, i).read {
      DestroyNextKeepsInv(s, t, at, mine, got, i);
    } else {
      DestroySkipKeepsInv(s, t, at, mine, got, i);
    }
  }

  lemma DestroyPassKeepsInv(s: State, t: Tid, at: Place, mine: Addr, got: Value, i: nat)
    requires Inv(s) && t < |s.pcs| && s.pcs[t] == DestroyMark(at, mine, got, i) && ThreadInv(s, t)
    requires SlotAt(s, mine, i).read
    ensures Inv(DestroyMarkStep(s, t, at, mine, got, i))
  {
    AtPlace(s, at);
    DestroyPassOk(s, t, at, mine, got, i);
    var slot := SlotAt(s, mine, i).(destroy := true);
    EditKeepsInv(s, DestroyMarkStep(s, t, at, mine, got, i), t, at,
                 Edit(i, slot, Held(t, i + 1), DestroyLoad(at, mine, got, i + 1), false, None));
  }

  lemma DestroyParkKeepsInv(s: State, t: Tid, at: Place, mine: Addr, got: Value, i: nat)
    requires Inv(s) && t < |s.pcs| && s.pcs[t] == DestroyMark(at, mine, got, i) && ThreadInv(s, t)
    requires !SlotAt(s, mine, i).read
    ensures Inv(DestroyMarkStep(s, t, at, mine, got, i))
  {
    AtPlace(s, at);
    DestroyParkOk(s, t, at, mine, got, i);
    var slot := SlotAt(s, mine, i).(destroy := true);
    EditKeepsInv(s, DestroyMarkStep(s, t, at, mine, got, i), t, at, Edit(i, slot, Parked(i), Idle, false, Some(got)));
  }

  lemma DestroyMarkKeepsInv(s: State, t: Tid, at: Place, mine: Addr, got: Value, i: nat)
    requires Inv(s) && t < |s.pcs| && s.pcs[t] == DestroyMark(at, mine, got, i) && ThreadInv(s, t)
    ensures Inv(DestroyMarkStep(s, t, at, mine, got, i))
  {
    if SlotAt(s, mine, i).read {
      DestroyPassKeepsInv(s, t, at, mine, got, i);
    } else {
      DestroyParkKeepsInv(s, t, at, mine, got, i);
    }
  }

  lemma StoreNextKeepsInv(s: State, t: Tid, item: Value, at: Place, mine: Addr, next: Addr)
    requires Inv(s) && t < |s.pcs| && s.pcs[t] == PushStoreNext(item, at, mine, next) && ThreadInv(s, t)
    ensures Inv(PushStoreNextStep(s, t, item, at, mine, next))
  {
    AtPlace(s, at);
    StoreNextOk(s, t, item, at, mine, next);
    ChunkStep(s, PushStoreNextStep(s, t, item, at, mine, next), t, at);
  }

  lemma PushCasKeepsInv(s: State, t: Tid, item: Value, box: Option<Addr>, tail: nat, mine: Addr, c: Choice)
    requires Inv(s) && t < |s.pcs| && ThreadInv(s, t) && s.pcs[t] == PushClaim(item, box, tail, mine)
    ensures Inv(PushClaimStep(s, t, item, box, tail, mine, c))
  {
    if s.tailIndex == tail && !c.spurious {
      PushClaimKeepsInv(s, t, item, box, tail, mine, c);
    } else {
      PushRetryKeepsInv(s, t, item, box, tail, mine, c);
    }
  }

  lemma InstallCasKeepsInv(s: State, t: Tid, item: Value, box: Option<Addr>, tail: nat, made: Addr)
    requires Inv(s) && t < |s.pcs| && ThreadInv(s, t) && s.pcs[t] == PushInstall(item, box, tail, made)
    ensures Inv(PushInstallStep(s, t, item, box, tail, made))
  {
    if s.tailChunk == None {
      InstallKeepsInv(s, t, item, box, tail, made);
    } else {
      InstallFailKeepsInv(s, t, item, box, tail, made);
    }
  }

  lemma SeekKeepsInv(s: State, t: Tid, c: Choice)
    requires Inv(s) && t < |s.pcs| && ThreadInv(s, t) && Seeking(s.pcs[t])
    ensures SeekReady(s, s.pcs[t]) && Inv(SeekNext(s, t, c))
  {
    match s.pcs[t]
    case PushLoadIndex(_, _) => PushLoadKeepsInv(s, t);
    case PushLoadChunk(_, _, _) => PushLoadKeepsInv(s, t);
    case PushTest(item, box, tail, chunk) => PushTestKeepsInv(s, t, item, box, tail, chunk);
    case PushInstall(item, box, tail, made) => InstallCasKeepsInv(s, t, item, box, tail, made);
    case PushStoreHead(item, box, tail, first) => PushStoreHeadKeepsInv(s, t, item, box, tail, first);
    case PushClaim(item, box, tail, mine) => PushCasKeepsInv(s, t, item, box, tail, mine, c);
  }

  lemma PushRollKeepsInv(s: State, t: Tid)
    requires Inv(s) && t < |s.pcs| && ThreadInv(s, t) && RollingPush(s.pcs[t])
    ensures Inv(PushRollNext(s, t))
  {
    match s.pcs[t]
    case PushStoreChunk(item, at, mine, next, newTail) => PushStoreChunkKeepsInv(s, t, item, at, mine, next, newTail);
    case PushStoreIndex(item, at, mine, next, newTail) => PushStoreIndexKeepsInv(s, t, item, at, mine, next, newTail);
  }

  lemma FillKeepsInv(s: State, t: Tid)
    requires Inv(s) && t < |s.pcs| && ThreadInv(s, t) && Filling(s.pcs[t])
    ensures Inv(FillNext(s, t))
  {
    match s.pcs[t]
    case PushStoreNext(item, at, mine, next) => StoreNextKeepsInv(s, t, item, at, mine, next);
    case PushWrite(item, at, mine) => WriteKeepsInv(s, t, item, at, mine);
    case PushMark(item, at, mine) => MarkKeepsInv(s, t, item, at, mine);
  }

  lemma PopSeekKeepsInv(s: State, t: Tid, c: Choice)
    requires Inv(s) && t < |s.pcs| && ThreadInv(s, t) && PopSeeking(s.pcs[t])
    ensures Inv(PopSeekNext(s, t, c))
  {
    match s.pcs[t]
    case PopLoadIndex => PopLoadKeepsInv(s, t);
    case PopLoadChunk(_) => PopLoadKeepsInv(s, t);
    case PopTest(head, chunk) => PopTestKeepsInv(s, t, head, chunk);
    case PopLoadTail(head, chunk) => PopLoadTailKeepsInv(s, t, head, chunk);
    case PopClaim(head, newHead, mine) => PopCasKeepsInv(s, t, head, newHead, mine, c);
  }

  lemma PopCasKeepsInv(s: State, t: Tid, head: nat, newHead: nat, mine: Addr, c: Choice)
    requires Inv(s) && t < |s.pcs| && ThreadInv(s, t) && s.pcs[t] == PopClaim(head, newHead, mine)
    ensures Inv(PopClaimStep(s, t, head, newHead, mine, c))
  {
    if s.headIndex == head && !c.spurious {
      PopClaimKeepsInv(s, t, head, newHead, mine, c);
    } else {
      PopRetryKeepsInv(s, t, head, newHead, mine, c);
    }
  }

  lemma MeasureKeepsInv(s: State, t: Tid)
    requires Inv(s) && t < |s.pcs| && ThreadInv(s, t) && Measuring(s.pcs[t])
    ensures Inv(LenNext(s, t))
  {
    match s.pcs[t]
    case LenLoadTail => LenKeepsInv(s, t);
    case LenLoadHead(_) => LenKeepsInv(s, t);
    case LenCheck(_, _, _) => LenCheckKeepsInv(s, t);
  }

  lemma RollKeepsInv(s: State, t: Tid)
    requires Inv(s) && t < |s.pcs| && ThreadInv(s, t) && Rolling(s.pcs[t])
    ensures Inv(RollNext(s, t))
  {
    match s.pcs[t]
    case PopWaitNext(at, mine, newHead) => PopWaitNextKeepsInv(s, t, at, mine, newHead);
    case PopPeek(at, mine, newHead, next) => PopPeekKeepsInv(s, t, at, mine, newHead, next);
    case PopStoreChunk(at, mine, next, nextIndex) => PopStoreChunkKeepsInv(s, t, at, mine, next, nextIndex);
    case PopStoreIndex(at, mine, nextIndex) => PopStoreIndexKeepsInv(s, t, at, mine, nextIndex);
  }

  lemma PopReadStepKeepsInv(s: State, t: Tid, at: Place, mine: Addr)
    requires Inv(s) && t < |s.pcs| && ThreadInv(s, t) && s.pcs[t] == PopRead(at, mine)
    ensures Inv(PopReadStep(s, t, at, mine))
  {
    if at.offset + 1 == CHUNK_CAP {
      ReadLastKeepsInv(s, t, at, mine);
    } else {
      PopReadKeepsInv(s, t, at, mine);
    }
  }

  lemma TakeKeepsInv(s: State, t: Tid)
    requires Inv(s) && t < |s.pcs| && ThreadInv(s, t) && Taking(s.pcs[t])
    ensures Inv(TakeNext(s, t))
  {
    match s.pcs[t]
    case PopWaitWrite(at, mine) => PopWaitWriteKeepsInv(s, t, at, mine);
    case PopRead(at, mine) => PopReadStepKeepsInv(s, t, at, mine);
    case PopMark(at, mine, got) => PopMarkKeepsInv(s, t, at, mine, got);
  }

  lemma DestroyKeepsInv(s: State, t: Tid)
    requires Inv(s) && t < |s.pcs| && ThreadInv(s, t) && Destroying(s.pcs[t])
    ensures Inv(DestroyNext(s, t))
  {
    match s.pcs[t]
    case DestroyLoad(at, mine, got, i) => DestroyLoadKeepsInv(s, t, at, mine, got, i);
    case DestroyMark(at, mine, got, i) => DestroyMarkKeepsInv(s, t, at, mine, got, i);
  }

  lemma PopStepKeepsInv(s: State, t: Tid, c: Choice)
    requires Inv(s) && t < |s.pcs| && ThreadInv(s, t) && InPop(s.pcs[t])
    ensures Inv(PopNext(s, t, c))
  {
    if PopSeeking(s.pcs[t]) {
      PopSeekKeepsInv(s, t, c);
    } else if Rolling(s.pcs[t]) {
      RollKeepsInv(s, t);
    } else if Taking(s.pcs[t]) {
      TakeKeepsInv(s, t);
    } else if Destroying(s.pcs[t]) {
      DestroyKeepsInv(s, t);
    } else {
      MeasureKeepsInv(s, t);
    }
  }

  lemma PushStepKeepsInv(s: State, t: Tid, c: Choice)
    requires Inv(s) && t < |s.pcs| && ThreadInv(s, t) && !InPop(s.pcs[t])
    ensures Inv(PushNext(s, t, c))
  {
    if Seeking(s.pcs[t]) {
      SeekKeepsInv(s, t, c);
    } else if RollingPush(s.pcs[t]) {
      PushRollKeepsInv(s, t);
    } else if Filling(s.pcs[t]) {
      FillKeepsInv(s, t);
    } else {
      StartKeepsInv(s, t, c);
    }
  }

  /** Every step of every thread keeps the invariant. */
  lemma InvStep(s: State, t: Tid, c: Choice)
    requires Inv(s) && t < |s.pcs|
    ensures ThreadInv(s, t) && Inv(Next(s, t, c))
  {
    assert ThreadInv(s, t);
    if InPop(s.pcs[t]) {
      PopStepKeepsInv(s, t, c);
    } else {
      PushStepKeepsInv(s, t, c);
    }
  }

  lemma InitInv(threads: nat, bound: nat)
    requires IsBound(bound)
    ensures Inv(Init(threads, bound))
  {
  }

  /** The state after a schedule; entries naming no thread are ignored. */
  ghost function Run(threads: nat, bound: nat, schedule: Schedule): (s: State)
    requires IsBound(bound)
    ensures Inv(s) && |s.pcs| == threads && s.bound == bound
    decreases |schedule|
  {
    if schedule == [] then InitInv(threads, bound); Init(threads, bound)
    else
      var n := |schedule| - 1;
      var s := Run(threads, bound, schedule[..n]);
      if schedule[n].0 >= threads then s
      else
        InvStep(s, schedule[n].0, schedule[n].1);
        Next(s, schedule[n].0, schedule[n].1)
  }

  /** The last step of a run. */
  lemma RunExtends(threads: nat, bound: nat, schedule: Schedule, e: (Tid, Choice))
    requires IsBound(bound)
    ensures e.0 < threads ==> ThreadInv(Run(threads, bound, schedule), e.0)
    ensures var s := Run(threads, bound, schedule);
      Run(threads, bound, schedule + [e]) == if e.0 < threads then Next(s, e.0, e.1) else s
  {
    assert (schedule + [e])[..|schedule + [e]| - 1] == schedule;
    if e.0 < threads {
      assert ThreadInv(Run(threads, bound, schedule), e.0);
    }
  }
}
