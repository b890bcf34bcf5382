/** `CoQueue::len` and `Drop for CoQueue` (src/lockless_queue.rs). */
module QueueLenDrop {
  import opened Wrappers
  import opened Threads
  import opened QueueIndex
  import opened CoQueue
  import opened QueueInvariant
  import opened QueueRuns
  import opened QueueTheorems

  // ---------- len ----------

  /** The two words are the same sentinel. */
  predicate SameChunkEnd(tail: nat, head: nat) {
    Pos(tail) == Pos(head) && Offset(head) == CHUNK_CAP
  }

  /** What `len` computes from the two words; `None` stands for a subtraction that underflows. */
  function LenResult(tailWord: nat, headWord: nat): (n: Option<nat>)
    requires Pos(headWord) <= Pos(tailWord)
  {
    CountMonotone(headWord, tailWord);
    if SameChunkEnd(tailWord, headWord) then None else Some(Count(tailWord) - Count(headWord))
  }

  /**
   The rotation and the fix-ups of `len`. `None` stands for the subtraction that underflows: a panic
   in a debug build and a huge number in a release build. It happens exactly when head and tail stand
   on the same sentinel, although the queue is then empty.
   */
  method LenOf(tailWord: nat, headWord: nat) returns (n: Option<nat>)
    requires Pos(headWord) <= Pos(tailWord)
    ensures n == LenResult(tailWord, headWord) && (n == None <==> SameChunkEnd(tailWord, headWord))
  {
    var tail, head := tailWord - tailWord % 2, headWord - headWord % 2;
    var lap := head / 2 / LAP;
    tail := tail - lap * LAP * 2;
    head := head - lap * LAP * 2;
    tail := tail / 2;
    head := head / 2;
    assert head == Offset(headWord) && tail == Pos(tailWord) - LAP * Block(headWord);
    if head == CHUNK_CAP {
      head := 0;
      if tail < LAP {
        return None;
      }
      tail := tail - LAP;
    }
    if tail == CHUNK_CAP {
      tail := tail + 1;
    }
    return Some(tail - head - tail / LAP);
  }

  /** The length of the queue, in terms of the two words. */
  lemma LengthIsCount(s: State)
    requires HeapInv(s) && TailInv(s) && HeadInv(s)
    ensures |s.poppers| <= |s.pushed| && |Contents(s)| == Count(s.tailIndex) - Count(s.headIndex)
  {
    HeadBehindTail(s);
  }

  /** At the moment `len` reads the head index, the two words `tailThen` and `head` give the length. */
  lemma LenSnapshot(threads: nat, bound: nat, schedule: Schedule, t: Tid, c: Choice)
    requires IsBound(bound) && t < threads
    requires Run(threads, bound, schedule).pcs[t].LenLoadHead?
    ensures ThreadInv(Run(threads, bound, schedule), t)
    ensures var s := Run(threads, bound, schedule); var pc := Next(s, t, c).pcs[t];
      && pc.LenCheck? && pc.tail == s.pcs[t].tail
      && |s.poppers| <= |s.pushed| && |Contents(s)| == Count(pc.tailThen) - Count(pc.head)
  {
    assert ThreadInv(Run(threads, bound, schedule), t);
    LengthIsCount(Run(threads, bound, schedule));
  }

  /** When the two reads of the tail agree, the tail had that same value at the moment the head was read. */
  lemma TailUnchanged(s: State, t: Tid)
    requires Inv(s) && t < |s.pcs| && s.pcs[t].LenCheck? && s.tailIndex == s.pcs[t].tail
    ensures s.pcs[t].tailThen == s.pcs[t].tail && Pos(s.pcs[t].head) <= Pos(s.pcs[t].tail)
  {
    assert ThreadInv(s, t);
  }

  lemma SeekKeepsOthers(s: State, u: Tid, c: Choice, t: Tid)
    requires u < |s.pcs| && Seeking(s.pcs[u]) && SeekReady(s, s.pcs[u]) && t < |s.pcs| && t != u
    ensures SeekNext(s, u, c).pcs[t] == s.pcs[t]
  {
  }

  lemma PushKeepsOthers(s: State, u: Tid, c: Choice, t: Tid)
    requires HeapInv(s) && u < |s.pcs| && PushThreadInv(s, u, s.pcs[u]) && t < |s.pcs| && t != u
    ensures PushNext(s, u, c).pcs[t] == s.pcs[t]
  {
    if Seeking(s.pcs[u]) {
      SeekKeepsOthers(s, u, c, t);
    }
  }

  lemma TakeKeepsOthers(s: State, u: Tid, t: Tid)
    requires HeapInv(s) && u < |s.pcs| && PopThreadInv(s, u, s.pcs[u]) && Taking(s.pcs[u]) && t < |s.pcs| && t != u
    ensures TakeNext(s, u).pcs[t] == s.pcs[t]
  {
  }

  lemma DestroyKeepsOthers(s: State, u: Tid, t: Tid)
    requires HeapInv(s) && u < |s.pcs| && PopThreadInv(s, u, s.pcs[u]) && Destroying(s.pcs[u]) && t < |s.pcs| && t != u
    ensures DestroyNext(s, u).pcs[t] == s.pcs[t]
  {
  }

  lemma PopKeepsOthers(s: State, u: Tid, c: Choice, t: Tid)
    requires HeapInv(s) && u < |s.pcs| && PopThreadInv(s, u, s.pcs[u]) && InPop(s.pcs[u]) && t < |s.pcs| && t != u
    ensures PopNext(s, u, c).pcs[t] == s.pcs[t]
  {
    if Taking(s.pcs[u]) {
      TakeKeepsOthers(s, u, t);
    } else if Destroying(s.pcs[u]) {
      DestroyKeepsOthers(s, u, t);
    }
  }

  /** Thread `t` makes no step. */
  predicate Rests(t: Tid, schedule: Schedule) {
    forall i :: 0 <= i < |schedule| ==> schedule[i].0 != t
  }

  lemma StepKeepsOthers(s: State, u: Tid, c: Choice, t: Tid)
    requires HeapInv(s) && u < |s.pcs| && ThreadInv(s, u) && t < |s.pcs| && t != u
    ensures Next(s, u, c).pcs[t] == s.pcs[t]
  {
    if InPop(s.pcs[u]) {
      PopKeepsOthers(s, u, c, t);
    } else {
      PushKeepsOthers(s, u, c, t);
    }
  }

  lemma OneStepKeepsOthers(threads: nat, bound: nat, schedule: Schedule, e: (Tid, Choice), t: Tid)
    requires IsBound(bound) && t < threads && e.0 != t
    ensures Run(threads, bound, schedule + [e]).pcs[t] == Run(threads, bound, schedule).pcs[t]
  {
    RunExtends(threads, bound, schedule, e);
    if e.0 < threads {
      StepKeepsOthers(Run(threads, bound, schedule), e.0, e.1, t);
    }
  }

  /** What only the steps of `t` change, a run without them does not change. */
  lemma {:induction false} OnlyOwnSteps<T>(f: Schedule -> T, t: Tid,
                                           before: Schedule, after: Schedule)
    requires Rests(t, after) && forall q, e: (Tid, Choice) :: e.0 != t ==> f(q + [e]) == f(q)
    ensures f(before + after) == f(before)
    decreases |after|
  {
    if after == [] {
      assert before + after == before;
    } else {
      var n := |after| - 1;
      OnlyOwnSteps(f, t, before, after[..n]);
      assert before + after == before + after[..n] + [after[n]];
    }
  }

  /** A thread that makes no step stays where it is. */
  lemma RestingStays(threads: nat, bound: nat, before: Schedule, after: Schedule, t: Tid)
    requires IsBound(bound) && t < threads && Rests(t, after)
    ensures Run(threads, bound, before + after).pcs[t] == Run(threads, bound, before).pcs[t]
  {
    var f: Schedule -> Pc := q => Run(threads, bound, q).pcs[t];
    forall q, e: (Tid, Choice) | e.0 != t ensures f(q + [e]) == f(q) {
      OneStepKeepsOthers(threads, bound, q, e, t);
    }
    OnlyOwnSteps(f, t, before, after);
  }

  lemma HeadReadStep(s: State, t: Tid, c: Choice)
    requires HeapInv(s) && t < |s.pcs| && ThreadInv(s, t) && s.pcs[t].LenLoadHead?
    ensures Next(s, t, c).pcs[t] == LenCheck(s.pcs[t].tail, s.headIndex, s.tailIndex)
  {
  }

  /** What the step that reads the head remembers. */
  lemma HeadRead(threads: nat, bound: nat, before: Schedule, t: Tid, c: Choice)
    requires IsBound(bound) && t < threads && Run(threads, bound, before).pcs[t].LenLoadHead?
    ensures var s := Run(threads, bound, before);
      Run(threads, bound, before + [(t, c)]).pcs[t] == LenCheck(s.pcs[t].tail, s.headIndex, s.tailIndex)
  {
    RunExtends(threads, bound, before, (t, c));
    HeadReadStep(Run(threads, bound, before), t, c);
  }

  /**
   What `len` returns. Take any run in which thread `t` reads the head after `before` and then checks the
   tail after any steps `after` of other threads: if the check succeeds, the result is the length that the
   queue had at the moment the head was read, except that the subtraction underflows, from an empty queue,
   if both words are the same sentinel.
   */
  lemma LenIsExact(threads: nat, bound: nat, before: Schedule, t: Tid, c: Choice, after: Schedule)
    requires IsBound(bound) && t < threads && Run(threads, bound, before).pcs[t].LenLoadHead? && Rests(t, after)
    ensures var s, s' := Run(threads, bound, before), Run(threads, bound, before + [(t, c)] + after);
      var pc := s'.pcs[t];
      && pc.LenCheck? && |s.poppers| <= |s.pushed|
      && (s'.tailIndex == pc.tail ==>
            && Pos(pc.head) <= Pos(pc.tail)
            && LenResult(pc.tail, pc.head) == (if SameChunkEnd(pc.tail, pc.head) then None else Some(|Contents(s)|))
            && (SameChunkEnd(pc.tail, pc.head) ==> Contents(s) == []))
  {
    HeadRead(threads, bound, before, t, c);
    RestingStays(threads, bound, before + [(t, c)], after, t);
    var s' := Run(threads, bound, before + [(t, c)] + after);
    if s'.tailIndex == s'.pcs[t].tail {
      TailUnchanged(s', t);
    }
    LengthIsCount(Run(threads, bound, before));
  }

  // ---------- Drop ----------

  /** With every thread idle, no index stands on a sentinel and every chunk is linked to the next. */
  lemma QuiescentShape(s: State)
    requires Inv(s) && Quiescent(s)
    ensures Offset(s.headIndex) < CHUNK_CAP && Offset(s.tailIndex) < CHUNK_CAP
    ensures if s.chain == [] then s.headIndex == s.tailIndex == 0 && s.headChunk == None
            else |s.chain| == Block(s.tailIndex) + 1 && s.headChunk == Some(s.chain[Block(s.headIndex)])
  {
  }

  lemma QuiescentLink(s: State, j: nat)
    requires Inv(s) && Quiescent(s) && j + 1 < |s.chain|
    ensures s.heap[s.chain[j]].next == Some(s.chain[j + 1])
  {
    assert LinkInv(s, j);
  }

  lemma QuiescentSlot(s: State, j: nat, o: nat)
    requires Inv(s) && Quiescent(s) && j < |s.chain| && o < CHUNK_CAP && Ticket(Place(j, o)) < |s.pushed|
    ensures SlotAt(s, s.chain[j], o).value == Some(s.pushed[Ticket(Place(j, o))])
  {
    assert SlotInv(s, j, o);
  }

  /** The memory `drop` walks over: chunks linked in order, holding the values from rank `first` on. */
  ghost predicate Walkable(heap: seq<Chunk>, chain: seq<Addr>, pushed: seq<Value>, first: nat) {
    && (forall j :: 0 <= j < |chain| ==> chain[j] < |heap| && |heap[chain[j]].slots| == CHUNK_CAP)
    && (forall j :: 0 <= j && j + 1 < |chain| ==> LinkedTo(heap, chain[j], chain[j + 1]))
    && (forall j, o :: 0 <= j < |chain| && 0 <= o < CHUNK_CAP && first <= Ticket(Place(j, o)) < |pushed| ==>
          Holds(heap, chain[j], o, pushed[Ticket(Place(j, o))]))
  }

  predicate LinkedTo(heap: seq<Chunk>, a: Addr, next: Addr) {
    a < |heap| && heap[a].next == Some(next)
  }

  predicate Holds(heap: seq<Chunk>, a: Addr, o: nat, v: Value) {
    a < |heap| && o < |heap[a].slots| && heap[a].slots[o].value == Some(v)
  }

  /** The decoded form of an index word without HAS_NEXT. */
  predicate Decodes(raw: nat, at: Place) {
    at.offset < LAP && raw == 2 * (LAP * at.block + at.offset)
  }

  lemma DecodeIsExact(raw: nat, at: Place)
    requires Decodes(raw, at)
    ensures Block(raw) == at.block && Offset(raw) == at.offset && Count(raw) == Ticket(at)
  {
  }

  /** `drop` stands before the slot or sentinel `at`, with `chunk` in hand; it ends before `end`. */
  predicate DropPoint(at: Place, end: Place, chunk: Option<Addr>, chain: seq<Addr>) {
    && at.offset < LAP && end.offset < CHUNK_CAP
    && (at.block < end.block || (at.block == end.block && at.offset <= end.offset))
    && if chain == [] then at == end == Place(0, 0) && chunk == None
       else |chain| == end.block + 1 && chunk == Some(chain[at.block])
  }

  /** The words tell where `drop` stands: it has arrived exactly when they are equal. */
  lemma DropArrives(at: Place, end: Place, chunk: Option<Addr>, chain: seq<Addr>, head: nat, tail: nat)
    requires DropPoint(at, end, chunk, chain) && Decodes(head, at) && Decodes(tail, end)
    ensures head <= tail && (head == tail <==> at == end) && Ticket(at) <= Ticket(end)
  {
    DecodeIsExact(head, at);
    DecodeIsExact(tail, end);
  }

  lemma SliceGrows<T>(q: seq<T>, lo: nat, hi: nat)
    requires lo <= hi < |q|
    ensures q[lo..hi + 1] == q[lo..hi] + [q[hi]]
  {
  }

  /** The slot before which `drop` stands holds the value of its rank. */
  lemma AtSlot(heap: seq<Chunk>, chain: seq<Addr>, pushed: seq<Value>, first: nat,
               at: Place, end: Place, chunk: Option<Addr>, head: nat, tail: nat)
    requires Decodes(head, at) && Decodes(tail, end) && DropPoint(at, end, chunk, chain)
    requires at != end && at.offset < CHUNK_CAP
    requires Walkable(heap, chain, pushed, first) && first <= Ticket(at) && |pushed| == Ticket(end)
    ensures Ticket(at) < |pushed| && chunk.Some? && Holds(heap, chunk.value, at.offset, pushed[Ticket(at)])
    ensures DropPoint(at.(offset := at.offset + 1), end, chunk, chain)
    ensures Decodes(head + 2, at.(offset := at.offset + 1))
    ensures Ticket(at.(offset := at.offset + 1)) == Ticket(at) + 1 && head + 2 <= tail
  {
    assert Place(at.block, at.offset) == at;
    assert Holds(heap, chain[at.block], at.offset, pushed[Ticket(Place(at.block, at.offset))]);
  }

  /** At a sentinel `drop` goes on to the next chunk of the chain. */
  lemma AtSentinel(heap: seq<Chunk>, chain: seq<Addr>, pushed: seq<Value>, first: nat,
                   at: Place, end: Place, chunk: Option<Addr>, head: nat, tail: nat)
    requires Decodes(head, at) && Decodes(tail, end) && DropPoint(at, end, chunk, chain)
    requires at.offset == CHUNK_CAP && Walkable(heap, chain, pushed, first)
    ensures at.block + 1 < |chain| && chunk == Some(chain[at.block]) && chain[at.block] < |heap|
    ensures DropPoint(Place(at.block + 1, 0), end, heap[chunk.value].next, chain)
    ensures Decodes(head + 2, Place(at.block + 1, 0))
    ensures Ticket(Place(at.block + 1, 0)) == Ticket(at) && head + 2 <= tail
  {
    assert LinkedTo(heap, chain[at.block], chain[at.block + 1]);
  }

  /** Between `start` and `at` every value has been dropped and every chunk left behind has been released. */
  ghost predicate Dropped(start: Place, at: Place, chain: seq<Addr>, pushed: seq<Value>,
                          dropped: seq<Value>, released: seq<Addr>)
  {
    && start.block <= at.block <= |chain| && Ticket(start) <= Ticket(at) <= |pushed|
    && dropped == pushed[Ticket(start)..Ticket(at)] && released == chain[start.block..at.block]
  }

  lemma DropSlot(start: Place, at: Place, chain: seq<Addr>, pushed: seq<Value>,
                 dropped: seq<Value>, released: seq<Addr>)
    requires Dropped(start, at, chain, pushed, dropped, released) && Ticket(at) < |pushed|
    ensures Dropped(start, at.(offset := at.offset + 1), chain, pushed, dropped + [pushed[Ticket(at)]], released)
  {
    SliceGrows(pushed, Ticket(start), Ticket(at));
  }

  lemma DropChunk(start: Place, at: Place, chain: seq<Addr>, pushed: seq<Value>,
                  dropped: seq<Value>, released: seq<Addr>)
    requires Dropped(start, at, chain, pushed, dropped, released) && at.offset == CHUNK_CAP && at.block < |chain|
    ensures Dropped(start, Place(at.block + 1, 0), chain, pushed, dropped, released + [chain[at.block]])
  {
    SliceGrows(chain, start.block, at.block);
  }

  /**
   The loop of `drop`, from index `headWord` to index `tailWord`: each value between them is dropped
   once, in order, and each chunk from the head chunk to the tail chunk is released once, in order.
   */
  method Walk(heap: seq<Chunk>, headWord: nat, tailWord: nat, headChunk: Option<Addr>,
              ghost start: Place, ghost end: Place, ghost chain: seq<Addr>, ghost pushed: seq<Value>)
    returns (dropped: seq<Value>, released: seq<Addr>)
    requires Decodes(headWord, start) && Decodes(tailWord, end) && DropPoint(start, end, headChunk, chain)
    requires Walkable(heap, chain, pushed, Ticket(start)) && |pushed| == Ticket(end)
    ensures Ticket(start) <= |pushed| && dropped == pushed[Ticket(start)..]
    ensures start.block <= |chain| && released == chain[start.block..]
  {
    var head, tail, chunk := headWord, tailWord, headChunk;
    dropped, released := [], [];
    ghost var at := start;
    DropArrives(at, end, chunk, chain, head, tail);
    while head != tail
      invariant head <= tail && (head == tail <==> at == end) && Decodes(head, at) && DropPoint(at, end, chunk, chain)
      invariant Dropped(start, at, chain, pushed, dropped, released)
      decreases tail - head
    {
      var offset := Offset(head);
      DecodeIsExact(head, at);
      if offset < CHUNK_CAP {
        AtSlot(heap, chain, pushed, Ticket(start), at, end, chunk, head, tail);
        DropSlot(start, at, chain, pushed, dropped, released);
        dropped := dropped + [heap[chunk.value].slots[offset].value.value];
        at := at.(offset := at.offset + 1);
      } else {
        AtSentinel(heap, chain, pushed, Ticket(start), at, end, chunk, head, tail);
        DropChunk(start, at, chain, pushed, dropped, released);
        released := released + [chunk.value];
        chunk, at := heap[chunk.value].next, Place(at.block + 1, 0);
      }
      head := head + 2;
      DropArrives(at, end, chunk, chain, head, tail);
    }
    if chunk.Some? {
      released := released + [chunk.value];
    }
  }

  lemma QuiescentIsWalkable(s: State)
    requires Inv(s) && Quiescent(s)
    ensures Walkable(s.heap, s.chain, s.pushed, |s.poppers|)
  {
    forall j | 0 <= j && j + 1 < |s.chain| ensures LinkedTo(s.heap, s.chain[j], s.chain[j + 1]) {
      QuiescentLink(s, j);
    }
    forall j, o | 0 <= j < |s.chain| && 0 <= o < CHUNK_CAP && |s.poppers| <= Ticket(Place(j, o)) < |s.pushed|
      ensures Holds(s.heap, s.chain[j], o, s.pushed[Ticket(Place(j, o))])
    {
      QuiescentSlot(s, j, o);
    }
  }

  lemma QuiescentStart(s: State, start: Place, end: Place)
    requires Inv(s) && Quiescent(s)
    requires start == Place(Block(s.headIndex), Offset(s.headIndex))
    requires end == Place(Block(s.tailIndex), Offset(s.tailIndex))
    ensures Decodes(s.headIndex - s.headIndex % 2, start) && Decodes(s.tailIndex, end)
    ensures DropPoint(start, end, s.headChunk, s.chain)
    ensures Ticket(start) == |s.poppers| <= |s.pushed| == Ticket(end)
  {
    QuiescentShape(s);
    LengthIsCount(s);
    CountMonotone(s.headIndex, s.tailIndex);
  }

  /** The chunks from the head chunk on are different ones, and none of them has been released. */
  lemma RemainingIsLive(s: State, rest: seq<Addr>)
    requires Inv(s) && Quiescent(s) && Block(s.headIndex) <= |s.chain| && rest == s.chain[Block(s.headIndex)..]
    ensures forall i, j :: 0 <= i < j < |rest| ==> rest[i] != rest[j]
    ensures forall a :: a in rest ==> a !in s.freed
  {
    var first := Block(s.headIndex);
    forall i, j | 0 <= i < j < |rest| ensures rest[i] != rest[j] {
      assert s.owner[s.chain[first + i]] == Linked(first + i) && s.owner[s.chain[first + j]] == Linked(first + j);
    }
    forall i | 0 <= i < |rest| ensures rest[i] !in s.freed {
      BeforeDrop(s, first + i);
    }
  }

  /** `drop` on a queue nobody uses any more drops exactly its contents and releases its chunks. */
  method Drop(s: State) returns (dropped: seq<Value>, released: seq<Addr>)
    requires Inv(s) && Quiescent(s)
    ensures |s.poppers| <= |s.pushed| && dropped == Contents(s)
    ensures Block(s.headIndex) <= |s.chain| && released == s.chain[Block(s.headIndex)..]
    ensures forall i, j :: 0 <= i < j < |released| ==> released[i] != released[j]
    ensures forall a :: a in released ==> a !in s.freed
  {
    var head, tail := s.headIndex - s.headIndex % 2, s.tailIndex - s.tailIndex % 2;
    ghost var start := Place(Block(s.headIndex), Offset(s.headIndex));
    ghost var end := Place(Block(s.tailIndex), Offset(s.tailIndex));
    QuiescentStart(s, start, end);
    QuiescentIsWalkable(s);
    dropped, released := Walk(s.heap, head, tail, s.headChunk, start, end, s.chain, s.pushed);
    RemainingIsLive(s, released);
  }

  /**
   What `drop` leaves behind: with the shorter bound in `destroy` the chunks before the head chunk have
   all been released before; with the bound as written none of them has, and they leak.
   */
  lemma BeforeDrop(s: State, j: nat)
    requires Inv(s) && Quiescent(s) && j < |s.chain|
    ensures s.chain[j] in s.freed <==> j < Block(s.headIndex) && s.bound == CHUNK_CAP - 1
  {
    QuiescentShape(s);
    if j < Block(s.headIndex) {
      DrainedChunks(s, j);
    } else {
      UnpoppedChunkIsLive(s, j);
    }
  }
}
