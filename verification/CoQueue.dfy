/**
 `CoQueue` (src/lockless_queue.rs) as a transition system: the segmented lock-free queue, one atomic
 access per step, any number of threads pushing, popping and measuring at once.
 */
module CoQueue {
  import opened Wrappers
  import opened Threads
  import opened QueueIndex

  type Addr = nat

  /** What the queue carries. */
  type Value(==)

  /** A slot; the three flags are the bits WRITE, READ and DESTROY of its state word. */
  datatype Slot = Slot(value: Option<Value>, write: bool, read: bool, destroy: bool)

  datatype Chunk = Chunk(next: Option<Addr>, slots: seq<Slot>)

  const EMPTY_SLOT := Slot(None, false, false, false)

  /** `Chunk::new` returns zeroed memory. */
  function ZeroedChunk(): (c: Chunk) {
    Chunk(None, seq(CHUNK_CAP, _ => EMPTY_SLOT))
  }

  /** A claimed index, decoded. */
  datatype Place = Place(block: nat, offset: nat)

  function Ticket(at: Place): (k: nat) { CHUNK_CAP * at.block + at.offset }

  datatype Pc =
    | Idle
    // push; `box` is the spare chunk in `next_chunk`
    | PushLoadIndex(item: Value, box: Option<Addr>)                             // tail := tail.index
    | PushLoadChunk(item: Value, box: Option<Addr>, tail: nat)                  // chunk := tail.chunk
    | PushTest(item: Value, box: Option<Addr>, tail: nat, chunk: Option<Addr>)  // the tests, allocating
    | PushInstall(item: Value, box: Option<Addr>, tail: nat, made: Addr)       // CAS tail.chunk null -> new
    | PushStoreHead(item: Value, box: Option<Addr>, tail: nat, first: Addr)     // head.chunk := new
    | PushClaim(item: Value, box: Option<Addr>, tail: nat, mine: Addr)          // CAS tail.index
    | PushStoreChunk(item: Value, at: Place, mine: Addr, next: Addr, newTail: nat)  // tail.chunk := next
    | PushStoreIndex(item: Value, at: Place, mine: Addr, next: Addr, newTail: nat)  // tail.index := next index
    | PushStoreNext(item: Value, at: Place, mine: Addr, next: Addr)             // chunk.next := next
    | PushWrite(item: Value, at: Place, mine: Addr)                             // slot.value := item
    | PushMark(item: Value, at: Place, mine: Addr)                              // slot.state |= WRITE
    // pop
    | PopLoadIndex                                                              // head := head.index
    | PopLoadChunk(head: nat)                                                   // chunk := head.chunk
    | PopTest(head: nat, chunk: Option<Addr>)                                   // the tests before the CAS
    | PopLoadTail(head: nat, chunk: Option<Addr>)                               // tail := tail.index
    | PopClaim(head: nat, newHead: nat, mine: Addr)                             // CAS head.index
    | PopWaitNext(at: Place, mine: Addr, newHead: nat)                          // wait_next
    | PopPeek(at: Place, mine: Addr, newHead: nat, next: Addr)                  // load next.next
    | PopStoreChunk(at: Place, mine: Addr, next: Addr, nextIndex: nat)          // head.chunk := next
    | PopStoreIndex(at: Place, mine: Addr, nextIndex: nat)                      // head.index := next index
    | PopWaitWrite(at: Place, mine: Addr)                                       // wait_write
    | PopRead(at: Place, mine: Addr)                                            // item := slot.value
    | PopMark(at: Place, mine: Addr, got: Value)                                // slot.state |= READ
    | DestroyLoad(at: Place, mine: Addr, got: Value, i: nat)                    // destroy: load slot i, or release
    | DestroyMark(at: Place, mine: Addr, got: Value, i: nat)                    // destroy: slot i |= DESTROY
    // len
    | LenLoadTail
    | LenLoadHead(tail: nat)
    | LenCheck(tail: nat, head: nat, tailThen: nat)                             // load tail again

  /** Where an address stands: private to a thread, or the j-th chunk of the chain. */
  datatype Owner = Private(tid: Tid) | Linked(position: nat)

  /** Who is in charge of releasing a chunk. */
  datatype Baton = Waiting | Held(tid: Tid, i: nat) | Parked(i: nat) | Released

  /**
   The shared words, the heap, the threads, then history variables, which no step reads:
   `chain` lists the published chunks in order, `owner` and `baton` classify addresses and chunks,
   `pushed` and `pushers` log the successful CASes on the tail index, `poppers` those on the head
   index, `returned` maps the rank of a pop to the value it returned. `tailThen` in `LenCheck` is the
   tail index at the moment the head index was loaded. `bound` is the bound of the loop in `destroy`.
   */
  datatype State = State(
    bound: nat,
    headIndex: nat, headChunk: Option<Addr>,
    tailIndex: nat, tailChunk: Option<Addr>,
    heap: seq<Chunk>, freed: set<Addr>,
    pcs: seq<Pc>,
    chain: seq<Addr>, owner: seq<Owner>, installer: Tid, baton: seq<Baton>,
    pushed: seq<Value>, pushers: seq<Tid>, poppers: seq<Tid>, returned: map<nat, Value>)

  /** What a thread starts when it is idle. */
  datatype Start = StartPush(item: Value) | StartPop | StartLen

  /** The scheduler's choices: what an idle thread starts, and whether a weak CAS fails spuriously. */
  datatype Choice = Choice(start: Start, spurious: bool)

  /** Who steps, in which order and with which choices. */
  type Schedule = seq<(Tid, Choice)>

  function Init(threads: nat, bound: nat): (s: State) {
    State(bound, 0, None, 0, None, [], {}, seq(threads, _ => Idle), [], [], 0, [], [], [], [], map[])
  }

  /** The queue as its users see it: pushed and not yet claimed by a pop. */
  function Contents(s: State): (q: seq<Value>)
    requires |s.poppers| <= |s.pushed|
  {
    s.pushed[|s.poppers|..]
  }

  // ---------- Steps ----------

  /** Neither a push nor a pop takes effect between `s` and `s'`. */
  predicate SameLogs(s: State, s': State) {
    |s'.pcs| == |s.pcs| && s'.bound == s.bound && s'.pushed == s.pushed && s'.poppers == s.poppers
  }

  function Goto(s: State, t: Tid, pc: Pc): (s': State)
    requires t < |s.pcs|
    ensures SameLogs(s, s')
  {
    s.(pcs := s.pcs[t := pc])
  }

  predicate IsSlot(s: State, a: Addr, o: nat) {
    a < |s.heap| && o < |s.heap[a].slots|
  }

  function SlotAt(s: State, a: Addr, o: nat): (slot: Slot)
    requires IsSlot(s, a, o)
  {
    s.heap[a].slots[o]
  }

  function WithSlot(s: State, a: Addr, o: nat, slot: Slot): (s': State)
    requires IsSlot(s, a, o)
    ensures SameLogs(s, s')
  {
    s.(heap := s.heap[a := s.heap[a].(slots := s.heap[a].slots[o := slot])])
  }

  /** A new zeroed chunk, private to `t`, at address |s.heap|. */
  function Alloc(s: State, t: Tid): (s': State)
    ensures SameLogs(s, s')
  {
    s.(heap := s.heap + [ZeroedChunk()], owner := s.owner + [Private(t)])
  }

  /** History: chunk `a` becomes the last chunk of the chain. */
  function Publish(s: State, a: Addr): (s': State)
    requires a < |s.owner|
    ensures SameLogs(s, s')
  {
    s.(chain := s.chain + [a], owner := s.owner[a := Linked(|s.chain|)], baton := s.baton + [Waiting])
  }

  function PushTestStep(s: State, t: Tid, item: Value, box: Option<Addr>, tail: nat, chunk: Option<Addr>): (s': State)
    requires t < |s.pcs|
    ensures SameLogs(s, s')
  {
    if Offset(tail) == CHUNK_CAP then Goto(s, t, PushLoadIndex(item, box))
    else if Offset(tail) + 1 == CHUNK_CAP && box == None then
      Alloc(Goto(s, t, PushTest(item, Some(|s.heap|), tail, chunk)), t)
    else if chunk == None then Alloc(Goto(s, t, PushInstall(item, box, tail, |s.heap|)), t)
    else Goto(s, t, PushClaim(item, box, tail, chunk.value))
  }

  function PushInstallStep(s: State, t: Tid, item: Value, box: Option<Addr>, tail: nat, made: Addr): (s': State)
    requires t < |s.pcs| && made < |s.owner|
    ensures SameLogs(s, s')
  {
    if s.tailChunk == None then
      Publish(Goto(s, t, PushStoreHead(item, box, tail, made)).(tailChunk := Some(made), installer := t), made)
    else Goto(s, t, PushLoadIndex(item, Some(made)))
  }

  function PushStoreHeadStep(s: State, t: Tid, item: Value, box: Option<Addr>, tail: nat, first: Addr): (s': State)
    requires t < |s.pcs|
    ensures SameLogs(s, s')
  {
    Goto(s, t, PushClaim(item, box, tail, first)).(headChunk := Some(first))
  }

  function PushClaimStep(s: State, t: Tid, item: Value, box: Option<Addr>, tail: nat, mine: Addr, c: Choice)
    : (s': State)
    requires t < |s.pcs| && (Offset(tail) + 1 == CHUNK_CAP ==> box.Some?)
    ensures if s.tailIndex == tail && !c.spurious
            then SameLogs(s, s'.(pushed := s.pushed)) && s'.pushed == s.pushed + [item] else SameLogs(s, s')
  {
    if s.tailIndex == tail && !c.spurious then
      var at := Place(Block(tail), Offset(tail));
      var pc := if at.offset + 1 == CHUNK_CAP then PushStoreChunk(item, at, mine, box.value, tail + 2)
                else PushWrite(item, at, mine);
      Goto(s, t, pc).(tailIndex := tail + 2, pushed := s.pushed + [item], pushers := s.pushers + [t])
    else Goto(s, t, PushLoadChunk(item, box, s.tailIndex))
  }

  function PushStoreChunkStep(s: State, t: Tid, item: Value, at: Place, mine: Addr, next: Addr, newTail: nat)
    : (s': State)
    requires t < |s.pcs| && next < |s.owner|
    ensures SameLogs(s, s')
  {
    Publish(Goto(s, t, PushStoreIndex(item, at, mine, next, newTail)).(tailChunk := Some(next)), next)
  }

  function PushStoreIndexStep(s: State, t: Tid, item: Value, at: Place, mine: Addr, next: Addr, newTail: nat)
    : (s': State)
    requires t < |s.pcs|
    ensures SameLogs(s, s')
  {
    Goto(s, t, PushStoreNext(item, at, mine, next)).(tailIndex := newTail + 2)
  }

  function PushStoreNextStep(s: State, t: Tid, item: Value, at: Place, mine: Addr, next: Addr): (s': State)
    requires t < |s.pcs| && mine < |s.heap|
    ensures SameLogs(s, s')
  {
    Goto(s, t, PushWrite(item, at, mine)).(heap := s.heap[mine := s.heap[mine].(next := Some(next))])
  }

  function PopTestStep(s: State, t: Tid, head: nat, chunk: Option<Addr>): (s': State)
    requires t < |s.pcs|
    ensures SameLogs(s, s')
  {
    if Offset(head) == CHUNK_CAP then Goto(s, t, PopLoadIndex)
    else if !HasNext(head) then Goto(s, t, PopLoadTail(head, chunk))
    else if chunk == None then Goto(s, t, PopLoadIndex)
    else Goto(s, t, PopClaim(head, head + 2, chunk.value))
  }

  /** Returns `Err` when head and tail coincide. */
  function PopLoadTailStep(s: State, t: Tid, head: nat, chunk: Option<Addr>): (s': State)
    requires t < |s.pcs|
    ensures SameLogs(s, s')
  {
    if Pos(head) == Pos(s.tailIndex) then Goto(s, t, Idle)
    else if chunk == None then Goto(s, t, PopLoadIndex)
    else
      var newHead := if Block(head) != Block(s.tailIndex) then head + 3 else head + 2;
      Goto(s, t, PopClaim(head, newHead, chunk.value))
  }

  function PopClaimStep(s: State, t: Tid, head: nat, newHead: nat, mine: Addr, c: Choice): (s': State)
    requires t < |s.pcs|
    ensures if s.headIndex == head && !c.spurious
            then SameLogs(s, s'.(poppers := s.poppers)) && s'.poppers == s.poppers + [t] else SameLogs(s, s')
  {
    if s.headIndex == head && !c.spurious then
      var at := Place(Block(head), Offset(head));
      var pc := if at.offset + 1 == CHUNK_CAP then PopWaitNext(at, mine, newHead) else PopWaitWrite(at, mine);
      Goto(s, t, pc).(headIndex := newHead, poppers := s.poppers + [t])
    else Goto(s, t, PopLoadChunk(s.headIndex))
  }

  function PopWaitNextStep(s: State, t: Tid, at: Place, mine: Addr, newHead: nat): (s': State)
    requires t < |s.pcs| && mine < |s.heap|
    ensures SameLogs(s, s')
  {
    match s.heap[mine].next
    case None => s
    case Some(next) => Goto(s, t, PopPeek(at, mine, newHead, next))
  }

  function PopPeekStep(s: State, t: Tid, at: Place, mine: Addr, newHead: nat, next: Addr): (s': State)
    requires t < |s.pcs| && next < |s.heap|
    ensures SameLogs(s, s')
  {
    var clear := newHead - newHead % 2 + 2;
    Goto(s, t, PopStoreChunk(at, mine, next, if s.heap[next].next.Some? then clear + 1 else clear))
  }

  function PopWaitWriteStep(s: State, t: Tid, at: Place, mine: Addr): (s': State)
    requires t < |s.pcs| && IsSlot(s, mine, at.offset)
    ensures SameLogs(s, s')
  {
    if SlotAt(s, mine, at.offset).write then Goto(s, t, PopRead(at, mine)) else s
  }

  /** History: the baton of the chunk of `at` moves. */
  function PassBaton(s: State, at: Place, b: Baton): (s': State)
    requires at.block < |s.baton|
    ensures SameLogs(s, s')
  {
    s.(baton := s.baton[at.block := b])
  }

  function Return(s: State, t: Tid, at: Place, got: Value): (s': State)
    requires t < |s.pcs|
    ensures SameLogs(s, s')
  {
    Goto(s, t, Idle).(returned := s.returned[Ticket(at) := got])
  }

  function PopReadStep(s: State, t: Tid, at: Place, mine: Addr): (s': State)
    requires t < |s.pcs| && IsSlot(s, mine, at.offset) && SlotAt(s, mine, at.offset).value.Some?
    requires at.block < |s.baton|
    ensures SameLogs(s, s')
  {
    var got := SlotAt(s, mine, at.offset).value.value;
    if at.offset + 1 == CHUNK_CAP then
      PassBaton(Goto(s, t, DestroyLoad(at, mine, got, 0)), at, Held(t, 0))
    else Goto(s, t, PopMark(at, mine, got))
  }

  function PopMarkStep(s: State, t: Tid, at: Place, mine: Addr, got: Value): (s': State)
    requires t < |s.pcs| && IsSlot(s, mine, at.offset) && at.block < |s.baton|
    ensures SameLogs(s, s')
  {
    var slot := SlotAt(s, mine, at.offset);
    var s1 := WithSlot(s, mine, at.offset, slot.(read := true));
    if slot.destroy then
      PassBaton(Goto(s1, t, DestroyLoad(at, mine, got, at.offset + 1)), at, Held(t, at.offset + 1))
    else Return(s1, t, at, got)
  }

  function DestroyLoadStep(s: State, t: Tid, at: Place, mine: Addr, got: Value, i: nat): (s': State)
    requires t < |s.pcs| && (i < s.bound ==> IsSlot(s, mine, i)) && at.block < |s.baton|
    ensures SameLogs(s, s')
  {
    if i >= s.bound then PassBaton(Return(s, t, at, got).(freed := s.freed + {mine}), at, Released)
    else if SlotAt(s, mine, i).read then
      PassBaton(Goto(s, t, DestroyLoad(at, mine, got, i + 1)), at, Held(t, i + 1))
    else Goto(s, t, DestroyMark(at, mine, got, i))
  }

  function DestroyMarkStep(s: State, t: Tid, at: Place, mine: Addr, got: Value, i: nat): (s': State)
    requires t < |s.pcs| && IsSlot(s, mine, i) && at.block < |s.baton|
    ensures SameLogs(s, s')
  {
    var slot := SlotAt(s, mine, i);
    var s1 := WithSlot(s, mine, i, slot.(destroy := true));
    if slot.read then PassBaton(Goto(s1, t, DestroyLoad(at, mine, got, i + 1)), at, Held(t, i + 1))
    else PassBaton(Return(s1, t, at, got), at, Parked(i))
  }

  function StartStep(s: State, t: Tid, c: Choice): (s': State)
    requires t < |s.pcs|
    ensures SameLogs(s, s')
  {
    Goto(s, t, match c.start
               case StartPush(item) => PushLoadIndex(item, None)
               case StartPop => PopLoadIndex
               case StartLen => LenLoadTail)
  }
}
