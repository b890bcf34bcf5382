/** The inductive invariant of `CoQueue`, and its step function. */
module QueueInvariant {
  import opened Wrappers
  import opened Threads
  import opened QueueIndex
  import opened CoQueue

  // ---------- What a program point claims ----------

  /** The place a pusher has claimed and not yet marked WRITE. */
  function PushPlace(pc: Pc): (at: Option<Place>) {
    if pc.PushStoreChunk? || pc.PushStoreIndex? || pc.PushStoreNext? || pc.PushWrite? || pc.PushMark?
    then Some(pc.at) else None
  }

  /** The place a popper has claimed and not yet left: marked READ or, at the last slot, read. */
  function PopPlace(pc: Pc): (at: Option<Place>) {
    if pc.PopWaitNext? || pc.PopPeek? || pc.PopStoreChunk? || pc.PopStoreIndex? || pc.PopWaitWrite? ||
       pc.PopRead? || pc.PopMark?
    then Some(pc.at) else None
  }

  /** The place whose value a pop in progress will return. */
  function WorkPlace(pc: Pc): (at: Option<Place>) {
    if pc.DestroyLoad? || pc.DestroyMark? then Some(pc.at) else PopPlace(pc)
  }

  // ---------- Global part ----------

  /** The bounds of the loop in `destroy`: as written, and one less. */
  predicate IsBound(bound: nat) {
    bound == CHUNK_CAP || bound == CHUNK_CAP - 1
  }

  predicate HeapInv(s: State) {
    && IsBound(s.bound)
    && |s.owner| == |s.heap|
    && |s.baton| == |s.chain|
    && (forall a :: 0 <= a < |s.heap| ==> |s.heap[a].slots| == CHUNK_CAP)
    && (forall j :: 0 <= j < |s.chain| ==> s.chain[j] < |s.heap| && s.owner[s.chain[j]] == Linked(j))
    && (forall a :: a in s.freed ==>
          a < |s.heap| && s.owner[a].Linked? && s.owner[a].position < |s.chain| &&
          s.chain[s.owner[a].position] == a)
  }

  /** The pusher that rolls the tail over to the next chunk is the last one that claimed a slot. */
  predicate TailInv(s: State) {
    && s.tailIndex % 2 == 0
    && |s.pushed| == |s.pushers| == Count(s.tailIndex)
    && (s.chain == [] ==> s.tailIndex == 0)
    && s.tailChunk == (if s.chain == [] then None else Some(s.chain[|s.chain| - 1]))
    && (Offset(s.tailIndex) < CHUNK_CAP && s.chain != [] ==> |s.chain| == Block(s.tailIndex) + 1)
    && (Offset(s.tailIndex) == CHUNK_CAP ==>
          && s.pushers != [] && s.pushers[|s.pushers| - 1] < |s.pcs|
          && var pc := s.pcs[s.pushers[|s.pushers| - 1]];
             (pc.PushStoreChunk? && |s.chain| == Block(s.tailIndex) + 1) ||
             (pc.PushStoreIndex? && |s.chain| == Block(s.tailIndex) + 2))
  }

  predicate HeadInv(s: State) {
    && |s.poppers| == Count(s.headIndex)
    && Pos(s.headIndex) <= Pos(s.tailIndex)
    && (HasNext(s.headIndex) ==> Block(s.headIndex) < Block(s.tailIndex))
    && (s.headChunk == None ==>
          && s.headIndex == 0
          && (s.chain != [] ==> s.installer < |s.pcs| && s.pcs[s.installer].PushStoreHead?))
    && (s.headChunk.Some? ==> Block(s.headIndex) < |s.chain|)
    && (s.headChunk.Some? && Offset(s.headIndex) < CHUNK_CAP ==> s.headChunk == Some(s.chain[Block(s.headIndex)]))
    && (Offset(s.headIndex) == CHUNK_CAP ==>
          && s.poppers != [] && s.poppers[|s.poppers| - 1] < |s.pcs|
          && var pc := s.pcs[s.poppers[|s.poppers| - 1]];
             pc.PopWaitNext? || pc.PopPeek? || pc.PopStoreChunk? || pc.PopStoreIndex?)
  }

  /** The link out of the j-th chunk. */
  predicate LinkInv(s: State, j: nat)
    requires HeapInv(s) && j < |s.chain|
  {
    var next := s.heap[s.chain[j]].next;
    && (next.Some? ==> j + 1 < |s.chain| && next == Some(s.chain[j + 1]) && j < Block(s.tailIndex))
    && (next.None? && j + 1 < |s.chain| ==>
          && Ticket(Place(j, CHUNK_CAP - 1)) < |s.pushers| && s.pushers[Ticket(Place(j, CHUNK_CAP - 1))] < |s.pcs|
          && var pc := s.pcs[s.pushers[Ticket(Place(j, CHUNK_CAP - 1))]];
             (pc.PushStoreIndex? || pc.PushStoreNext?) && pc.at == Place(j, CHUNK_CAP - 1))
  }

  /** Slot `o` of the j-th chunk and the threads that claimed it. */
  predicate SlotInv(s: State, j: nat, o: nat)
    requires HeapInv(s) && j < |s.chain| && o < CHUNK_CAP
  {
    var k := Ticket(Place(j, o));
    var slot := SlotAt(s, s.chain[j], o);
    && (slot.write ==> k < |s.pushed| && slot.value == Some(s.pushed[k]))
    && (k < |s.pushers| && !slot.write ==>
          s.pushers[k] < |s.pcs| && PushPlace(s.pcs[s.pushers[k]]) == Some(Place(j, o)))
    && (slot.read ==> k < |s.poppers| && slot.write && o + 1 != CHUNK_CAP)
    && (k < |s.poppers| && o + 1 != CHUNK_CAP && !slot.read ==>
          s.poppers[k] < |s.pcs| && PopPlace(s.pcs[s.poppers[k]]) == Some(Place(j, o)))
    && (k < |s.poppers| && k !in s.returned ==>
          s.poppers[k] < |s.pcs| && WorkPlace(s.pcs[s.poppers[k]]) == Some(Place(j, o)))
  }

  predicate AllReadBelow(slots: seq<Slot>, i: nat) {
    forall o :: 0 <= o < i && o < |slots| ==> slots[o].read
  }

  /** Every slot marked DESTROY, except possibly `keep`, is also marked READ. */
  predicate DestroyedAreRead(slots: seq<Slot>, keep: nat) {
    forall o :: 0 <= o < |slots| && o != keep && slots[o].destroy ==> slots[o].read
  }

  predicate NoneDestroyed(slots: seq<Slot>) {
    forall o :: 0 <= o < |slots| ==> !slots[o].destroy
  }

  /** The reclamation baton of the j-th chunk. */
  predicate BatonInv(s: State, j: nat)
    requires HeapInv(s) && j < |s.chain|
  {
    var k := Ticket(Place(j, CHUNK_CAP - 1));
    var slots := s.heap[s.chain[j]].slots;
    && (s.baton[j].Released? <==> s.chain[j] in s.freed)
    && (!s.baton[j].Waiting? ==> k < |s.poppers| && slots[CHUNK_CAP - 1].write)
    && match s.baton[j]
       case Waiting =>
         && NoneDestroyed(slots)
         && (k < |s.poppers| ==>
               s.poppers[k] < |s.pcs| && PopPlace(s.pcs[s.poppers[k]]) == Some(Place(j, CHUNK_CAP - 1)))
       case Held(u, i) =>
         && i <= s.bound && AllReadBelow(slots, i) && DestroyedAreRead(slots, CHUNK_CAP)
         && u < |s.pcs| && (s.pcs[u].DestroyLoad? || s.pcs[u].DestroyMark?)
         && s.pcs[u].at.block == j && s.pcs[u].i == i
       case Parked(i) =>
         && i < s.bound && AllReadBelow(slots, i) && DestroyedAreRead(slots, i)
         && slots[i].destroy && !slots[i].read
       case Released =>
         AllReadBelow(slots, s.bound) && DestroyedAreRead(slots, CHUNK_CAP)
  }

  /** Each pop that has returned, returned the value of its own rank. */
  predicate ReturnInv(s: State) {
    forall k :: k in s.returned ==> k < |s.poppers| && k < |s.pushed| && s.returned[k] == s.pushed[k]
  }

  // ---------- Per thread ----------

  /** `a` is a zeroed chunk that only `t` can reach. */
  predicate OwnChunk(s: State, t: Tid, a: Addr)
    requires HeapInv(s)
  {
    a < |s.heap| && s.owner[a] == Private(t) && s.heap[a] == ZeroedChunk()
  }

  predicate OwnBox(s: State, t: Tid, box: Option<Addr>)
    requires HeapInv(s)
  {
    box.Some? ==> OwnChunk(s, t, box.value)
  }

  /** If the index read is still current, the pointer read is the chunk of that index. */
  predicate TailMatches(s: State, tail: nat, mine: Addr) {
    tail == s.tailIndex && Offset(tail) < CHUNK_CAP ==> Block(tail) < |s.chain| && mine == s.chain[Block(tail)]
  }

  predicate HeadMatches(s: State, head: nat, mine: Addr) {
    head == s.headIndex && Offset(head) < CHUNK_CAP ==>
      s.headChunk.Some? && Block(head) < |s.chain| && mine == s.chain[Block(head)]
  }

  predicate SeenTail(s: State, tail: nat) {
    tail % 2 == 0 && tail <= s.tailIndex
  }

  /** `t` is the pusher of rank Ticket(at) and its slot is not marked yet. */
  predicate PushClaimed(s: State, t: Tid, at: Place, mine: Addr, item: Value)
    requires HeapInv(s)
  {
    && at.offset < CHUNK_CAP && at.block < |s.chain| && mine == s.chain[at.block]
    && Ticket(at) < |s.pushers| && Ticket(at) < |s.pushed|
    && s.pushers[Ticket(at)] == t && s.pushed[Ticket(at)] == item
    && !SlotAt(s, mine, at.offset).write
  }

  predicate PopClaimed(s: State, t: Tid, at: Place, mine: Addr)
    requires HeapInv(s)
  {
    && at.offset < CHUNK_CAP && at.block < |s.chain| && mine == s.chain[at.block]
    && Ticket(at) < |s.poppers| && s.poppers[Ticket(at)] == t && Ticket(at) !in s.returned
  }

  predicate PopUnread(s: State, t: Tid, at: Place, mine: Addr)
    requires HeapInv(s)
  {
    && PopClaimed(s, t, at, mine)
    && !SlotAt(s, mine, at.offset).read
    && (at.offset + 1 == CHUNK_CAP ==> s.baton[at.block] == Waiting)
  }

  /** The head index stands on the sentinel of the chunk of `at`, and `t` is to move it on. */
  predicate RollingHead(s: State, t: Tid, at: Place, mine: Addr)
    requires HeapInv(s)
  {
    && PopUnread(s, t, at, mine)
    && at.offset + 1 == CHUNK_CAP
    && Block(s.headIndex) == at.block && Offset(s.headIndex) == CHUNK_CAP
  }

  predicate RollingTail(s: State, at: Place, newTail: nat) {
    && at.offset + 1 == CHUNK_CAP && newTail == s.tailIndex
    && Block(newTail) == at.block && Offset(newTail) == CHUNK_CAP
  }

  predicate GotOwn(s: State, at: Place, got: Value) {
    Ticket(at) < |s.pushed| && got == s.pushed[Ticket(at)]
  }

  /** The word that `PopStoreIndex` will store. */
  predicate NextIndexOk(s: State, at: Place, nextIndex: nat) {
    && Block(nextIndex) == at.block + 1 && Offset(nextIndex) == 0
    && at.block + 1 < |s.chain| && at.block + 1 <= Block(s.tailIndex)
    && (HasNext(nextIndex) ==> at.block + 1 < Block(s.tailIndex))
  }

  predicate PushThreadInv(s: State, t: Tid, pc: Pc)
    requires HeapInv(s)
  {
    match pc
    case PushLoadIndex(_, box) => OwnBox(s, t, box)
    case PushLoadChunk(_, box, tail) => OwnBox(s, t, box) && SeenTail(s, tail)
    case PushTest(_, box, tail, chunk) =>
      OwnBox(s, t, box) && SeenTail(s, tail) && (chunk.Some? ==> TailMatches(s, tail, chunk.value))
    case PushInstall(_, box, tail, made) =>
      OwnBox(s, t, box) && SeenTail(s, tail) && OwnChunk(s, t, made) && box != Some(made) && Offset(tail) < CHUNK_CAP &&
      (Offset(tail) + 1 == CHUNK_CAP ==> box.Some?)
    case PushStoreHead(_, box, tail, first) =>
      && OwnBox(s, t, box) && tail == 0
      && s.chain != [] && first == s.chain[0] && s.headChunk == None && s.installer == t
    case PushClaim(_, box, tail, mine) =>
      && OwnBox(s, t, box) && SeenTail(s, tail) && TailMatches(s, tail, mine)
      && Offset(tail) < CHUNK_CAP && (Offset(tail) + 1 == CHUNK_CAP ==> box.Some?)
    case PushStoreChunk(item, at, mine, next, newTail) =>
      && PushClaimed(s, t, at, mine, item) && RollingTail(s, at, newTail)
      && |s.chain| == at.block + 1 && OwnChunk(s, t, next)
    case PushStoreIndex(item, at, mine, next, newTail) =>
      && PushClaimed(s, t, at, mine, item) && RollingTail(s, at, newTail)
      && |s.chain| == at.block + 2 && next == s.chain[at.block + 1] && s.heap[mine].next == None
    case PushStoreNext(item, at, mine, next) =>
      && PushClaimed(s, t, at, mine, item) && at.offset + 1 == CHUNK_CAP
      && at.block + 1 < |s.chain| && next == s.chain[at.block + 1] && s.heap[mine].next == None
      && at.block < Block(s.tailIndex)
    case PushWrite(item, at, mine) => PushClaimed(s, t, at, mine, item)
    case PushMark(item, at, mine) =>
      PushClaimed(s, t, at, mine, item) && SlotAt(s, mine, at.offset).value == Some(item)
    case _ => true
  }

  predicate PopThreadInv(s: State, t: Tid, pc: Pc)
    requires HeapInv(s)
  {
    match pc
    case PopLoadChunk(head) => head <= s.headIndex
    case PopTest(head, chunk) => head <= s.headIndex && (chunk.Some? ==> HeadMatches(s, head, chunk.value))
    case PopLoadTail(head, chunk) =>
      && head <= s.headIndex && (chunk.Some? ==> HeadMatches(s, head, chunk.value))
      && Offset(head) < CHUNK_CAP && !HasNext(head)
    case PopClaim(head, newHead, mine) =>
      && head <= s.headIndex && HeadMatches(s, head, mine) && Offset(head) < CHUNK_CAP
      && Pos(newHead) == Pos(head) + 1
      && (head == s.headIndex ==> Pos(head) < Pos(s.tailIndex))
      && (head == s.headIndex && HasNext(newHead) ==> Block(head) < Block(s.tailIndex))
    case PopWaitNext(at, mine, newHead) =>
      RollingHead(s, t, at, mine) && newHead == s.headIndex && s.headChunk == Some(mine)
    case PopPeek(at, mine, newHead, next) =>
      && RollingHead(s, t, at, mine) && newHead == s.headIndex && s.headChunk == Some(mine)
      && at.block + 1 < |s.chain| && next == s.chain[at.block + 1] && at.block < Block(s.tailIndex)
    case PopStoreChunk(at, mine, next, nextIndex) =>
      && RollingHead(s, t, at, mine) && s.headChunk == Some(mine)
      && NextIndexOk(s, at, nextIndex) && next == s.chain[at.block + 1]
    case PopStoreIndex(at, mine, nextIndex) =>
      && RollingHead(s, t, at, mine) && NextIndexOk(s, at, nextIndex)
      && s.headChunk == Some(s.chain[at.block + 1])
    case PopWaitWrite(at, mine) => PopUnread(s, t, at, mine)
    case PopRead(at, mine) =>
      PopUnread(s, t, at, mine) && SlotAt(s, mine, at.offset).write && SlotAt(s, mine, at.offset).value.Some?
    case PopMark(at, mine, got) =>
      PopUnread(s, t, at, mine) && SlotAt(s, mine, at.offset).write && GotOwn(s, at, got) && at.offset + 1 != CHUNK_CAP
    case DestroyLoad(at, mine, got, i) =>
      PopClaimed(s, t, at, mine) && GotOwn(s, at, got) && s.baton[at.block] == Held(t, i)
    case DestroyMark(at, mine, got, i) =>
      PopClaimed(s, t, at, mine) && GotOwn(s, at, got) && s.baton[at.block] == Held(t, i) && i < s.bound
    case LenLoadHead(tail) => SeenTail(s, tail)
    case LenCheck(tail, head, tailThen) =>
      SeenTail(s, tail) && SeenTail(s, tailThen) && tail <= tailThen && Pos(head) <= Pos(tailThen)
    case _ => true
  }

  predicate ThreadInv(s: State, t: Tid)
    requires HeapInv(s) && t < |s.pcs|
  {
    PushThreadInv(s, t, s.pcs[t]) && PopThreadInv(s, t, s.pcs[t])
  }

  ghost predicate ChunksInv(s: State)
    requires HeapInv(s)
  {
    && (forall j :: 0 <= j < |s.chain| ==> LinkInv(s, j))
    && (forall j :: 0 <= j < |s.chain| ==> BatonInv(s, j))
    && (forall j, o :: 0 <= j < |s.chain| && 0 <= o < CHUNK_CAP ==> SlotInv(s, j, o))
  }

  ghost predicate Inv(s: State) {
    && HeapInv(s) && TailInv(s) && HeadInv(s) && ReturnInv(s) && ChunksInv(s)
    && (forall t :: 0 <= t < |s.pcs| ==> ThreadInv(s, t))
  }

  // ---------- One step ----------

  /** This step is a successful CAS on the tail index. */
  predicate Enqueues(s: State, t: Tid, c: Choice)
    requires t < |s.pcs|
  {
    s.pcs[t].PushClaim? && s.tailIndex == s.pcs[t].tail && !c.spurious
  }

  /** This step is a successful CAS on the head index. */
  predicate Dequeues(s: State, t: Tid, c: Choice)
    requires t < |s.pcs|
  {
    s.pcs[t].PopClaim? && s.headIndex == s.pcs[t].head && !c.spurious
  }

  /** Looking for a slot to push into. */
  predicate Seeking(pc: Pc) {
    pc.PushLoadIndex? || pc.PushLoadChunk? || pc.PushTest? || pc.PushInstall? || pc.PushStoreHead? || pc.PushClaim?
  }

  /** A push that allocates a chunk has it, and one that is to fill the last slot has a spare one. */
  predicate SeekReady(s: State, pc: Pc) {
    && (pc.PushInstall? ==> pc.made < |s.owner|)
    && (pc.PushClaim? && Offset(pc.tail) + 1 == CHUNK_CAP ==> pc.box.Some?)
  }

  function SeekNext(s: State, t: Tid, c: Choice): (s': State)
    requires t < |s.pcs| && Seeking(s.pcs[t]) && SeekReady(s, s.pcs[t])
    ensures |s'.pcs| == |s.pcs| && s'.bound == s.bound && s'.poppers == s.poppers
    ensures s'.pushed == if Enqueues(s, t, c) then s.pushed + [s.pcs[t].item] else s.pushed
  {
    match s.pcs[t]
    case PushLoadIndex(item, box) => Goto(s, t, PushLoadChunk(item, box, s.tailIndex))
    case PushLoadChunk(item, box, tail) => Goto(s, t, PushTest(item, box, tail, s.tailChunk))
    case PushTest(item, box, tail, chunk) => PushTestStep(s, t, item, box, tail, chunk)
    case PushInstall(item, box, tail, made) => PushInstallStep(s, t, item, box, tail, made)
    case PushStoreHead(item, box, tail, first) => PushStoreHeadStep(s, t, item, box, tail, first)
    case PushClaim(item, box, tail, mine) => PushClaimStep(s, t, item, box, tail, mine, c)
  }

  /** Rolling the tail over to the next chunk. */
  predicate RollingPush(pc: Pc) {
    pc.PushStoreChunk? || pc.PushStoreIndex?
  }

  function PushRollNext(s: State, t: Tid): (s': State)
    requires HeapInv(s) && t < |s.pcs| && PushThreadInv(s, t, s.pcs[t]) && RollingPush(s.pcs[t])
    ensures SameLogs(s, s')
  {
    match s.pcs[t]
    case PushStoreChunk(item, at, mine, next, newTail) => PushStoreChunkStep(s, t, item, at, mine, next, newTail)
    case PushStoreIndex(item, at, mine, next, newTail) => PushStoreIndexStep(s, t, item, at, mine, next, newTail)
  }

  /** Linking the next chunk, then filling the claimed slot. */
  predicate Filling(pc: Pc) {
    pc.PushStoreNext? || pc.PushWrite? || pc.PushMark?
  }

  function FillNext(s: State, t: Tid): (s': State)
    requires HeapInv(s) && t < |s.pcs| && PushThreadInv(s, t, s.pcs[t]) && Filling(s.pcs[t])
    ensures SameLogs(s, s')
  {
    match s.pcs[t]
    case PushStoreNext(item, at, mine, next) => PushStoreNextStep(s, t, item, at, mine, next)
    case PushWrite(item, at, mine) =>
      WithSlot(Goto(s, t, PushMark(item, at, mine)), mine, at.offset, SlotAt(s, mine, at.offset).(value := Some(item)))
    case PushMark(item, at, mine) =>
      WithSlot(Goto(s, t, Idle), mine, at.offset, SlotAt(s, mine, at.offset).(write := true))
  }

  /** A step of a thread inside `push`, or idle. The preconditions make every dereference safe. */
  function PushNext(s: State, t: Tid, c: Choice): (s': State)
    requires HeapInv(s) && t < |s.pcs| && PushThreadInv(s, t, s.pcs[t])
    ensures |s'.pcs| == |s.pcs| && s'.bound == s.bound && s'.poppers == s.poppers
    ensures s'.pushed == if Enqueues(s, t, c) then s.pushed + [s.pcs[t].item] else s.pushed
  {
    if Seeking(s.pcs[t]) then SeekNext(s, t, c)
    else if RollingPush(s.pcs[t]) then PushRollNext(s, t)
    else if Filling(s.pcs[t]) then FillNext(s, t)
    else StartStep(s, t, c)
  }

  /** Rolling the head over to the next chunk. */
  predicate Rolling(pc: Pc) {
    pc.PopWaitNext? || pc.PopPeek? || pc.PopStoreChunk? || pc.PopStoreIndex?
  }

  function RollNext(s: State, t: Tid): (s': State)
    requires HeapInv(s) && t < |s.pcs| && PopThreadInv(s, t, s.pcs[t]) && Rolling(s.pcs[t])
    ensures SameLogs(s, s')
  {
    match s.pcs[t]
    case PopWaitNext(at, mine, newHead) => PopWaitNextStep(s, t, at, mine, newHead)
    case PopPeek(at, mine, newHead, next) => PopPeekStep(s, t, at, mine, newHead, next)
    case PopStoreChunk(at, mine, next, nextIndex) =>
      Goto(s, t, PopStoreIndex(at, mine, nextIndex)).(headChunk := Some(next))
    case PopStoreIndex(at, mine, nextIndex) => Goto(s, t, PopWaitWrite(at, mine)).(headIndex := nextIndex)
  }

  /** Taking the value out of the claimed slot. */
  predicate Taking(pc: Pc) {
    pc.PopWaitWrite? || pc.PopRead? || pc.PopMark?
  }

  function TakeNext(s: State, t: Tid): (s': State)
    requires HeapInv(s) && t < |s.pcs| && PopThreadInv(s, t, s.pcs[t]) && Taking(s.pcs[t])
    ensures SameLogs(s, s')
  {
    match s.pcs[t]
    case PopWaitWrite(at, mine) => PopWaitWriteStep(s, t, at, mine)
    case PopRead(at, mine) => PopReadStep(s, t, at, mine)
    case PopMark(at, mine, got) => PopMarkStep(s, t, at, mine, got)
  }

  /** Inside `destroy`. */
  predicate Destroying(pc: Pc) {
    pc.DestroyLoad? || pc.DestroyMark?
  }

  function DestroyNext(s: State, t: Tid): (s': State)
    requires HeapInv(s) && t < |s.pcs| && PopThreadInv(s, t, s.pcs[t]) && Destroying(s.pcs[t])
    ensures SameLogs(s, s')
  {
    match s.pcs[t]
    case DestroyLoad(at, mine, got, i) => DestroyLoadStep(s, t, at, mine, got, i)
    case DestroyMark(at, mine, got, i) => DestroyMarkStep(s, t, at, mine, got, i)
  }

  /** Inside `len`. */
  predicate Measuring(pc: Pc) {
    pc.LenLoadTail? || pc.LenLoadHead? || pc.LenCheck?
  }

  function LenNext(s: State, t: Tid): (s': State)
    requires t < |s.pcs| && Measuring(s.pcs[t])
    ensures SameLogs(s, s')
  {
    match s.pcs[t]
    case LenLoadTail => Goto(s, t, LenLoadHead(s.tailIndex))
    case LenLoadHead(tail) => Goto(s, t, LenCheck(tail, s.headIndex, s.tailIndex))
    case LenCheck(tail, head, _) => Goto(s, t, if s.tailIndex == tail then Idle else LenLoadTail)
  }

  /** Looking for a slot to pop. */
  predicate PopSeeking(pc: Pc) {
    pc.PopLoadIndex? || pc.PopLoadChunk? || pc.PopTest? || pc.PopLoadTail? || pc.PopClaim?
  }

  function PopSeekNext(s: State, t: Tid, c: Choice): (s': State)
    requires t < |s.pcs| && PopSeeking(s.pcs[t])
    ensures |s'.pcs| == |s.pcs| && s'.bound == s.bound && s'.pushed == s.pushed
    ensures s'.poppers == if Dequeues(s, t, c) then s.poppers + [t] else s.poppers
  {
    match s.pcs[t]
    case PopLoadIndex => Goto(s, t, PopLoadChunk(s.headIndex))
    case PopLoadChunk(head) => Goto(s, t, PopTest(head, s.headChunk))
    case PopTest(head, chunk) => PopTestStep(s, t, head, chunk)
    case PopLoadTail(head, chunk) => PopLoadTailStep(s, t, head, chunk)
    case PopClaim(head, newHead, mine) => PopClaimStep(s, t, head, newHead, mine, c)
  }

  predicate InPop(pc: Pc) {
    PopSeeking(pc) || Rolling(pc) || Taking(pc) || Destroying(pc) || Measuring(pc)
  }

  /** A step of a thread inside `pop` or `len`. */
  function PopNext(s: State, t: Tid, c: Choice): (s': State)
    requires HeapInv(s) && t < |s.pcs| && PopThreadInv(s, t, s.pcs[t]) && InPop(s.pcs[t])
    ensures |s'.pcs| == |s.pcs| && s'.bound == s.bound && s'.pushed == s.pushed
    ensures s'.poppers == if Dequeues(s, t, c) then s.poppers + [t] else s.poppers
  {
    if PopSeeking(s.pcs[t]) then PopSeekNext(s, t, c)
    else if Rolling(s.pcs[t]) then RollNext(s, t)
    else if Taking(s.pcs[t]) then TakeNext(s, t)
    else if Destroying(s.pcs[t]) then DestroyNext(s, t)
    else LenNext(s, t)
  }

  /** One step of thread `t`. */
  function Next(s: State, t: Tid, c: Choice): (s': State)
    requires HeapInv(s) && t < |s.pcs| && ThreadInv(s, t)
    ensures |s'.pcs| == |s.pcs| && s'.bound == s.bound
  {
    if InPop(s.pcs[t]) then PopNext(s, t, c) else PushNext(s, t, c)
  }
}
