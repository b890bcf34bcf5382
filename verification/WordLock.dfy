/**
 `WordLock` (src/mutex/deadlock.rs) as a transition system. One word packs a lock bit, a queue-lock
 bit and the head of an intrusive list of waiting threads; `prev` and `queue_tail` are filled in
 lazily by the thread that holds the queue lock, while other threads keep prepending.
 One access to the word or one visit of a list node per step, any number of threads.
 */
module WordLock {
  import opened Wrappers
  import opened Threads

  /** `state`, split into its three fields. */
  datatype Word = Word(locked: bool, queueLocked: bool, head: Option<Tid>)

  /** The `ThreadData` on a thread's stack; a pointer to it is the thread's id. */
  datatype Node = Node(queueTail: Option<Tid>, prev: Option<Tid>, next: Option<Tid>, parked: bool)

  datatype Pc =
    | Idle
    | LockFast                                         // lock: CAS 0 -> LOCKED_BIT
    | SlowLoad                                         // lock_slow: load
    | LockCas(seen: Word)                              // lock_slow: CAS seen -> seen | LOCKED_BIT
    | Prepare(seen: Word)                              // lock_slow: fill in our own node
    | EnqueueCas(seen: Word)                           // lock_slow: CAS seen -> seen.with_queue_head(us)
    | Asleep                                           // lock_slow: wait until our parker flag is clear
    | Owning
    | Release                                          // unlock: fetch_sub(LOCKED_BIT)
    | UnlockLoad                                       // unlock_slow: load
    | QueueLockCas(seen: Word)                         // unlock_slow: CAS seen -> seen | QUEUE_LOCKED_BIT
    | Scan(seen: Word, current: Tid)                   // unlock_slow: one round of the inner loop
    | SetTail(seen: Word, tail: Tid)                   // unlock_slow: queue_head.queue_tail := tail
    | GiveUpCas(seen: Word)                            // unlock_slow: locked, CAS away the queue lock
    | ReadPrev(seen: Word, tail: Tid)                  // unlock_slow: new_tail := tail.prev
    | EmptyCas(seen: Word, tail: Tid)                  // unlock_slow: CAS seen -> seen & LOCKED_BIT
    | SetNewTail(seen: Word, tail: Tid, newTail: Tid)  // unlock_slow: queue_head.queue_tail := new_tail
    | DropQueueLock(tail: Tid)                         // unlock_slow: fetch_and(!QUEUE_LOCKED_BIT)
    | Wake(tail: Tid)                                  // unlock_slow: clear the parker flag of tail

  /**
   History variables, which no step reads: `fifo` is the queue in the order of enqueueing (so the
   word's head is its last element), `processed` the position of the first processed node, `top` and
   `pos` the positions of the head and the current node of a scan under way, `waker[t]` the thread
   that has removed t and not yet woken it.
   */
  datatype State = State(
    word: Word,
    nodes: seq<Node>,
    pcs: seq<Pc>,
    owner: Option<Tid>,
    queueOwner: Option<Tid>,
    fifo: seq<Tid>,
    processed: nat,
    top: nat,
    pos: nat,
    waker: seq<Option<Tid>>,
    enqueued: seq<Tid>,
    removed: seq<Tid>)

  /** Whether a weak CAS fails spuriously and whether `SpinWait::spin` still spins. */
  datatype Choice = Choice(spurious: bool, spin: bool)

  /** Who steps, in which order and with which choices. */
  type Schedule = seq<(Tid, Choice)>

  const FRESH_NODE := Node(None, None, None, false)

  function Init(threads: nat): (s: State) {
    State(Word(false, false, None), seq(threads, _ => FRESH_NODE), seq(threads, _ => Idle),
          None, None, [], 0, 0, 0, seq(threads, _ => None), [], [])
  }

  predicate Sized(s: State, t: Tid) {
    t < |s.pcs| == |s.nodes| == |s.waker|
  }

  /** A step of `t` moves no other thread and puts none of them to sleep. */
  predicate Frame(s: State, s': State, t: Tid)
    requires Sized(s, t)
  {
    && |s'.waker| == |s'.nodes| == |s'.pcs| == |s.pcs|
    && forall u :: 0 <= u < |s.pcs| && u != t ==>
         s'.pcs[u] == s.pcs[u] && (s'.nodes[u].parked ==> s.nodes[u].parked)
  }

  function Goto(s: State, t: Tid, pc: Pc): (s': State)
    requires Sized(s, t)
    ensures Frame(s, s', t)
  {
    s.(pcs := s.pcs[t := pc])
  }

  /** The tests at the top of the loop in `lock_slow`, on the value just seen. */
  function Decide(seen: Word, spin: bool): (pc: Pc) {
    if !seen.locked then LockCas(seen)
    else if seen.head == None && spin then SlowLoad
    else Prepare(seen)
  }

  /** The test at the top of the first loop in `unlock_slow`. */
  function DecideUnlock(seen: Word): (pc: Pc) {
    if seen.queueLocked || seen.head == None then Idle else QueueLockCas(seen)
  }

  function LockFastStep(s: State, t: Tid, c: Choice): (s': State)
    requires Sized(s, t)
    ensures Frame(s, s', t)
  {
    if s.word == Word(false, false, None) && !c.spurious then
      Goto(s, t, Owning).(word := s.word.(locked := true), owner := Some(t))
    else Goto(s, t, SlowLoad)
  }

  function LockCasStep(s: State, t: Tid, seen: Word, c: Choice): (s': State)
    requires Sized(s, t)
    ensures Frame(s, s', t)
  {
    if s.word == seen && !c.spurious then
      Goto(s, t, Owning).(word := seen.(locked := true), owner := Some(t))
    else Goto(s, t, Decide(s.word, c.spin))
  }

  /** The node that `lock_slow` publishes. */
  function PreparedNode(seen: Word, t: Tid): (n: Node) {
    if seen.head == None then Node(Some(t), None, None, true) else Node(None, None, seen.head, true)
  }

  function PrepareStep(s: State, t: Tid, seen: Word): (s': State)
    requires Sized(s, t)
    ensures Frame(s, s', t)
  {
    Goto(s, t, EnqueueCas(seen)).(nodes := s.nodes[t := PreparedNode(seen, t)])
  }

  function EnqueueCasStep(s: State, t: Tid, seen: Word, c: Choice): (s': State)
    requires Sized(s, t)
    ensures Frame(s, s', t)
  {
    if s.word == seen && !c.spurious then
      Goto(s, t, Asleep).(
        word := seen.(head := Some(t)),
        fifo := s.fifo + [t],
        enqueued := s.enqueued + [t])
    else Goto(s, t, Decide(s.word, c.spin))
  }

  function AsleepStep(s: State, t: Tid): (s': State)
    requires Sized(s, t)
    ensures Frame(s, s', t)
  {
    if s.nodes[t].parked then s else Goto(s, t, SlowLoad)
  }

  function ReleaseStep(s: State, t: Tid): (s': State)
    requires Sized(s, t)
    ensures Frame(s, s', t)
  {
    Goto(s, t, if s.word.queueLocked || s.word.head == None then Idle else UnlockLoad).(
      word := s.word.(locked := false), owner := None)
  }

  function QueueLockCasStep(s: State, t: Tid, seen: Word, c: Choice): (s': State)
    requires Sized(s, t) && seen.head.Some?
    ensures Frame(s, s', t)
  {
    if s.word == seen && !c.spurious then
      // `seen` keeps its clear queue-lock bit, as in the source.
      Goto(s, t, Scan(seen, seen.head.value)).(
        word := seen.(queueLocked := true), queueOwner := Some(t),
        top := Last(s.fifo), pos := Last(s.fifo))
    else Goto(s, t, DecideUnlock(s.word))
  }

  function Last(q: seq<Tid>): (i: nat) {
    if q == [] then 0 else |q| - 1
  }

  function Rescan(s: State, t: Tid): (s': State)
    requires Sized(s, t) && s.word.head.Some?
    ensures Frame(s, s', t)
  {
    Goto(s, t, Scan(s.word, s.word.head.value)).(top := Last(s.fifo), pos := Last(s.fifo))
  }

  function ScanStep(s: State, t: Tid, seen: Word, current: Tid): (s': State)
    requires Sized(s, t) && current < |s.pcs|
    requires s.nodes[current].queueTail.None? ==>
               s.nodes[current].next.Some? && s.nodes[current].next.value < |s.pcs|
    ensures Frame(s, s', t)
  {
    var node := s.nodes[current];
    if node.queueTail.Some? then Goto(s, t, SetTail(seen, node.queueTail.value))
    else
      var next := node.next.value;
      Goto(s, t, Scan(seen, next)).(
        nodes := s.nodes[next := s.nodes[next].(prev := Some(current))],
        pos := if s.pos > 0 then s.pos - 1 else 0)
  }

  function SetTailStep(s: State, t: Tid, seen: Word, tail: Tid): (s': State)
    requires Sized(s, t) && seen.head.Some? && seen.head.value < |s.pcs|
    ensures Frame(s, s', t)
  {
    var head := seen.head.value;
    Goto(s, t, if seen.locked then GiveUpCas(seen) else ReadPrev(seen, tail)).(
      nodes := s.nodes[head := s.nodes[head].(queueTail := Some(tail))],
      processed := s.top, pos := s.top)
  }

  function GiveUpCasStep(s: State, t: Tid, seen: Word, c: Choice): (s': State)
    requires Sized(s, t) && s.word.head.Some?
    ensures Frame(s, s', t)
  {
    if s.word == seen && !c.spurious then
      Goto(s, t, Idle).(word := seen.(queueLocked := false), queueOwner := None)
    else Rescan(s, t)
  }

  function ReadPrevStep(s: State, t: Tid, seen: Word, tail: Tid): (s': State)
    requires Sized(s, t) && tail < |s.pcs|
    ensures Frame(s, s', t)
  {
    match s.nodes[tail].prev
    case None => Goto(s, t, EmptyCas(seen, tail))
    case Some(newTail) => Goto(s, t, SetNewTail(seen, tail, newTail))
  }

  /** What removing the oldest waiter does to the history variables. */
  function RemoveOldest(s: State, t: Tid, tail: Tid): (s': State)
    requires Sized(s, t) && tail < |s.pcs|
    ensures Frame(s, s', t)
  {
    s.(fifo := if s.fifo == [] then [] else s.fifo[1..],
       processed := if s.processed > 0 then s.processed - 1 else 0,
       top := 0, pos := 0,
       removed := s.removed + [tail],
       waker := s.waker[tail := Some(t)])
  }

  function EmptyCasStep(s: State, t: Tid, seen: Word, tail: Tid, c: Choice): (s': State)
    requires Sized(s, t) && tail < |s.pcs|
    ensures Frame(s, s', t)
  {
    if s.word == seen && !c.spurious then
      RemoveOldest(Goto(s, t, Wake(tail)).(word := Word(seen.locked, false, None), queueOwner := None), t, tail)
    else if s.word.head == None then Goto(s, t, EmptyCas(s.word, tail))
    else Rescan(s, t)
  }

  function SetNewTailStep(s: State, t: Tid, seen: Word, tail: Tid, newTail: Tid): (s': State)
    requires Sized(s, t) && tail < |s.pcs| && seen.head.Some? && seen.head.value < |s.pcs|
    ensures Frame(s, s', t)
  {
    var head := seen.head.value;
    RemoveOldest(
      Goto(s, t, DropQueueLock(tail)).(
        nodes := s.nodes[head := s.nodes[head].(queueTail := Some(newTail))]), t, tail)
  }

  function DropQueueLockStep(s: State, t: Tid, tail: Tid): (s': State)
    requires Sized(s, t)
    ensures Frame(s, s', t)
  {
    Goto(s, t, Wake(tail)).(word := s.word.(queueLocked := false), queueOwner := None)
  }

  function WakeStep(s: State, t: Tid, tail: Tid): (s': State)
    requires Sized(s, t) && tail < |s.pcs|
    ensures Frame(s, s', t)
  {
    Goto(s, t, Idle).(
      nodes := s.nodes[tail := s.nodes[tail].(parked := false)], waker := s.waker[tail := None])
  }

  // ---------- The inductive invariant ----------

  /** Node at position `i` of the queue: links, lazily filled `prev`, and `queue_tail`. */
  predicate NodeInv(s: State, i: nat)
    requires i < |s.fifo| && s.fifo[i] < |s.nodes| && (i > 0 ==> s.fifo[i - 1] < |s.nodes|)
  {
    var node := s.nodes[s.fifo[i]];
    && (i > 0 ==> node.next == Some(s.fifo[i - 1]))
    && (node.prev == if i + 1 < |s.fifo| && (i < s.processed || s.pos <= i < s.top)
                     then Some(s.fifo[i + 1]) else None)
    && (i == s.processed ==> node.queueTail == Some(s.fifo[0]))
    && (i > s.processed ==> node.queueTail == None)
  }

  ghost predicate ListInv(s: State) {
    && Distinct(s.fifo)
    && (forall i :: 0 <= i < |s.fifo| ==> s.fifo[i] < |s.nodes|)
    && (s.fifo != [] ==> s.processed < |s.fifo| && s.top < |s.fifo| && s.pos <= s.top)
    && (s.fifo == [] ==> s.processed == s.top == s.pos == 0)
    && (forall i :: 0 <= i < |s.fifo| ==> NodeInv(s, i))
    && s.word.head == (if s.fifo == [] then None else Some(s.fifo[|s.fifo| - 1]))
    && s.enqueued == s.removed + s.fifo
  }

  predicate Owns(pc: Pc) {
    pc.Owning? || pc.Release?
  }

  predicate OwnsQueue(pc: Pc) {
    pc.Scan? || pc.SetTail? || pc.GiveUpCas? || pc.ReadPrev? || pc.EmptyCas? || pc.SetNewTail? || pc.DropQueueLock?
  }

  /** The queue has been scanned from `seen.head`, whose position is `processed`. */
  predicate Scanned(s: State, seen: Word) {
    && s.fifo != [] && s.pos == s.top == s.processed < |s.fifo|
    && seen.head == Some(s.fifo[s.processed])
  }

  /** `u` has removed `t` from the queue and is about to wake it. */
  predicate WakesNow(s: State, u: Tid, t: Tid) {
    && |s.waker| == |s.nodes| == |s.pcs| && t < |s.pcs|
    && s.waker[t] == Some(u) && s.pcs[t].Asleep? && s.nodes[t].parked && t !in s.fifo
  }

  predicate ThreadInv(s: State, t: Tid)
    requires |s.waker| == |s.nodes| == |s.pcs| && t < |s.pcs|
  {
    && (Owns(s.pcs[t]) <==> s.owner == Some(t))
    && (OwnsQueue(s.pcs[t]) <==> s.queueOwner == Some(t))
    && (t in s.fifo ==> s.pcs[t].Asleep? && s.nodes[t].parked)
    && match s.pcs[t]
       case LockCas(seen) => !seen.locked
       case Prepare(seen) => seen.locked
       case EnqueueCas(seen) => seen.locked && s.nodes[t] == PreparedNode(seen, t)
       case Asleep =>
         t !in s.fifo && s.nodes[t].parked ==>
           && s.waker[t].Some? && s.waker[t].value < |s.pcs|
           && (s.pcs[s.waker[t].value] == Wake(t) || s.pcs[s.waker[t].value] == DropQueueLock(t))
       case QueueLockCas(seen) => !seen.queueLocked && seen.head.Some?
       case Scan(seen, current) =>
         && s.fifo != [] && s.processed <= s.pos <= s.top < |s.fifo|
         && seen.head == Some(s.fifo[s.top]) && current == s.fifo[s.pos]
       case SetTail(seen, tail) =>
         && s.fifo != [] && s.processed == s.pos <= s.top < |s.fifo|
         && seen.head == Some(s.fifo[s.top]) && tail == s.fifo[0]
       case GiveUpCas(seen) => Scanned(s, seen) && seen.locked
       case ReadPrev(seen, tail) => Scanned(s, seen) && !seen.locked && tail == s.fifo[0]
       case EmptyCas(seen, tail) => Scanned(s, seen) && tail == s.fifo[0] && s.processed == 0
       case SetNewTail(seen, tail, newTail) =>
         Scanned(s, seen) && tail == s.fifo[0] && s.processed > 0 && newTail == s.fifo[1]
       case DropQueueLock(tail) => WakesNow(s, t, tail) && s.fifo != [] && s.pos == s.top
       case Wake(tail) => WakesNow(s, t, tail)
       case _ => true
  }

  ghost predicate Inv(s: State) {
    && |s.waker| == |s.nodes| == |s.pcs|
    && ListInv(s)
    && (s.word.locked <==> s.owner.Some?)
    && (s.owner.Some? ==> s.owner.value < |s.pcs|)
    && (s.word.queueLocked <==> s.queueOwner.Some?)
    && (s.queueOwner.Some? ==> s.queueOwner.value < |s.pcs|)
    && (s.queueOwner == None ==> s.pos == s.top)
    && (forall t :: 0 <= t < |s.pcs| ==> ThreadInv(s, t))
  }

  /** One step of thread `t`. The preconditions of the step functions make every dereference safe. */
  ghost function Next(s: State, t: Tid, c: Choice): (s': State)
    requires Inv(s) && t < |s.pcs|
    ensures Frame(s, s', t)
  {
    assert ThreadInv(s, t);
    match s.pcs[t]
    case Idle => Goto(s, t, LockFast)
    case LockFast => LockFastStep(s, t, c)
    case SlowLoad => Goto(s, t, Decide(s.word, c.spin))
    case LockCas(seen) => LockCasStep(s, t, seen, c)
    case Prepare(seen) => PrepareStep(s, t, seen)
    case EnqueueCas(seen) => EnqueueCasStep(s, t, seen, c)
    case Asleep => AsleepStep(s, t)
    case Owning => Goto(s, t, Release)
    case Release => ReleaseStep(s, t)
    case UnlockLoad => Goto(s, t, DecideUnlock(s.word))
    case QueueLockCas(seen) => QueueLockCasStep(s, t, seen, c)
    case Scan(seen, current) => assert NodeInv(s, s.pos); ScanStep(s, t, seen, current)
    case SetTail(seen, tail) => SetTailStep(s, t, seen, tail)
    case GiveUpCas(seen) => GiveUpCasStep(s, t, seen, c)
    case ReadPrev(seen, tail) => ReadPrevStep(s, t, seen, tail)
    case EmptyCas(seen, tail) => EmptyCasStep(s, t, seen, tail, c)
    case SetNewTail(seen, tail, newTail) => SetNewTailStep(s, t, seen, tail, newTail)
    case DropQueueLock(tail) => DropQueueLockStep(s, t, tail)
    case Wake(tail) => WakeStep(s, t, tail)
  }

  // ---------- The list, one update at a time ----------

  /** Everything the list invariant reads, except the nodes and the positions, is unchanged. */
  predicate SameQueue(s: State, s': State) {
    && s'.fifo == s.fifo && |s'.nodes| == |s.nodes| && s'.word.head == s.word.head
    && s'.enqueued == s.enqueued && s'.removed == s.removed
  }

  lemma SameNodesKeepList(s: State, s': State)
    requires ListInv(s) && SameQueue(s, s') && s'.processed == s.processed
    requires forall t :: t in s.fifo && t < |s.nodes| ==> s'.nodes[t] == s.nodes[t]
    requires (s'.pos == s.pos && s'.top == s.top) || (s.pos == s.top && s'.pos == s'.top < |s.fifo|)
    ensures ListInv(s')
  {
    forall i | 0 <= i < |s.fifo| ensures NodeInv(s', i) {
      assert NodeInv(s, i);
    }
  }

  lemma AppendKeepsList(s: State, s': State, t: Tid)
    requires ListInv(s) && t < |s.nodes| && t !in s.fifo
    requires s.nodes[t] == PreparedNode(s.word, t) && s'.nodes == s.nodes
    requires s'.fifo == s.fifo + [t] && s'.enqueued == s.enqueued + [t] && s'.removed == s.removed
    requires s'.word.head == Some(t)
    requires s'.processed == s.processed && s'.top == s.top && s'.pos == s.pos
    ensures ListInv(s')
  {
    forall i | 0 <= i < |s'.fifo| ensures NodeInv(s', i) {
      if i < |s.fifo| {
        assert NodeInv(s, i);
      }
    }
  }

  /** One round of the scan links the next node back to the current one. */
  lemma ScanKeepsList(s: State, s': State)
    requires ListInv(s) && SameQueue(s, s') && s.fifo != []
    requires s.processed < s.pos && s'.pos == s.pos - 1 && s'.top == s.top && s'.processed == s.processed
    requires s'.nodes == s.nodes[s.fifo[s.pos - 1] := s.nodes[s.fifo[s.pos - 1]].(prev := Some(s.fifo[s.pos]))]
    ensures ListInv(s')
  {
    forall i | 0 <= i < |s.fifo| ensures NodeInv(s', i) {
      assert NodeInv(s, i);
    }
  }

  /** A finished scan makes the scanned head the first processed node. */
  lemma SetTailKeepsList(s: State, s': State)
    requires ListInv(s) && SameQueue(s, s') && s.fifo != []
    requires s.processed == s.pos && s'.processed == s'.pos == s'.top == s.top
    requires s'.nodes == s.nodes[s.fifo[s.top] := s.nodes[s.fifo[s.top]].(queueTail := Some(s.fifo[0]))]
    ensures ListInv(s')
  {
    forall i | 0 <= i < |s.fifo| ensures NodeInv(s', i) {
      assert NodeInv(s, i);
    }
  }

  /** Removing the oldest of several waiters. */
  lemma RemoveKeepsList(s: State, s': State)
    requires ListInv(s) && s.fifo != [] && 0 < s.processed == s.pos == s.top
    requires s'.fifo == s.fifo[1..] && s'.word.head == s.word.head
    requires s'.enqueued == s.enqueued && s'.removed == s.removed + [s.fifo[0]]
    requires s'.processed == s.processed - 1 && s'.pos == s'.top == 0
    requires s'.nodes == s.nodes[s.fifo[s.top] := s.nodes[s.fifo[s.top]].(queueTail := Some(s.fifo[1]))]
    ensures ListInv(s')
  {
    assert s.removed + s.fifo == s'.removed + s'.fifo;
    forall i | 0 <= i < |s'.fifo| ensures NodeInv(s', i) {
      assert NodeInv(s, i + 1);
      assert s'.fifo[i] == s.fifo[i + 1];
    }
  }

  // ---------- Every step keeps the invariant ----------

  /** What a step of `t` that removes nobody from the queue leaves true of another thread. */
  lemma BystanderKeepsInv(s: State, s': State, t: Tid, u: Tid)
    requires |s.waker| == |s.nodes| == |s.pcs| == |s'.nodes| == |s'.pcs| && t < |s.pcs| && u < |s.pcs| && u != t
    requires ThreadInv(s, u) && s'.waker == s.waker
    requires forall x :: 0 <= x < |s.pcs| && x != t ==>
               s'.pcs[x] == s.pcs[x] && s'.nodes[x].parked == s.nodes[x].parked && (x in s'.fifo <==> x in s.fifo)
    requires s.owner == Some(u) <==> s'.owner == Some(u)
    requires s.queueOwner == Some(u) <==> s'.queueOwner == Some(u)
    requires s.pcs[u].EnqueueCas? ==> s'.nodes[u] == s.nodes[u]
    requires OwnsQueue(s.pcs[u]) ==>
               s.fifo <= s'.fifo && s'.processed == s.processed && s'.top == s.top && s'.pos == s.pos
    requires s.pcs[t].Asleep? ==> !s.nodes[t].parked
    requires s.pcs[t].DropQueueLock? ==> s'.pcs[t] == Wake(s.pcs[t].tail)
    requires !s.pcs[t].Wake?
    ensures ThreadInv(s', u)
  {
  }

  /** The new owner, if it changes, is neither taken from nor given to another thread. */
  predicate OwnerChange(before: Option<Tid>, after: Option<Tid>, t: Tid) {
    before == after || (before in {None, Some(t)} && after in {None, Some(t)})
  }

  lemma BystandersKeepInv(s: State, s': State, t: Tid)
    requires Inv(s) && t < |s.pcs| == |s'.pcs| == |s'.nodes| && s'.waker == s.waker
    requires forall x :: 0 <= x < |s.pcs| && x != t ==>
               s'.pcs[x] == s.pcs[x] && s'.nodes[x].parked == s.nodes[x].parked && (x in s'.fifo <==> x in s.fifo)
    requires OwnerChange(s.owner, s'.owner, t) && OwnerChange(s.queueOwner, s'.queueOwner, t)
    requires forall u :: 0 <= u < |s.pcs| && s.pcs[u].EnqueueCas? && u != t ==> s'.nodes[u] == s.nodes[u]
    requires s.queueOwner in {None, Some(t)} ||
             (s.fifo <= s'.fifo && s'.processed == s.processed && s'.top == s.top && s'.pos == s.pos)
    requires s.pcs[t].Asleep? ==> !s.nodes[t].parked
    requires s.pcs[t].DropQueueLock? ==> s'.pcs[t] == Wake(s.pcs[t].tail)
    requires !s.pcs[t].Wake?
    ensures forall u :: 0 <= u < |s.pcs| && u != t ==> ThreadInv(s', u)
  {
    forall u | 0 <= u < |s.pcs| && u != t ensures ThreadInv(s', u) {
      assert ThreadInv(s, u);
      BystanderKeepsInv(s, s', t, u);
    }
  }

  /** Steps that change at most the lock bit, its owner and the program point of `t`. */
  lemma QuietStepKeepsInv(s: State, s': State, t: Tid)
    requires Inv(s) && t < |s.pcs| == |s'.pcs|
    requires s' == s.(word := s.word.(locked := s'.word.locked), owner := s'.owner, pcs := s.pcs[t := s'.pcs[t]])
    requires OwnerChange(s.owner, s'.owner, t) && (s'.word.locked <==> s'.owner.Some?)
    requires s.pcs[t].Asleep? ==> !s.nodes[t].parked
    requires !s.pcs[t].DropQueueLock? && !s.pcs[t].Wake?
    requires ThreadInv(s', t)
    ensures Inv(s')
  {
    BystandersKeepInv(s, s', t);
    SameNodesKeepList(s, s');
  }

  lemma LoadKeepsInv(s: State, t: Tid, c: Choice)
    requires Inv(s) && t < |s.pcs|
    requires s.pcs[t].Idle? || s.pcs[t].SlowLoad? || s.pcs[t].Owning? || s.pcs[t].UnlockLoad?
    ensures Inv(Next(s, t, c))
  {
    var s' := Next(s, t, c);
    assert ThreadInv(s, t);
    if s' != s {
      QuietStepKeepsInv(s, s', t);
    }
  }

  lemma LockFastKeepsInv(s: State, t: Tid, c: Choice)
    requires Inv(s) && t < |s.pcs| && s.pcs[t].LockFast? && ThreadInv(s, t)
    ensures Inv(LockFastStep(s, t, c))
  {
    QuietStepKeepsInv(s, LockFastStep(s, t, c), t);
  }

  lemma LockCasKeepsInv(s: State, t: Tid, seen: Word, c: Choice)
    requires Inv(s) && t < |s.pcs| && s.pcs[t] == LockCas(seen) && ThreadInv(s, t)
    ensures Inv(LockCasStep(s, t, seen, c))
  {
    QuietStepKeepsInv(s, LockCasStep(s, t, seen, c), t);
  }

  lemma ReleaseKeepsInv(s: State, t: Tid, c: Choice)
    requires Inv(s) && t < |s.pcs|
    requires s.pcs[t].Asleep? || s.pcs[t].Release?
    ensures Inv(Next(s, t, c))
  {
    var s' := Next(s, t, c);
    assert ThreadInv(s, t);
    if s' != s {
      QuietStepKeepsInv(s, s', t);
    }
  }

  lemma PrepareKeepsInv(s: State, t: Tid, c: Choice)
    requires Inv(s) && t < |s.pcs| && s.pcs[t].Prepare?
    ensures Inv(Next(s, t, c))
  {
    var s' := Next(s, t, c);
    assert ThreadInv(s, t);
    BystandersKeepInv(s, s', t);
    SameNodesKeepList(s, s');
  }

  lemma EnqueueKeepsInv(s: State, t: Tid, c: Choice)
    requires Inv(s) && t < |s.pcs| && s.pcs[t].EnqueueCas? && s.word == s.pcs[t].seen && !c.spurious
    ensures Inv(Next(s, t, c))
  {
    var s' := Next(s, t, c);
    assert ThreadInv(s, t);
    BystandersKeepInv(s, s', t);
    AppendKeepsList(s, s', t);
  }

  lemma EnqueueFailKeepsInv(s: State, t: Tid, c: Choice)
    requires Inv(s) && t < |s.pcs| && s.pcs[t].EnqueueCas? && (s.word != s.pcs[t].seen || c.spurious)
    ensures Inv(Next(s, t, c))
  {
    assert ThreadInv(s, t);
    QuietStepKeepsInv(s, Next(s, t, c), t);
  }

  lemma QueueLockKeepsInv(s: State, t: Tid, c: Choice)
    requires Inv(s) && t < |s.pcs| && s.pcs[t].QueueLockCas?
    ensures Inv(Next(s, t, c))
  {
    var s' := Next(s, t, c);
    assert ThreadInv(s, t);
    BystandersKeepInv(s, s', t);
    SameNodesKeepList(s, s');
  }

  lemma ScanOneKeepsInv(s: State, t: Tid, seen: Word, current: Tid)
    requires Inv(s) && t < |s.pcs| && s.pcs[t] == Scan(seen, current) && ThreadInv(s, t)
    requires s.pos > s.processed && NodeInv(s, s.pos)
    ensures Inv(ScanStep(s, t, seen, current))
  {
    var s' := ScanStep(s, t, seen, current);
    assert s.fifo[s.pos - 1] in s.fifo && ThreadInv(s, s.fifo[s.pos - 1]);
    ScanKeepsList(s, s');
    BystandersKeepInv(s, s', t);
  }

  lemma ScanEndKeepsInv(s: State, t: Tid, seen: Word, current: Tid)
    requires Inv(s) && t < |s.pcs| && s.pcs[t] == Scan(seen, current) && ThreadInv(s, t)
    requires s.pos == s.processed && NodeInv(s, s.pos)
    ensures Inv(ScanStep(s, t, seen, current))
  {
    var s' := ScanStep(s, t, seen, current);
    SameNodesKeepList(s, s');
    BystandersKeepInv(s, s', t);
  }

  lemma SetTailKeepsInv(s: State, t: Tid, c: Choice)
    requires Inv(s) && t < |s.pcs| && s.pcs[t].SetTail?
    ensures Inv(Next(s, t, c))
  {
    var s' := Next(s, t, c);
    assert ThreadInv(s, t);
    assert s.fifo[s.top] in s.fifo && ThreadInv(s, s.fifo[s.top]);
    BystandersKeepInv(s, s', t);
    SetTailKeepsList(s, s');
  }

  lemma GiveUpKeepsInv(s: State, t: Tid, c: Choice)
    requires Inv(s) && t < |s.pcs| && s.pcs[t].GiveUpCas?
    ensures Inv(Next(s, t, c))
  {
    var s' := Next(s, t, c);
    assert ThreadInv(s, t);
    BystandersKeepInv(s, s', t);
    SameNodesKeepList(s, s');
  }

  lemma ReadPrevKeepsInv(s: State, t: Tid, c: Choice)
    requires Inv(s) && t < |s.pcs| && s.pcs[t].ReadPrev?
    ensures Inv(Next(s, t, c))
  {
    assert ThreadInv(s, t);
    assert NodeInv(s, 0);
    QuietStepKeepsInv(s, Next(s, t, c), t);
  }

  lemma DropQueueLockKeepsInv(s: State, t: Tid, c: Choice)
    requires Inv(s) && t < |s.pcs| && s.pcs[t].DropQueueLock?
    ensures Inv(Next(s, t, c))
  {
    var s' := Next(s, t, c);
    assert ThreadInv(s, t);
    BystandersKeepInv(s, s', t);
    SameNodesKeepList(s, s');
  }

  /** Steps that hand a thread its wake-up: nobody else's view of its own wake-up changes. */
  lemma WakeKeepsInv(s: State, t: Tid, c: Choice)
    requires Inv(s) && t < |s.pcs| && s.pcs[t].Wake?
    ensures Inv(Next(s, t, c))
  {
    var s' := Next(s, t, c);
    assert ThreadInv(s, t);
    SameNodesKeepList(s, s');
    forall u | 0 <= u < |s.pcs| ensures ThreadInv(s', u) {
      assert ThreadInv(s, u);
    }
  }

  lemma RemovalKeepsThread(s: State, t: Tid, seen: Word, tail: Tid, newTail: Tid, u: Tid)
    requires |s.waker| == |s.nodes| == |s.pcs| && t < |s.pcs| && u < |s.pcs| && ThreadInv(s, t) && ThreadInv(s, u)
    requires s.pcs[t] == SetNewTail(seen, tail, newTail) && tail < |s.pcs| && ThreadInv(s, tail)
    requires s.fifo != [] && tail == s.fifo[0] && tail in s.fifo && Distinct(s.fifo)
    requires forall x :: x in s.fifo <==> x == s.fifo[0] || x in s.fifo[1..]
    requires seen.head.Some? && seen.head.value < |s.pcs| && seen.head.value in s.fifo && ThreadInv(s, seen.head.value)
    ensures ThreadInv(SetNewTailStep(s, t, seen, tail, newTail), u)
  {
  }

  lemma SetNewTailKeepsInv(s: State, t: Tid, seen: Word, tail: Tid, newTail: Tid)
    requires Inv(s) && t < |s.pcs| && s.pcs[t] == SetNewTail(seen, tail, newTail) && ThreadInv(s, t)
    ensures Inv(SetNewTailStep(s, t, seen, tail, newTail))
  {
    var s' := SetNewTailStep(s, t, seen, tail, newTail);
    assert s.fifo[s.top] in s.fifo && ThreadInv(s, s.fifo[s.top]);
    assert s.fifo[0] in s.fifo && ThreadInv(s, s.fifo[0]);
    RemoveKeepsList(s, s');
    assert forall u :: u in s.fifo <==> u == s.fifo[0] || u in s.fifo[1..];
    forall u | 0 <= u < |s.pcs| ensures ThreadInv(s', u) {
      assert ThreadInv(s, u);
      RemovalKeepsThread(s, t, seen, tail, newTail, u);
    }
  }

  lemma EmptyKeepsInv(s: State, t: Tid, seen: Word, tail: Tid, c: Choice)
    requires Inv(s) && t < |s.pcs| && s.pcs[t] == EmptyCas(seen, tail) && ThreadInv(s, t)
    requires s.word == seen && !c.spurious
    ensures Inv(EmptyCasStep(s, t, seen, tail, c))
  {
    var s' := EmptyCasStep(s, t, seen, tail, c);
    assert |s.fifo| == 1;
    assert s.fifo[0] in s.fifo && ThreadInv(s, s.fifo[0]);
    assert s.removed + s.fifo == s'.removed + s'.fifo;
    forall u | 0 <= u < |s.pcs| ensures ThreadInv(s', u) {
      assert ThreadInv(s, u);
    }
  }

  lemma EmptyFailKeepsInv(s: State, t: Tid, seen: Word, tail: Tid, c: Choice)
    requires Inv(s) && t < |s.pcs| && s.pcs[t] == EmptyCas(seen, tail) && ThreadInv(s, t)
    requires s.word != seen || c.spurious
    ensures Inv(EmptyCasStep(s, t, seen, tail, c))
  {
    var s' := EmptyCasStep(s, t, seen, tail, c);
    BystandersKeepInv(s, s', t);
    SameNodesKeepList(s, s');
  }

  lemma InvStep(s: State, t: Tid, c: Choice)
    requires Inv(s) && t < |s.pcs|
    ensures Inv(Next(s, t, c))
  {
    assert ThreadInv(s, t);
    match s.pcs[t]
    case Idle | SlowLoad | Owning | UnlockLoad => LoadKeepsInv(s, t, c);
    case LockFast => LockFastKeepsInv(s, t, c);
    case LockCas(seen) => LockCasKeepsInv(s, t, seen, c);
    case Asleep | Release => ReleaseKeepsInv(s, t, c);
    case Prepare(_) => PrepareKeepsInv(s, t, c);
    case EnqueueCas(seen) =>
      if s.word == seen && !c.spurious {
        EnqueueKeepsInv(s, t, c);
      } else {
        EnqueueFailKeepsInv(s, t, c);
      }
    case QueueLockCas(_) => QueueLockKeepsInv(s, t, c);
    case Scan(seen, current) =>
      assert NodeInv(s, s.pos);
      if s.pos > s.processed {
        ScanOneKeepsInv(s, t, seen, current);
      } else {
        ScanEndKeepsInv(s, t, seen, current);
      }
    case SetTail(_, _) => SetTailKeepsInv(s, t, c);
    case GiveUpCas(_) => GiveUpKeepsInv(s, t, c);
    case ReadPrev(_, _) => ReadPrevKeepsInv(s, t, c);
    case EmptyCas(seen, tail) =>
      if s.word == seen && !c.spurious {
        EmptyKeepsInv(s, t, seen, tail, c);
      } else {
        EmptyFailKeepsInv(s, t, seen, tail, c);
      }
    case SetNewTail(seen, tail, newTail) => SetNewTailKeepsInv(s, t, seen, tail, newTail);
    case DropQueueLock(_) => DropQueueLockKeepsInv(s, t, c);
    case Wake(_) => WakeKeepsInv(s, t, c);
  }

  // ---------- No lost wake-up ----------

  /**
   `u` will see to it that the queue moves on: an unlocker committed to `unlock_slow`, a thread about
   to wake the waiter it has removed, or an awake contender in `lock_slow`.
   */
  predicate Responsible(s: State, u: Tid)
    requires |s.nodes| == |s.pcs| && u < |s.pcs|
  {
    var pc := s.pcs[u];
    || pc.UnlockLoad? || pc.QueueLockCas? || pc.Wake?
    || pc.SlowLoad? || pc.LockCas? || pc.Prepare? || pc.EnqueueCas?
    || (pc.Asleep? && !s.nodes[u].parked)
  }

  ghost predicate WakeupPending(s: State)
    requires |s.nodes| == |s.pcs|
  {
    s.fifo != [] ==>
      s.word.locked || s.word.queueLocked || exists u :: 0 <= u < |s.pcs| && Responsible(s, u)
  }

  /** A thread that stops being responsible leaves a set bit or an empty queue behind. */
  lemma ResponsibilityKept(s: State, t: Tid, c: Choice)
    requires Inv(s) && t < |s.pcs|
    requires !s.pcs[t].Wake? && (Responsible(s, t) || s.word.locked || s.word.queueLocked)
    ensures var s' := Next(s, t, c);
      Responsible(s', t) || s'.word.locked || s'.word.queueLocked || s'.fifo == []
  {
    assert ThreadInv(s, t);
    if s.pcs[t].Scan? {
      assert NodeInv(s, s.pos);
    }
  }

  lemma WakeupPendingStep(s: State, t: Tid, c: Choice)
    requires Inv(s) && t < |s.pcs| && WakeupPending(s)
    ensures WakeupPending(Next(s, t, c))
  {
    var s' := Next(s, t, c);
    assert ThreadInv(s, t);
    if s.pcs[t].Wake? {
      assert Responsible(s', s.pcs[t].tail);
    } else if s.fifo == [] {
      assert s'.fifo == [] || s'.word.locked;
    } else if Responsible(s, t) || s.word.locked || s.word.queueLocked {
      ResponsibilityKept(s, t, c);
    } else {
      var u :| 0 <= u < |s.pcs| && Responsible(s, u);
      assert Responsible(s', u);
    }
  }

  // ---------- Theorems over every run ----------

  lemma InitInv(threads: nat)
    ensures Inv(Init(threads)) && WakeupPending(Init(threads))
  {
  }

  /** The state after a schedule; entries naming no thread are ignored. */
  ghost function Run(threads: nat, schedule: Schedule): (s: State)
    ensures Inv(s) && WakeupPending(s) && |s.pcs| == threads
    decreases |schedule|
  {
    if schedule == [] then InitInv(threads); Init(threads)
    else
      var n := |schedule| - 1;
      var s := Run(threads, schedule[..n]);
      if schedule[n].0 >= threads then s
      else
        InvStep(s, schedule[n].0, schedule[n].1);
        WakeupPendingStep(s, schedule[n].0, schedule[n].1);
        Next(s, schedule[n].0, schedule[n].1)
  }

  /** At most one holder of each bit, and a bit is set exactly while it has a holder. */
  ghost predicate BitsExclusive(s: State) {
    && (forall t, u :: 0 <= t < |s.pcs| && 0 <= u < |s.pcs| && Owns(s.pcs[t]) && Owns(s.pcs[u]) ==> t == u)
    && (s.word.locked <==> exists t :: 0 <= t < |s.pcs| && Owns(s.pcs[t]))
    && (forall t, u :: 0 <= t < |s.pcs| && 0 <= u < |s.pcs| && OwnsQueue(s.pcs[t]) && OwnsQueue(s.pcs[u]) ==> t == u)
    && (s.word.queueLocked <==> exists t :: 0 <= t < |s.pcs| && OwnsQueue(s.pcs[t]))
  }

  lemma BitsAreExclusive(s: State)
    requires Inv(s)
    ensures BitsExclusive(s)
  {
    forall t | 0 <= t < |s.pcs|
      ensures Owns(s.pcs[t]) <==> s.owner == Some(t)
      ensures OwnsQueue(s.pcs[t]) <==> s.queueOwner == Some(t)
    {
      assert ThreadInv(s, t);
    }
    if s.word.locked {
      assert Owns(s.pcs[s.owner.value]);
    }
    if s.word.queueLocked {
      assert OwnsQueue(s.pcs[s.queueOwner.value]);
    }
  }

  /**
   The list reachable from the word: following `next` from the head visits `waiters` from the newest
   to the oldest, without repetition.
   */
  ghost predicate IsList(s: State, waiters: seq<Tid>) {
    && Distinct(waiters)
    && (forall i :: 0 <= i < |waiters| ==> waiters[i] < |s.nodes|)
    && s.word.head == (if waiters == [] then None else Some(waiters[|waiters| - 1]))
    && (forall i :: 0 < i < |waiters| ==> LinkedTo(s, waiters[i], waiters[i - 1]))
  }

  predicate LinkedTo(s: State, newer: Tid, older: Tid) {
    newer < |s.nodes| && s.nodes[newer].next == Some(older)
  }

  lemma FifoIsList(s: State)
    requires Inv(s)
    ensures IsList(s, s.fifo)
  {
    forall i | 0 < i < |s.fifo| ensures LinkedTo(s, s.fifo[i], s.fifo[i - 1]) {
      assert NodeInv(s, i);
    }
  }

  /** With a waiter queued, some thread holds a bit or is responsible for moving on. */
  ghost predicate NobodyForgotten(s: State) {
    && |s.nodes| == |s.pcs|
    && (s.fifo != [] ==>
          exists u :: 0 <= u < |s.pcs| && (Owns(s.pcs[u]) || OwnsQueue(s.pcs[u]) || Responsible(s, u)))
  }

  /** A sleeping thread is in the queue or another thread has removed it and is about to wake it. */
  ghost predicate SleepersAccounted(s: State) {
    && |s.nodes| == |s.pcs|
    && forall t :: 0 <= t < |s.pcs| && s.pcs[t].Asleep? && s.nodes[t].parked && t !in s.fifo ==>
         exists u :: 0 <= u < |s.pcs| && (s.pcs[u] == Wake(t) || s.pcs[u] == DropQueueLock(t))
  }

  lemma SleepersAreAccounted(s: State)
    requires Inv(s)
    ensures SleepersAccounted(s)
  {
    forall t | 0 <= t < |s.pcs| && s.pcs[t].Asleep? && s.nodes[t].parked && t !in s.fifo
      ensures exists u :: 0 <= u < |s.pcs| && (s.pcs[u] == Wake(t) || s.pcs[u] == DropQueueLock(t))
    {
      assert ThreadInv(s, t);
    }
  }

  /**
   Every run: both bits are exclusive; the list holds the waiters in reverse order of enqueueing;
   the threads removed so far are, in order, the first ones enqueued; no wake-up is lost.
   */
  lemma EveryRunIsSafe(threads: nat, schedule: Schedule)
    ensures var s := Run(threads, schedule);
      && BitsExclusive(s)
      && IsList(s, s.fifo)
      && s.enqueued == s.removed + s.fifo
      && SleepersAccounted(s)
      && NobodyForgotten(s)
  {
    var s := Run(threads, schedule);
    BitsAreExclusive(s);
    FifoIsList(s);
    SleepersAreAccounted(s);
  }

  /**
   The scan under the queue lock: its current node is in the queue, it moves strictly towards the
   oldest waiter, it stops at a node with a non-null `queue_tail`, and then `prev` is the inverse of
   `next` from the scanned head down to the tail it has found, which is the oldest waiter.
   */
  lemma ScanReachesTail(s: State, t: Tid, c: Choice)
    requires Inv(s) && t < |s.pcs| && s.pcs[t].Scan?
    ensures var s' := Next(s, t, c);
      && s.pos < |s.fifo| && s.pcs[t].current == s.fifo[s.pos]
      && if s.pos > s.processed
         then s'.pcs[t] == Scan(s.pcs[t].seen, s.fifo[s.pos - 1]) && s'.pos == s.pos - 1 && s'.processed == s.processed
         else
           && s'.pcs[t] == SetTail(s.pcs[t].seen, s.fifo[0])
           && forall i :: 0 <= i < s'.top ==>
                s'.fifo[i] < |s'.nodes| && s'.nodes[s'.fifo[i]].prev == Some(s'.fifo[i + 1])
  {
    var s' := Next(s, t, c);
    assert ThreadInv(s, t);
    assert NodeInv(s, s.pos);
    if s.pos == s.processed {
      forall i | 0 <= i < s'.top ensures s'.nodes[s'.fifo[i]].prev == Some(s'.fifo[i + 1]) {
        assert NodeInv(s, i);
      }
    }
  }

  /** While `t` holds the queue lock, other threads only prepend; they leave its scan where it is. */
  lemma ScanUndisturbed(s: State, t: Tid, u: Tid, c: Choice)
    requires Inv(s) && t < |s.pcs| && u < |s.pcs| && u != t && OwnsQueue(s.pcs[t])
    ensures var s' := Next(s, u, c);
      && s'.pcs[t] == s.pcs[t] && s.fifo <= s'.fifo
      && s'.pos == s.pos && s'.top == s.top && s'.processed == s.processed
  {
    assert ThreadInv(s, t) && ThreadInv(s, u);
  }

  /** How many steps `t` makes. */
  function StepsOf(schedule: Schedule, t: Tid): (n: nat) {
    if schedule == [] then 0 else (if schedule[0].0 == t then 1 else 0) + StepsOf(schedule[1..], t)
  }

  /** Where the scan of a thread is: so many nodes still to process, or the tail found. */
  datatype ScanPhase = Scanning(left: nat) | Found | Elsewhere

  ghost function PhaseAfter(threads: nat, t: Tid, schedule: Schedule): (p: ScanPhase)
    requires t < threads
  {
    var s := Run(threads, schedule);
    assert ThreadInv(s, t);
    if s.pcs[t].Scan? then Scanning(s.pos - s.processed) else if s.pcs[t].SetTail? then Found else Elsewhere
  }

  /** A step of `t` brings its scan one node further, a step of another thread leaves it alone. */
  predicate Advances(p: ScanPhase, p': ScanPhase, own: bool) {
    p.Scanning? ==>
      if own then (if p.left == 0 then p' == Found else p' == Scanning(p.left - 1)) else p' == p
  }

  lemma ScanAdvances(threads: nat, t: Tid, schedule: Schedule, e: (Tid, Choice))
    requires t < threads
    ensures Advances(PhaseAfter(threads, t, schedule), PhaseAfter(threads, t, schedule + [e]), e.0 == t)
  {
    var s := Run(threads, schedule);
    assert (schedule + [e])[..|schedule + [e]| - 1] == schedule;
    if s.pcs[t].Scan? {
      if e.0 == t {
        ScanReachesTail(s, t, e.1);
      } else if e.0 < threads {
        ScanUndisturbed(s, t, e.0, e.1);
      }
    }
  }

  lemma {:induction false} CountsDown(f: Schedule -> ScanPhase, t: Tid,
                                      before: Schedule, after: Schedule) returns (n: nat)
    requires forall q, e: (Tid, Choice) :: Advances(f(q), f(q + [e]), e.0 == t)
    requires f(before).Scanning? && StepsOf(after, t) > f(before).left
    ensures n <= |after| && f(before + after[..n]) == Found
    decreases |after|
  {
    var e := after[0];
    assert Advances(f(before), f(before + [e]), e.0 == t);
    if f(before + [e]).Scanning? {
      var m := CountsDown(f, t, before + [e], after[1..]);
      n := m + 1;
      assert before + after[..n] == before + [e] + after[1..][..m];
    } else {
      n := 1;
      assert after[..1] == [e];
    }
  }

  /**
   The scan ends: however the steps of `t` are interleaved with those of other threads, which keep prepending,
   it has found the tail after at most one step of its own more than there are nodes to process.
   */
  lemma ScanEnds(threads: nat, before: Schedule, after: Schedule, t: Tid) returns (n: nat)
    requires t < threads && PhaseAfter(threads, t, before).Scanning?
    requires StepsOf(after, t) > PhaseAfter(threads, t, before).left
    ensures n <= |after| && PhaseAfter(threads, t, before + after[..n]) == Found
  {
    var f: Schedule -> ScanPhase := q => PhaseAfter(threads, t, q);
    forall q, e: (Tid, Choice) ensures Advances(f(q), f(q + [e]), e.0 == t) {
      ScanAdvances(threads, t, q, e);
    }
    n := CountsDown(f, t, before, after);
  }

  lemma RemovesOnlyThere(s: State, t: Tid, c: Choice)
    requires Inv(s) && t < |s.pcs| && Next(s, t, c).removed != s.removed
    ensures s.pcs[t].SetNewTail? || (s.pcs[t].EmptyCas? && s.word == s.pcs[t].seen && !c.spurious)
  {
    assert ThreadInv(s, t);
  }

  /** What one removal of the oldest waiter does. */
  predicate TakesOldest(s: State, s': State, t: Tid) {
    && t < |s'.pcs| && s.queueOwner == Some(t) && s.fifo != []
    && s'.fifo == s.fifo[1..] && s'.removed == s.removed + [s.fifo[0]]
    && (s'.pcs[t] == Wake(s.fifo[0]) || s'.pcs[t] == DropQueueLock(s.fifo[0]))
    && (s'.word.head == None <==> s'.fifo == [])
  }

  lemma SetNewTailTakesOldest(s: State, t: Tid, seen: Word, tail: Tid, newTail: Tid)
    requires Inv(s) && t < |s.pcs| && s.pcs[t] == SetNewTail(seen, tail, newTail) && ThreadInv(s, t)
    ensures TakesOldest(s, SetNewTailStep(s, t, seen, tail, newTail), t)
  {
  }

  lemma EmptyTakesOldest(s: State, t: Tid, seen: Word, tail: Tid, c: Choice)
    requires Inv(s) && t < |s.pcs| && s.pcs[t] == EmptyCas(seen, tail) && ThreadInv(s, t)
    requires s.word == seen && !c.spurious
    ensures TakesOldest(s, EmptyCasStep(s, t, seen, tail, c), t)
  {
  }

  /** A waiter is removed only by the queue-lock holder, and it is the longest-queued one. */
  lemma RemovesOldest(s: State, t: Tid, c: Choice)
    requires Inv(s) && t < |s.pcs| && Next(s, t, c).removed != s.removed
    ensures TakesOldest(s, Next(s, t, c), t)
  {
    RemovesOnlyThere(s, t, c);
    assert ThreadInv(s, t);
    var pc := s.pcs[t];
    if pc.SetNewTail? {
      SetNewTailTakesOldest(s, t, pc.seen, pc.tail, pc.newTail);
    } else {
      EmptyTakesOldest(s, t, pc.seen, pc.tail, c);
    }
  }

  /**
   The local copy of the word that `unlock_slow` has from before it took the queue lock cannot win a CAS:
   the queue-lock bit is set in the word as long as the thread holds it.
   */
  lemma StaleCopyFails(threads: nat, schedule: Schedule, t: Tid)
    requires t < threads && OwnsQueue(Run(threads, schedule).pcs[t])
    ensures Run(threads, schedule).word.queueLocked
    ensures var s := Run(threads, schedule);
      (s.pcs[t].GiveUpCas? || s.pcs[t].EmptyCas?) && !s.pcs[t].seen.queueLocked ==> s.word != s.pcs[t].seen
  {
    assert ThreadInv(Run(threads, schedule), t);
  }

  /** After taking the queue lock that copy has a clear bit, so the first attempt always scans again. */
  lemma FirstCopyIsStale(s: State, t: Tid, c: Choice)
    requires Inv(s) && t < |s.pcs| && s.pcs[t].QueueLockCas? && OwnsQueue(Next(s, t, c).pcs[t])
    ensures Next(s, t, c).pcs[t].Scan? && !Next(s, t, c).pcs[t].seen.queueLocked
  {
    assert ThreadInv(s, t);
  }
}
