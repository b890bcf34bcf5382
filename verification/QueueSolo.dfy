/**
 A thread that runs alone completes its `push` or `pop` of `CoQueue`: nothing it could wait for is missing.
 With it, runs that drain a chunk.
 */
module QueueSolo {
  import opened Wrappers
  import opened Threads
  import opened QueueIndex
  import opened CoQueue
  import opened QueueInvariant
  import opened QueueRuns
  import opened QueueTheorems
  import opened QueueLenDrop
  import opened QueueSafety

  /** Every other thread is idle. */
  predicate Alone(s: State, t: Tid) {
    t < |s.pcs| && forall u :: 0 <= u < |s.pcs| && u != t ==> s.pcs[u].Idle?
  }

  const STEADY := Choice(StartPop, false)

  /** `longer` continues `schedule` with at most `steps` steps, all of thread `t`. */
  predicate GoesOnAlone(schedule: Schedule, longer: Schedule, t: Tid, steps: nat) {
    schedule <= longer && |longer| <= |schedule| + steps && forall i :: |schedule| <= i < |longer| ==> longer[i].0 == t
  }

  // ---------- push ----------

  /** What a push that runs alone has read is still current. */
  predicate PushOnTrack(s: State, pc: Pc) {
    match pc
    case PushLoadIndex(_, _) => true
    case PushLoadChunk(_, _, tail) => tail == s.tailIndex
    case PushTest(_, _, tail, chunk) => tail == s.tailIndex && chunk == s.tailChunk
    case PushInstall(_, _, tail, _) => tail == s.tailIndex && s.tailChunk == None
    case PushStoreHead(_, _, tail, _) => tail == s.tailIndex
    case PushClaim(_, _, tail, _) => tail == s.tailIndex
    case _ => PushPlace(pc).Some?
  }

  /** How many steps are left, at most. */
  function PushRank(pc: Pc): (n: nat) {
    match pc
    case PushLoadIndex(_, _) => 12
    case PushLoadChunk(_, _, _) => 11
    case PushTest(_, box, tail, _) => if Offset(tail) + 1 == CHUNK_CAP && box == None then 10 else 9
    case PushInstall(_, _, _, _) => 8
    case PushStoreHead(_, _, _, _) => 7
    case PushClaim(_, _, _, _) => 6
    case PushStoreChunk(_, _, _, _, _) => 5
    case PushStoreIndex(_, _, _, _, _) => 4
    case PushStoreNext(_, _, _, _) => 3
    case PushWrite(_, _, _) => 2
    case PushMark(_, _, _) => 1
    case _ => 0
  }

  /** A step towards the end of a push: it enqueues the item exactly when it stops seeking. */
  predicate PushAdvances(s: State, s': State, t: Tid)
    requires t < |s.pcs| && (Seeking(s.pcs[t]) || PushPlace(s.pcs[t]).Some?)
  {
    && |s'.pcs| == |s.pcs| && s'.poppers == s.poppers && PushRank(s'.pcs[t]) < PushRank(s.pcs[t])
    && (s'.pcs[t].Idle? || (PushOnTrack(s', s'.pcs[t]) && s'.pcs[t].item == s.pcs[t].item))
    && s'.pushed ==
       if Seeking(s.pcs[t]) && !Seeking(s'.pcs[t]) then s.pushed + [s.pcs[t].item] else s.pushed
  }

  /** Nobody but a thread alone could be rolling the tail over. */
  lemma TailIsOnSlot(s: State, t: Tid)
    requires TailInv(s) && Alone(s, t) && !RollingPush(s.pcs[t])
    ensures Offset(s.tailIndex) < CHUNK_CAP
  {
  }

  lemma SeekAdvances(s: State, t: Tid)
    requires t < |s.pcs| && Seeking(s.pcs[t]) && SeekReady(s, s.pcs[t]) && PushOnTrack(s, s.pcs[t])
    requires Offset(s.tailIndex) < CHUNK_CAP
    ensures PushAdvances(s, SeekNext(s, t, STEADY), t)
  {
  }

  lemma PutAdvances(s: State, t: Tid)
    requires HeapInv(s) && t < |s.pcs| && PushThreadInv(s, t, s.pcs[t]) && PushPlace(s.pcs[t]).Some?
    ensures PushAdvances(s, PushNext(s, t, STEADY), t)
  {
  }

  lemma PushSeekAdvances(s: State, t: Tid)
    requires HeapInv(s) && t < |s.pcs| && PushThreadInv(s, t, s.pcs[t]) && PushOnTrack(s, s.pcs[t]) && Seeking(s.pcs[t])
    requires Offset(s.tailIndex) < CHUNK_CAP
    ensures PushAdvances(s, PushNext(s, t, STEADY), t)
  {
    SeekAdvances(s, t);
  }

  lemma StaysAlone(s: State, t: Tid, c: Choice)
    requires HeapInv(s) && Alone(s, t) && ThreadInv(s, t)
    ensures Alone(Next(s, t, c), t)
  {
    forall u | 0 <= u < |s.pcs| && u != t ensures Next(s, t, c).pcs[u].Idle? {
      StepKeepsOthers(s, t, c, u);
    }
  }

  lemma PushNextAdvances(s: State, t: Tid)
    requires HeapInv(s) && TailInv(s) && Alone(s, t) && PushThreadInv(s, t, s.pcs[t]) && PushOnTrack(s, s.pcs[t])
    ensures PushAdvances(s, PushNext(s, t, STEADY), t)
  {
    if Seeking(s.pcs[t]) {
      TailIsOnSlot(s, t);
      PushSeekAdvances(s, t);
    } else {
      PutAdvances(s, t);
    }
  }

  lemma NextIsPush(s: State, t: Tid)
    requires HeapInv(s) && t < |s.pcs| && ThreadInv(s, t) && PushOnTrack(s, s.pcs[t])
    ensures Next(s, t, STEADY) == PushNext(s, t, STEADY)
  {
    NotPopping(s, s.pcs[t]);
  }

  lemma NotPopping(s: State, pc: Pc)
    requires PushOnTrack(s, pc)
    ensures !InPop(pc)
  {
  }

  lemma PushStepAdvances(s: State, t: Tid)
    requires HeapInv(s) && TailInv(s) && Alone(s, t) && ThreadInv(s, t) && PushOnTrack(s, s.pcs[t])
    ensures PushAdvances(s, Next(s, t, STEADY), t)
  {
    PushNextAdvances(s, t);
    NextIsPush(s, t);
  }

  /** What the push still has to enqueue. */
  function Owed(pc: Pc): (items: seq<Value>) {
    if Seeking(pc) then [pc.item] else []
  }

  /** `t` runs alone towards the end of its push, after which `pushed` and `poppers` will be logged. */
  predicate PushTowards(s: State, t: Tid, pushed: seq<Value>, poppers: seq<Tid>) {
    && Alone(s, t) && (s.pcs[t].Idle? || PushOnTrack(s, s.pcs[t]))
    && s.pushed + Owed(s.pcs[t]) == pushed && s.poppers == poppers
  }

  lemma PushAdvancesTowards(s: State, s': State, t: Tid, pushed: seq<Value>, poppers: seq<Tid>)
    requires PushTowards(s, t, pushed, poppers) && !s.pcs[t].Idle? && PushAdvances(s, s', t) && Alone(s', t)
    ensures PushTowards(s', t, pushed, poppers) && PushRank(s'.pcs[t]) < PushRank(s.pcs[t])
  {
  }

  /** At rank 0 the push is over. */
  lemma PushArrives(s: State, t: Tid, pushed: seq<Value>, poppers: seq<Tid>)
    requires PushTowards(s, t, pushed, poppers)
    ensures PushRank(s.pcs[t]) == 0 <==> s.pcs[t].Idle?
    ensures s.pcs[t].Idle? ==> Quiescent(s) && s.pushed == pushed && s.poppers == poppers
  {
  }

  lemma PushStepTowards(s: State, t: Tid, pushed: seq<Value>, poppers: seq<Tid>)
    requires HeapInv(s) && TailInv(s) && t < |s.pcs| && ThreadInv(s, t)
    requires PushTowards(s, t, pushed, poppers) && !s.pcs[t].Idle?
    ensures PushTowards(Next(s, t, STEADY), t, pushed, poppers)
    ensures PushRank(Next(s, t, STEADY).pcs[t]) < PushRank(s.pcs[t])
  {
    StaysAlone(s, t, STEADY);
    PushStepAdvances(s, t);
    PushAdvancesTowards(s, Next(s, t, STEADY), t, pushed, poppers);
  }

  /** A schedule that keeps stepping towards its end gets there. */
  lemma {:induction false} ReachesEnd(good: Schedule -> bool, rank: Schedule -> nat,
                                      e: (Tid, Choice), schedule: Schedule)
    returns (longer: Schedule)
    requires good(schedule) && forall q :: good(q) && rank(q) > 0 ==> good(q + [e]) && rank(q + [e]) < rank(q)
    ensures good(longer) && rank(longer) == 0 && GoesOnAlone(schedule, longer, e.0, rank(schedule))
    decreases rank(schedule)
  {
    longer := schedule;
    if rank(schedule) > 0 {
      longer := ReachesEnd(good, rank, e, schedule + [e]);
    }
  }

  lemma PushOneStep(threads: nat, bound: nat, schedule: Schedule, t: Tid, pushed: seq<Value>, poppers: seq<Tid>)
    requires IsBound(bound) && t < threads && PushTowards(Run(threads, bound, schedule), t, pushed, poppers)
    requires PushRank(Run(threads, bound, schedule).pcs[t]) > 0
    ensures var s, s' := Run(threads, bound, schedule), Run(threads, bound, schedule + [(t, STEADY)]);
      PushTowards(s', t, pushed, poppers) && PushRank(s'.pcs[t]) < PushRank(s.pcs[t])
  {
    PushArrives(Run(threads, bound, schedule), t, pushed, poppers);
    RunExtends(threads, bound, schedule, (t, STEADY));
    PushStepTowards(Run(threads, bound, schedule), t, pushed, poppers);
  }

  lemma PushRunsOn(threads: nat, bound: nat, schedule: Schedule, t: Tid, pushed: seq<Value>, poppers: seq<Tid>)
    returns (longer: Schedule)
    requires IsBound(bound) && t < threads && PushTowards(Run(threads, bound, schedule), t, pushed, poppers)
    ensures GoesOnAlone(schedule, longer, t, PushRank(Run(threads, bound, schedule).pcs[t]))
    ensures var s := Run(threads, bound, longer); Quiescent(s) && s.pushed == pushed && s.poppers == poppers
  {
    var good: Schedule -> bool := q => PushTowards(Run(threads, bound, q), t, pushed, poppers);
    var rank: Schedule -> nat := q => PushRank(Run(threads, bound, q).pcs[t]);
    forall q | good(q) && rank(q) > 0 ensures good(q + [(t, STEADY)]) && rank(q + [(t, STEADY)]) < rank(q) {
      PushOneStep(threads, bound, q, t, pushed, poppers);
    }
    longer := ReachesEnd(good, rank, (t, STEADY), schedule);
    PushArrives(Run(threads, bound, longer), t, pushed, poppers);
  }

  lemma PushStarts(s: State, t: Tid, item: Value)
    requires HeapInv(s) && Quiescent(s) && t < |s.pcs| && ThreadInv(s, t)
    ensures var s' := Next(s, t, Choice(StartPush(item), false));
      PushTowards(s', t, s.pushed + [item], s.poppers) && PushRank(s'.pcs[t]) == 12
  {
  }

  lemma PushBegins(threads: nat, bound: nat, schedule: Schedule, e: (Tid, Choice), item: Value)
    requires IsBound(bound) && e.0 < threads && Quiescent(Run(threads, bound, schedule))
    requires e.1 == Choice(StartPush(item), false)
    ensures var s, s' := Run(threads, bound, schedule), Run(threads, bound, schedule + [e]);
      PushTowards(s', e.0, s.pushed + [item], s.poppers) && PushRank(s'.pcs[e.0]) == 12
  {
    RunExtends(threads, bound, schedule, e);
    PushStarts(Run(threads, bound, schedule), e.0, item);
  }

  /**
   From every quiescent state of every run, a thread that runs alone completes a push within 13 steps, if its
   CASes do not fail spuriously.
   */
  lemma PushCompletes(threads: nat, bound: nat, schedule: Schedule, t: Tid, item: Value) returns (longer: Schedule)
    requires IsBound(bound) && t < threads && Quiescent(Run(threads, bound, schedule))
    ensures GoesOnAlone(schedule, longer, t, 13)
    ensures var s, s' := Run(threads, bound, schedule), Run(threads, bound, longer);
      Quiescent(s') && s'.pushed == s.pushed + [item] && s'.poppers == s.poppers
  {
    var s, e := Run(threads, bound, schedule), (t, Choice(StartPush(item), false));
    PushBegins(threads, bound, schedule, e, item);
    longer := PushRunsOn(threads, bound, schedule + [e], t, s.pushed + [item], s.poppers);
  }

  // ---------- pop ----------

  /** What a pop that runs alone has read is still current. */
  predicate PopOnTrack(s: State, pc: Pc) {
    match pc
    case PopLoadIndex => true
    case PopLoadChunk(head) => head == s.headIndex
    case PopTest(head, chunk) => head == s.headIndex && chunk == s.headChunk
    case PopLoadTail(head, chunk) => head == s.headIndex && chunk == s.headChunk
    case PopClaim(head, _, _) => head == s.headIndex
    case _ => WorkPlace(pc).Some?
  }

  function PopRank(pc: Pc): (n: nat) {
    match pc
    case PopLoadIndex => 80
    case PopLoadChunk(_) => 79
    case PopTest(_, _) => 78
    case PopLoadTail(_, _) => 77
    case PopClaim(_, _, _) => 76
    case PopWaitNext(_, _, _) => 75
    case PopPeek(_, _, _, _) => 74
    case PopStoreChunk(_, _, _, _) => 73
    case PopStoreIndex(_, _, _) => 72
    case PopWaitWrite(_, _) => 71
    case PopRead(_, _) => 70
    case PopMark(_, _, _) => 69
    case DestroyLoad(_, _, _, i) => if i <= CHUNK_CAP then 2 * (CHUNK_CAP - i) + 2 else 1
    case DestroyMark(_, _, _, i) => if i <= CHUNK_CAP then 2 * (CHUNK_CAP - i) + 1 else 1
    case _ => 0
  }

  predicate PopAdvances(s: State, s': State, t: Tid)
    requires t < |s.pcs|
  {
    && |s'.pcs| == |s.pcs| && s'.pushed == s.pushed && PopRank(s'.pcs[t]) < PopRank(s.pcs[t])
    && (s'.pcs[t].Idle? || PopOnTrack(s', s'.pcs[t]))
    && (PopSeeking(s.pcs[t]) ==> PopSeeking(s'.pcs[t]) || WorkPlace(s'.pcs[t]).Some?)
    && |s'.poppers| == |s.poppers| + (if PopSeeking(s.pcs[t]) && !PopSeeking(s'.pcs[t]) then 1 else 0)
  }

  /** A queue that is not empty, with nobody but a popper at work, has a head to pop from. */
  lemma HeadIsOnSlot(s: State, t: Tid)
    requires HeapInv(s) && TailInv(s) && HeadInv(s) && Alone(s, t) && PopSeeking(s.pcs[t]) && |s.poppers| < |s.pushed|
    ensures Offset(s.headIndex) < CHUNK_CAP && s.headChunk.Some? && Pos(s.headIndex) != Pos(s.tailIndex)
  {
  }

  lemma PopSeekAdvances(s: State, t: Tid)
    requires t < |s.pcs| && PopSeeking(s.pcs[t]) && PopOnTrack(s, s.pcs[t])
    requires Offset(s.headIndex) < CHUNK_CAP && s.headChunk.Some? && Pos(s.headIndex) != Pos(s.tailIndex)
    ensures PopAdvances(s, PopSeekNext(s, t, STEADY), t)
  {
  }

  /** The next chunk is linked: nobody is in between publishing and linking it. */
  lemma NextIsLinked(s: State, t: Tid)
    requires HeapInv(s) && TailInv(s) && HeadInv(s) && Alone(s, t)
    requires PopThreadInv(s, t, s.pcs[t]) && s.pcs[t].PopWaitNext?
    requires LinkInv(s, s.pcs[t].at.block)
    ensures s.pcs[t].mine < |s.heap| && s.heap[s.pcs[t].mine].next.Some?
  {
    TailIsOnSlot(s, t);
    CountMonotone(s.headIndex, s.tailIndex);
  }

  /** The slot is filled: nobody is in between claiming and filling it. */
  lemma SlotIsFilled(s: State, t: Tid)
    requires HeapInv(s) && TailInv(s) && HeadInv(s) && Alone(s, t)
    requires PopThreadInv(s, t, s.pcs[t]) && s.pcs[t].PopWaitWrite?
    requires SlotInv(s, s.pcs[t].at.block, s.pcs[t].at.offset)
    ensures SlotAt(s, s.pcs[t].mine, s.pcs[t].at.offset).write
  {
    HeadBehindTail(s);
  }

  lemma RollAdvances(s: State, t: Tid)
    requires HeapInv(s) && t < |s.pcs| && PopThreadInv(s, t, s.pcs[t]) && Rolling(s.pcs[t])
    requires s.pcs[t].PopWaitNext? ==> s.heap[s.pcs[t].mine].next.Some?
    ensures PopAdvances(s, RollNext(s, t), t)
  {
    assert WorkPlace(RollNext(s, t).pcs[t]).Some?;
  }

  lemma TakeAdvances(s: State, t: Tid)
    requires HeapInv(s) && t < |s.pcs| && PopThreadInv(s, t, s.pcs[t]) && Taking(s.pcs[t])
    requires s.pcs[t].PopWaitWrite? ==> SlotAt(s, s.pcs[t].mine, s.pcs[t].at.offset).write
    ensures PopAdvances(s, TakeNext(s, t), t)
  {
  }

  lemma DestroyAdvances(s: State, t: Tid)
    requires HeapInv(s) && t < |s.pcs| && PopThreadInv(s, t, s.pcs[t]) && Destroying(s.pcs[t])
    requires BatonInv(s, s.pcs[t].at.block)
    ensures PopAdvances(s, DestroyNext(s, t), t)
  {
  }

  lemma WorkAdvances(s: State, t: Tid)
    requires HeapInv(s) && TailInv(s) && HeadInv(s) && ChunksInv(s) && Alone(s, t)
    requires PopThreadInv(s, t, s.pcs[t]) && (Rolling(s.pcs[t]) || Taking(s.pcs[t]))
    ensures Rolling(s.pcs[t]) ==> PopAdvances(s, RollNext(s, t), t)
    ensures Taking(s.pcs[t]) ==> PopAdvances(s, TakeNext(s, t), t)
  {
    assert LinkInv(s, s.pcs[t].at.block) && SlotInv(s, s.pcs[t].at.block, s.pcs[t].at.offset);
    if s.pcs[t].PopWaitNext? {
      NextIsLinked(s, t);
    }
    if s.pcs[t].PopWaitWrite? {
      SlotIsFilled(s, t);
    }
    if Rolling(s.pcs[t]) {
      RollAdvances(s, t);
    } else {
      TakeAdvances(s, t);
    }
  }

  lemma PopNextAdvances(s: State, t: Tid)
    requires HeapInv(s) && TailInv(s) && HeadInv(s) && ChunksInv(s) && Alone(s, t)
    requires PopThreadInv(s, t, s.pcs[t]) && PopOnTrack(s, s.pcs[t])
    requires PopSeeking(s.pcs[t]) ==> |s.poppers| < |s.pushed|
    ensures InPop(s.pcs[t]) && PopAdvances(s, PopNext(s, t, STEADY), t)
  {
    if PopSeeking(s.pcs[t]) {
      HeadIsOnSlot(s, t);
      PopSeekAdvances(s, t);
    } else if Destroying(s.pcs[t]) {
      assert BatonInv(s, s.pcs[t].at.block);
      DestroyAdvances(s, t);
    } else {
      WorkAdvances(s, t);
    }
  }

  /** `t` runs alone towards the end of its pop, the n-th one to claim a slot. */
  predicate PopTowards(s: State, t: Tid, pushed: seq<Value>, n: nat) {
    && Alone(s, t) && (s.pcs[t].Idle? || PopOnTrack(s, s.pcs[t])) && s.pushed == pushed
    && |s.poppers| + (if PopSeeking(s.pcs[t]) then 1 else 0) == n <= |pushed|
  }

  lemma PopAdvancesTowards(s: State, s': State, t: Tid, pushed: seq<Value>, n: nat)
    requires PopTowards(s, t, pushed, n) && !s.pcs[t].Idle? && PopAdvances(s, s', t) && Alone(s', t)
    ensures PopTowards(s', t, pushed, n) && PopRank(s'.pcs[t]) < PopRank(s.pcs[t])
  {
  }

  /** At rank 0 the pop is over. */
  lemma PopArrives(s: State, t: Tid, pushed: seq<Value>, n: nat)
    requires PopTowards(s, t, pushed, n)
    ensures PopRank(s.pcs[t]) == 0 <==> s.pcs[t].Idle?
    ensures s.pcs[t].Idle? ==> Quiescent(s) && s.pushed == pushed && |s.poppers| == n
  {
  }

  lemma PopStepTowards(s: State, t: Tid, pushed: seq<Value>, n: nat)
    requires HeapInv(s) && TailInv(s) && HeadInv(s) && ChunksInv(s) && t < |s.pcs| && ThreadInv(s, t)
    requires PopTowards(s, t, pushed, n) && !s.pcs[t].Idle?
    ensures PopTowards(Next(s, t, STEADY), t, pushed, n)
    ensures PopRank(Next(s, t, STEADY).pcs[t]) < PopRank(s.pcs[t])
  {
    StaysAlone(s, t, STEADY);
    PopNextAdvances(s, t);
    PopAdvancesTowards(s, Next(s, t, STEADY), t, pushed, n);
  }

  lemma PopOneStep(threads: nat, bound: nat, schedule: Schedule, t: Tid, pushed: seq<Value>, n: nat)
    requires IsBound(bound) && t < threads && PopTowards(Run(threads, bound, schedule), t, pushed, n)
    requires PopRank(Run(threads, bound, schedule).pcs[t]) > 0
    ensures var s, s' := Run(threads, bound, schedule), Run(threads, bound, schedule + [(t, STEADY)]);
      PopTowards(s', t, pushed, n) && PopRank(s'.pcs[t]) < PopRank(s.pcs[t])
  {
    PopArrives(Run(threads, bound, schedule), t, pushed, n);
    RunExtends(threads, bound, schedule, (t, STEADY));
    PopStepTowards(Run(threads, bound, schedule), t, pushed, n);
  }

  lemma PopRunsOn(threads: nat, bound: nat, schedule: Schedule, t: Tid, pushed: seq<Value>, n: nat)
    returns (longer: Schedule)
    requires IsBound(bound) && t < threads && PopTowards(Run(threads, bound, schedule), t, pushed, n)
    ensures GoesOnAlone(schedule, longer, t, PopRank(Run(threads, bound, schedule).pcs[t]))
    ensures var s := Run(threads, bound, longer); Quiescent(s) && s.pushed == pushed && |s.poppers| == n
  {
    var good: Schedule -> bool := q => PopTowards(Run(threads, bound, q), t, pushed, n);
    var rank: Schedule -> nat := q => PopRank(Run(threads, bound, q).pcs[t]);
    forall q | good(q) && rank(q) > 0 ensures good(q + [(t, STEADY)]) && rank(q + [(t, STEADY)]) < rank(q) {
      PopOneStep(threads, bound, q, t, pushed, n);
    }
    longer := ReachesEnd(good, rank, (t, STEADY), schedule);
    PopArrives(Run(threads, bound, longer), t, pushed, n);
  }

  lemma PopStarts(s: State, t: Tid)
    requires HeapInv(s) && Quiescent(s) && t < |s.pcs| && ThreadInv(s, t) && |s.poppers| < |s.pushed|
    ensures PopTowards(Next(s, t, STEADY), t, s.pushed, |s.poppers| + 1) && PopRank(Next(s, t, STEADY).pcs[t]) == 80
  {
  }

  lemma PopBegins(threads: nat, bound: nat, schedule: Schedule, t: Tid)
    requires IsBound(bound) && t < threads && Quiescent(Run(threads, bound, schedule))
    requires |Run(threads, bound, schedule).poppers| < |Run(threads, bound, schedule).pushed|
    ensures var s, s' := Run(threads, bound, schedule), Run(threads, bound, schedule + [(t, STEADY)]);
      PopTowards(s', t, s.pushed, |s.poppers| + 1) && PopRank(s'.pcs[t]) == 80
  {
    RunExtends(threads, bound, schedule, (t, STEADY));
    PopStarts(Run(threads, bound, schedule), t);
  }

  lemma PopHasReturned(threads: nat, bound: nat, before: Schedule, longer: Schedule)
    requires IsBound(bound)
    requires var s, s' := Run(threads, bound, before), Run(threads, bound, longer);
      |s.poppers| < |s.pushed| && Quiescent(s') && s'.pushed == s.pushed && |s'.poppers| == |s.poppers| + 1
    ensures var s, s' := Run(threads, bound, before), Run(threads, bound, longer);
      |s.poppers| in s'.returned && s'.returned[|s.poppers|] == Contents(s)[0]
  {
    QuiescentPops(Run(threads, bound, longer));
  }

  /**
   From every quiescent state of every run, a thread that runs alone pops the oldest value, if there is one,
   within 81 steps, if its CAS does not fail spuriously.
   */
  lemma PopCompletes(threads: nat, bound: nat, schedule: Schedule, t: Tid) returns (longer: Schedule)
    requires IsBound(bound) && t < threads && Quiescent(Run(threads, bound, schedule))
    requires |Run(threads, bound, schedule).poppers| < |Run(threads, bound, schedule).pushed|
    ensures GoesOnAlone(schedule, longer, t, 81)
    ensures var s, s' := Run(threads, bound, schedule), Run(threads, bound, longer);
      && Quiescent(s') && s'.pushed == s.pushed && |s'.poppers| == |s.poppers| + 1
      && |s.poppers| in s'.returned && s'.returned[|s.poppers|] == Contents(s)[0]
  {
    var s := Run(threads, bound, schedule);
    PopBegins(threads, bound, schedule, t);
    longer := PopRunsOn(threads, bound, schedule + [(t, STEADY)], t, s.pushed, |s.poppers| + 1);
    PopHasReturned(threads, bound, schedule, longer);
  }

  // ---------- pop from an empty queue ----------

  /** The words of a queue that is empty and at rest. */
  predicate EmptyWords(s: State) {
    Pos(s.headIndex) == Pos(s.tailIndex) && !HasNext(s.headIndex) && Offset(s.headIndex) < CHUNK_CAP
  }

  lemma EmptyAtRest(s: State)
    requires Inv(s) && Quiescent(s) && |s.poppers| == |s.pushed|
    ensures EmptyWords(s)
  {
    QuiescentShape(s);
    CountMonotone(s.headIndex, s.tailIndex);
  }

  /** `t` has got as far as `pc` in a pop from `s`; nothing else has changed. */
  predicate EmptyTowards(s: State, s': State, t: Tid) {
    && t < |s.pcs| == |s'.pcs| && s' == s.(pcs := s.pcs[t := s'.pcs[t]])
    && match s'.pcs[t]
       case PopLoadIndex => true
       case PopLoadChunk(head) => head == s.headIndex
       case PopTest(head, chunk) => head == s.headIndex && chunk == s.headChunk
       case PopLoadTail(head, chunk) => head == s.headIndex && chunk == s.headChunk
       case _ => false
  }

  /** How many steps are left to the read of the tail. */
  function EmptyRank(pc: Pc): (n: nat) {
    if pc.PopLoadIndex? then 3 else if pc.PopLoadChunk? then 2 else if pc.PopTest? then 1 else 0
  }

  lemma EmptyStep(s: State, s': State, t: Tid)
    requires EmptyWords(s) && EmptyTowards(s, s', t) && EmptyRank(s'.pcs[t]) > 0
    requires HeapInv(s') && ThreadInv(s', t)
    ensures var s'' := Next(s', t, STEADY);
      EmptyTowards(s, s'', t) && EmptyRank(s''.pcs[t]) < EmptyRank(s'.pcs[t])
  {
  }

  lemma EmptyOneStep(threads: nat, bound: nat, s: State, schedule: Schedule, t: Tid)
    requires IsBound(bound) && t < threads && EmptyWords(s) && EmptyTowards(s, Run(threads, bound, schedule), t)
    requires EmptyRank(Run(threads, bound, schedule).pcs[t]) > 0
    ensures var s', s'' := Run(threads, bound, schedule), Run(threads, bound, schedule + [(t, STEADY)]);
      EmptyTowards(s, s'', t) && EmptyRank(s''.pcs[t]) < EmptyRank(s'.pcs[t])
  {
    RunExtends(threads, bound, schedule, (t, STEADY));
    EmptyStep(s, Run(threads, bound, schedule), t);
  }

  lemma EmptyStarts(s: State, t: Tid)
    requires HeapInv(s) && Quiescent(s) && t < |s.pcs| && ThreadInv(s, t)
    ensures EmptyTowards(s, Next(s, t, STEADY), t) && EmptyRank(Next(s, t, STEADY).pcs[t]) == 3
  {
  }

  lemma EmptyRunsOn(threads: nat, bound: nat, s: State, schedule: Schedule, t: Tid) returns (longer: Schedule)
    requires IsBound(bound) && t < threads && EmptyWords(s) && EmptyTowards(s, Run(threads, bound, schedule), t)
    ensures GoesOnAlone(schedule, longer, t, EmptyRank(Run(threads, bound, schedule).pcs[t]))
    ensures EmptyTowards(s, Run(threads, bound, longer), t) && EmptyRank(Run(threads, bound, longer).pcs[t]) == 0
  {
    var good: Schedule -> bool := q => EmptyTowards(s, Run(threads, bound, q), t);
    var rank: Schedule -> nat := q => EmptyRank(Run(threads, bound, q).pcs[t]);
    forall q | good(q) && rank(q) > 0 ensures good(q + [(t, STEADY)]) && rank(q + [(t, STEADY)]) < rank(q) {
      EmptyOneStep(threads, bound, s, q, t);
    }
    longer := ReachesEnd(good, rank, (t, STEADY), schedule);
  }

  /** The read of the tail ends the pop with `Err` and leaves no trace. */
  lemma EmptyReturns(s: State, s': State, t: Tid)
    requires Quiescent(s) && EmptyWords(s) && EmptyTowards(s, s', t) && EmptyRank(s'.pcs[t]) == 0
    requires HeapInv(s') && ThreadInv(s', t)
    ensures ReturnsErr(s', t) && Next(s', t, STEADY) == s
  {
    assert s.pcs[t := Idle] == s.pcs;
  }

  /**
   From every quiescent state of every run with an empty queue, a thread that runs alone returns `Err` from its
   pop within 5 steps, and everything is as it was.
   */
  lemma EmptyPopCompletes(threads: nat, bound: nat, schedule: Schedule, t: Tid) returns (longer: Schedule)
    requires IsBound(bound) && t < threads && Quiescent(Run(threads, bound, schedule))
    requires |Run(threads, bound, schedule).poppers| == |Run(threads, bound, schedule).pushed|
    ensures GoesOnAlone(schedule, longer, t, 4) && ReturnsErr(Run(threads, bound, longer), t)
    ensures Run(threads, bound, longer + [(t, STEADY)]) == Run(threads, bound, schedule)
  {
    var s := Run(threads, bound, schedule);
    EmptyAtRest(s);
    RunExtends(threads, bound, schedule, (t, STEADY));
    EmptyStarts(s, t);
    longer := EmptyRunsOn(threads, bound, s, schedule + [(t, STEADY)], t);
    RunExtends(threads, bound, longer, (t, STEADY));
    EmptyReturns(s, Run(threads, bound, longer), t);
  }

  // ---------- Draining a chunk ----------

  /** One thread that pushes and pops `n` times. */
  lemma {:induction false} PushAndPop(bound: nat, item: Value, n: nat) returns (schedule: Schedule)
    requires IsBound(bound)
    ensures var s := Run(1, bound, schedule); Quiescent(s) && |s.poppers| == |s.pushed| == n
  {
    schedule := [];
    if n > 0 {
      schedule := PushAndPop(bound, item, n - 1);
      schedule := PushCompletes(1, bound, schedule, 0, item);
      schedule := PopCompletes(1, bound, schedule, 0);
    }
  }

  lemma FullyPopped(s: State)
    requires HeapInv(s) && TailInv(s) && HeadInv(s) && Quiescent(s) && |s.poppers| == CHUNK_CAP
    ensures 0 < |s.chain| && Drained(s, 0)
  {
  }

  /**
   After 31 pushes and 31 pops of one thread the first chunk is drained: with the shorter bound it has been
   released, with the bound as written it has not, and never will be.
   */
  lemma DrainedIsReachable(bound: nat, item: Value) returns (schedule: Schedule)
    requires IsBound(bound)
    ensures var s := Run(1, bound, schedule);
      Quiescent(s) && 0 < |s.chain| && Drained(s, 0) && (s.chain[0] in s.freed <==> bound == CHUNK_CAP - 1)
  {
    schedule := PushAndPop(bound, item, CHUNK_CAP);
    FullyPopped(Run(1, bound, schedule));
    EveryDrainedChunk(1, bound, schedule, 0);
  }
}
