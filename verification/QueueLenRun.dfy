/** A run that brings head and tail to the same sentinel, where the subtraction in `len` underflows. */
module QueueLenRun {
  import opened Wrappers
  import opened Threads
  import opened QueueIndex
  import opened CoQueue
  import opened QueueInvariant
  import opened QueueRuns
  import opened QueueLenDrop
  import opened QueueEmpty

  /**
   Two threads per slot of the first chunk, one of which pushes and one pops, each stopping after its CAS;
   and one more thread, which calls `len`.
   */
  const THREADS := 2 * CHUNK_CAP + 1

  /** The steps that need no invariant to be defined: those on the way to a CAS, and those of `len`. */
  function Try(s: State, t: Tid, c: Choice): (r: Option<State>) {
    if t >= |s.pcs| then None
    else if s.pcs[t].Idle? then Some(StartStep(s, t, c))
    else if PopSeeking(s.pcs[t]) then Some(PopSeekNext(s, t, c))
    else if Measuring(s.pcs[t]) then Some(LenNext(s, t))
    else if Seeking(s.pcs[t]) && SeekReady(s, s.pcs[t]) then Some(SeekNext(s, t, c))
    else None
  }

  /** A run made of such steps only. */
  function TryRun(schedule: Schedule): (r: Option<State>) {
    if schedule == [] then Some(Init(THREADS, CHUNK_CAP))
    else
      var n := |schedule| - 1;
      match TryRun(schedule[..n])
      case None => None
      case Some(s) => Try(s, schedule[n].0, schedule[n].1)
  }

  lemma TryIsNext(s: State, t: Tid, c: Choice)
    requires HeapInv(s) && t < |s.pcs| && ThreadInv(s, t) && Try(s, t, c).Some?
    ensures Try(s, t, c).value == Next(s, t, c)
  {
  }

  lemma {:induction false} TryRunIsRun(schedule: Schedule)
    requires TryRun(schedule).Some?
    ensures TryRun(schedule).value == Run(THREADS, CHUNK_CAP, schedule)
  {
    if schedule != [] {
      var n := |schedule| - 1;
      TryRunIsRun(schedule[..n]);
      var s := Run(THREADS, CHUNK_CAP, schedule[..n]);
      assert ThreadInv(s, schedule[n].0);
      TryIsNext(s, schedule[n].0, schedule[n].1);
    }
  }

  lemma Go(schedule: Schedule, s: State, t: Tid, c: Choice) returns (longer: Schedule, s': State)
    requires TryRun(schedule) == Some(s) && Try(s, t, c).Some?
    ensures TryRun(longer) == Try(s, t, c) == Some(s')
  {
    longer, s' := schedule + [(t, c)], Try(s, t, c).value;
    assert longer[..|longer| - 1] == schedule;
  }

  /** Everything but the program point of `t` and the heap is as in `s`. */
  predicate Moved(s: State, s': State, t: Tid) {
    && s'.tailIndex == s.tailIndex && s'.tailChunk == s.tailChunk
    && s'.headIndex == s.headIndex && s'.headChunk == s.headChunk
    && t < |s.pcs| == |s'.pcs| && forall u :: 0 <= u < |s.pcs| && u != t ==> s'.pcs[u] == s.pcs[u]
  }

  lemma Begin(schedule: Schedule, s: State, t: Tid, c: Choice) returns (longer: Schedule, s': State)
    requires TryRun(schedule) == Some(s) && t < |s.pcs| && s.pcs[t].Idle?
    ensures TryRun(longer) == Some(s') && s' == StartStep(s, t, c)
  {
    longer, s' := Go(schedule, s, t, c);
  }

  lemma PushLoads(schedule: Schedule, s: State, t: Tid, c: Choice) returns (longer: Schedule, s': State)
    requires TryRun(schedule) == Some(s) && t < |s.pcs| && s.pcs[t].Idle? && c.start.StartPush?
    ensures TryRun(longer) == Some(s') && s' == Goto(s, t, PushTest(c.start.item, None, s.tailIndex, s.tailChunk))
  {
    longer, s' := Begin(schedule, s, t, c);
    longer, s' := Go(longer, s', t, c);
    longer, s' := Go(longer, s', t, c);
  }

  /** From the tests of `push` to its CAS, with a spare chunk at the last slot. */
  lemma PushTests(schedule: Schedule, s: State, t: Tid, c: Choice) returns (longer: Schedule, s': State)
    requires TryRun(schedule) == Some(s) && t < |s.pcs| && s.pcs[t].PushTest?
    requires s.pcs[t].chunk.Some? && Offset(s.pcs[t].tail) < CHUNK_CAP
    ensures TryRun(longer) == Some(s') && Moved(s, s', t)
    ensures s'.pcs[t].PushClaim? && s'.pcs[t].tail == s.pcs[t].tail
    ensures Offset(s'.pcs[t].tail) + 1 == CHUNK_CAP ==> s'.pcs[t].box.Some?
  {
    longer, s' := schedule, s;
    if Offset(s.pcs[t].tail) + 1 == CHUNK_CAP && s.pcs[t].box == None {
      longer, s' := Go(longer, s', t, c);
    }
    longer, s' := Go(longer, s', t, c);
  }

  /** The CAS of a push. */
  lemma PushCas(schedule: Schedule, s: State, t: Tid, c: Choice) returns (longer: Schedule, s': State)
    requires TryRun(schedule) == Some(s) && t < |s.pcs| && !c.spurious
    requires s.pcs[t].PushClaim? && s.pcs[t].tail == s.tailIndex
    requires s.pcs[t].box.Some? || Offset(s.tailIndex) + 1 != CHUNK_CAP
    ensures TryRun(longer) == Some(s') && Moved(s.(tailIndex := s.tailIndex + 2), s', t)
  {
    longer, s' := Go(schedule, s, t, c);
  }

  /** A push that stops after its CAS. */
  lemma PushRound(schedule: Schedule, s: State, t: Tid, c: Choice) returns (longer: Schedule, s': State)
    requires TryRun(schedule) == Some(s) && t < |s.pcs| && s.pcs[t].Idle? && c.start.StartPush? && !c.spurious
    requires s.tailChunk.Some? && Offset(s.tailIndex) < CHUNK_CAP
    ensures TryRun(longer) == Some(s') && Moved(s.(tailIndex := s.tailIndex + 2), s', t)
  {
    longer, s' := PushLoads(schedule, s, t, c);
    longer, s' := PushTests(longer, s', t, c);
    longer, s' := PushCas(longer, s', t, c);
  }

  lemma PopLoads(schedule: Schedule, s: State, t: Tid, c: Choice) returns (longer: Schedule, s': State)
    requires TryRun(schedule) == Some(s) && t < |s.pcs| && s.pcs[t].Idle? && c.start.StartPop?
    ensures TryRun(longer) == Some(s') && s' == Goto(s, t, PopTest(s.headIndex, s.headChunk))
  {
    longer, s' := Begin(schedule, s, t, c);
    longer, s' := Go(longer, s', t, c);
    longer, s' := Go(longer, s', t, c);
  }

  /** From the tests of `pop` to its CAS. */
  lemma PopTests(schedule: Schedule, s: State, t: Tid, c: Choice) returns (longer: Schedule, s': State)
    requires TryRun(schedule) == Some(s) && t < |s.pcs| && s.pcs[t].PopTest? && s.pcs[t].chunk.Some?
    requires Offset(s.pcs[t].head) < CHUNK_CAP && !HasNext(s.pcs[t].head)
    requires Pos(s.pcs[t].head) != Pos(s.tailIndex) && Block(s.pcs[t].head) == Block(s.tailIndex)
    ensures TryRun(longer) == Some(s')
    ensures s' == Goto(s, t, PopClaim(s.pcs[t].head, s.pcs[t].head + 2, s.pcs[t].chunk.value))
  {
    longer, s' := Go(schedule, s, t, c);
    longer, s' := Go(longer, s', t, c);
  }

  /** A pop that stops after its CAS. */
  lemma PopRound(schedule: Schedule, s: State, t: Tid, c: Choice) returns (longer: Schedule, s': State)
    requires TryRun(schedule) == Some(s) && t < |s.pcs| && s.pcs[t].Idle? && c.start.StartPop? && !c.spurious
    requires s.headChunk.Some? && Offset(s.headIndex) < CHUNK_CAP && !HasNext(s.headIndex)
    requires Pos(s.headIndex) != Pos(s.tailIndex) && Block(s.headIndex) == Block(s.tailIndex)
    ensures TryRun(longer) == Some(s') && Moved(s.(headIndex := s.headIndex + 2), s', t)
  {
    longer, s' := PopLoads(schedule, s, t, c);
    longer, s' := PopTests(longer, s', t, c);
    longer, s' := Go(longer, s', t, c);
  }

  /** `n` slots have been claimed on both sides, and thread 2n and all after it are idle. */
  predicate Level(s: State, n: nat) {
    && s.tailIndex == s.headIndex == 2 * n && s.tailChunk.Some? && s.headChunk.Some? && |s.pcs| == THREADS
    && forall u :: 2 * n <= u < THREADS ==> s.pcs[u].Idle?
  }

  /** The words between two sentinels. */
  lemma AtLevel(s: State, n: nat)
    requires Level(s, n) && n < CHUNK_CAP
    ensures Pos(s.headIndex) == n && Block(s.headIndex) == 0 && Offset(s.headIndex) == n && !HasNext(s.headIndex)
    ensures Pos(s.tailIndex + 2) == n + 1 && Block(s.tailIndex + 2) == 0
  {
  }

  lemma ClimbOne(schedule: Schedule, s: State, item: Value, n: nat) returns (longer: Schedule, s': State)
    requires 1 <= n < CHUNK_CAP && TryRun(schedule) == Some(s) && Level(s, n)
    ensures TryRun(longer) == Some(s') && Level(s', n + 1)
  {
    AtLevel(s, n);
    longer, s' := PushRound(schedule, s, 2 * n, Choice(StartPush(item), false));
    longer, s' := PopRound(longer, s', 2 * n + 1, Choice(StartPop, false));
  }

  lemma {:induction false} Climb(schedule: Schedule, s: State, item: Value, n: nat)
    returns (longer: Schedule, s': State)
    requires 1 <= n <= CHUNK_CAP && TryRun(schedule) == Some(s) && Level(s, n)
    ensures TryRun(longer) == Some(s') && Level(s', CHUNK_CAP)
    decreases CHUNK_CAP - n
  {
    longer, s' := schedule, s;
    if n < CHUNK_CAP {
      longer, s' := ClimbOne(longer, s', item, n);
      longer, s' := Climb(longer, s', item, n + 1);
    }
  }

  lemma TestAllocates(s: State, t: Tid, c: Choice)
    requires t < |s.pcs| && |s.owner| == |s.heap|
    requires s.pcs[t].PushTest? && s.pcs[t].tail == 0 && s.pcs[t].chunk == None && s.pcs[t].box == None
    ensures Try(s, t, c).Some?
    ensures var s' := Try(s, t, c).value;
      Moved(s, s', t) && s'.pcs[t].PushInstall? && s'.pcs[t].made < |s'.owner| && s'.pcs[t].tail == 0
  {
    assert Offset(0) == 0;
  }

  /** A push that finds no chunk allocates one. */
  lemma Allocates(schedule: Schedule, s: State, t: Tid, c: Choice) returns (longer: Schedule, s': State)
    requires TryRun(schedule) == Some(s) && t < |s.pcs| && |s.owner| == |s.heap|
    requires s.pcs[t].PushTest? && s.pcs[t].tail == 0 && s.pcs[t].chunk == None && s.pcs[t].box == None
    ensures TryRun(longer) == Some(s') && Moved(s, s', t)
    ensures s'.pcs[t].PushInstall? && s'.pcs[t].made < |s'.owner| && s'.pcs[t].tail == 0
  {
    TestAllocates(s, t, c);
    longer, s' := Go(schedule, s, t, c);
  }

  /** It publishes the chunk for push. */
  lemma Installs(schedule: Schedule, s: State, t: Tid, c: Choice) returns (longer: Schedule, s': State)
    requires TryRun(schedule) == Some(s) && t < |s.pcs| && s.tailChunk == None
    requires s.pcs[t].PushInstall? && s.pcs[t].made < |s.owner|
    ensures TryRun(longer) == Some(s') && s'.tailChunk.Some? && Moved(s.(tailChunk := s'.tailChunk), s', t)
    ensures s'.pcs[t].PushStoreHead? && s'.pcs[t].tail == s.pcs[t].tail
  {
    longer, s' := Go(schedule, s, t, c);
  }

  /** It publishes the chunk for pop. */
  lemma StoresHead(schedule: Schedule, s: State, t: Tid, c: Choice) returns (longer: Schedule, s': State)
    requires TryRun(schedule) == Some(s) && t < |s.pcs| && s.pcs[t].PushStoreHead?
    ensures TryRun(longer) == Some(s') && s'.headChunk.Some? && Moved(s.(headChunk := s'.headChunk), s', t)
    ensures s'.pcs[t].PushClaim? && s'.pcs[t].tail == s.pcs[t].tail
  {
    longer, s' := Go(schedule, s, t, c);
  }

  /** The first push. */
  lemma FirstPush(item: Value) returns (schedule: Schedule, s: State)
    ensures TryRun(schedule) == Some(s) && |s.pcs| == THREADS && s.tailChunk.Some? && s.headChunk.Some?
    ensures s.tailIndex == 0 == s.headIndex && s.pcs[0].PushClaim? && s.pcs[0].tail == 0
    ensures forall u :: 1 <= u < THREADS ==> s.pcs[u].Idle?
  {
    var c := Choice(StartPush(item), false);
    schedule, s := PushLoads([], Init(THREADS, CHUNK_CAP), 0, c);
    schedule, s := Allocates(schedule, s, 0, c);
    schedule, s := Installs(schedule, s, 0, c);
    schedule, s := StoresHead(schedule, s, 0, c);
  }

  lemma AtStart(s: State)
    requires s.headIndex == 0 && s.tailIndex == 2
    ensures Pos(s.headIndex) == 0 && Block(s.headIndex) == 0 && Offset(s.headIndex) == 0 && !HasNext(s.headIndex)
    ensures Pos(s.tailIndex) == 1 && Block(s.tailIndex) == 0
  {
  }

  lemma FirstRound(item: Value) returns (schedule: Schedule, s: State)
    ensures TryRun(schedule) == Some(s) && Level(s, 1)
  {
    schedule, s := FirstPush(item);
    schedule, s := PushCas(schedule, s, 0, Choice(StartPush(item), false));
    AtStart(s);
    schedule, s := PopRound(schedule, s, 1, Choice(StartPop, false));
  }

  /** A thread calls `len` and reads both words. */
  lemma LenReads(schedule: Schedule, s: State, t: Tid, c: Choice) returns (longer: Schedule, s': State)
    requires TryRun(schedule) == Some(s) && t < |s.pcs| && s.pcs[t].Idle? && c.start.StartLen?
    ensures TryRun(longer) == Some(s') && s' == Goto(s, t, LenCheck(s.tailIndex, s.headIndex, s.tailIndex))
  {
    longer, s' := Begin(schedule, s, t, c);
    longer, s' := Go(longer, s', t, c);
    longer, s' := Go(longer, s', t, c);
  }

  /** `len` is about to succeed with its check and to compute with the same sentinel twice. */
  predicate LenFails(s: State, t: Tid) {
    && t < |s.pcs| && s.pcs[t].LenCheck? && s.tailIndex == s.pcs[t].tail
    && SameChunkEnd(s.pcs[t].tail, s.pcs[t].head) && LenResult(s.pcs[t].tail, s.pcs[t].head) == None
  }

  lemma LevelIsEmpty(s: State)
    requires HeapInv(s) && TailInv(s) && HeadInv(s) && s.tailIndex == s.headIndex == 2 * CHUNK_CAP
    ensures |s.poppers| <= |s.pushed| && Contents(s) == []
  {
    LengthIsCount(s);
  }

  lemma SentinelFails(s: State, t: Tid)
    requires t < |s.pcs| && s.tailIndex == s.headIndex == 2 * CHUNK_CAP
    requires s.pcs[t] == LenCheck(s.tailIndex, s.headIndex, s.tailIndex)
    ensures LenFails(s, t)
  {
  }

  lemma FailingRun(item: Value) returns (schedule: Schedule, s: State)
    ensures TryRun(schedule) == Some(s) && LenFails(s, THREADS - 1) && s.tailIndex == s.headIndex == 2 * CHUNK_CAP
  {
    schedule, s := FirstRound(item);
    schedule, s := Climb(schedule, s, item, 1);
    schedule, s := LenReads(schedule, s, THREADS - 1, Choice(StartLen, false));
    SentinelFails(s, THREADS - 1);
  }

  /**
   The call of `len` that fails is reachable: after 31 pushes and 31 pops that have each claimed a slot, both
   indices stand on the first sentinel and the queue is empty; `len` reads them, its check succeeds, and the
   subtraction underflows.
   */
  lemma SharedSentinelIsReachable(item: Value) returns (schedule: Schedule)
    ensures var s := Run(THREADS, CHUNK_CAP, schedule);
      LenFails(s, THREADS - 1) && |s.poppers| <= |s.pushed| && Contents(s) == []
  {
    var s: State;
    schedule, s := FailingRun(item);
    TryRunIsRun(schedule);
    LevelIsEmpty(s);
  }

  // ---------- A wrong answer of `is_empty` ----------

  /** The thread that rolls the tail over has two stores to make. */
  lemma RollChunk(s: State, u: Tid, c: Choice)
    requires HeapInv(s) && u < |s.pcs| && ThreadInv(s, u) && s.pcs[u].PushStoreChunk?
    ensures var s' := Next(s, u, c);
      s'.pcs[u].PushStoreIndex? && s'.tailIndex == s.tailIndex && s'.headIndex == s.headIndex
  {
  }

  lemma RollIndex(s: State, u: Tid, c: Choice)
    requires HeapInv(s) && u < |s.pcs| && ThreadInv(s, u) && s.pcs[u].PushStoreIndex?
    ensures Next(s, u, c).tailIndex == s.tailIndex + 2 && Next(s, u, c).headIndex == s.headIndex
  {
  }

  /** Of the two stores only the second moves the tail. */
  lemma RollTail(schedule: Schedule, u: Tid, c: Choice) returns (longer: Schedule)
    requires u < THREADS && Run(THREADS, CHUNK_CAP, schedule).pcs[u].PushStoreIndex?
    ensures var s, s' := Run(THREADS, CHUNK_CAP, schedule), Run(THREADS, CHUNK_CAP, longer);
      s'.tailIndex == s.tailIndex + 2 && s'.headIndex == s.headIndex
  {
    longer := schedule + [(u, c)];
    RunExtends(THREADS, CHUNK_CAP, schedule, (u, c));
    RollIndex(Run(THREADS, CHUNK_CAP, schedule), u, c);
  }

  lemma RollFromChunk(schedule: Schedule, u: Tid, c: Choice) returns (longer: Schedule)
    requires u < THREADS && Run(THREADS, CHUNK_CAP, schedule).pcs[u].PushStoreChunk?
    ensures var s, s' := Run(THREADS, CHUNK_CAP, schedule), Run(THREADS, CHUNK_CAP, longer);
      s'.pcs[u].PushStoreIndex? && s'.tailIndex == s.tailIndex && s'.headIndex == s.headIndex
  {
    longer := schedule + [(u, c)];
    RunExtends(THREADS, CHUNK_CAP, schedule, (u, c));
    RollChunk(Run(THREADS, CHUNK_CAP, schedule), u, c);
  }

  lemma Across(s: State)
    requires HeapInv(s) && TailInv(s) && HeadInv(s)
    requires s.headIndex == 2 * CHUNK_CAP && s.tailIndex == s.headIndex + 2
    ensures |s.poppers| <= |s.pushed| && Contents(s) == [] && !IsEmpty(s.headIndex, s.tailIndex)
  {
    EmptyAtOnce(s);
  }

  /** Whoever rolls the tail over from the sentinel makes it move on. */
  lemma TailMovesOn(schedule: Schedule, u: Tid, c: Choice) returns (longer: Schedule)
    requires u < THREADS
    requires var pc := Run(THREADS, CHUNK_CAP, schedule).pcs[u]; pc.PushStoreChunk? || pc.PushStoreIndex?
    ensures var s, s' := Run(THREADS, CHUNK_CAP, schedule), Run(THREADS, CHUNK_CAP, longer);
      s'.tailIndex == s.tailIndex + 2 && s'.headIndex == s.headIndex
  {
    longer := schedule;
    if Run(THREADS, CHUNK_CAP, schedule).pcs[u].PushStoreChunk? {
      longer := RollFromChunk(longer, u, c);
    }
    longer := RollTail(longer, u, c);
  }

  lemma SentinelRun(item: Value) returns (schedule: Schedule)
    ensures var s := Run(THREADS, CHUNK_CAP, schedule); s.tailIndex == s.headIndex == 2 * CHUNK_CAP
  {
    var s: State;
    schedule, s := FailingRun(item);
    TryRunIsRun(schedule);
  }

  /** With the tail on a sentinel somebody is rolling it over. */
  lemma Roller(s: State) returns (u: Tid)
    requires TailInv(s) && s.tailIndex == 2 * CHUNK_CAP
    ensures u < |s.pcs| && (s.pcs[u].PushStoreChunk? || s.pcs[u].PushStoreIndex?)
  {
    assert Offset(2 * CHUNK_CAP) == CHUNK_CAP;
    u := s.pushers[|s.pushers| - 1];
  }

  /** From there the tail steps over the sentinel: the queue is still empty, and `is_empty` says it is not. */
  lemma FalseOnEmptyIsReachable(item: Value) returns (schedule: Schedule)
    ensures var s := Run(THREADS, CHUNK_CAP, schedule);
      |s.poppers| <= |s.pushed| && Contents(s) == [] && !IsEmpty(s.headIndex, s.tailIndex)
  {
    schedule := SentinelRun(item);
    var u := Roller(Run(THREADS, CHUNK_CAP, schedule));
    schedule := TailMovesOn(schedule, u, Choice(StartLen, false));
    Across(Run(THREADS, CHUNK_CAP, schedule));
  }
}
