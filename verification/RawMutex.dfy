/**
 `RawMutex` (src/mutex/raw_mutex.rs) as a transition system: one atomic access to the state byte,
 or one action inside the bucket's critical section, per step, and any number of threads.
 A run is a schedule of (thread, choice) pairs; every theorem below is about every schedule.
 */
module RawMutex {
  import opened Wrappers
  import opened Threads

  datatype Token = Normal | Handoff

  /** The two bits of `state`. */
  datatype Word = Word(locked: bool, parked: bool)

  const LOCKED_PARKED := Word(true, true)

  /** The program point of a thread; each one performs the access named beside it. */
  datatype Pc =
    | Idle
    | LockFast                                    // lock: CAS 0 -> LOCKED_BIT
    | SlowLoad                                    // lock_slow: load state
    | LockCas(seen: Word)                         // lock_slow: CAS seen -> seen | LOCKED_BIT
    | ParkBitCas(seen: Word)                      // lock_slow: CAS seen -> seen | PARKED_BIT
    | ParkEnter                                   // park: lock_bucket
    | ParkValidate                                // park: the validate callback
    | ParkAppend                                  // park: prepare_park and append to the queue
    | ParkLeave(queued: bool)                     // park: unlock the bucket
    | Asleep                                      // park: wait for the flag, then read the token
    | Owning                                      // between lock and unlock
    | UnlockFast                                  // unlock: CAS LOCKED_BIT -> 0
    | UnparkEnter                                 // unpark_one: lock_bucket
    | UnparkDequeue                               // unpark_one: remove the first queued thread
    | UnparkCallback(target: Option<Tid>, more: bool, fair: bool)
    | UnparkToken(wakee: Tid, token: Token)       // unpark_one: store the token
    | UnparkFlag(wakee: Tid, token: Token)        // unpark_one: clear the parker flag
    | UnparkLeave                                 // unpark_one: unlock the bucket

  /**
   `owner` is a history variable: the thread the protocol regards as the owner. No step reads it.
   `flags[t]` says that the parker flag of thread t is nonzero.
   */
  datatype State = State(
    word: Word,
    queue: seq<Tid>,
    bucket: Option<Tid>,
    flags: seq<bool>,
    tokens: seq<Token>,
    pcs: seq<Pc>,
    owner: Option<Tid>)

  /**
   What the scheduler decides: whether a weak CAS fails spuriously, whether `SpinWait::spin` still
   spins, and whether the bucket's fairness timeout has expired.
   */
  datatype Choice = Choice(spurious: bool, spin: bool, fair: bool)

  /** Who steps, in which order and with which choices. */
  type Schedule = seq<(Tid, Choice)>

  function Init(threads: nat): (s: State) {
    State(Word(false, false), [], None,
          seq(threads, _ => false), seq(threads, _ => Normal), seq(threads, _ => Idle), None)
  }

  function Goto(s: State, t: Tid, pc: Pc): (s': State)
    requires t < |s.pcs|
  {
    s.(pcs := s.pcs[t := pc])
  }

  /** The tests at the top of the loop in `lock_slow`, on the value just seen. */
  function Decide(seen: Word, spin: bool): (pc: Pc) {
    if !seen.locked then LockCas(seen)
    else if !seen.parked && spin then SlowLoad
    else if !seen.parked then ParkBitCas(seen)
    else ParkEnter
  }

  function LockFastStep(s: State, t: Tid, c: Choice): (s': State)
    requires t < |s.pcs|
  {
    if s.word == Word(false, false) && !c.spurious then
      Goto(s, t, Owning).(word := Word(true, false), owner := Some(t))
    else Goto(s, t, SlowLoad)
  }

  function LockCasStep(s: State, t: Tid, seen: Word, c: Choice): (s': State)
    requires t < |s.pcs|
  {
    if s.word == seen && !c.spurious then
      Goto(s, t, Owning).(word := seen.(locked := true), owner := Some(t))
    else Goto(s, t, Decide(s.word, c.spin))
  }

  function ParkBitCasStep(s: State, t: Tid, seen: Word, c: Choice): (s': State)
    requires t < |s.pcs|
  {
    if s.word == seen && !c.spurious then
      Goto(s, t, ParkEnter).(word := seen.(parked := true))
    else Goto(s, t, Decide(s.word, c.spin))
  }

  /** Waiting for a bucket lock that is taken is a stutter step. */
  function EnterStep(s: State, t: Tid, pc: Pc): (s': State)
    requires t < |s.pcs|
  {
    if s.bucket == None then Goto(s, t, pc).(bucket := Some(t)) else s
  }

  function ParkValidateStep(s: State, t: Tid): (s': State)
    requires t < |s.pcs|
  {
    Goto(s, t, if s.word == LOCKED_PARKED then ParkAppend else ParkLeave(false))
  }

  function ParkAppendStep(s: State, t: Tid): (s': State)
    requires t < |s.pcs| == |s.flags|
  {
    Goto(s, t, ParkLeave(true)).(flags := s.flags[t := true], queue := s.queue + [t])
  }

  function ParkLeaveStep(s: State, t: Tid, queued: bool): (s': State)
    requires t < |s.pcs|
  {
    Goto(s, t, if queued then Asleep else SlowLoad).(bucket := None)
  }

  function AsleepStep(s: State, t: Tid): (s': State)
    requires t < |s.pcs| == |s.flags| == |s.tokens|
  {
    if s.flags[t] then s
    else Goto(s, t, if s.tokens[t] == Handoff then Owning else SlowLoad)
  }

  function UnlockFastStep(s: State, t: Tid): (s': State)
    requires t < |s.pcs|
  {
    if s.word == Word(true, false) then
      Goto(s, t, Idle).(word := Word(false, false), owner := None)
    else Goto(s, t, UnparkEnter)
  }

  function UnparkDequeueStep(s: State, t: Tid, c: Choice): (s': State)
    requires t < |s.pcs|
  {
    if s.queue == [] then Goto(s, t, UnparkCallback(None, false, false))
    else Goto(s, t, UnparkCallback(Some(s.queue[0]), |s.queue| > 1, c.fair)).(queue := s.queue[1..])
  }

  /** The callback built in `unlock_slow`; its stores to `state` are blind. */
  function UnparkCallbackStep(s: State, t: Tid, target: Option<Tid>, more: bool, fair: bool): (s': State)
    requires t < |s.pcs|
  {
    if target.Some? && fair then
      Goto(s, t, UnparkToken(target.value, Handoff)).(
        word := if more then s.word else Word(true, false), owner := target)
    else
      var pc := if target.Some? then UnparkToken(target.value, Normal) else UnparkLeave;
      Goto(s, t, pc).(word := Word(false, more), owner := None)
  }

  function UnparkTokenStep(s: State, t: Tid, wakee: Tid, token: Token): (s': State)
    requires t < |s.pcs| == |s.tokens| && wakee < |s.tokens|
  {
    Goto(s, t, UnparkFlag(wakee, token)).(tokens := s.tokens[wakee := token])
  }

  function UnparkFlagStep(s: State, t: Tid, wakee: Tid): (s': State)
    requires t < |s.pcs| == |s.flags| && wakee < |s.flags|
  {
    Goto(s, t, UnparkLeave).(flags := s.flags[wakee := false])
  }

  predicate PcShape(pc: Pc, threads: nat) {
    match pc
    case UnparkCallback(target, _, _) => target.Some? ==> target.value < threads
    case UnparkToken(wakee, _) => wakee < threads
    case UnparkFlag(wakee, _) => wakee < threads
    case _ => true
  }

  /** What makes `Next` defined; the invariant contains it. */
  predicate Shape(s: State) {
    && |s.flags| == |s.tokens| == |s.pcs|
    && (forall t :: t in s.queue ==> t < |s.pcs|)
    && (forall t :: 0 <= t < |s.pcs| ==> PcShape(s.pcs[t], |s.pcs|))
  }

  /** Inside `unlock`. */
  predicate Unlocking(pc: Pc) {
    pc.UnlockFast? || pc.UnparkEnter? || pc.UnparkDequeue? || pc.UnparkCallback? || pc.UnparkToken? ||
    pc.UnparkFlag? || pc.UnparkLeave?
  }

  function UnlockNext(s: State, t: Tid, c: Choice): (s': State)
    requires Shape(s) && t < |s.pcs| && Unlocking(s.pcs[t])
    ensures |s'.pcs| == |s.pcs|
  {
    match s.pcs[t]
    case UnlockFast => UnlockFastStep(s, t)
    case UnparkEnter => EnterStep(s, t, UnparkDequeue)
    case UnparkDequeue => UnparkDequeueStep(s, t, c)
    case UnparkCallback(target, more, fair) => UnparkCallbackStep(s, t, target, more, fair)
    case UnparkToken(wakee, token) => UnparkTokenStep(s, t, wakee, token)
    case UnparkFlag(wakee, _) => UnparkFlagStep(s, t, wakee)
    case UnparkLeave => Goto(s, t, Idle).(bucket := None)
  }

  /** Inside `lock`, idle, or between `lock` and `unlock`. */
  function LockNext(s: State, t: Tid, c: Choice): (s': State)
    requires Shape(s) && t < |s.pcs| && !Unlocking(s.pcs[t])
    ensures |s'.pcs| == |s.pcs|
  {
    match s.pcs[t]
    case Idle => Goto(s, t, LockFast)
    case LockFast => LockFastStep(s, t, c)
    case SlowLoad => Goto(s, t, Decide(s.word, c.spin))
    case LockCas(seen) => LockCasStep(s, t, seen, c)
    case ParkBitCas(seen) => ParkBitCasStep(s, t, seen, c)
    case ParkEnter => EnterStep(s, t, ParkValidate)
    case ParkValidate => ParkValidateStep(s, t)
    case ParkAppend => ParkAppendStep(s, t)
    case ParkLeave(queued) => ParkLeaveStep(s, t, queued)
    case Asleep => AsleepStep(s, t)
    case Owning => Goto(s, t, UnlockFast)
  }

  /** One step of thread `t`. */
  function Next(s: State, t: Tid, c: Choice): (s': State)
    requires Shape(s) && t < |s.pcs|
    ensures |s'.pcs| == |s.pcs|
  {
    if Unlocking(s.pcs[t]) then UnlockNext(s, t, c) else LockNext(s, t, c)
  }

  // ---------- The inductive invariant ----------

  predicate InLockSlow(pc: Pc) {
    pc.SlowLoad? || pc.LockCas? || pc.ParkBitCas? || pc.ParkEnter? || pc.ParkValidate? ||
    pc.ParkAppend? || pc.ParkLeave? || pc.Asleep?
  }

  predicate HeadingToPark(pc: Pc) {
    pc.ParkEnter? || pc.ParkValidate? || pc.ParkAppend?
  }

  predicate InUnparkBody(pc: Pc) {
    pc.UnparkDequeue? || pc.UnparkCallback?
  }

  predicate HoldsBucket(pc: Pc) {
    pc.ParkValidate? || pc.ParkAppend? || pc.ParkLeave? || InUnparkBody(pc) ||
    pc.UnparkToken? || pc.UnparkFlag? || pc.UnparkLeave?
  }

  /** Thread `u` has dequeued `t` and has still to clear its flag. */
  predicate Notifying(pc: Pc, t: Tid) {
    || (pc.UnparkCallback? && pc.target == Some(t))
    || (pc.UnparkToken? && pc.wakee == t)
    || (pc.UnparkFlag? && pc.wakee == t)
  }

  /** `t` is asleep with the lock already handed to it. */
  predicate Granted(s: State, t: Tid)
    requires Shape(s) && t < |s.pcs|
  {
    && s.pcs[t].Asleep? && t !in s.queue
    && if s.bucket.Some? && s.bucket.value < |s.pcs| && Notifying(s.pcs[s.bucket.value], t)
       then var pc := s.pcs[s.bucket.value]; !pc.UnparkCallback? && pc.token == Handoff
       else s.tokens[t] == Handoff
  }

  predicate Owns(s: State, t: Tid)
    requires Shape(s) && t < |s.pcs|
  {
    var pc := s.pcs[t];
    || pc.Owning? || pc.UnlockFast? || pc.UnparkEnter? || InUnparkBody(pc)
    || Granted(s, t)
  }

  /** An awake contender: in `lock_slow` and not in the queue. */
  predicate Contender(s: State, t: Tid)
    requires t < |s.pcs|
  {
    InLockSlow(s.pcs[t]) && t !in s.queue
  }

  predicate ThreadInv(s: State, t: Tid)
    requires Shape(s) && t < |s.pcs|
  {
    var pc := s.pcs[t];
    && (Owns(s, t) <==> s.owner == Some(t))
    && (HoldsBucket(pc) <==> s.bucket == Some(t))
    && (pc.LockCas? ==> !pc.seen.locked)
    && (pc.ParkBitCas? ==> pc.seen == Word(true, false))
    && (pc.ParkAppend? || pc.UnparkEnter? || InUnparkBody(pc) ==> s.word == LOCKED_PARKED)
    && (t in s.queue ==> s.flags[t] && (pc.Asleep? || pc == ParkLeave(true)))
    && (pc == ParkLeave(true) ==> t in s.queue)
    && (pc.Asleep? && t !in s.queue && s.flags[t] ==>
          s.bucket.Some? && s.bucket.value < |s.pcs| && Notifying(s.pcs[s.bucket.value], t))
    && (pc.UnparkCallback? ==> (pc.more <==> s.queue != []))
    && (pc.UnparkCallback? && pc.target.None? ==> !pc.more)
    && (pc.UnparkCallback? && pc.target.Some? ==> AboutToWake(s, pc.target.value))
    && (pc.UnparkToken? ==> AboutToWake(s, pc.wakee))
    && (pc.UnparkFlag? ==> AboutToWake(s, pc.wakee) && s.tokens[pc.wakee] == pc.token)
  }

  predicate AboutToWake(s: State, t: Tid)
    requires Shape(s)
  {
    t < |s.pcs| && s.pcs[t].Asleep? && s.flags[t] && t !in s.queue
  }

  ghost predicate Inv(s: State) {
    && Shape(s)
    && Distinct(s.queue)
    && (s.word.locked <==> s.owner.Some?)
    && (s.owner.Some? ==> s.owner.value < |s.pcs|)
    && (s.bucket.Some? ==> s.bucket.value < |s.pcs|)
    && (forall t :: 0 <= t < |s.pcs| ==> ThreadInv(s, t))
    && (s.queue != [] ==> s.word.parked)
    && (s.word.parked && !s.word.locked ==> s.queue != [])
  }

  /** A free mutex with sleepers has an awake contender. */
  ghost predicate SleepersCovered(s: State) {
    s.queue != [] && !s.word.locked ==> exists u :: 0 <= u < |s.pcs| && Contender(s, u)
  }

  /** An unlocker that has dequeued a sleeper and not yet stored the new state. */
  predicate HasTaken(pc: Pc) {
    pc.UnparkCallback? && pc.target.Some?
  }

  /** A set PARKED_BIT on a locked mutex has a reason. */
  ghost predicate ParkedBitExplained(s: State) {
    s.word == LOCKED_PARKED && s.queue == [] ==>
      exists u :: 0 <= u < |s.pcs| && (HeadingToPark(s.pcs[u]) || HasTaken(s.pcs[u]))
  }

  /** A step that touches neither the bucket nor the queue keeps what holds of the other threads. */
  lemma BystanderKeepsInv(s: State, s': State, t: Tid, u: Tid)
    requires Shape(s) && Shape(s') && t < |s.pcs| && u < |s.pcs| && u != t
    requires |s'.pcs| == |s.pcs| && s' == s.(word := s'.word, owner := s'.owner, pcs := s.pcs[t := s'.pcs[t]])
    requires s.bucket.Some? ==> s.bucket.value < |s.pcs| && s.bucket.value != t
    requires s.pcs[t].Asleep? ==> !s.flags[t]
    requires s.owner == Some(u) <==> s'.owner == Some(u)
    requires s.word == s'.word || s.word != LOCKED_PARKED
    requires ThreadInv(s, u)
    ensures ThreadInv(s', u)
  {
  }

  /** A step on the state byte that keeps its own thread and the byte in order keeps the invariant. */
  lemma WordStepKeepsInv(s: State, s': State, t: Tid)
    requires Inv(s) && t < |s.pcs| == |s'.pcs| && Shape(s') && !HoldsBucket(s.pcs[t])
    requires s' == s.(word := s'.word, owner := s'.owner, pcs := s.pcs[t := s'.pcs[t]])
    requires s.pcs[t].Asleep? ==> !s.flags[t]
    requires s'.owner == s.owner || (s.owner in {None, Some(t)} && s'.owner in {None, Some(t)})
    requires s.word == s'.word || s.word != LOCKED_PARKED
    requires ThreadInv(s', t) && (s'.word.locked <==> s'.owner.Some?)
    requires s.queue != [] ==> s'.word.parked
    requires s'.word.parked && !s'.word.locked ==> s.queue != []
    ensures Inv(s')
  {
    assert ThreadInv(s, t);
    forall u | 0 <= u < |s.pcs| && u != t ensures ThreadInv(s', u) {
      assert ThreadInv(s, u);
      BystanderKeepsInv(s, s', t, u);
    }
  }

  lemma LocalStepKeepsInv(s: State, t: Tid, pc: Pc)
    requires Inv(s) && t < |s.pcs| && (s.pcs[t].Idle? || s.pcs[t].SlowLoad? || s.pcs[t].Owning?)
    requires Shape(Goto(s, t, pc)) && ThreadInv(Goto(s, t, pc), t)
    ensures Inv(Goto(s, t, pc))
  {
    WordStepKeepsInv(s, Goto(s, t, pc), t);
  }

  lemma LockFastKeepsInv(s: State, t: Tid, c: Choice)
    requires Inv(s) && t < |s.pcs| && s.pcs[t].LockFast?
    ensures Inv(LockFastStep(s, t, c))
  {
    var s' := LockFastStep(s, t, c);
    assert ThreadInv(s, t);
    WordStepKeepsInv(s, s', t);
  }

  lemma AcquireKeepsInv(s: State, t: Tid, seen: Word, c: Choice)
    requires Inv(s) && t < |s.pcs| && s.pcs[t] == LockCas(seen)
    ensures Inv(LockCasStep(s, t, seen, c))
  {
    var s' := LockCasStep(s, t, seen, c);
    assert ThreadInv(s, t);
    WordStepKeepsInv(s, s', t);
  }

  lemma ParkBitKeepsInv(s: State, t: Tid, seen: Word, c: Choice)
    requires Inv(s) && t < |s.pcs| && s.pcs[t] == ParkBitCas(seen)
    ensures Inv(ParkBitCasStep(s, t, seen, c))
  {
    var s' := ParkBitCasStep(s, t, seen, c);
    assert ThreadInv(s, t);
    WordStepKeepsInv(s, s', t);
  }

  lemma UnlockFastKeepsInv(s: State, t: Tid)
    requires Inv(s) && t < |s.pcs| && s.pcs[t].UnlockFast?
    ensures Inv(UnlockFastStep(s, t))
  {
    var s' := UnlockFastStep(s, t);
    assert ThreadInv(s, t);
    WordStepKeepsInv(s, s', t);
  }

  /** Locking the bucket in `park`, and the test of `validate`. */
  lemma ValidateKeepsInv(s: State, t: Tid, c: Choice)
    requires Inv(s) && t < |s.pcs| && (s.pcs[t].ParkEnter? || s.pcs[t].ParkValidate?)
    ensures Inv(LockNext(s, t, c))
  {
    var s' := LockNext(s, t, c);
    assert ThreadInv(s, t);
    forall u | 0 <= u < |s.pcs| ensures ThreadInv(s', u) {
      assert ThreadInv(s, u) && (s.bucket.Some? ==> ThreadInv(s, s.bucket.value));
    }
  }

  /** Queueing the thread in `park`, and unlocking the bucket. */
  lemma ParkKeepsInv(s: State, t: Tid, c: Choice)
    requires Inv(s) && t < |s.pcs| && (s.pcs[t].ParkAppend? || s.pcs[t].ParkLeave?)
    ensures Inv(LockNext(s, t, c))
  {
    var s' := LockNext(s, t, c);
    assert ThreadInv(s, t);
    forall u | 0 <= u < |s.pcs| ensures ThreadInv(s', u) {
      assert ThreadInv(s, u) && (s.bucket.Some? ==> ThreadInv(s, s.bucket.value));
    }
  }

  /** Locking and unlocking the bucket in `unpark_one`, and waking the thread it has chosen. */
  lemma UnparkKeepsInv(s: State, t: Tid, c: Choice)
    requires Inv(s) && t < |s.pcs|
    requires s.pcs[t].UnparkEnter? || s.pcs[t].UnparkToken? || s.pcs[t].UnparkFlag? || s.pcs[t].UnparkLeave?
    ensures Inv(UnlockNext(s, t, c))
  {
    var s' := UnlockNext(s, t, c);
    assert ThreadInv(s, t);
    forall u | 0 <= u < |s.pcs| ensures ThreadInv(s', u) {
      assert ThreadInv(s, u) && (s.bucket.Some? ==> ThreadInv(s, s.bucket.value));
    }
  }

  lemma AsleepKeepsInv(s: State, t: Tid)
    requires Inv(s) && t < |s.pcs| && s.pcs[t].Asleep?
    ensures Inv(AsleepStep(s, t))
  {
    if !s.flags[t] {
      assert ThreadInv(s, t);
      assert s.bucket.Some? ==> ThreadInv(s, s.bucket.value);
      WordStepKeepsInv(s, AsleepStep(s, t), t);
    }
  }

  lemma DequeueKeepsInv(s: State, t: Tid, c: Choice)
    requires Inv(s) && t < |s.pcs| && s.pcs[t].UnparkDequeue?
    ensures Inv(UnlockNext(s, t, c))
  {
    var s' := UnlockNext(s, t, c);
    assert ThreadInv(s, t);
    if s.queue != [] {
      assert s.queue[0] in s.queue && ThreadInv(s, s.queue[0]);
      assert forall u :: u in s.queue <==> u == s.queue[0] || u in s.queue[1..];
      assert s.queue[0] !in s.queue[1..];
    }
    forall u | 0 <= u < |s.pcs| ensures ThreadInv(s', u) {
      assert ThreadInv(s, u);
      if s.bucket.Some? {
        assert ThreadInv(s, s.bucket.value);
      }
    }
  }

  lemma CallbackKeepsInv(s: State, t: Tid, target: Option<Tid>, more: bool, fair: bool)
    requires Inv(s) && t < |s.pcs| && s.pcs[t] == UnparkCallback(target, more, fair)
    ensures Inv(UnparkCallbackStep(s, t, target, more, fair))
  {
    var s' := UnparkCallbackStep(s, t, target, more, fair);
    assert ThreadInv(s, t);
    forall u | 0 <= u < |s.pcs| ensures ThreadInv(s', u) {
      assert ThreadInv(s, u);
    }
  }

  lemma LockKeepsInv(s: State, t: Tid, c: Choice)
    requires Inv(s) && t < |s.pcs| && !Unlocking(s.pcs[t])
    ensures Inv(LockNext(s, t, c))
  {
    assert ThreadInv(s, t);
    match s.pcs[t]
    case Idle => LocalStepKeepsInv(s, t, LockFast);
    case SlowLoad => LocalStepKeepsInv(s, t, Decide(s.word, c.spin));
    case Owning => LocalStepKeepsInv(s, t, UnlockFast);
    case LockFast => LockFastKeepsInv(s, t, c);
    case LockCas(seen) => AcquireKeepsInv(s, t, seen, c);
    case ParkBitCas(seen) => ParkBitKeepsInv(s, t, seen, c);
    case ParkEnter | ParkValidate => ValidateKeepsInv(s, t, c);
    case ParkAppend | ParkLeave(_) => ParkKeepsInv(s, t, c);
    case Asleep => AsleepKeepsInv(s, t);
  }

  lemma UnlockKeepsInv(s: State, t: Tid, c: Choice)
    requires Inv(s) && t < |s.pcs| && Unlocking(s.pcs[t])
    ensures Inv(UnlockNext(s, t, c))
  {
    match s.pcs[t]
    case UnlockFast => UnlockFastKeepsInv(s, t);
    case UnparkDequeue => DequeueKeepsInv(s, t, c);
    case UnparkCallback(target, more, fair) => CallbackKeepsInv(s, t, target, more, fair);
    case UnparkEnter | UnparkToken(_, _) | UnparkFlag(_, _) | UnparkLeave => UnparkKeepsInv(s, t, c);
  }

  lemma InvStep(s: State, t: Tid, c: Choice)
    requires Inv(s) && t < |s.pcs|
    ensures Inv(Next(s, t, c))
  {
    if Unlocking(s.pcs[t]) {
      UnlockKeepsInv(s, t, c);
    } else {
      LockKeepsInv(s, t, c);
    }
  }

  lemma SleepersCoveredStep(s: State, t: Tid, c: Choice)
    requires Inv(s) && SleepersCovered(s) && t < |s.pcs|
    ensures SleepersCovered(Next(s, t, c))
  {
    var s' := Next(s, t, c);
    assert ThreadInv(s, t);
    if s'.queue != [] && !s'.word.locked {
      if s.pcs[t].UnparkCallback? {
        assert Contender(s', s.pcs[t].target.value);
      } else {
        var u :| 0 <= u < |s.pcs| && Contender(s, u);
        assert ThreadInv(s, u);
        assert s.bucket.Some? ==> ThreadInv(s, s.bucket.value);
        assert Contender(s', u);
      }
    }
  }

  lemma ParkedBitExplainedStep(s: State, t: Tid, c: Choice)
    requires Inv(s) && ParkedBitExplained(s) && t < |s.pcs|
    ensures ParkedBitExplained(Next(s, t, c))
  {
    var s' := Next(s, t, c);
    assert ThreadInv(s, t);
    if s'.word == LOCKED_PARKED && s'.queue == [] {
      if s.pcs[t].ParkBitCas? || (s.pcs[t].UnparkDequeue? && s.queue != []) {
        assert HeadingToPark(s'.pcs[t]) || HasTaken(s'.pcs[t]);
      } else {
        var u :| 0 <= u < |s.pcs| && (HeadingToPark(s.pcs[u]) || HasTaken(s.pcs[u]));
        assert HeadingToPark(s'.pcs[u]) || HasTaken(s'.pcs[u]);
      }
    }
  }

  // ---------- Theorems over every run ----------

  lemma InitInv(threads: nat)
    ensures Inv(Init(threads)) && SleepersCovered(Init(threads)) && ParkedBitExplained(Init(threads))
  {
  }

  /** The state after a schedule; entries naming no thread are ignored. */
  ghost function Run(threads: nat, schedule: Schedule): (s: State)
    ensures Inv(s) && SleepersCovered(s) && ParkedBitExplained(s) && |s.pcs| == threads
    decreases |schedule|
  {
    if schedule == [] then InitInv(threads); Init(threads)
    else
      var n := |schedule| - 1;
      var s := Run(threads, schedule[..n]);
      if schedule[n].0 >= threads then s
      else
        InvStep(s, schedule[n].0, schedule[n].1);
        SleepersCoveredStep(s, schedule[n].0, schedule[n].1);
        ParkedBitExplainedStep(s, schedule[n].0, schedule[n].1);
        Next(s, schedule[n].0, schedule[n].1)
  }

  /** At most one owner, and LOCKED_BIT is set exactly when there is one. */
  lemma MutualExclusion(threads: nat, schedule: Schedule)
    ensures var s := Run(threads, schedule);
      && (forall t, u :: 0 <= t < threads && 0 <= u < threads && Owns(s, t) && Owns(s, u) ==> t == u)
      && (s.word.locked <==> exists t :: 0 <= t < threads && Owns(s, t))
  {
    var s := Run(threads, schedule);
    forall t | 0 <= t < threads ensures Owns(s, t) <==> s.owner == Some(t) {
      assert ThreadInv(s, t);
    }
    if s.word.locked {
      assert Owns(s, s.owner.value);
    }
  }

  /** No run strands a sleeper. */
  lemma NeverStrandsSleeper(threads: nat, schedule: Schedule)
    ensures var s := Run(threads, schedule);
      s.queue != [] ==>
        && s.word.parked
        && (s.word.locked || exists u :: 0 <= u < threads && Contender(s, u))
        && (forall t :: t in s.queue ==> s.flags[t])
  {
    var s := Run(threads, schedule);
    assert forall t :: t in s.queue ==> ThreadInv(s, t);
  }

  /** Some thread owns the mutex, and only one. */
  ghost predicate OwnedByOne(s: State)
    requires Shape(s)
  {
    exists t :: 0 <= t < |s.pcs| && Owns(s, t) && forall u :: 0 <= u < |s.pcs| && Owns(s, u) ==> u == t
  }

  ghost predicate Unowned(s: State)
    requires Shape(s)
  {
    forall t :: 0 <= t < |s.pcs| ==> !Owns(s, t)
  }

  /** An unlocker has dequeued the last sleeper and not yet stored the new state. */
  ghost predicate LastTaken(s: State) {
    exists u :: 0 <= u < |s.pcs| && HasTaken(s.pcs[u]) && !s.pcs[u].more
  }

  ghost predicate NobodyHeading(s: State) {
    forall u :: 0 <= u < |s.pcs| ==> !HeadingToPark(s.pcs[u])
  }

  /** With nobody about to park, nobody is parked exactly while an unlocker has just taken the last sleeper. */
  lemma EmptyWhileTaken(s: State)
    requires Inv(s) && ParkedBitExplained(s) && s.word == LOCKED_PARKED && NobodyHeading(s)
    ensures s.queue == [] <==> LastTaken(s)
  {
    if s.queue == [] {
      var u :| 0 <= u < |s.pcs| && (HeadingToPark(s.pcs[u]) || HasTaken(s.pcs[u]));
      assert ThreadInv(s, u);
    }
    if LastTaken(s) {
      var u :| 0 <= u < |s.pcs| && HasTaken(s.pcs[u]) && !s.pcs[u].more;
      assert ThreadInv(s, u);
    }
  }

  /**
   The state table in the documentation of `RawMutex`, row by row. The last row says that some thread is
   parked or about to park; this fails exactly while an unlocker has taken the last sleeper and not yet
   stored the new state.
   */
  lemma StateTable(threads: nat, schedule: Schedule)
    ensures var s := Run(threads, schedule);
      match (s.word.parked, s.word.locked)
      case (false, false) => Unowned(s) && s.queue == []
      case (false, true) => OwnedByOne(s) && s.queue == []
      case (true, false) => Unowned(s) && s.queue != [] && exists u :: 0 <= u < threads && Contender(s, u)
      case (true, true) => OwnedByOne(s) && (NobodyHeading(s) ==> (s.queue == [] <==> LastTaken(s)))
  {
    MutualExclusion(threads, schedule);
    var s := Run(threads, schedule);
    if s.word == LOCKED_PARKED && NobodyHeading(s) {
      EmptyWhileTaken(s);
    }
  }

  lemma ClearsInBucket(s: State, t: Tid, c: Choice)
    requires Inv(s) && t < |s.pcs| && s.word.parked && !Next(s, t, c).word.parked
    ensures s.bucket == Some(t) && s.pcs[t].UnparkCallback? && s.word == LOCKED_PARKED
  {
    assert ThreadInv(s, t);
  }

  /** PARKED_BIT is only ever cleared by the unlock callback, with the bucket lock held. */
  lemma ParkedBitClearedInBucket(threads: nat, schedule: Schedule, t: Tid, c: Choice)
    requires t < threads
    requires Run(threads, schedule).word.parked && !Next(Run(threads, schedule), t, c).word.parked
    ensures var s := Run(threads, schedule); s.bucket == Some(t) && s.pcs[t].UnparkCallback? && s.word == LOCKED_PARKED
  {
    ClearsInBucket(Run(threads, schedule), t, c);
  }

  /** A fair unlock passes ownership to the dequeued thread without ever clearing LOCKED_BIT. */
  lemma HandoffKeepsLocked(s: State, t: Tid, c: Choice)
    requires Inv(s) && t < |s.pcs|
    requires s.pcs[t].UnparkCallback? && s.pcs[t].target.Some? && s.pcs[t].fair
    ensures var s' := Next(s, t, c); var heir := s.pcs[t].target.value;
      && Shape(s') && |s'.pcs| == |s.pcs| && heir < |s.pcs|
      && s.word.locked && s'.word.locked
      && Owns(s, t) && !Owns(s', t) && Owns(s', heir) && heir != t
      && (s'.word.parked <==> s'.queue != [])
  {
    InvStep(s, t, c);
    assert ThreadInv(s, t);
    var s' := Next(s, t, c);
    assert ThreadInv(s', t) && ThreadInv(s', s.pcs[t].target.value);
  }

  // ---------- Both bits set with nobody parked or about to park ----------

  const EAGER := Choice(false, false, false)

  /** A run of two threads without spurious failures, spinning or fairness, from the order of their steps alone. */
  function EagerRun(order: seq<Tid>): (s: State) {
    if order == [] then Init(2)
    else
      var n := |order| - 1;
      var s := EagerRun(order[..n]);
      if Shape(s) && order[n] < |s.pcs| then Next(s, order[n], EAGER) else s
  }

  lemma {:induction false} EagerRunIsRun(order: seq<Tid>) returns (schedule: Schedule)
    requires OfTwo(order)
    ensures Run(2, schedule) == EagerRun(order)
  {
    schedule := [];
    if order != [] {
      var n := |order| - 1;
      schedule := EagerRunIsRun(order[..n]);
      var longer := schedule + [(order[n], EAGER)];
      assert longer[..|longer| - 1] == schedule;
      return longer;
    }
  }

  predicate OfTwo(order: seq<Tid>) {
    forall i :: 0 <= i < |order| ==> order[i] < 2
  }

  lemma EagerShape(order: seq<Tid>)
    requires OfTwo(order)
    ensures Shape(EagerRun(order)) && |EagerRun(order).pcs| == 2
  {
    var _ := EagerRunIsRun(order);
  }

  lemma Go(order: seq<Tid>, t: Tid)
    requires OfTwo(order) && t < 2
    ensures var s := EagerRun(order);
      OfTwo(order + [t]) && Shape(s) && |s.pcs| == 2 && EagerRun(order + [t]) == Next(s, t, EAGER)
  {
    EagerShape(order);
    assert (order + [t])[..|order + [t]| - 1] == order;
  }

  /** Where the two threads are, and what they share. */
  predicate Scene(order: seq<Tid>, word: Word, queue: seq<Tid>, bucket: Option<Tid>, pc0: Pc, pc1: Pc) {
    var s := EagerRun(order);
    OfTwo(order) && s.word == word && s.queue == queue && s.bucket == bucket && s.pcs == [pc0, pc1]
  }

  /** Thread 0 takes the mutex. */
  lemma OneLocks() returns (order: seq<Tid>)
    ensures Scene(order, Word(true, false), [], None, Owning, Idle)
  {
    Go([], 0);
    Go([0], 0);
    order := [0] + [0];
  }

  /** Thread 1 finds it locked and sets PARKED_BIT. */
  lemma OneWaits() returns (order: seq<Tid>)
    ensures Scene(order, LOCKED_PARKED, [], None, Owning, ParkEnter)
  {
    order := OneLocks();
    Go(order, 1);
    Go(order + [1], 1);
    Go(order + [1] + [1], 1);
    Go(order + [1] + [1] + [1], 1);
    order := order + [1] + [1] + [1] + [1];
  }

  /** Thread 1 locks the bucket and finds both bits set. */
  lemma OneValidates() returns (order: seq<Tid>)
    ensures Scene(order, LOCKED_PARKED, [], Some(1), Owning, ParkAppend)
  {
    order := OneWaits();
    Go(order, 1);
    Go(order + [1], 1);
    order := order + [1] + [1];
  }

  /** Thread 1 falls asleep. */
  lemma OneSleeps() returns (order: seq<Tid>)
    ensures Scene(order, LOCKED_PARKED, [1], None, Owning, Asleep)
  {
    order := OneValidates();
    Go(order, 1);
    Go(order + [1], 1);
    order := order + [1] + [1];
  }

  /** Thread 0 finds PARKED_BIT set and locks the bucket. */
  lemma OneUnlocks() returns (order: seq<Tid>)
    ensures Scene(order, LOCKED_PARKED, [1], Some(0), UnparkDequeue, Asleep)
  {
    order := OneSleeps();
    Go(order, 0);
    Go(order + [0], 0);
    Go(order + [0] + [0], 0);
    order := order + [0] + [0] + [0];
  }

  /** Thread 0 dequeues thread 1. */
  lemma OneTakes() returns (order: seq<Tid>)
    ensures Scene(order, LOCKED_PARKED, [], Some(0), UnparkCallback(Some(1), false, false), Asleep)
  {
    order := OneUnlocks();
    Go(order, 0);
    order := order + [0];
  }

  /**
   The exception in the last row of the state table is reached: thread 0 unlocks and has dequeued thread 1,
   both bits are set, and no thread is parked or about to park.
   */
  lemma NobodyParkedIsReachable() returns (schedule: Schedule)
    ensures Run(2, schedule).word == LOCKED_PARKED && Run(2, schedule).queue == []
    ensures Run(2, schedule).pcs == [UnparkCallback(Some(1), false, false), Asleep]
    ensures forall u :: 0 <= u < 2 ==> !HeadingToPark(Run(2, schedule).pcs[u])
  {
    var order := OneTakes();
    schedule := EagerRunIsRun(order);
  }
}
