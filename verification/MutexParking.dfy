/**
 `RawMutex` uses the parking lot as its specification allows: the history of its calls of `park` and
 `unpark_one`, all on the key of the mutex, is legal, and its wait queue is the queue of that key.
 */
module MutexParking {
  import opened Wrappers
  import opened Threads
  import opened ParkingSpec
  import opened RawMutex

  /** TOKEN_NORMAL and TOKEN_HANDOFF. */
  function Code(token: Token): (n: nat) {
    if token == Handoff then 1 else 0
  }

  /** The sleeper that an unlocker has dequeued and for which the callback has not answered yet. */
  function Pending(s: State): (q: seq<Tid>) {
    if s.bucket.Some? && s.bucket.value < |s.pcs| && HasTaken(s.pcs[s.bucket.value])
    then [s.pcs[s.bucket.value].target.value] else []
  }

  /** The threads that wait for the mutex, as far as the specification can tell. */
  function Waiters(s: State): (q: seq<Tid>) {
    Pending(s) + s.queue
  }

  /** The token that a sleeper has received or is about to receive. */
  function TokenFor(s: State, t: Tid): (token: Token)
    requires t < |s.tokens|
  {
    if s.bucket.Some? && s.bucket.value < |s.pcs| then
      var pc := s.pcs[s.bucket.value];
      if (pc.UnparkToken? || pc.UnparkFlag?) && pc.wakee == t then pc.token else s.tokens[t]
    else s.tokens[t]
  }

  /** Where thread `t` is in its current `park`. */
  function Expected(s: State, t: Tid, k: nat): (st: Status)
    requires |s.tokens| == |s.pcs| && t < |s.pcs|
  {
    if t in Waiters(s) then Waiting(k)
    else if s.pcs[t].Asleep? then Woken(Code(TokenFor(s, t)))
    else Away
  }

  /** What the step of thread `t` is to the parking lot; `k` is the address of the mutex. */
  function Effect(s: State, t: Tid, k: nat): (events: seq<Event>)
    requires Shape(s) && t < |s.pcs|
  {
    match s.pcs[t]
    case ParkAppend => [Parked(t, k)]
    case ParkLeave(queued) => if queued then [] else [Returned(t, Invalid)]
    case Asleep => if s.flags[t] then [] else [Returned(t, Unparked(Code(s.tokens[t])))]
    case UnparkCallback(target, _, fair) =>
      if target.None? then [Missed(k)] else [Chosen(target.value, k, Code(if fair then Handoff else Normal))]
    case _ => []
  }

  /** The history of a run of the mutex. */
  ghost function ParkLog(threads: nat, schedule: Schedule, k: nat): (log: seq<Event>) {
    if schedule == [] then []
    else
      var n := |schedule| - 1;
      var log := ParkLog(threads, schedule[..n], k);
      if schedule[n].0 < threads then log + Effect(Run(threads, schedule[..n]), schedule[n].0, k) else log
  }

  ghost predicate Related(s: State, log: seq<Event>, k: nat) {
    && Shape(s) && Legal(log) && QueueOf(log, k) == Waiters(s)
    && forall t :: 0 <= t < |s.pcs| ==> StatusOf(log, t) == Expected(s, t, k)
  }

  // ---------- Steps that are no call ----------

  /** The specification sees no difference between `s` and `s'`. */
  ghost predicate LooksSame(s: State, s': State, k: nat)
    requires Shape(s)
  {
    && Shape(s') && |s'.pcs| == |s.pcs| && Waiters(s') == Waiters(s)
    && forall u :: 0 <= u < |s.pcs| ==> Expected(s', u, k) == Expected(s, u, k)
  }

  /** The thread at `pc` has dequeued nobody whom it has still to wake. */
  predicate Quiet(pc: Pc) {
    !pc.UnparkCallback? && !pc.UnparkToken? && !pc.UnparkFlag?
  }

  /** A step of `t` that leaves the queue and the tokens alone, and perhaps takes or drops the bucket. */
  predicate QuietStep(s: State, s': State, t: Tid)
    requires Shape(s)
  {
    && Shape(s') && t < |s.pcs| == |s'.pcs| && s'.pcs == s.pcs[t := s'.pcs[t]] && Quiet(s.pcs[t]) && Quiet(s'.pcs[t])
    && s'.queue == s.queue && s'.tokens == s.tokens
    && (s'.bucket == s.bucket || (s.bucket in {None, Some(t)} && s'.bucket in {None, Some(t)}))
  }

  lemma QuietLooksSame(s: State, s': State, t: Tid, k: nat)
    requires Shape(s) && QuietStep(s, s', t)
    requires t in s.queue || (s.pcs[t].Asleep? <==> s'.pcs[t].Asleep?)
    ensures LooksSame(s, s', k)
  {
    assert Waiters(s') == Waiters(s);
    forall u | 0 <= u < |s.pcs| ensures Expected(s', u, k) == Expected(s, u, k) {
      assert TokenFor(s', u) == TokenFor(s, u);
    }
  }

  lemma LockIsQuiet(s: State, t: Tid, c: Choice, k: nat)
    requires Shape(s) && t < |s.pcs| && ThreadInv(s, t)
    requires !Unlocking(s.pcs[t]) && Effect(s, t, k) == [] && Shape(LockNext(s, t, c))
    ensures QuietStep(s, LockNext(s, t, c), t)
    ensures t in s.queue || (s.pcs[t].Asleep? <==> LockNext(s, t, c).pcs[t].Asleep?)
  {
  }

  lemma LockLooksSame(s: State, t: Tid, c: Choice, k: nat)
    requires Inv(s) && t < |s.pcs| && !Unlocking(s.pcs[t]) && Effect(s, t, k) == [] && Shape(LockNext(s, t, c))
    ensures LooksSame(s, LockNext(s, t, c), k)
  {
    assert ThreadInv(s, t);
    LockIsQuiet(s, t, c, k);
    QuietLooksSame(s, LockNext(s, t, c), t, k);
  }

  lemma DequeueLooksSame(s: State, t: Tid, c: Choice, k: nat)
    requires Shape(s) && t < |s.pcs| && s.pcs[t].UnparkDequeue? && ThreadInv(s, t) && Shape(UnlockNext(s, t, c))
    ensures LooksSame(s, UnlockNext(s, t, c), k)
  {
    var s' := UnlockNext(s, t, c);
    assert s.bucket == Some(t) && Pending(s) == [];
    if s.queue != [] {
      assert Pending(s') == [s.queue[0]] && [s.queue[0]] + s.queue[1..] == s.queue;
    }
    assert Waiters(s') == Waiters(s);
    forall u | 0 <= u < |s.pcs| ensures Expected(s', u, k) == Expected(s, u, k) {
      assert TokenFor(s', u) == TokenFor(s, u);
    }
  }

  lemma UnlockLooksSame(s: State, t: Tid, c: Choice, k: nat)
    requires Inv(s) && t < |s.pcs| && Unlocking(s.pcs[t]) && Shape(UnlockNext(s, t, c))
    requires Effect(s, t, k) == [] && !s.pcs[t].UnparkDequeue?
    ensures LooksSame(s, UnlockNext(s, t, c), k)
  {
    assert ThreadInv(s, t);
  }

  lemma SameRelated(s: State, s': State, log: seq<Event>, k: nat)
    requires Shape(s) && LooksSame(s, s', k) && Related(s, log, k)
    ensures Related(s', log, k)
  {
  }

  // ---------- Steps that are calls ----------

  lemma ParkRelated(s: State, t: Tid, log: seq<Event>, k: nat)
    requires Inv(s) && t < |s.pcs| && s.pcs[t].ParkAppend? && Related(s, log, k) && Shape(ParkAppendStep(s, t))
    ensures Related(ParkAppendStep(s, t), log + [Parked(t, k)], k)
  {
    assert ThreadInv(s, t);
    Extend(log, Parked(t, k));
  }

  lemma ReturnRelated(s: State, s': State, t: Tid, log: seq<Event>, k: nat, result: ParkResult)
    requires Shape(s) && Shape(s') && t < |s.pcs| == |s'.pcs| && Related(s, log, k)
    requires LegalEvent(log, Returned(t, result)) && Waiters(s') == Waiters(s) && Expected(s', t, k) == Away
    requires forall u :: 0 <= u < |s.pcs| && u != t ==> Expected(s', u, k) == Expected(s, u, k)
    ensures Related(s', log + [Returned(t, result)], k)
  {
    Extend(log, Returned(t, result));
  }

  lemma InvalidRelated(s: State, t: Tid, log: seq<Event>, k: nat)
    requires Inv(s) && t < |s.pcs| && s.pcs[t] == ParkLeave(false) && Related(s, log, k)
    requires Shape(ParkLeaveStep(s, t, false))
    ensures Related(ParkLeaveStep(s, t, false), log + [Returned(t, Invalid)], k)
  {
    assert ThreadInv(s, t);
    ReturnRelated(s, ParkLeaveStep(s, t, false), t, log, k, Invalid);
  }

  /** A sleeper whose flag has been cleared waits no more, and its token is the one stored. */
  lemma AwakeHasToken(s: State, t: Tid)
    requires Inv(s) && t < |s.pcs| && s.pcs[t].Asleep? && !s.flags[t]
    ensures t !in Waiters(s) && TokenFor(s, t) == s.tokens[t]
  {
    assert ThreadInv(s, t) && (s.bucket.Some? ==> ThreadInv(s, s.bucket.value));
  }

  lemma UnparkedRelated(s: State, t: Tid, log: seq<Event>, k: nat)
    requires Inv(s) && t < |s.pcs| && s.pcs[t].Asleep? && !s.flags[t] && Related(s, log, k) && Shape(AsleepStep(s, t))
    ensures Related(AsleepStep(s, t), log + [Returned(t, Unparked(Code(s.tokens[t])))], k)
  {
    var s' := AsleepStep(s, t);
    AwakeHasToken(s, t);
    assert Waiters(s') == Waiters(s);
    forall u | 0 <= u < |s.pcs| && u != t ensures Expected(s', u, k) == Expected(s, u, k) {
      assert TokenFor(s', u) == TokenFor(s, u);
    }
    ReturnRelated(s, s', t, log, k, Unparked(Code(s.tokens[t])));
  }

  lemma MissRelated(s: State, t: Tid, log: seq<Event>, k: nat, more: bool, fair: bool)
    requires Inv(s) && t < |s.pcs| && s.pcs[t] == UnparkCallback(None, more, fair) && Related(s, log, k)
    requires Shape(UnparkCallbackStep(s, t, None, more, fair))
    ensures Related(UnparkCallbackStep(s, t, None, more, fair), log + [Missed(k)], k)
  {
    assert ThreadInv(s, t);
    Extend(log, Missed(k));
  }

  lemma {:induction false} RemoveFirst(x: Tid, q: seq<Tid>)
    requires x !in q
    ensures Remove([x] + q, x) == q
  {
    if q != [] {
      var n := |q| - 1;
      RemoveFirst(x, q[..n]);
      assert ([x] + q)[..|[x] + q| - 1] == [x] + q[..n];
    } else {
      assert [x] + q == [x] && [x][..0] == [];
    }
  }

  /** What the callback changes for the specification: the chosen thread waits no more. */
  lemma ChooseLooks(s: State, t: Tid, k: nat, x: Tid, more: bool, fair: bool)
    requires Shape(s) && t < |s.pcs| && s.pcs[t] == UnparkCallback(Some(x), more, fair) && ThreadInv(s, t)
    ensures var s' := UnparkCallbackStep(s, t, Some(x), more, fair);
      && Waiters(s) == [x] + s.queue && x !in s.queue && Waiters(s') == s.queue && Shape(s')
      && Expected(s', x, k) == Woken(Code(if fair then Handoff else Normal))
      && forall u :: 0 <= u < |s.pcs| && u != x ==> Expected(s', u, k) == Expected(s, u, k)
  {
    var s' := UnparkCallbackStep(s, t, Some(x), more, fair);
    assert s.bucket == Some(t) && Pending(s) == [x] && Pending(s') == [];
    forall u | 0 <= u < |s.pcs| && u != x ensures Expected(s', u, k) == Expected(s, u, k) {
      assert TokenFor(s', u) == TokenFor(s, u) && (u in Waiters(s') <==> u in Waiters(s));
    }
  }

  lemma ChooseRelated(s: State, t: Tid, log: seq<Event>, k: nat, x: Tid, more: bool, fair: bool)
    requires Inv(s) && t < |s.pcs| && s.pcs[t] == UnparkCallback(Some(x), more, fair) && Related(s, log, k)
    ensures Related(UnparkCallbackStep(s, t, Some(x), more, fair),
                    log + [Chosen(x, k, Code(if fair then Handoff else Normal))], k)
  {
    assert ThreadInv(s, t);
    ChooseLooks(s, t, k, x, more, fair);
    Extend(log, Chosen(x, k, Code(if fair then Handoff else Normal)));
    RemoveFirst(x, s.queue);
  }

  // ---------- Runs ----------

  lemma LockRelated(s: State, t: Tid, c: Choice, log: seq<Event>, k: nat)
    requires Inv(s) && t < |s.pcs| && !Unlocking(s.pcs[t]) && Related(s, log, k) && Shape(LockNext(s, t, c))
    ensures Related(LockNext(s, t, c), log + Effect(s, t, k), k)
  {
    if Effect(s, t, k) == [] {
      LockLooksSame(s, t, c, k);
      SameRelated(s, LockNext(s, t, c), log, k);
      assert log + Effect(s, t, k) == log;
    } else if s.pcs[t].ParkAppend? {
      ParkRelated(s, t, log, k);
    } else if s.pcs[t].ParkLeave? {
      InvalidRelated(s, t, log, k);
    } else {
      UnparkedRelated(s, t, log, k);
    }
  }

  lemma UnlockRelated(s: State, t: Tid, c: Choice, log: seq<Event>, k: nat)
    requires Inv(s) && t < |s.pcs| && Unlocking(s.pcs[t]) && Related(s, log, k) && Shape(UnlockNext(s, t, c))
    ensures Related(UnlockNext(s, t, c), log + Effect(s, t, k), k)
  {
    var pc := s.pcs[t];
    if pc.UnparkCallback? {
      if pc.target.None? {
        MissRelated(s, t, log, k, pc.more, pc.fair);
      } else {
        ChooseRelated(s, t, log, k, pc.target.value, pc.more, pc.fair);
      }
    } else {
      if pc.UnparkDequeue? {
        assert ThreadInv(s, t);
        DequeueLooksSame(s, t, c, k);
      } else {
        UnlockLooksSame(s, t, c, k);
      }
      SameRelated(s, UnlockNext(s, t, c), log, k);
      assert log + Effect(s, t, k) == log;
    }
  }

  lemma StepRelated(s: State, t: Tid, c: Choice, log: seq<Event>, k: nat)
    requires Inv(s) && t < |s.pcs| && Related(s, log, k) && Shape(Next(s, t, c))
    ensures Related(Next(s, t, c), log + Effect(s, t, k), k)
  {
    if Unlocking(s.pcs[t]) {
      UnlockRelated(s, t, c, log, k);
    } else {
      LockRelated(s, t, c, log, k);
    }
  }

  lemma RunExtends(threads: nat, schedule: Schedule, e: (Tid, Choice), k: nat)
    ensures var s := Run(threads, schedule);
      && Run(threads, schedule + [e]) == (if e.0 < threads then Next(s, e.0, e.1) else s)
      && ParkLog(threads, schedule + [e], k) ==
         (if e.0 < threads then ParkLog(threads, schedule, k) + Effect(s, e.0, k) else ParkLog(threads, schedule, k))
  {
    assert (schedule + [e])[..|schedule + [e]| - 1] == schedule;
  }

  lemma OneStepRelated(threads: nat, schedule: Schedule, e: (Tid, Choice), k: nat)
    requires Related(Run(threads, schedule), ParkLog(threads, schedule, k), k)
    ensures Related(Run(threads, schedule + [e]), ParkLog(threads, schedule + [e], k), k)
  {
    RunExtends(threads, schedule, e, k);
    if e.0 < threads {
      StepRelated(Run(threads, schedule), e.0, e.1, ParkLog(threads, schedule, k), k);
    }
  }

  /** What holds at the start and survives every step holds after every schedule. */
  lemma {:induction false} Everywhere(good: Schedule -> bool, schedule: Schedule)
    requires good([]) && forall q, e :: good(q) ==> good(q + [e])
    ensures good(schedule)
    decreases |schedule|
  {
    if schedule != [] {
      var n := |schedule| - 1;
      Everywhere(good, schedule[..n]);
      assert schedule == schedule[..n] + [schedule[n]];
    }
  }

  lemma InitRelated(threads: nat, k: nat)
    ensures Related(Init(threads), [], k)
  {
  }

  /**
   In every run of the mutex the history of its calls is legal, the threads waiting for the mutex are, in
   order, the queue of its key, and each thread is in its `park` where the history says.
   */
  lemma EveryHistoryIsLegal(threads: nat, schedule: Schedule, k: nat)
    ensures Related(Run(threads, schedule), ParkLog(threads, schedule, k), k)
  {
    InitRelated(threads, k);
    var good: Schedule -> bool := q => Related(Run(threads, q), ParkLog(threads, q, k), k);
    forall q, e | good(q) ensures good(q + [e]) {
      OneStepRelated(threads, q, e, k);
    }
    Everywhere(good, schedule);
  }

  /** Every event of a history that concerns a key concerns the key of the mutex. */
  lemma {:induction false} OneKey(threads: nat, schedule: Schedule, k: nat)
    ensures forall i :: 0 <= i < |ParkLog(threads, schedule, k)| ==>
      ParkLog(threads, schedule, k)[i].Returned? || ParkLog(threads, schedule, k)[i].k == k
    decreases |schedule|
  {
    if schedule != [] {
      OneKey(threads, schedule[..|schedule| - 1], k);
    }
  }

  /** So a normal unlock and a handoff go to the thread that has waited longest for the mutex. */
  lemma WakesLongestWaiting(threads: nat, schedule: Schedule, k: nat, j: nat, u: Tid)
    requires var log := ParkLog(threads, schedule, k);
      j < |log| && log[j].Chosen? && StatusOf(log[..j], u) == Waiting(k) && u != log[j].t
    ensures var log := ParkLog(threads, schedule, k); ParkedAt(log[..j], log[j].t) < ParkedAt(log[..j], u)
  {
    EveryHistoryIsLegal(threads, schedule, k);
    OneKey(threads, schedule, k);
    ChosenWaitedLongest(ParkLog(threads, schedule, k), j, u);
  }

  /** And a thread that owns the mutex by handoff was chosen by exactly one unlock, which handed it over. */
  lemma HandedOverByOne(threads: nat, schedule: Schedule, k: nat, j: nat, t: Tid) returns (p: nat, c: nat)
    requires var log := ParkLog(threads, schedule, k); j < |log| && log[j] == Returned(t, Unparked(Code(Handoff)))
    ensures var log := ParkLog(threads, schedule, k);
      && p < c < j && log[p] == Parked(t, k) && log[c] == Chosen(t, k, Code(Handoff))
      && Silent(log[..c], t, p + 1) && Silent(log[..j], t, c + 1)
  {
    var key: nat;
    EveryHistoryIsLegal(threads, schedule, k);
    p, c, key := UnparkedByOne(ParkLog(threads, schedule, k), j, t, Code(Handoff));
    OneKey(threads, schedule, k);
  }
}
