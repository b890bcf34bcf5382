/** The steps that park, unpark, time out and publish a table; whole runs and what they guarantee. */
module ParkingRuns {
  import opened Wrappers
  import opened Threads
  import opened Hashing
  import opened ParkingLists
  import opened ParkingSpec
  import opened ParkingProtocol
  import opened ParkingInvariant
  import opened ParkingSteps

  // ---------- Inside a bucket ----------

  /** The current table, and what is known about it. */
  lemma CurrentOk(s: State, table: nat)
    requires Inv(s) && IsCurrent(s, table)
    ensures TableOk(s.tables[table]) && QueuesOk(s.tables[table], s.key, s.log) && Legal(s.log)
    ensures forall k :: Home(s.tables[table], k) < |s.tables[table].queues|
  {
    forall k ensures Home(s.tables[table], k) < |s.tables[table].queues| {
      HashInTable(k, s.tables[table].bits);
    }
  }

  lemma SetQueueKeepsTables(s: State, table: nat, b: nat, q: seq<Tid>)
    requires TablesInv(s.tables) && HasBucket(s, table, b)
    ensures TablesInv(SetQueue(s, table, b, q).tables)
    ensures SetQueue(s, table, b, q).tables[table] == WithQueue(s.tables[table], b, q)
  {
    var tables := SetQueue(s, table, b, q).tables;
    forall i | 0 <= i < |tables| ensures TableOk(tables[i]) {
      assert TableOk(s.tables[i]);
    }
  }

  lemma ParkKeepsInv(s: State, t: Tid, op: Op, table: nat, k: nat, b: nat, valid: bool)
    requires Inv(s) && t < |s.pcs| && s.pcs[t] == Inside(op, table, k, b) && op.Park? && HasBucket(s, table, b)
    ensures Inv(ParkStep(s, t, op, table, k, b, valid))
  {
    assert ThreadInv(s, t);
    if valid {
      ParkQueuesKeepInv(s, t, op, table, k, b);
    } else {
      MoveKeepsInv(s, t, Leave(table, b, Return(Invalid)));
    }
  }

  lemma NotQueued(s: State, t: Tid, table: nat)
    requires Inv(s) && IsCurrent(s, table) && !StatusOf(s.log, t).Waiting?
    ensures forall c :: 0 <= c < |s.tables[table].queues| ==> t !in s.tables[table].queues[c]
  {
    CurrentOk(s, table);
    forall c | 0 <= c < |s.tables[table].queues| ensures t !in s.tables[table].queues[c] {
      if t in s.tables[table].queues[c] {
        QueuedIsWaiting(s.tables[table], s.key, s.log, c, t);
      }
    }
  }

  lemma ParkQueuesKeepInv(s: State, t: Tid, op: Op, table: nat, k: nat, b: nat)
    requires Inv(s) && t < |s.pcs| && s.pcs[t] == Inside(op, table, k, b) && op.Park? && HasBucket(s, table, b)
    ensures Inv(ParkStep(s, t, op, table, k, b, true))
  {
    var s' := ParkStep(s, t, op, table, k, b, true);
    assert ThreadInv(s, t);
    CurrentOk(s, table);
    NotQueued(s, t, table);
    AppendKeepsQueues(s.tables[table], s.key, s.log, k, t);
    SetQueueKeepsTables(s, table, b, s.tables[table].queues[b] + [t]);
    Extend(s.log, Parked(t, k));
    NobodyNotifies(s, t);
    SameLocks(s.locks, s.pcs, t, Leave(table, b, ToSleep(op.timed)));
    assert forall v :: v != t ==> SameData(s, s', v);
    Conclude(s, s', t, t);
  }

  lemma UnparkKeepsInv(s: State, t: Tid, op: Op, table: nat, k: nat, b: nat, token: nat)
    requires Inv(s) && t < |s.pcs| && s.pcs[t] == Inside(op, table, k, b) && op.Unpark? && HasBucket(s, table, b)
    ensures Inv(UnparkStep(s, t, table, k, b, token))
  {
    match First(OfKey(s.tables[table].queues[b], s.key, k))
    case None => MissKeepsInv(s, t, op, table, k, b, token);
    case Some(x) => ChooseKeepsInv(s, t, op, table, k, b, token, x);
  }

  lemma MissKeepsInv(s: State, t: Tid, op: Op, table: nat, k: nat, b: nat, token: nat)
    requires Inv(s) && t < |s.pcs| && s.pcs[t] == Inside(op, table, k, b) && op.Unpark? && HasBucket(s, table, b)
    requires First(OfKey(s.tables[table].queues[b], s.key, k)).None?
    ensures Inv(UnparkStep(s, t, table, k, b, token))
  {
    assert ThreadInv(s, t);
    CurrentOk(s, table);
    assert Refines(s.tables[table], s.key, s.log, k);
    NoteKeepsQueues(s.tables, s.key, s.log, Missed(k));
    Extend(s.log, Missed(k));
    var s1 := Log(s, Missed(k));
    assert SameData(s, s1, t);
    Conclude(s, s1, t, t);
    MoveKeepsInv(s1, t, Leave(table, b, Done));
  }

  /** The thread that `unpark_one` finds is the longest-waiting one on its key. */
  lemma ChosenIsFirst(s: State, table: nat, k: nat, x: Tid)
    requires Inv(s) && IsCurrent(s, table) && Home(s.tables[table], k) < |s.tables[table].queues|
    requires First(OfKey(s.tables[table].queues[Home(s.tables[table], k)], s.key, k)) == Some(x)
    ensures First(QueueOf(s.log, k)) == Some(x) && StatusOf(s.log, x) == Waiting(k)
    ensures x < |s.pcs| && s.key[x] == k && s.flag[x] && PhaseOf(s.pcs[x]) == Asleep
  {
    assert Refines(s.tables[table], s.key, s.log, k);
    assert x in QueueOf(s.log, k);
    QueueIsWaiters(s.log, k);
    OfKeyMembers(s.tables[table].queues[Home(s.tables[table], k)], s.key, k);
    assert ThreadInv(s, x);
  }

  /** The tables and queues after `unpark_one` has removed `x`. */
  lemma ChooseKeepsQueues(s: State, table: nat, k: nat, b: nat, token: nat, x: Tid)
    requires Inv(s) && IsCurrent(s, table) && HasBucket(s, table, b) && b == Home(s.tables[table], k)
    requires First(OfKey(s.tables[table].queues[b], s.key, k)) == Some(x)
    ensures var s' := SetQueue(s, table, b, Remove(s.tables[table].queues[b], x));
      TablesInv(s'.tables) && QueueInv(s'.tables, s.key, s.log + [Chosen(x, k, token)])
  {
    CurrentOk(s, table);
    ChosenIsFirst(s, table, k, x);
    RemoveKeepsQueues(s.tables[table], s.key, s.log, k, x, Chosen(x, k, token));
    SetQueueKeepsTables(s, table, b, Remove(s.tables[table].queues[b], x));
    Extend(s.log, Chosen(x, k, token));
  }

  /** A step that changes only queues, the history of `x` and the program point of `t`. */
  lemma ChooseIsStep(s: State, s': State, t: Tid, x: Tid, e: Event)
    requires Sized(s) && Sized(s') && t < |s.pcs| == |s'.pcs|
    requires s.pcs[t].Inside? && s'.pcs == s.pcs[t := s'.pcs[t]]
    requires s'.key == s.key && s'.flag == s.flag && s'.token == s.token
    requires s'.log == s.log + [e] && e.Chosen? && e.t == x
    requires TablesKept(s, s', t) && TablesInv(s'.tables)
    requires forall u :: 0 <= u < |s.pcs| && u != t ==> !Notifies(s.pcs[u], x)
    ensures StepOf(s, s', t, x)
  {
    Extend(s.log, e);
    forall v | v != x ensures SameData(s, s', v) {
    }
  }

  lemma ChooseKeepsInv(s: State, t: Tid, op: Op, table: nat, k: nat, b: nat, token: nat, x: Tid)
    requires Inv(s) && t < |s.pcs| && s.pcs[t] == Inside(op, table, k, b) && op.Unpark? && HasBucket(s, table, b)
    requires First(OfKey(s.tables[table].queues[b], s.key, k)) == Some(x)
    ensures Inv(UnparkStep(s, t, table, k, b, token))
  {
    var s' := UnparkStep(s, t, table, k, b, token);
    assert ThreadInv(s, t);
    ChosenIsFirst(s, table, k, x);
    ChooseKeepsQueues(s, table, k, b, token, x);
    Extend(s.log, Chosen(x, k, token));
    OnlyNotifier(s, t, x);
    ChooseIsStep(s, s', t, x, Chosen(x, k, token));
    SameLocks(s.locks, s.pcs, t, SetToken(table, k, b, x, token));
    ChooserIsFine(s, s', t, x);
    Conclude(s, s', t, x);
  }

  /** What the chooser and the chosen thread know afterwards. */
  lemma ChooserIsFine(s: State, s': State, t: Tid, x: Tid)
    requires Inv(s) && Sized(s') && t < |s.pcs| && s.pcs[t].Inside? && s.pcs[t].op.Unpark?
    requires x < |s.pcs| && s.key[x] == s.pcs[t].k && s.flag[x] && PhaseOf(s.pcs[x]) == Asleep
    requires |s'.pcs| == |s.pcs| && s'.key == s.key && s'.flag == s.flag && s'.token == s.token
    requires s'.pcs[t].SetToken? && s'.pcs == s.pcs[t := s'.pcs[t]]
    requires s'.pcs[t].target == x && s'.pcs[t].k == s.pcs[t].k && LocalInv(s', t)
    requires StatusOf(s'.log, x) == Woken(s'.pcs[t].token) && StatusOf(s'.log, t) == StatusOf(s.log, t)
    ensures ThreadInv(s', t) && ParkInv(s', x)
  {
    assert ThreadInv(s, t);
    assert Notifies(s'.pcs[t], x);
  }

  lemma TimeoutKeepsInv(s: State, t: Tid, table: nat, k: nat, b: nat)
    requires Inv(s) && t < |s.pcs| && s.pcs[t] == Inside(Timeout, table, k, b) && HasBucket(s, table, b)
    ensures Inv(TimeoutStep(s, t, table, k, b))
  {
    assert ThreadInv(s, t);
    if s.flag[t] {
      WithdrawKeepsInv(s, t, table, k, b);
    } else {
      MoveKeepsInv(s, t, Leave(table, b, ToToken));
    }
  }

  /**
   While somebody holds the bucket of a sleeper and is not just notifying it, a set flag means that the
   sleeper has not been chosen by anybody.
   */
  lemma FlagMeansWaiting(s: State, t: Tid, u: Tid)
    requires Inv(s) && HoldsHomeOf(s, u, t) && !Notifies(s.pcs[u], t)
    requires s.flag[t] && PhaseOf(s.pcs[t]) == Asleep
    ensures StatusOf(s.log, t) == Waiting(s.key[t])
  {
    OnlyNotifier(s, u, t);
    assert ThreadInv(s, t);
  }

  lemma WithdrawKeepsInv(s: State, t: Tid, table: nat, k: nat, b: nat)
    requires Inv(s) && t < |s.pcs| && s.pcs[t] == Inside(Timeout, table, k, b) && HasBucket(s, table, b) && s.flag[t]
    ensures Inv(TimeoutStep(s, t, table, k, b))
  {
    var s', e := TimeoutStep(s, t, table, k, b), Withdrawn(t, k);
    assert ThreadInv(s, t);
    CurrentOk(s, table);
    FlagMeansWaiting(s, t, t);
    RemoveKeepsQueues(s.tables[table], s.key, s.log, k, t, e);
    SetQueueKeepsTables(s, table, b, Remove(s.tables[table].queues[b], t));
    Extend(s.log, e);
    OnlyNotifier(s, t, t);
    SameLocks(s.locks, s.pcs, t, Leave(table, b, Return(TimedOut)));
    assert forall v :: v != t ==> SameData(s, s', v);
    Conclude(s, s', t, t);
  }

  lemma InsideKeepsInv(s: State, t: Tid, op: Op, table: nat, k: nat, b: nat, c: Choice)
    requires Inv(s) && t < |s.pcs| && s.pcs[t] == Inside(op, table, k, b)
    ensures Inv(InsideStep(s, t, op, table, k, b, c))
  {
    if HasBucket(s, table, b) {
      match op
      case Park(_, _) => ParkKeepsInv(s, t, op, table, k, b, c.yes);
      case Unpark(_) => UnparkKeepsInv(s, t, op, table, k, b, c.token);
      case Timeout => TimeoutKeepsInv(s, t, table, k, b);
      case Grow(_) =>
    }
  }

  // ---------- Notifying ----------

  /** The thread being notified is another one, asleep. */
  lemma TargetIsAsleep(s: State, t: Tid)
    requires Inv(s) && t < |s.pcs| && (s.pcs[t].SetToken? || s.pcs[t].ClearFlag?)
    ensures var x := s.pcs[t].target;
      && x < |s.pcs| && x != t && PhaseOf(s.pcs[x]) == Asleep && s.flag[x]
      && StatusOf(s.log, x) == Woken(s.pcs[t].token) && s.key[x] == s.pcs[t].k
    ensures s.pcs[t].ClearFlag? ==> s.token[s.pcs[t].target] == s.pcs[t].token
  {
    assert ThreadInv(s, t);
    assert ThreadInv(s, s.pcs[t].target);
  }

  lemma SetTokenKeepsInv(s: State, t: Tid, pc: Pc)
    requires Inv(s) && t < |s.pcs| && pc.SetToken? && s.pcs[t] == pc
    ensures Inv(SetTokenStep(s, t, pc))
  {
    var s', x := SetTokenStep(s, t, pc), pc.target;
    assert ThreadInv(s, t);
    TargetIsAsleep(s, t);
    OnlyNotifier(s, t, x);
    SameLocks(s.locks, s.pcs, t, ClearFlag(pc.table, pc.k, pc.b, x, pc.token));
    assert forall v :: v != x ==> SameData(s, s', v);
    assert Notifies(s'.pcs[t], x);
    Conclude(s, s', t, x);
  }

  lemma ClearFlagKeepsInv(s: State, t: Tid, pc: Pc)
    requires Inv(s) && t < |s.pcs| && pc.ClearFlag? && s.pcs[t] == pc
    ensures Inv(ClearFlagStep(s, t, pc))
  {
    var s', x := ClearFlagStep(s, t, pc), pc.target;
    assert ThreadInv(s, t);
    TargetIsAsleep(s, t);
    CurrentOk(s, pc.table);
    OnlyNotifier(s, t, x);
    SameLocks(s.locks, s.pcs, t, Leave(pc.table, pc.b, Done));
    assert forall v :: v != x ==> SameData(s, s', v);
    Conclude(s, s', t, x);
  }

  // ---------- Publishing a table ----------

  /** A thread that relies on the current table holds one of its bucket locks. */
  lemma PinnedHolds(s: State, u: Tid) returns (b: nat)
    requires Inv(s) && u < |s.pcs| && Pinned(s.pcs[u])
    ensures s.tables != [] && b < |s.tables[|s.tables| - 1].queues| && Holds(s.pcs[u], |s.tables| - 1, b)
  {
    assert ThreadInv(s, u);
    var table := |s.tables| - 1;
    CurrentOk(s, table);
    b := if s.pcs[u].Publish? then 0 else s.pcs[u].b;
  }

  /** The publisher is the only thread that relies on the current table. */
  lemma PublisherIsAlone(s: State, t: Tid, u: Tid)
    requires Inv(s) && t < |s.pcs| && s.pcs[t].Publish? && u < |s.pcs| && Pinned(s.pcs[u])
    ensures u == t
  {
    var b := PinnedHolds(s, u);
    assert ThreadInv(s, t);
    OneHolder(s, t, u, s.pcs[t].table, b);
  }

  lemma GrownTables(tables: seq<Table>, n: nat, key: seq<nat>)
    requires TablesInv(tables) && tables != [] && SizeOk(n) && |tables[|tables| - 1].queues| < LOAD_FACTOR * n
    requires HashBits(n) < WORD_BITS
    ensures var table := Table(HashBits(n), RehashedTable(tables[|tables| - 1].queues, key, HashBits(n)));
      && TablesInv(tables + [table]) && LOAD_FACTOR * n <= |table.queues|
  {
    assert TableOk(tables[|tables| - 1]);
    GrowthIsStrict(tables[|tables| - 1].bits, n);
  }

  lemma PublishedTables(s: State, t: Tid, n: nat, table: nat, size: nat)
    requires Inv(s) && t < |s.pcs| && s.pcs[t] == Publish(n, table, size)
    ensures var s' := PublishStep(s, t, n, table, size);
      && TablesInv(s'.tables) && QueueInv(s'.tables, s'.key, s'.log) && |s'.tables| == |s.tables| + 1
      && LOAD_FACTOR * n <= |s'.tables[|s.tables|].queues|
  {
    assert ThreadInv(s, t);
    CurrentOk(s, table);
    BitsFitWord(n);
    GrownTables(s.tables, n, s.key);
    RehashKeepsQueues(s.tables[table], s.key, s.log, HashBits(n));
  }

  lemma PublishKeepsInv(s: State, t: Tid, n: nat, table: nat, size: nat)
    requires Inv(s) && t < |s.pcs| && s.pcs[t] == Publish(n, table, size)
    ensures Inv(PublishStep(s, t, n, table, size))
  {
    var s' := PublishStep(s, t, n, table, size);
    assert ThreadInv(s, t);
    PublishedTables(s, t, n, table, size);
    SameLocks(s.locks, s.pcs, t, GrowUnlock(n, table, 0, size, true));
    forall u | 0 <= u < |s.pcs| && Pinned(s.pcs[u]) ensures u == t {
      PublisherIsAlone(s, t, u);
    }
    NobodyNotifies(s, t);
    assert forall v :: SameData(s, s', v);
    Conclude(s, s', t, t);
  }

  // ---------- Runs ----------

  lemma GrowKeepsInv(s: State, t: Tid)
    requires Inv(s) && t < |s.pcs| && Grows(s.pcs[t])
    ensures Inv(GrowNext(s, t))
  {
    match s.pcs[t]
    case GrowLock(n, table, i) => GrowLockKeepsInv(s, t, n, table, i);
    case GrowCheck(n, table, size) => GrowCheckKeepsInv(s, t, n, table, size);
    case Publish(n, table, size) => PublishKeepsInv(s, t, n, table, size);
    case GrowUnlock(_, _, _, _, _) => GrowUnlockKeepsInv(s, t, s.pcs[t]);
  }

  lemma EndKeepsInv(s: State, t: Tid, c: Choice)
    requires Inv(s) && t < |s.pcs| && Ends(s.pcs[t])
    ensures Inv(EndNext(s, t, c))
  {
    match s.pcs[t]
    case SetToken(_, _, _, _, _) => SetTokenKeepsInv(s, t, s.pcs[t]);
    case ClearFlag(_, _, _, _, _) => ClearFlagKeepsInv(s, t, s.pcs[t]);
    case Leave(table, b, after) => LeaveKeepsInv(s, t, table, b, after);
    case Sleep(timed) => SleepKeepsInv(s, t, timed, c.yes);
    case ReadToken => ReadTokenKeepsInv(s, t);
  }

  lemma TableKeepsInv(s: State, t: Tid, c: Choice)
    requires Inv(s) && t < |s.pcs| && FindsTable(s.pcs[t])
    ensures Inv(TableNext(s, t, c))
  {
    match s.pcs[t]
    case Idle => StartKeepsInv(s, t, c.op);
    case GetTable(op) => GetTableKeepsInv(s, t, op);
    case CreateTable(op) => CreateTableKeepsInv(s, t, op);
    case LoadKey(table) => LoadKeyKeepsInv(s, t, table);
  }

  lemma InvStep(s: State, t: Tid, c: Choice)
    requires Inv(s)
    ensures Inv(Next(s, t, c))
  {
    if t < |s.pcs| {
      if s.pcs[t].Inside? {
        InsideKeepsInv(s, t, s.pcs[t].op, s.pcs[t].table, s.pcs[t].k, s.pcs[t].b, c);
      } else if LocksBucket(s.pcs[t]) {
        LockBucketKeepsInv(s, t);
      } else if Grows(s.pcs[t]) {
        GrowKeepsInv(s, t);
      } else if Ends(s.pcs[t]) {
        EndKeepsInv(s, t, c);
      } else {
        TableKeepsInv(s, t, c);
      }
    }
  }

  lemma InitInv(threads: nat)
    ensures Inv(Init(threads))
  {
  }

  /** The state after any schedule of steps and choices. */
  ghost function Run(threads: nat, schedule: Schedule): (s: State)
    ensures Inv(s) && |s.pcs| == threads
  {
    if schedule == [] then
      InitInv(threads);
      Init(threads)
    else
      var n := |schedule| - 1;
      var s := Run(threads, schedule[..n]);
      InvStep(s, schedule[n].0, schedule[n].1);
      Next(s, schedule[n].0, schedule[n].1)
  }
}
