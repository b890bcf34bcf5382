/** Every step of the parking lot keeps the invariant. */
module ParkingSteps {
  import opened Threads
  import opened Hashing
  import opened ParkingLists
  import opened ParkingSpec
  import opened ParkingProtocol
  import opened ParkingInvariant

  // ---------- Steps that touch no queue ----------

  /** The new pc of a thread whose data nobody changes. */
  ghost predicate QuietPc(s: State, t: Tid, pc: Pc)
    requires Sized(s) && t < |s.pcs|
  {
    && LocalInv(At(s, t, pc), t) && !Notifies(s.pcs[t], t)
    && !s.pcs[t].SetToken? && !s.pcs[t].ClearFlag? && !pc.SetToken? && !pc.ClearFlag?
    && (PhaseOf(pc) == PhaseOf(s.pcs[t]) || (PhaseOf(s.pcs[t]) == Asleep && PhaseOf(pc) == Waking && !s.flag[t]))
  }

  lemma QuietPark(s: State, s': State, t: Tid, pc: Pc)
    requires Sized(s) && t < |s.pcs| && QuietPc(s, t, pc) && s' == At(s, t, pc) && ParkInv(s, t)
    ensures ParkInv(s', t)
  {
    if Notifying(s.pcs, t) {
      var w :| 0 <= w < |s.pcs| && Notifies(s.pcs[w], t);
      assert Notifies(s'.pcs[w], t);
    }
  }

  lemma ParkIgnoresLocks(s: State, t: Tid, locks: map<(nat, nat), Tid>)
    requires Sized(s) && t < |s.pcs| && ParkInv(s, t) && LocalInv(s, t)
    ensures ParkInv(s.(locks := locks), t) && LocalInv(s.(locks := locks), t)
  {
  }

  lemma QuietKeepsInv(s: State, t: Tid, pc: Pc, locks: map<(nat, nat), Tid>)
    requires Inv(s) && t < |s.pcs| && QuietPc(s, t, pc) && LockInv(locks, s.pcs[t := pc])
    ensures Inv(At(s.(locks := locks), t, pc))
  {
    var s' := At(s.(locks := locks), t, pc);
    assert ThreadInv(s, t);
    QuietPark(s, At(s, t, pc), t, pc);
    ParkIgnoresLocks(At(s, t, pc), t, locks);
    assert s' == At(s, t, pc).(locks := locks);
    assert SameData(s, s', t);
    Conclude(s, s', t, t);
  }

  lemma MoveKeepsInv(s: State, t: Tid, pc: Pc)
    requires Inv(s) && t < |s.pcs| && QuietPc(s, t, pc)
    requires forall table, b :: Holds(pc, table, b) <==> Holds(s.pcs[t], table, b)
    ensures Inv(At(s, t, pc))
  {
    SameLocks(s.locks, s.pcs, t, pc);
    QuietKeepsInv(s, t, pc, s.locks);
    assert s.(locks := s.locks) == s;
  }

  lemma LockKeepsInv(s: State, t: Tid, n: nat, c: nat, pc: Pc)
    requires Inv(s) && t < |s.pcs| && QuietPc(s, t, pc)
    requires forall table, b :: Holds(pc, table, b) <==> Holds(s.pcs[t], table, b) || (table == n && b == c)
    ensures Inv(LockStep(s, t, n, c, pc))
  {
    if (n, c) !in s.locks {
      TakeLock(s.locks, s.pcs, t, pc, n, c);
      QuietKeepsInv(s, t, pc, s.locks[(n, c) := t]);
    }
  }

  lemma UnlockKeepsInv(s: State, t: Tid, n: nat, c: nat, pc: Pc)
    requires Inv(s) && t < |s.pcs| && QuietPc(s, t, pc) && Holds(s.pcs[t], n, c)
    requires forall table, b :: Holds(pc, table, b) <==> Holds(s.pcs[t], table, b) && !(table == n && b == c)
    ensures Inv(UnlockStep(s, t, n, c, pc))
  {
    DropLock(s.locks, s.pcs, t, pc, n, c);
    QuietKeepsInv(s, t, pc, s.locks - {(n, c)});
  }

  /** A thread goes on with the table it got. */
  lemma GotTableKeepsInv(s: State, t: Tid, op: Op)
    requires Inv(s) && t < |s.pcs| && s.tables != [] && (s.pcs[t] == GetTable(op) || s.pcs[t] == CreateTable(op))
    ensures Inv(At(s, t, GotTable(s, op, |s.tables| - 1)))
  {
    assert ThreadInv(s, t) && TableOk(s.tables[|s.tables| - 1]);
    MoveKeepsInv(s, t, GotTable(s, op, |s.tables| - 1));
  }

  lemma StartKeepsInv(s: State, t: Tid, op: Op)
    requires Inv(s) && t < |s.pcs| && s.pcs[t].Idle?
    ensures Inv(StartStep(s, t, op))
  {
    if StartStep(s, t, op) != s {
      MoveKeepsInv(s, t, GetTable(op));
    }
  }

  lemma GetTableKeepsInv(s: State, t: Tid, op: Op)
    requires Inv(s) && t < |s.pcs| && s.pcs[t] == GetTable(op)
    ensures Inv(GetTableStep(s, t, op))
  {
    assert ThreadInv(s, t);
    if s.tables == [] {
      MoveKeepsInv(s, t, CreateTable(op));
    } else {
      GotTableKeepsInv(s, t, op);
    }
  }

  lemma NewTableOk(key: seq<nat>, log: seq<Event>, bits: nat)
    requires bits < WORD_BITS && Legal(log) && forall k :: QueueOf(log, k) == []
    ensures TablesInv([NewTable(bits)]) && QueueInv([NewTable(bits)], key, log)
  {
    forall k ensures Refines(NewTable(bits), key, log, k) {
      HashInTable(k, bits);
    }
  }

  lemma FirstTableKeepsInv(s: State, t: Tid)
    requires Inv(s) && t < |s.pcs| && s.tables == [] && HashBits(LOAD_FACTOR) < WORD_BITS
    ensures Inv(s.(tables := [NewTable(HashBits(LOAD_FACTOR))]))
  {
    var s' := s.(tables := [NewTable(HashBits(LOAD_FACTOR))]);
    NewTableOk(s.key, s.log, HashBits(LOAD_FACTOR));
    assert ThreadInv(s, t);
    assert ParkInv(s', t);
    forall u | 0 <= u < |s.pcs| ensures !Pinned(s.pcs[u]) {
      assert ThreadInv(s, u);
    }
    assert SameData(s, s', t);
    Conclude(s, s', t, t);
  }

  lemma CreateTableKeepsInv(s: State, t: Tid, op: Op)
    requires Inv(s) && t < |s.pcs| && s.pcs[t] == CreateTable(op)
    ensures Inv(CreateTableStep(s, t, op))
  {
    if s.tables == [] {
      BitsFitWord(LOAD_FACTOR);
      FirstTableKeepsInv(s, t);
      GotTableKeepsInv(s.(tables := [NewTable(HashBits(LOAD_FACTOR))]), t, op);
    } else {
      GotTableKeepsInv(s, t, op);
    }
  }

  lemma LoadKeyKeepsInv(s: State, t: Tid, table: nat)
    requires Inv(s) && t < |s.pcs| && s.pcs[t] == LoadKey(table)
    ensures Inv(LoadKeyStep(s, t, table))
  {
    if table < |s.tables| {
      MoveKeepsInv(s, t, Lock(Timeout, table, s.key[t], Home(s.tables[table], s.key[t])));
    }
  }

  /** The steps of `lock_bucket` and `lock_bucket_checked` once the bucket is known. */
  lemma LockBucketKeepsInv(s: State, t: Tid)
    requires Inv(s) && t < |s.pcs| && LocksBucket(s.pcs[t])
    ensures Inv(LockNext(s, t))
  {
    assert ThreadInv(s, t);
    match s.pcs[t]
    case Lock(op, table, k, b) => LockKeepsInv(s, t, table, b, CheckTable(op, table, k, b));
    case CheckTable(op, table, k, b) =>
      MoveKeepsInv(s, t, if !IsCurrent(s, table) then Retry(op, table, b)
                         else if op.Timeout? then CheckKey(table, k, b) else Inside(op, table, k, b));
    case CheckKey(table, k, b) =>
      MoveKeepsInv(s, t, if s.key[t] == k then Inside(Timeout, table, k, b) else Retry(Timeout, table, b));
    case Retry(op, table, b) => UnlockKeepsInv(s, t, table, b, GetTable(op));
  }

  lemma SleepKeepsInv(s: State, t: Tid, timed: bool, expired: bool)
    requires Inv(s) && t < |s.pcs| && s.pcs[t] == Sleep(timed)
    ensures Inv(SleepStep(s, t, timed, expired))
  {
    if !s.flag[t] {
      MoveKeepsInv(s, t, ReadToken);
    } else if timed && expired {
      MoveKeepsInv(s, t, GetTable(Timeout));
    }
  }

  lemma GrowLockKeepsInv(s: State, t: Tid, n: nat, table: nat, i: nat)
    requires Inv(s) && t < |s.pcs| && s.pcs[t] == GrowLock(n, table, i)
    ensures Inv(GrowLockStep(s, t, n, table, i))
  {
    assert ThreadInv(s, t);
    if i < |s.tables[table].queues| {
      LockKeepsInv(s, t, table, i, GrowLock(n, table, i + 1));
    } else {
      MoveKeepsInv(s, t, GrowCheck(n, table, i));
    }
  }

  lemma GrowCheckKeepsInv(s: State, t: Tid, n: nat, table: nat, size: nat)
    requires Inv(s) && t < |s.pcs| && s.pcs[t] == GrowCheck(n, table, size)
    ensures Inv(At(s, t, if IsCurrent(s, table) then Publish(n, table, size) else GrowUnlock(n, table, 0, size, false)))
  {
    assert ThreadInv(s, t);
    MoveKeepsInv(s, t, if IsCurrent(s, table) then Publish(n, table, size) else GrowUnlock(n, table, 0, size, false));
  }

  lemma GrowUnlockOneKeepsInv(s: State, t: Tid, n: nat, table: nat, i: nat, size: nat, done: bool)
    requires Inv(s) && t < |s.pcs| && s.pcs[t] == GrowUnlock(n, table, i, size, done) && i < size
    ensures Inv(UnlockStep(s, t, table, i, GrowUnlock(n, table, i + 1, size, done)))
  {
    assert ThreadInv(s, t);
    UnlockKeepsInv(s, t, table, i, GrowUnlock(n, table, i + 1, size, done));
  }

  lemma GrowUnlockKeepsInv(s: State, t: Tid, pc: Pc)
    requires Inv(s) && t < |s.pcs| && pc.GrowUnlock? && s.pcs[t] == pc
    ensures Inv(GrowUnlockStep(s, t, pc))
  {
    if pc.i < pc.size {
      GrowUnlockOneKeepsInv(s, t, pc.threads, pc.table, pc.i, pc.size, pc.done);
    } else {
      assert ThreadInv(s, t);
      MoveKeepsInv(s, t, if pc.done then Idle else GetTable(Grow(pc.threads)));
    }
  }

  // ---------- Returning from `park` ----------

  /** A thread that is not asleep is being notified by nobody. */
  lemma NobodyNotifies(s: State, t: Tid)
    requires Inv(s) && t < |s.pcs| && PhaseOf(s.pcs[t]) != Asleep
    ensures forall u :: 0 <= u < |s.pcs| ==> !Notifies(s.pcs[u], t)
  {
    assert ThreadInv(s, t);
    forall u | 0 <= u < |s.pcs| ensures !Notifies(s.pcs[u], t) {
      assert ThreadInv(s, u);
    }
  }

  /** Events that do not concern the queues keep them. */
  lemma NoteKeepsQueues(tables: seq<Table>, key: seq<nat>, log: seq<Event>, e: Event)
    requires forall i :: 0 <= i < |tables| ==> tables[i].bits <= WORD_BITS
    requires QueueInv(tables, key, log) && LegalEvent(log, e) && (e.Missed? || e.Returned?)
    ensures QueueInv(tables, key, log + [e])
  {
    Extend(log, e);
    if tables != [] {
      var table, log' := tables[|tables| - 1], log + [e];
      forall k ensures Refines(table, key, log', k) {
        assert Refines(table, key, log, k);
      }
    }
  }

  lemma ReturnKeepsInv(s: State, t: Tid, result: ParkResult, locks: map<(nat, nat), Tid>)
    requires Inv(s) && t < |s.pcs| && PhaseOf(s.pcs[t]) != Asleep && !s.pcs[t].SetToken? && !s.pcs[t].ClearFlag?
    requires LegalEvent(s.log, Returned(t, result)) && LockInv(locks, s.pcs[t := Idle])
    ensures Inv(Log(At(s.(locks := locks), t, Idle), Returned(t, result)))
  {
    var s' := Log(At(s.(locks := locks), t, Idle), Returned(t, result));
    NobodyNotifies(s, t);
    Extend(s.log, Returned(t, result));
    NoteKeepsQueues(s.tables, s.key, s.log, Returned(t, result));
    assert forall v :: v != t ==> SameData(s, s', v);
    assert StepOf(s, s', t, t);
    Conclude(s, s', t, t);
  }

  lemma ReadTokenKeepsInv(s: State, t: Tid)
    requires Inv(s) && t < |s.pcs| && s.pcs[t].ReadToken?
    ensures Inv(ReadTokenStep(s, t))
  {
    assert ThreadInv(s, t);
    SameLocks(s.locks, s.pcs, t, Idle);
    ReturnKeepsInv(s, t, Unparked(s.token[t]), s.locks);
    assert s.(locks := s.locks) == s;
  }

  lemma LeaveReturnKeepsInv(s: State, t: Tid, table: nat, b: nat, result: ParkResult)
    requires Inv(s) && t < |s.pcs| && s.pcs[t] == Leave(table, b, Return(result))
    ensures Inv(LeaveStep(s, t, table, b, Return(result)))
  {
    assert ThreadInv(s, t);
    DropLock(s.locks, s.pcs, t, Idle, table, b);
    ReturnKeepsInv(s, t, result, s.locks - {(table, b)});
  }

  lemma LeaveKeepsInv(s: State, t: Tid, table: nat, b: nat, after: After)
    requires Inv(s) && t < |s.pcs| && s.pcs[t] == Leave(table, b, after)
    ensures Inv(LeaveStep(s, t, table, b, after))
  {
    match after
    case Done => UnlockKeepsInv(s, t, table, b, Idle);
    case Return(result) => LeaveReturnKeepsInv(s, t, table, b, result);
    case ToSleep(timed) => UnlockKeepsInv(s, t, table, b, Sleep(timed));
    case ToToken => UnlockKeepsInv(s, t, table, b, ReadToken);
  }

  // ---------- Queues ----------

  lemma {:induction false} OfKeyMembers(q: seq<Tid>, key: seq<nat>, k: nat)
    ensures forall t :: t in OfKey(q, key, k) <==> t in q && t < |key| && key[t] == k
  {
    if q != [] {
      OfKeyMembers(q[..|q| - 1], key, k);
      assert q == q[..|q| - 1] + [q[|q| - 1]];
    }
  }

  lemma {:induction false} RemoveAbsent(q: seq<Tid>, t: Tid)
    requires t !in q
    ensures Remove(q, t) == q
  {
    if q != [] {
      RemoveAbsent(q[..|q| - 1], t);
    }
  }

  lemma {:induction false} OfKeyRemove(q: seq<Tid>, key: seq<nat>, k: nat, t: Tid)
    ensures OfKey(Remove(q, t), key, k) == Remove(OfKey(q, key, k), t)
  {
    if q != [] {
      var n := |q| - 1;
      OfKeyRemove(q[..n], key, k, t);
      var r, p := Remove(q[..n], t), OfKey(q[..n], key, k);
      assert (r + [q[n]])[..|r|] == r && (p + [q[n]])[..|p|] == p;
    }
  }

  lemma {:induction false} OfKeySameKeys(q: seq<Tid>, key: seq<nat>, key': seq<nat>, k: nat)
    requires |key'| == |key| && forall t :: t in q ==> t < |key| && key'[t] == key[t]
    ensures OfKey(q, key', k) == OfKey(q, key, k)
  {
    if q != [] {
      var p := q[..|q| - 1];
      assert q == p + [q[|q| - 1]];
      assert forall t :: t in p ==> t in q;
      OfKeySameKeys(p, key, key', k);
    }
  }

  ghost predicate QueuesOk(table: Table, key: seq<nat>, log: seq<Event>)
    requires table.bits <= WORD_BITS
  {
    AtHome(table, key) && forall k :: Refines(table, key, log, k)
  }

  function WithQueue(table: Table, b: nat, q: seq<Tid>): (r: Table)
    requires b < |table.queues|
  {
    table.(queues := table.queues[b := q])
  }

  /** Removing `x` from the bucket of its key removes it from the queue of that key only. */
  lemma RemoveKeepsQueues(table: Table, key: seq<nat>, log: seq<Event>, k: nat, x: Tid, e: Event)
    requires table.bits <= WORD_BITS && QueuesOk(table, key, log) && x < |key| && key[x] == k
    requires Home(table, k) < |table.queues|
    requires e == Withdrawn(x, k) || (e.Chosen? && e.t == x && e.k == k)
    ensures QueuesOk(WithQueue(table, Home(table, k), Remove(table.queues[Home(table, k)], x)), key, log + [e])
  {
    var b := Home(table, k);
    var q := table.queues[b];
    var table' := WithQueue(table, b, Remove(q, x));
    Extend(log, e);
    forall c | 0 <= c < |table.queues| ensures BucketOk(table', key, c) {
      assert BucketOk(table, key, c);
      if c == b {
        RemoveDistinct(q, x);
      }
    }
    forall j ensures Refines(table', key, log + [e], j) {
      assert Refines(table, key, log, j);
      if Home(table, j) == b {
        OfKeyRemove(q, key, j, x);
        if j != k {
          OfKeyMembers(q, key, j);
          RemoveAbsent(OfKey(q, key, j), x);
        }
      }
    }
  }

  /** Queueing `t` on `k` at the end of the bucket of `k`. */
  lemma AppendKeepsQueues(table: Table, key: seq<nat>, log: seq<Event>, k: nat, t: Tid)
    requires table.bits <= WORD_BITS && QueuesOk(table, key, log) && t < |key|
    requires Home(table, k) < |table.queues| && forall c :: 0 <= c < |table.queues| ==> t !in table.queues[c]
    ensures QueuesOk(WithQueue(table, Home(table, k), table.queues[Home(table, k)] + [t]),
                     key[t := k], log + [Parked(t, k)])
  {
    var b, key' := Home(table, k), key[t := k];
    var q := table.queues[b];
    var table' := WithQueue(table, b, q + [t]);
    Extend(log, Parked(t, k));
    forall c | 0 <= c < |table.queues| ensures BucketOk(table', key', c) {
      assert BucketOk(table, key, c) && t !in table.queues[c];
    }
    forall j ensures Refines(table', key', log + [Parked(t, k)], j) {
      var h := Home(table, j);
      assert Refines(table, key, log, j) && BucketOk(table, key, h);
      OfKeySameKeys(table.queues[h], key, key', j);
      if h == b {
        OfKeyConcat(q, [t], key', j);
        assert [t][..0] == [];
        assert OfKey([t], key', j) == if j == k then [t] else [];
      }
    }
  }

  /** A thread in a queue of the current table waits on its key. */
  lemma QueuedIsWaiting(table: Table, key: seq<nat>, log: seq<Event>, c: nat, t: Tid)
    requires table.bits <= WORD_BITS && QueuesOk(table, key, log) && Legal(log)
    requires c < |table.queues| && t in table.queues[c]
    ensures t < |key| && StatusOf(log, t) == Waiting(key[t])
  {
    assert BucketOk(table, key, c);
    assert Refines(table, key, log, key[t]);
    OfKeyMembers(table.queues[c], key, key[t]);
    QueueIsWaiters(log, key[t]);
  }

  lemma HomeMeansDistinct(table: Table, key: seq<nat>)
    requires table.bits <= WORD_BITS && AtHome(table, key)
    ensures AllDistinct(table.queues)
  {
    forall b, c, t | 0 <= b < c < |table.queues| && t in table.queues[b] ensures t !in table.queues[c] {
      assert BucketOk(table, key, b) && BucketOk(table, key, c);
    }
    forall b | 0 <= b < |table.queues| ensures Distinct(table.queues[b]) {
      assert BucketOk(table, key, b);
    }
  }

  /** Rehashing into a larger table keeps every queue. */
  lemma RehashKeepsQueues(table: Table, key: seq<nat>, log: seq<Event>, bits: nat)
    requires table.bits <= WORD_BITS && QueuesOk(table, key, log) && bits <= WORD_BITS
    ensures QueuesOk(Table(bits, RehashedTable(table.queues, key, bits)), key, log)
  {
    var table' := Table(bits, RehashedTable(table.queues, key, bits));
    HomeMeansDistinct(table, key);
    forall h | 0 <= h < |table'.queues| ensures BucketOk(table', key, h) {
      RehashedDistinct(table.queues, key, bits, h);
    }
    forall k ensures Refines(table', key, log, k) {
      assert Refines(table, key, log, k);
      HashInTable(k, bits);
      assert KeyAtHome(table.queues, key, k, Home(table, k)) by {
        forall b | 0 <= b < |table.queues| && b != Home(table, k) ensures !HasKey(key, table.queues[b], k) {
          assert BucketOk(table, key, b);
          assert forall i :: 0 <= i < |table.queues[b]| ==> table.queues[b][i] in table.queues[b];
        }
      }
      RehashKeepsOrder(table.queues, key, bits, k, Home(table, k));
    }
  }
}
