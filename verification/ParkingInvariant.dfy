/** The inductive invariant of the parking lot, and how steps of other threads keep it. */
module ParkingInvariant {
  import opened Threads
  import opened Hashing
  import opened ParkingLists
  import opened ParkingSpec
  import opened ParkingProtocol

  // ---------- Tables and queues ----------

  predicate TableOk(table: Table) {
    table.bits < WORD_BITS && |table.queues| == Pow2(table.bits)
  }

  predicate TablesInv(tables: seq<Table>) {
    && (forall i :: 0 <= i < |tables| ==> TableOk(tables[i]))
    && (forall i, j :: 0 <= i < j < |tables| ==> tables[i].bits < tables[j].bits)
  }

  /** Every queued thread is in the bucket of its key, once. */
  ghost predicate AtHome(table: Table, key: seq<nat>)
    requires table.bits <= WORD_BITS
  {
    forall b :: 0 <= b < |table.queues| ==> BucketOk(table, key, b)
  }

  ghost predicate BucketOk(table: Table, key: seq<nat>, b: nat)
    requires table.bits <= WORD_BITS && b < |table.queues|
  {
    Distinct(table.queues[b]) && forall x :: x in table.queues[b] ==> x < |key| && Home(table, key[x]) == b
  }

  /** The bucket of `k` holds the threads waiting on `k`, in the order they were queued. */
  ghost predicate Refines(table: Table, key: seq<nat>, log: seq<Event>, k: nat)
    requires table.bits <= WORD_BITS
  {
    Home(table, k) < |table.queues| && QueueOf(log, k) == OfKey(table.queues[Home(table, k)], key, k)
  }

  ghost predicate QueueInv(tables: seq<Table>, key: seq<nat>, log: seq<Event>)
    requires forall i :: 0 <= i < |tables| ==> tables[i].bits <= WORD_BITS
  {
    && Legal(log)
    && (tables == [] ==> forall k :: QueueOf(log, k) == [])
    && (tables != [] ==>
      var table := tables[|tables| - 1];
      AtHome(table, key) && forall k :: Refines(table, key, log, k))
  }

  // ---------- Bucket locks ----------

  /** The thread at `pc` holds the lock of bucket `b` of `table`. */
  predicate Holds(pc: Pc, table: nat, b: nat) {
    match pc
    case CheckTable(_, n, _, c) => n == table && c == b
    case CheckKey(n, _, c) => n == table && c == b
    case Retry(_, n, c) => n == table && c == b
    case Inside(_, n, _, c) => n == table && c == b
    case SetToken(n, _, c, _, _) => n == table && c == b
    case ClearFlag(n, _, c, _, _) => n == table && c == b
    case Leave(n, c, _) => n == table && c == b
    case GrowLock(_, n, i) => n == table && b < i
    case GrowCheck(_, n, size) => n == table && b < size
    case Publish(_, n, size) => n == table && b < size
    case GrowUnlock(_, n, i, size, _) => n == table && i <= b < size
    case _ => false
  }

  ghost predicate LockInv(locks: map<(nat, nat), Tid>, pcs: seq<Pc>) {
    && (forall p :: p in locks ==> locks[p] < |pcs| && Holds(pcs[locks[p]], p.0, p.1))
    && (forall t, table, b :: 0 <= t < |pcs| && Holds(pcs[t], table, b) ==> HeldBy(locks, table, b, t))
  }

  predicate HeldBy(locks: map<(nat, nat), Tid>, table: nat, b: nat, t: Tid) {
    (table, b) in locks && locks[(table, b)] == t
  }

  // ---------- Threads ----------

  /** The thread has checked, with a lock of its table held, that the table is current. */
  predicate Pinned(pc: Pc) {
    pc.CheckKey? || pc.Inside? || pc.SetToken? || pc.ClearFlag? || pc.Leave? || pc.Publish?
  }

  predicate SizeOk(n: nat) {
    n >= 1 && LoadFits(n)
  }

  predicate OpOk(op: Op) {
    op.Grow? ==> SizeOk(op.threads)
  }

  /** A thread that works on bucket `b` of `table` for key `k`. */
  predicate WorksAt(tables: seq<Table>, table: nat, k: nat, b: nat)
    requires forall i :: 0 <= i < |tables| ==> tables[i].bits <= WORD_BITS
  {
    table < |tables| && b == Home(tables[table], k)
  }

  predicate TooSmall(tables: seq<Table>, table: nat, n: nat) {
    table < |tables| && SizeOk(n) && |tables[table].queues| < LOAD_FACTOR * n
  }

  predicate LocalInv(s: State, t: Tid)
    requires Sized(s) && t < |s.pcs|
  {
    match s.pcs[t]
    case Idle => true
    case GetTable(op) => OpOk(op)
    case CreateTable(op) => OpOk(op)
    case LoadKey(table) => table < |s.tables|
    case Lock(op, table, k, b) => WorksAt(s.tables, table, k, b) && !op.Grow? && (op.Timeout? ==> k == s.key[t])
    case CheckTable(op, table, k, b) => WorksAt(s.tables, table, k, b) && !op.Grow? && (op.Timeout? ==> k == s.key[t])
    case CheckKey(table, k, b) => WorksAt(s.tables, table, k, b) && IsCurrent(s, table) && k == s.key[t]
    case Retry(op, table, b) => !op.Grow?
    case Inside(op, table, k, b) =>
      WorksAt(s.tables, table, k, b) && IsCurrent(s, table) && !op.Grow? && (op.Timeout? ==> k == s.key[t])
    case SetToken(table, k, b, _, _) => WorksAt(s.tables, table, k, b) && IsCurrent(s, table)
    case ClearFlag(table, k, b, _, _) => WorksAt(s.tables, table, k, b) && IsCurrent(s, table)
    case Leave(table, b, after) =>
      IsCurrent(s, table) && HasBucket(s, table, b) && (after.Return? ==> !after.result.Unparked?)
    case Sleep(_) => true
    case ReadToken => true
    case GrowLock(n, table, i) => TooSmall(s.tables, table, n) && i <= |s.tables[table].queues|
    case GrowCheck(n, table, size) => TooSmall(s.tables, table, n) && size == |s.tables[table].queues|
    case Publish(n, table, size) =>
      TooSmall(s.tables, table, n) && size == |s.tables[table].queues| && IsCurrent(s, table)
    case GrowUnlock(n, table, i, size, done) =>
      && table < |s.tables| && SizeOk(n) && i <= size == |s.tables[table].queues|
      && (done ==> LOAD_FACTOR * n <= |s.tables[|s.tables| - 1].queues|)
  }

  datatype Phase = Out | Asleep | Waking | Leaving

  function PhaseOfOp(op: Op): (p: Phase) {
    if op.Timeout? then Asleep else Out
  }

  function PhaseOf(pc: Pc): (p: Phase) {
    match pc
    case GetTable(op) => PhaseOfOp(op)
    case CreateTable(op) => PhaseOfOp(op)
    case LoadKey(_) => Asleep
    case Lock(op, _, _, _) => PhaseOfOp(op)
    case CheckTable(op, _, _, _) => PhaseOfOp(op)
    case CheckKey(_, _, _) => Asleep
    case Retry(op, _, _) => PhaseOfOp(op)
    case Inside(op, _, _, _) => PhaseOfOp(op)
    case Leave(_, _, after) =>
      if after.ToSleep? then Asleep else if after.ToToken? then Waking
      else if after == Return(TimedOut) then Leaving else Out
    case Sleep(_) => Asleep
    case ReadToken => Waking
    case _ => Out
  }

  /** The thread at `pc` has chosen `x` and not yet cleared its flag. */
  predicate Notifies(pc: Pc, x: Tid) {
    (pc.SetToken? || pc.ClearFlag?) && pc.target == x
  }

  ghost predicate Notifying(pcs: seq<Pc>, x: Tid) {
    exists u :: 0 <= u < |pcs| && Notifies(pcs[u], x)
  }

  /** What the history of thread `t` says about where it is, its flag and its token. */
  ghost predicate ParkInv(s: State, t: Tid)
    requires Sized(s) && t < |s.pcs|
  {
    match StatusOf(s.log, t)
    case Away => PhaseOf(s.pcs[t]) == Out
    case Waiting(k) => PhaseOf(s.pcs[t]) == Asleep && k == s.key[t] && s.flag[t]
    case Woken(v) =>
      if s.flag[t] then PhaseOf(s.pcs[t]) == Asleep && Notifying(s.pcs, t)
      else PhaseOf(s.pcs[t]) in {Asleep, Waking} && s.token[t] == v
    case Gone => PhaseOf(s.pcs[t]) == Leaving
  }

  /** What a thread that has chosen another one knows about it. */
  predicate NotifyInv(s: State, t: Tid)
    requires Sized(s) && t < |s.pcs|
  {
    s.pcs[t].SetToken? || s.pcs[t].ClearFlag? ==>
      var x := s.pcs[t].target;
      && x < |s.pcs| && StatusOf(s.log, x) == Woken(s.pcs[t].token) && s.flag[x] && s.key[x] == s.pcs[t].k
      && (s.pcs[t].ClearFlag? ==> s.token[x] == s.pcs[t].token)
  }

  ghost predicate ThreadInv(s: State, t: Tid)
    requires Sized(s) && t < |s.pcs|
  {
    LocalInv(s, t) && ParkInv(s, t) && NotifyInv(s, t)
  }

  ghost predicate ThreadsInv(s: State)
    requires Sized(s)
  {
    forall t :: 0 <= t < |s.pcs| ==> ThreadInv(s, t)
  }

  ghost predicate Inv(s: State) {
    && Sized(s) && TablesInv(s.tables) && QueueInv(s.tables, s.key, s.log)
    && LockInv(s.locks, s.pcs) && ThreadsInv(s)
  }

  // ---------- Bystanders ----------

  predicate SameData(s: State, s': State, v: Tid)
    requires Sized(s) && Sized(s') && |s'.pcs| == |s.pcs|
  {
    v < |s.pcs| ==>
      && s'.key[v] == s.key[v] && s'.flag[v] == s.flag[v] && s'.token[v] == s.token[v]
      && StatusOf(s'.log, v) == StatusOf(s.log, v)
  }

  /** Tables are only added, and only if no thread but `t` relies on the current one. */
  predicate TablesKept(s: State, s': State, t: Tid) {
    && |s.tables| <= |s'.tables|
    && (forall i :: 0 <= i < |s.tables| ==>
      s'.tables[i].bits == s.tables[i].bits && |s'.tables[i].queues| == |s.tables[i].queues|)
    && (|s'.tables| > |s.tables| ==> forall u :: 0 <= u < |s.pcs| && u != t ==> !Pinned(s.pcs[u]))
  }

  /** A step of `t` that touches at most the flag, token, key and history of `x`. */
  ghost predicate StepOf(s: State, s': State, t: Tid, x: Tid) {
    && Sized(s) && Sized(s') && t < |s.pcs| == |s'.pcs| && TablesKept(s, s', t) && TablesInv(s'.tables)
    && (forall u :: 0 <= u < |s.pcs| && u != t ==> s'.pcs[u] == s.pcs[u])
    && (forall v :: v != x ==> SameData(s, s', v))
    && (SameData(s, s', x) || forall u :: 0 <= u < |s.pcs| && u != t ==> !Notifies(s.pcs[u], x))
    && (forall v :: v != x && Notifies(s.pcs[t], v) ==> Notifies(s'.pcs[t], v))
  }

  lemma SizesMonotone(tables: seq<Table>, i: nat, j: nat)
    requires TablesInv(tables) && i <= j < |tables|
    ensures |tables[i].queues| <= |tables[j].queues|
  {
    assert TableOk(tables[i]) && TableOk(tables[j]);
    if i < j {
      Pow2Monotone(tables[i].bits, tables[j].bits);
    }
  }

  lemma BystanderLocal(s: State, s': State, t: Tid, x: Tid, u: Tid)
    requires StepOf(s, s', t, x) && u < |s.pcs| && u != t && LocalInv(s, u)
    requires s'.key[u] == s.key[u]
    ensures LocalInv(s', u)
  {
    if s.pcs[u].GrowUnlock? {
      SizesMonotone(s'.tables, |s.tables| - 1, |s'.tables| - 1);
    }
  }

  lemma BystanderPark(s: State, s': State, t: Tid, x: Tid, u: Tid)
    requires StepOf(s, s', t, x) && u < |s.pcs| && u != t && ParkInv(s, u)
    requires u == x ==> SameData(s, s', x)
    requires u == x && Notifies(s.pcs[t], x) ==> Notifies(s'.pcs[t], x)
    ensures ParkInv(s', u)
  {
    assert SameData(s, s', u);
    if Notifying(s.pcs, u) {
      var w :| 0 <= w < |s.pcs| && Notifies(s.pcs[w], u);
      assert Notifies(s'.pcs[w], u);
    }
  }

  lemma BystanderNotify(s: State, s': State, t: Tid, x: Tid, u: Tid)
    requires StepOf(s, s', t, x) && u < |s.pcs| && u != t && NotifyInv(s, u)
    ensures NotifyInv(s', u)
  {
    if s.pcs[u].SetToken? || s.pcs[u].ClearFlag? {
      var y := s.pcs[u].target;
      assert Notifies(s.pcs[u], y);
      assert SameData(s, s', y);
    }
  }

  /** A step keeps the invariant if it keeps what the moving and the touched thread rely on. */
  lemma Conclude(s: State, s': State, t: Tid, x: Tid)
    requires Inv(s) && StepOf(s, s', t, x) && x < |s.pcs|
    requires QueueInv(s'.tables, s'.key, s'.log) && LockInv(s'.locks, s'.pcs)
    requires ThreadInv(s', t) && ParkInv(s', x) && (x != t ==> s'.key[x] == s.key[x])
    ensures Inv(s')
  {
    forall u | 0 <= u < |s'.pcs| ensures ThreadInv(s', u) {
      if u != t {
        assert ThreadInv(s, u) && (u != x ==> SameData(s, s', u));
        BystanderLocal(s, s', t, x, u);
        BystanderNotify(s, s', t, x, u);
        if u != x {
          BystanderPark(s, s', t, x, u);
        }
      }
    }
  }

  // ---------- Locks ----------

  lemma SameLocks(locks: map<(nat, nat), Tid>, pcs: seq<Pc>, t: Tid, pc: Pc)
    requires LockInv(locks, pcs) && t < |pcs|
    requires forall table, b :: Holds(pc, table, b) <==> Holds(pcs[t], table, b)
    ensures LockInv(locks, pcs[t := pc])
  {
  }

  lemma TakeLock(locks: map<(nat, nat), Tid>, pcs: seq<Pc>, t: Tid, pc: Pc, n: nat, c: nat)
    requires LockInv(locks, pcs) && t < |pcs| && (n, c) !in locks
    requires forall table, b :: Holds(pc, table, b) <==> Holds(pcs[t], table, b) || (table == n && b == c)
    ensures LockInv(locks[(n, c) := t], pcs[t := pc])
  {
    var locks', pcs' := locks[(n, c) := t], pcs[t := pc];
    forall u, table: nat, b: nat | 0 <= u < |pcs'| && Holds(pcs'[u], table, b) ensures HeldBy(locks', table, b, u) {
      if Holds(pcs[u], table, b) {
        assert HeldBy(locks, table, b, u);
      }
    }
  }

  lemma DropLock(locks: map<(nat, nat), Tid>, pcs: seq<Pc>, t: Tid, pc: Pc, n: nat, c: nat)
    requires LockInv(locks, pcs) && t < |pcs| && Holds(pcs[t], n, c)
    requires forall table, b :: Holds(pc, table, b) <==> Holds(pcs[t], table, b) && !(table == n && b == c)
    ensures LockInv(locks - {(n, c)}, pcs[t := pc])
  {
    var locks', pcs' := locks - {(n, c)}, pcs[t := pc];
    assert HeldBy(locks, n, c, t);
    forall u, table: nat, b: nat | 0 <= u < |pcs'| && Holds(pcs'[u], table, b) ensures HeldBy(locks', table, b, u) {
      assert Holds(pcs[u], table, b) && HeldBy(locks, table, b, u);
    }
    forall p | p in locks' ensures locks'[p] < |pcs'| && Holds(pcs'[locks'[p]], p.0, p.1) {
      assert p in locks && p != (n, c) && Holds(pcs[locks[p]], p.0, p.1);
    }
  }

  /** A bucket lock has one holder. */
  lemma OneHolder(s: State, t: Tid, u: Tid, table: nat, b: nat)
    requires LockInv(s.locks, s.pcs) && t < |s.pcs| && u < |s.pcs|
    requires Holds(s.pcs[t], table, b) && Holds(s.pcs[u], table, b)
    ensures t == u
  {
    assert HeldBy(s.locks, table, b, t) && HeldBy(s.locks, table, b, u);
  }

  /** Thread `t` holds the bucket of the key of `x` in the current table. */
  predicate HoldsHomeOf(s: State, t: Tid, x: Tid)
    requires Sized(s)
  {
    && t < |s.pcs| && x < |s.pcs| && s.tables != []
    && Holds(s.pcs[t], |s.tables| - 1, Home(s.tables[|s.tables| - 1], s.key[x]))
  }

  /** Whoever holds the bucket of `x`, for whatever key, is the only one that can notify `x`. */
  lemma OnlyNotifier(s: State, t: Tid, x: Tid)
    requires Inv(s) && HoldsHomeOf(s, t, x)
    ensures forall u :: 0 <= u < |s.pcs| && u != t ==> !Notifies(s.pcs[u], x)
  {
    forall u | 0 <= u < |s.pcs| && Notifies(s.pcs[u], x) ensures u == t {
      assert ThreadInv(s, u);
      OneHolder(s, t, u, |s.tables| - 1, Home(s.tables[|s.tables| - 1], s.key[x]));
    }
  }
}
