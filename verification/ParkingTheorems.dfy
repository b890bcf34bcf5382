/** What every run of the parking lot guarantees. */
module ParkingTheorems {
  import opened Wrappers
  import opened Threads
  import opened Hashing
  import opened ParkingLists
  import opened ParkingSpec
  import opened ParkingProtocol
  import opened ParkingInvariant
  import opened ParkingSteps
  import opened ParkingRuns

  // ---------- Tokens and order ----------

  /**
   A `park` that returns `Unparked(v)` was chosen by exactly one `unpark_one` of its key, whose token
   was `v`, and that call chose the thread that had waited longest.
   */
  lemma UnparkedExactly(threads: nat, schedule: Schedule, j: nat, t: Tid, v: nat)
    returns (p: nat, c: nat, k: nat)
    requires j < |Run(threads, schedule).log| && Run(threads, schedule).log[j] == Returned(t, Unparked(v))
    ensures var log := Run(threads, schedule).log;
      && p < c < j && log[p] == Parked(t, k) && log[c] == Chosen(t, k, v)
      && Silent(log[..c], t, p + 1) && Silent(log[..j], t, c + 1)
      && forall u :: u != t && StatusOf(log[..c], u) == Waiting(k) ==> ParkedAt(log[..c], t) < ParkedAt(log[..c], u)
  {
    var log := Run(threads, schedule).log;
    p, c, k := UnparkedByOne(log, j, t, v);
    forall u | u != t && StatusOf(log[..c], u) == Waiting(k) ensures ParkedAt(log[..c], t) < ParkedAt(log[..c], u) {
      ChosenWaitedLongest(log, c, u);
    }
  }

  /** A `park` that returns `TimedOut` was chosen by nobody. */
  lemma TimedOutExactly(threads: nat, schedule: Schedule, j: nat, t: Tid) returns (p: nat, w: nat, k: nat)
    requires j < |Run(threads, schedule).log| && Run(threads, schedule).log[j] == Returned(t, TimedOut)
    ensures var log := Run(threads, schedule).log;
      && p < w < j && log[p] == Parked(t, k) && log[w] == Withdrawn(t, k)
      && Silent(log[..w], t, p + 1) && Silent(log[..j], t, w + 1)
  {
    p, w, k := TimedOutByNone(Run(threads, schedule).log, j, t);
  }

  /** An `unpark_one` that finds nobody is right: no thread waits on its key. */
  lemma MissedExactly(threads: nat, schedule: Schedule, j: nat, t: Tid)
    requires j < |Run(threads, schedule).log| && Run(threads, schedule).log[j].Missed?
    ensures StatusOf(Run(threads, schedule).log[..j], t) != Waiting(Run(threads, schedule).log[j].k)
  {
    var log := Run(threads, schedule).log;
    LegalPrefix(log, j);
    QueueIsWaiters(log[..j], log[j].k);
  }

  // ---------- Where parked threads are ----------

  /** `x` is in bucket `b` of the current table. */
  predicate QueuedAt(s: State, x: Tid, b: nat) {
    s.tables != [] && b < |s.tables[|s.tables| - 1].queues| && x in s.tables[|s.tables| - 1].queues[b]
  }

  /** `x` is in bucket `b` exactly if it waits and `b` is the bucket of its key. */
  ghost predicate QueueShowsWaiting(s: State, x: Tid, b: nat)
    requires Sized(s)
  {
    QueuedAt(s, x, b) <==>
      && x < |s.pcs| && StatusOf(s.log, x) == Waiting(s.key[x])
      && s.tables != [] && b == Home(s.tables[|s.tables| - 1], s.key[x])
  }

  lemma QueuedIffWaiting(s: State, x: Tid, b: nat)
    requires Inv(s)
    ensures QueueShowsWaiting(s, x, b)
  {
    if s.tables != [] {
      var table := s.tables[|s.tables| - 1];
      CurrentOk(s, |s.tables| - 1);
      if QueuedAt(s, x, b) {
        QueuedIsWaiting(table, s.key, s.log, b, x);
        assert BucketOk(table, s.key, b);
      }
      if x < |s.pcs| && StatusOf(s.log, x) == Waiting(s.key[x]) && b == Home(table, s.key[x]) {
        QueueIsWaiters(s.log, s.key[x]);
        assert Refines(table, s.key, s.log, s.key[x]);
        OfKeyMembers(table.queues[b], s.key, s.key[x]);
      }
    }
  }

  /** A thread is in a bucket of the current table exactly if it waits and the bucket is that of its key. */
  lemma WaitingAtHome(threads: nat, schedule: Schedule, x: Tid, b: nat)
    ensures QueueShowsWaiting(Run(threads, schedule), x, b)
  {
    QueuedIffWaiting(Run(threads, schedule), x, b);
  }

  /** There is a table as soon as somebody waits, and a thread waits only on its key. */
  lemma WaitingOnKey(threads: nat, schedule: Schedule, x: Tid, k: nat)
    requires x < |Run(threads, schedule).pcs| && StatusOf(Run(threads, schedule).log, x) == Waiting(k)
    ensures k == Run(threads, schedule).key[x] && Run(threads, schedule).tables != []
  {
    var s := Run(threads, schedule);
    assert ThreadInv(s, x);
    QueueIsWaiters(s.log, k);
  }

  /**
   Thread `u` holds the bucket of the sleeping thread `x`, at any point and for any key, and is not just
   handing `x` its token.
   */
  predicate LockedFor(s: State, u: Tid, x: Tid)
    requires Sized(s)
  {
    HoldsHomeOf(s, u, x) && !Notifies(s.pcs[u], x) && PhaseOf(s.pcs[x]) in {Asleep, Waking}
  }

  /** `x` is in the bucket of its key exactly if its flag is set. */
  predicate FlagShowsQueue(s: State, x: Tid)
    requires Sized(s) && x < |s.pcs| && s.tables != []
  {
    s.flag[x] <==> QueuedAt(s, x, Home(s.tables[|s.tables| - 1], s.key[x]))
  }

  lemma FlagMeansQueued(s: State, u: Tid, x: Tid)
    requires Inv(s) && LockedFor(s, u, x)
    ensures FlagShowsQueue(s, x)
  {
    assert ThreadInv(s, x);
    QueuedIffWaiting(s, x, Home(s.tables[|s.tables| - 1], s.key[x]));
    if s.flag[x] {
      FlagMeansWaiting(s, x, u);
    }
  }

  /** With its bucket locked, a sleeping thread is in the queue exactly if its flag is set. */
  lemma FlagIffQueued(threads: nat, schedule: Schedule, u: Tid, x: Tid)
    requires LockedFor(Run(threads, schedule), u, x)
    ensures FlagShowsQueue(Run(threads, schedule), x)
  {
    FlagMeansQueued(Run(threads, schedule), u, x);
  }

  /** The flag of `x` is set exactly while it is queued or being notified, and it is never both. */
  ghost predicate FlagIsExact(s: State, x: Tid)
    requires Sized(s) && x < |s.pcs| && s.tables != []
  {
    var queued := QueuedAt(s, x, Home(s.tables[|s.tables| - 1], s.key[x]));
    (s.flag[x] <==> queued || Notifying(s.pcs, x)) && !(queued && Notifying(s.pcs, x))
  }

  lemma FlagOfSleeper(s: State, x: Tid)
    requires Inv(s) && x < |s.pcs| && s.tables != [] && PhaseOf(s.pcs[x]) in {Asleep, Waking}
    ensures FlagIsExact(s, x)
  {
    assert ThreadInv(s, x);
    QueuedIffWaiting(s, x, Home(s.tables[|s.tables| - 1], s.key[x]));
    if Notifying(s.pcs, x) {
      var u :| 0 <= u < |s.pcs| && Notifies(s.pcs[u], x);
      assert ThreadInv(s, u);
    }
  }

  /** Locked or not, the flag of a sleeper is set exactly while it is queued or being notified. */
  lemma FlagExactly(threads: nat, schedule: Schedule, x: Tid)
    requires x < |Run(threads, schedule).pcs| && Run(threads, schedule).tables != []
    requires PhaseOf(Run(threads, schedule).pcs[x]) in {Asleep, Waking}
    ensures FlagIsExact(Run(threads, schedule), x)
  {
    FlagOfSleeper(Run(threads, schedule), x);
  }

  // ---------- Tables ----------

  lemma HeldIsStable(s: State, u: Tid, t: Tid, c: Choice)
    requires Inv(s) && u < |s.pcs| && Pinned(s.pcs[u]) && !s.pcs[u].Publish?
    ensures IsCurrent(s, s.pcs[u].table) && HeldBy(s.locks, s.pcs[u].table, s.pcs[u].b, u)
    ensures |Next(s, t, c).tables| == |s.tables|
  {
    assert ThreadInv(s, u);
    assert Holds(s.pcs[u], s.pcs[u].table, s.pcs[u].b);
    if |Next(s, t, c).tables| != |s.tables| {
      OnlyPublishReplaces(s, t, c);
      PublisherIsAlone(s, t, u);
    }
  }

  /** While a thread holds a bucket returned by `lock_bucket`, no step replaces the table. */
  lemma StableWhileHeld(threads: nat, schedule: Schedule, u: Tid, t: Tid, c: Choice)
    requires var s := Run(threads, schedule); u < |s.pcs| && Pinned(s.pcs[u]) && !s.pcs[u].Publish?
    ensures var s := Run(threads, schedule);
      && IsCurrent(s, s.pcs[u].table) && HeldBy(s.locks, s.pcs[u].table, s.pcs[u].b, u)
      && |Next(s, t, c).tables| == |s.tables|
  {
    HeldIsStable(Run(threads, schedule), u, t, c);
  }

  lemma OnlyPublishReplaces(s: State, t: Tid, c: Choice)
    requires Sized(s) && s.tables != [] && |Next(s, t, c).tables| != |s.tables|
    ensures t < |s.pcs| && s.pcs[t].Publish? && Next(s, t, c).locks == s.locks
  {
  }

  lemma PublisherHoldsAll(s: State, t: Tid, b: nat)
    requires Inv(s) && t < |s.pcs| && s.pcs[t].Publish? && s.tables != [] && b < |s.tables[|s.tables| - 1].queues|
    ensures HeldBy(s.locks, |s.tables| - 1, b, t)
  {
    assert ThreadInv(s, t);
    assert Holds(s.pcs[t], |s.tables| - 1, b);
  }

  /** The step of `t` replaces the current table. */
  predicate Replaces(s: State, t: Tid, c: Choice)
    requires Sized(s)
  {
    s.tables != [] && |Next(s, t, c).tables| != |s.tables|
  }

  /** `t` holds the lock of each of the first `size` buckets of `table`. */
  ghost predicate HoldsEvery(locks: map<(nat, nat), Tid>, table: nat, size: nat, t: Tid) {
    forall b :: 0 <= b < size ==> HeldBy(locks, table, b, t)
  }

  /** `t` holds every bucket lock of the current table of `s` before the step to `s'` and after it. */
  ghost predicate HoldsThroughout(s: State, s': State, t: Tid) {
    && s.tables != []
    && HoldsEvery(s.locks, |s.tables| - 1, |s.tables[|s.tables| - 1].queues|, t)
    && HoldsEvery(s'.locks, |s.tables| - 1, |s.tables[|s.tables| - 1].queues|, t)
  }

  lemma ReplacerHoldsAll(s: State, t: Tid, c: Choice)
    requires Inv(s) && Replaces(s, t, c)
    ensures HoldsThroughout(s, Next(s, t, c), t)
  {
    OnlyPublishReplaces(s, t, c);
    var table := |s.tables| - 1;
    forall b | 0 <= b < |s.tables[table].queues| ensures HeldBy(s.locks, table, b, t) {
      PublisherHoldsAll(s, t, b);
    }
  }

  /** A step that replaces the table is one of a thread that holds every bucket lock of the old table. */
  lemma ReplacedByHolderOfAll(threads: nat, schedule: Schedule, t: Tid, c: Choice)
    requires Replaces(Run(threads, schedule), t, c)
    ensures HoldsThroughout(Run(threads, schedule), Next(Run(threads, schedule), t, c), t)
  {
    ReplacerHoldsAll(Run(threads, schedule), t, c);
  }

  /** Later tables are strictly larger. */
  lemma TablesStrictlyGrow(threads: nat, schedule: Schedule, i: nat, j: nat)
    requires i < j < |Run(threads, schedule).tables|
    ensures |Run(threads, schedule).tables[i].queues| < |Run(threads, schedule).tables[j].queues|
  {
    var tables := Run(threads, schedule).tables;
    assert TableOk(tables[i]) && TableOk(tables[j]);
    Pow2Monotone(tables[i].bits, tables[j].bits);
  }

  /** The thread count for which the thread at `pc` grows the table. */
  function GrowsFor(pc: Pc): (n: Option<nat>) {
    match pc
    case GetTable(Grow(n)) => Some(n)
    case CreateTable(Grow(n)) => Some(n)
    case GrowLock(n, _, _) => Some(n)
    case GrowCheck(n, _, _) => Some(n)
    case Publish(n, _, _) => Some(n)
    case GrowUnlock(n, _, _, _, _) => Some(n)
    case _ => None
  }

  /** When `grow_hashtable(n)` returns, the current table has at least 3n buckets. */
  lemma GrowSuffices(threads: nat, schedule: Schedule, t: Tid, c: Choice, n: nat)
    requires var s := Run(threads, schedule);
      t < |s.pcs| && GrowsFor(s.pcs[t]) == Some(n) && GrowsFor(Next(s, t, c).pcs[t]) != Some(n)
    ensures var s' := Next(Run(threads, schedule), t, c);
      s'.pcs[t].Idle? && s'.tables != [] && LOAD_FACTOR * n <= |s'.tables[|s'.tables| - 1].queues|
  {
    assert ThreadInv(Run(threads, schedule), t);
    GrowReturns(Run(threads, schedule), t, c, n);
  }

  lemma GrowReturns(s: State, t: Tid, c: Choice, n: nat)
    requires Sized(s) && t < |s.pcs| && LocalInv(s, t)
    requires GrowsFor(s.pcs[t]) == Some(n) && GrowsFor(Next(s, t, c).pcs[t]) != Some(n)
    ensures var s' := Next(s, t, c);
      s'.pcs[t].Idle? && s'.tables != [] && LOAD_FACTOR * n <= |s'.tables[|s'.tables| - 1].queues|
  {
    if FindsTable(s.pcs[t]) {
      LargeEnough(s, t, c, n);
    } else {
      Unlocked(s, t, n);
    }
  }

  /** The test at the start finds the table large enough. */
  lemma LargeEnough(s: State, t: Tid, c: Choice, n: nat)
    requires Sized(s) && t < |s.pcs| && (s.pcs[t] == GetTable(Grow(n)) || s.pcs[t] == CreateTable(Grow(n)))
    requires GrowsFor(TableNext(s, t, c).pcs[t]) != Some(n)
    ensures var s' := TableNext(s, t, c);
      s'.pcs[t].Idle? && s'.tables != [] && LOAD_FACTOR * n <= |s'.tables[|s'.tables| - 1].queues|
  {
  }

  /** The last bucket of the old table is unlocked. */
  lemma Unlocked(s: State, t: Tid, n: nat)
    requires Sized(s) && t < |s.pcs| && Grows(s.pcs[t]) && s.pcs[t].threads == n && LocalInv(s, t)
    requires GrowsFor(GrowNext(s, t).pcs[t]) != Some(n)
    ensures var s' := GrowNext(s, t);
      s'.pcs[t].Idle? && s'.tables != [] && LOAD_FACTOR * n <= |s'.tables[|s'.tables| - 1].queues|
  {
  }

  /** The key of a sleeper never changes, so the second test of `lock_bucket_checked` never fails. */
  lemma KeyCheckSucceeds(threads: nat, schedule: Schedule, t: Tid, c: Choice)
    requires t < |Run(threads, schedule).pcs| && Run(threads, schedule).pcs[t].CheckKey?
    ensures var s := Run(threads, schedule);
      Next(s, t, c).pcs[t] == Inside(Timeout, s.pcs[t].table, s.key[t], s.pcs[t].b)
  {
    assert ThreadInv(Run(threads, schedule), t);
  }

  // ---------- The critical sections of the machine are what the lists do ----------

  /** The position that the scan of `unpark_one` stops at holds the first thread with the key. */
  lemma ScanFindsFirst(q: seq<Tid>, key: seq<nat>, k: nat, i: nat)
    requires i < |q| && q[i] < |key| && key[q[i]] == k && !HasKey(key, q[..i], k) && Distinct(q)
    ensures First(OfKey(q, key, k)) == Some(q[i]) && Without(q, i) == Remove(q, q[i])
  {
    assert q == q[..i] + ([q[i]] + q[i + 1..]);
    OfKeyConcat(q[..i], [q[i]] + q[i + 1..], key, k);
    OfKeyConcat([q[i]], q[i + 1..], key, k);
    OfKeyEmpty(q[..i], key, k);
    assert [q[i]][..0] == [] && OfKey([q[i]], key, k) == [q[i]];
    WithoutIsRemove(q, i);
  }

  lemma {:induction false} WithoutIsRemove(q: seq<Tid>, i: nat)
    requires i < |q| && Distinct(q)
    ensures Without(q, i) == Remove(q, q[i])
  {
    var n := |q| - 1;
    if i == n {
      assert q[n] !in q[..n];
      RemoveAbsent(q[..n], q[n]);
      assert Without(q, i) == q[..n];
    } else {
      WithoutIsRemove(q[..n], i);
      assert Without(q, i) == Without(q[..n], i) + [q[n]];
    }
  }

  lemma ScanFindsNobody(q: seq<Tid>, key: seq<nat>, k: nat)
    ensures First(OfKey(q, key, k)).None? <==> !HasKey(key, q, k)
  {
    if HasKey(key, q, k) {
      OfKeyMembers(q, key, k);
      var i :| 0 <= i < |q| && q[i] < |key| && key[q[i]] == k;
      assert q[i] in OfKey(q, key, k);
    } else {
      OfKeyEmpty(q, key, k);
    }
  }
}
