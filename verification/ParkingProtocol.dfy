/**
 The parking lot as a step machine (src/mutex/deadlock.rs): any number of threads lock buckets, park,
 unpark, time out and grow the table, one shared access per step. A bucket lock is taken in one step;
 what happens to the lists of a locked bucket is one step too.
 */
module ParkingProtocol {
  import opened Threads
  import opened Hashing
  import opened ParkingLists
  import opened ParkingSpec

  datatype Op =
    | Park(k: nat, timed: bool)
    | Unpark(k: nat)
    | Timeout               // the second half of a timed `park`: `lock_bucket_checked`
    | Grow(threads: nat)

  /** What a thread does after unlocking its bucket. */
  datatype After = Done | Return(result: ParkResult) | ToSleep(timed: bool) | ToToken

  /** Where a thread is; `table` is the table it loaded, `b` the bucket it computed from key `k`. */
  datatype Pc =
    | Idle
    | GetTable(op: Op)
    | CreateTable(op: Op)
    | LoadKey(table: nat)
    | Lock(op: Op, table: nat, k: nat, b: nat)
    | CheckTable(op: Op, table: nat, k: nat, b: nat)
    | CheckKey(table: nat, k: nat, b: nat)
    | Retry(op: Op, table: nat, b: nat)
    | Inside(op: Op, table: nat, k: nat, b: nat)
    | SetToken(table: nat, k: nat, b: nat, target: Tid, token: nat)
    | ClearFlag(table: nat, k: nat, b: nat, target: Tid, token: nat)
    | Leave(table: nat, b: nat, after: After)
    | Sleep(timed: bool)
    | ReadToken
    | GrowLock(threads: nat, table: nat, i: nat)
    | GrowCheck(threads: nat, table: nat, size: nat)
    | Publish(threads: nat, table: nat, size: nat)
    | GrowUnlock(threads: nat, table: nat, i: nat, size: nat, done: bool)

  datatype Table = Table(bits: nat, queues: seq<seq<Tid>>)

  /**
   `tables` are the tables ever published, so HASHTABLE is null or points to the last; `locks` maps a
   locked bucket to its holder; `log` is the history of `park` and `unpark_one`.
   */
  datatype State = State(
    tables: seq<Table>,
    locks: map<(nat, nat), Tid>,
    key: seq<nat>,
    flag: seq<bool>,
    token: seq<nat>,
    pcs: seq<Pc>,
    log: seq<Event>)

  datatype Choice = Choice(op: Op, yes: bool, token: nat)

  /** Who steps, in which order and with which choices. */
  type Schedule = seq<(Tid, Choice)>

  predicate Sized(s: State) {
    && |s.key| == |s.flag| == |s.token| == |s.pcs|
    && forall i :: 0 <= i < |s.tables| ==> s.tables[i].bits <= WORD_BITS
  }

  function NewTable(bits: nat): (r: Table) {
    Table(bits, seq(Pow2(bits), _ => []))
  }

  function At(s: State, t: Tid, pc: Pc): (r: State)
    requires t < |s.pcs|
  {
    s.(pcs := s.pcs[t := pc])
  }

  /** The table id that a load of HASHTABLE gives. */
  predicate IsCurrent(s: State, table: nat) {
    table + 1 == |s.tables|
  }

  function Home(table: Table, k: nat): (b: nat)
    requires table.bits <= WORD_BITS
  {
    Hash(k, table.bits)
  }

  /** A thread that has got `table` goes on. */
  function GotTable(s: State, op: Op, table: nat): (pc: Pc)
    requires Sized(s) && table < |s.tables|
  {
    match op
    case Park(k, _) => Lock(op, table, k, Home(s.tables[table], k))
    case Unpark(k) => Lock(op, table, k, Home(s.tables[table], k))
    case Timeout => LoadKey(table)
    case Grow(n) => if |s.tables[table].queues| >= LOAD_FACTOR * n then Idle else GrowLock(n, table, 0)
  }

  /** Threads may call anything; the table sizes asked for must fit a word. */
  function StartStep(s: State, t: Tid, op: Op): (r: State)
    requires t < |s.pcs|
  {
    if op.Timeout? || (op.Grow? && !(op.threads >= 1 && LoadFits(op.threads))) then s
    else At(s, t, GetTable(op))
  }

  function GetTableStep(s: State, t: Tid, op: Op): (r: State)
    requires Sized(s) && t < |s.pcs|
  {
    At(s, t, if s.tables == [] then CreateTable(op) else GotTable(s, op, |s.tables| - 1))
  }

  /** The CAS from null; if it fails the table of another thread is used. */
  function CreateTableStep(s: State, t: Tid, op: Op): (r: State)
    requires Sized(s) && t < |s.pcs|
  {
    if s.tables != [] then At(s, t, GotTable(s, op, |s.tables| - 1))
    else
      BitsFitWord(LOAD_FACTOR);
      var s' := s.(tables := [NewTable(HashBits(LOAD_FACTOR))]);
      At(s', t, GotTable(s', op, 0))
  }

  function LoadKeyStep(s: State, t: Tid, table: nat): (r: State)
    requires Sized(s) && t < |s.pcs|
  {
    if table < |s.tables| then At(s, t, Lock(Timeout, table, s.key[t], Home(s.tables[table], s.key[t]))) else s
  }

  /** Takes the bucket lock, or keeps waiting for it. */
  function LockStep(s: State, t: Tid, table: nat, b: nat, pc: Pc): (r: State)
    requires t < |s.pcs|
  {
    if (table, b) in s.locks then s else At(s.(locks := s.locks[(table, b) := t]), t, pc)
  }

  function UnlockStep(s: State, t: Tid, table: nat, b: nat, pc: Pc): (r: State)
    requires t < |s.pcs|
  {
    At(s.(locks := s.locks - {(table, b)}), t, pc)
  }

  function Log(s: State, e: Event): (r: State) {
    s.(log := s.log + [e])
  }

  function SetQueue(s: State, table: nat, b: nat, q: seq<Tid>): (r: State)
    requires table < |s.tables| && b < |s.tables[table].queues|
  {
    var was := s.tables[table];
    s.(tables := s.tables[table := was.(queues := was.queues[b := q])])
  }

  predicate HasBucket(s: State, table: nat, b: nat) {
    table < |s.tables| && b < |s.tables[table].queues|
  }

  /** `park` with its bucket locked: validate, then queue the thread. */
  function ParkStep(s: State, t: Tid, op: Op, table: nat, k: nat, b: nat, valid: bool): (r: State)
    requires Sized(s) && t < |s.pcs| && op.Park? && HasBucket(s, table, b)
  {
    if !valid then At(s, t, Leave(table, b, Return(Invalid)))
    else
      var s1 := SetQueue(s, table, b, s.tables[table].queues[b] + [t]);
      var s2 := s1.(key := s.key[t := k], flag := s.flag[t := true]);
      At(Log(s2, Parked(t, k)), t, Leave(table, b, ToSleep(op.timed)))
  }

  /** `unpark_one` with its bucket locked: removes the first thread with the key. */
  function UnparkStep(s: State, t: Tid, table: nat, k: nat, b: nat, token: nat): (r: State)
    requires Sized(s) && t < |s.pcs| && HasBucket(s, table, b)
  {
    var q := s.tables[table].queues[b];
    match First(OfKey(q, s.key, k))
    case None => At(Log(s, Missed(k)), t, Leave(table, b, Done))
    case Some(x) =>
      At(Log(SetQueue(s, table, b, Remove(q, x)), Chosen(x, k, token)), t, SetToken(table, k, b, x, token))
  }

  /** A timed-out `park` with its bucket locked again: woken after all, or removes itself. */
  function TimeoutStep(s: State, t: Tid, table: nat, k: nat, b: nat): (r: State)
    requires Sized(s) && t < |s.pcs| && HasBucket(s, table, b)
  {
    if !s.flag[t] then At(s, t, Leave(table, b, ToToken))
    else
      var q := s.tables[table].queues[b];
      At(Log(SetQueue(s, table, b, Remove(q, t)), Withdrawn(t, k)), t, Leave(table, b, Return(TimedOut)))
  }

  function InsideStep(s: State, t: Tid, op: Op, table: nat, k: nat, b: nat, c: Choice): (r: State)
    requires Sized(s) && t < |s.pcs|
    ensures |r.pcs| == |s.pcs|
  {
    if !HasBucket(s, table, b) then s
    else match op
      case Park(_, _) => ParkStep(s, t, op, table, k, b, c.yes)
      case Unpark(_) => UnparkStep(s, t, table, k, b, c.token)
      case Timeout => TimeoutStep(s, t, table, k, b)
      case Grow(_) => s
  }

  function LeaveStep(s: State, t: Tid, table: nat, b: nat, after: After): (r: State)
    requires t < |s.pcs|
  {
    match after
    case Done => UnlockStep(s, t, table, b, Idle)
    case Return(result) => Log(UnlockStep(s, t, table, b, Idle), Returned(t, result))
    case ToSleep(timed) => UnlockStep(s, t, table, b, Sleep(timed))
    case ToToken => UnlockStep(s, t, table, b, ReadToken)
  }

  /** The parker's loop: a look at the flag, then perhaps the timeout. */
  function SleepStep(s: State, t: Tid, timed: bool, expired: bool): (r: State)
    requires Sized(s) && t < |s.pcs|
  {
    if !s.flag[t] then At(s, t, ReadToken)
    else if timed && expired then At(s, t, GetTable(Timeout))
    else s
  }

  function ReadTokenStep(s: State, t: Tid): (r: State)
    requires Sized(s) && t < |s.pcs|
  {
    At(Log(s, Returned(t, Unparked(s.token[t]))), t, Idle)
  }

  function SetTokenStep(s: State, t: Tid, pc: Pc): (r: State)
    requires Sized(s) && t < |s.pcs| && pc.SetToken?
  {
    if pc.target < |s.token| then
      At(s.(token := s.token[pc.target := pc.token]), t, ClearFlag(pc.table, pc.k, pc.b, pc.target, pc.token))
    else s
  }

  function ClearFlagStep(s: State, t: Tid, pc: Pc): (r: State)
    requires Sized(s) && t < |s.pcs| && pc.ClearFlag?
  {
    if pc.target < |s.flag| then
      At(s.(flag := s.flag[pc.target := false]), t, Leave(pc.table, pc.b, Done))
    else s
  }

  function GrowLockStep(s: State, t: Tid, n: nat, table: nat, i: nat): (r: State)
    requires Sized(s) && t < |s.pcs|
  {
    if table < |s.tables| && i < |s.tables[table].queues| then LockStep(s, t, table, i, GrowLock(n, table, i + 1))
    else At(s, t, GrowCheck(n, table, i))
  }

  /** Rehashes every bucket into a new table and publishes it. */
  function PublishStep(s: State, t: Tid, n: nat, table: nat, size: nat): (r: State)
    requires Sized(s) && t < |s.pcs|
  {
    if table < |s.tables| && LoadFits(n) then
      BitsFitWord(n);
      var bits := HashBits(n);
      var grown := Table(bits, RehashedTable(s.tables[table].queues, s.key, bits));
      At(s.(tables := s.tables + [grown]), t, GrowUnlock(n, table, 0, size, true))
    else s
  }

  function GrowUnlockStep(s: State, t: Tid, pc: Pc): (r: State)
    requires t < |s.pcs| && pc.GrowUnlock?
  {
    if pc.i < pc.size then UnlockStep(s, t, pc.table, pc.i, pc.(i := pc.i + 1))
    else At(s, t, if pc.done then Idle else GetTable(Grow(pc.threads)))
  }

  /** The steps before a bucket is known. */
  predicate FindsTable(pc: Pc) {
    pc.Idle? || pc.GetTable? || pc.CreateTable? || pc.LoadKey?
  }

  function TableNext(s: State, t: Tid, c: Choice): (r: State)
    requires Sized(s) && t < |s.pcs| && FindsTable(s.pcs[t])
    ensures |r.pcs| == |s.pcs|
  {
    match s.pcs[t]
    case Idle => StartStep(s, t, c.op)
    case GetTable(op) => GetTableStep(s, t, op)
    case CreateTable(op) => CreateTableStep(s, t, op)
    case LoadKey(table) => LoadKeyStep(s, t, table)
  }

  /** The steps of `lock_bucket` and `lock_bucket_checked` once the bucket is known. */
  predicate LocksBucket(pc: Pc) {
    pc.Lock? || pc.CheckTable? || pc.CheckKey? || pc.Retry?
  }

  function LockNext(s: State, t: Tid): (r: State)
    requires Sized(s) && t < |s.pcs| && LocksBucket(s.pcs[t])
    ensures |r.pcs| == |s.pcs|
  {
    match s.pcs[t]
    case Lock(op, table, k, b) => LockStep(s, t, table, b, CheckTable(op, table, k, b))
    case CheckTable(op, table, k, b) =>
      At(s, t, if !IsCurrent(s, table) then Retry(op, table, b)
               else if op.Timeout? then CheckKey(table, k, b) else Inside(op, table, k, b))
    case CheckKey(table, k, b) =>
      At(s, t, if s.key[t] == k then Inside(Timeout, table, k, b) else Retry(Timeout, table, b))
    case Retry(op, table, b) => UnlockStep(s, t, table, b, GetTable(op))
  }

  /** The steps of `grow_hashtable` after it has got a table. */
  predicate Grows(pc: Pc) {
    pc.GrowLock? || pc.GrowCheck? || pc.Publish? || pc.GrowUnlock?
  }

  function GrowNext(s: State, t: Tid): (r: State)
    requires Sized(s) && t < |s.pcs| && Grows(s.pcs[t])
    ensures |r.pcs| == |s.pcs|
  {
    match s.pcs[t]
    case GrowLock(n, table, i) => GrowLockStep(s, t, n, table, i)
    case GrowCheck(n, table, size) =>
      At(s, t, if IsCurrent(s, table) then Publish(n, table, size) else GrowUnlock(n, table, 0, size, false))
    case Publish(n, table, size) => PublishStep(s, t, n, table, size)
    case GrowUnlock(_, _, _, _, _) => GrowUnlockStep(s, t, s.pcs[t])
  }

  /** The steps that end a `park` or an `unpark_one`. */
  predicate Ends(pc: Pc) {
    pc.SetToken? || pc.ClearFlag? || pc.Leave? || pc.Sleep? || pc.ReadToken?
  }

  function EndNext(s: State, t: Tid, c: Choice): (r: State)
    requires Sized(s) && t < |s.pcs| && Ends(s.pcs[t])
    ensures |r.pcs| == |s.pcs|
  {
    match s.pcs[t]
    case SetToken(_, _, _, _, _) => SetTokenStep(s, t, s.pcs[t])
    case ClearFlag(_, _, _, _, _) => ClearFlagStep(s, t, s.pcs[t])
    case Leave(table, b, after) => LeaveStep(s, t, table, b, after)
    case Sleep(timed) => SleepStep(s, t, timed, c.yes)
    case ReadToken => ReadTokenStep(s, t)
  }

  /** One step of thread `t`. */
  function Next(s: State, t: Tid, c: Choice): (r: State)
    requires Sized(s)
    ensures |r.pcs| == |s.pcs|
  {
    if t >= |s.pcs| then s
    else if s.pcs[t].Inside? then InsideStep(s, t, s.pcs[t].op, s.pcs[t].table, s.pcs[t].k, s.pcs[t].b, c)
    else if LocksBucket(s.pcs[t]) then LockNext(s, t)
    else if Grows(s.pcs[t]) then GrowNext(s, t)
    else if Ends(s.pcs[t]) then EndNext(s, t, c)
    else TableNext(s, t, c)
  }

  function Init(threads: nat): (s: State) {
    State([], map[], seq(threads, _ => 0), seq(threads, _ => false), seq(threads, _ => 0), seq(threads, _ => Idle), [])
  }
}
