/**
 What the parking lot promises, on the history of its calls alone: one FIFO wait queue per key,
 and every thread that is unparked receives the token of the one call that chose it.
 */
module ParkingSpec {
  import opened Wrappers
  import opened Threads
  import opened ParkingLists

  datatype ParkResult = Unparked(token: nat) | Invalid | TimedOut

  datatype Event =
    | Parked(t: Tid, k: nat)                  // a validated `park` has queued its thread
    | Chosen(t: Tid, k: nat, token: nat)      // an `unpark_one` has removed `t`
    | Missed(k: nat)                          // an `unpark_one` found nobody
    | Withdrawn(t: Tid, k: nat)               // a timed-out `park` has removed its own thread
    | Returned(t: Tid, result: ParkResult)    // `park` has returned

  datatype Status = Away | Waiting(k: nat) | Woken(token: nat) | Gone

  function StatusAfter(st: Status, e: Event, t: Tid): (r: Status) {
    match e
    case Parked(u, k) => if u == t then Waiting(k) else st
    case Chosen(u, _, v) => if u == t then Woken(v) else st
    case Withdrawn(u, _) => if u == t then Gone else st
    case Returned(u, _) => if u == t then Away else st
    case Missed(_) => st
  }

  /** Where thread `t` is in its current `park`. */
  function StatusOf(log: seq<Event>, t: Tid): (r: Status) {
    if log == [] then Away else StatusAfter(StatusOf(log[..|log| - 1], t), log[|log| - 1], t)
  }

  /** `q` without the thread `t`. */
  function Remove(q: seq<Tid>, t: Tid): (r: seq<Tid>)
    ensures forall u :: u in r <==> u in q && u != t
  {
    if q == [] then []
    else
      var r := Remove(q[..|q| - 1], t);
      if q[|q| - 1] == t then r else r + [q[|q| - 1]]
  }

  function QueueAfter(q: seq<Tid>, e: Event, k: nat): (r: seq<Tid>) {
    match e
    case Parked(t, j) => if j == k then q + [t] else q
    case Chosen(t, j, _) => if j == k then Remove(q, t) else q
    case Withdrawn(t, j) => if j == k then Remove(q, t) else q
    case Missed(_) => q
    case Returned(_, _) => q
  }

  /** The threads waiting on key `k`, the longest-waiting first. */
  function QueueOf(log: seq<Event>, k: nat): (r: seq<Tid>) {
    if log == [] then [] else QueueAfter(QueueOf(log[..|log| - 1], k), log[|log| - 1], k)
  }

  predicate LegalEvent(log: seq<Event>, e: Event) {
    match e
    case Parked(t, _) => StatusOf(log, t) == Away
    case Chosen(t, k, _) => First(QueueOf(log, k)) == Some(t)
    case Missed(k) => QueueOf(log, k) == []
    case Withdrawn(t, k) => StatusOf(log, t) == Waiting(k)
    case Returned(t, Unparked(v)) => StatusOf(log, t) == Woken(v)
    case Returned(t, TimedOut) => StatusOf(log, t) == Gone
    case Returned(t, Invalid) => StatusOf(log, t) == Away
  }

  /** Every event is one the specification allows at its point. */
  predicate Legal(log: seq<Event>) {
    log == [] || (Legal(log[..|log| - 1]) && LegalEvent(log[..|log| - 1], log[|log| - 1]))
  }

  // ---------- What a legal history means ----------

  lemma Extend(log: seq<Event>, e: Event)
    ensures forall t :: StatusOf(log + [e], t) == StatusAfter(StatusOf(log, t), e, t)
    ensures forall k :: QueueOf(log + [e], k) == QueueAfter(QueueOf(log, k), e, k)
    ensures Legal(log + [e]) <==> Legal(log) && LegalEvent(log, e)
  {
    assert (log + [e])[..|log + [e]| - 1] == log;
  }

  lemma {:induction false} RemoveDistinct(q: seq<Tid>, t: Tid)
    requires Distinct(q)
    ensures Distinct(Remove(q, t))
  {
    if q != [] {
      var n := |q| - 1;
      RemoveDistinct(q[..n], t);
      assert q[n] !in q[..n];
    }
  }

  lemma AppendDistinct(q: seq<Tid>, t: Tid)
    requires Distinct(q) && t !in q
    ensures Distinct(q + [t])
  {
  }

  /** The queue of a key holds exactly the threads that wait on it, each once. */
  lemma {:induction false} QueueIsWaiters(log: seq<Event>, k: nat)
    requires Legal(log)
    ensures Distinct(QueueOf(log, k))
    ensures forall t :: t in QueueOf(log, k) <==> StatusOf(log, t) == Waiting(k)
  {
    if log != [] {
      var before, e := log[..|log| - 1], log[|log| - 1];
      QueueIsWaiters(before, k);
      var q := QueueOf(before, k);
      match e
      case Parked(t, j) => if j == k { AppendDistinct(q, t); }
      case Chosen(t, j, _) =>
        QueueIsWaiters(before, j);
        assert t in QueueOf(before, j);
        if j == k { RemoveDistinct(q, t); }
      case Withdrawn(t, j) => if j == k { RemoveDistinct(q, t); }
      case Returned(t, result) => match result { case Unparked(_) => case TimedOut => case Invalid => }
      case Missed(_) =>
    }
  }

  /** No event of `t` at or after position `i`. */
  predicate Silent(log: seq<Event>, t: Tid, i: nat) {
    forall j :: i <= j < |log| ==> log[j].Missed? || log[j].t != t
  }

  /** A thread that has been woken with `v` was chosen with `v`, after which nothing happened to it. */
  lemma {:induction false} WokenWasChosen(log: seq<Event>, t: Tid, v: nat) returns (i: nat, k: nat)
    requires StatusOf(log, t) == Woken(v)
    ensures i < |log| && log[i] == Chosen(t, k, v) && Silent(log, t, i + 1)
  {
    var n := |log| - 1;
    if log[n].Chosen? && log[n].t == t {
      i, k := n, log[n].k;
    } else {
      i, k := WokenWasChosen(log[..n], t, v);
      assert Silent(log[..n], t, i + 1);
      assert forall j :: i + 1 <= j < n ==> log[..n][j] == log[j];
    }
  }

  /** A thread that waits was queued, after which nothing happened to it. */
  lemma {:induction false} WaitingWasParked(log: seq<Event>, t: Tid, k: nat) returns (i: nat)
    requires StatusOf(log, t) == Waiting(k)
    ensures i < |log| && log[i] == Parked(t, k) && Silent(log, t, i + 1)
  {
    var n := |log| - 1;
    if log[n].Parked? && log[n].t == t {
      i := n;
    } else {
      i := WaitingWasParked(log[..n], t, k);
      assert Silent(log[..n], t, i + 1);
      assert forall j :: i + 1 <= j < n ==> log[..n][j] == log[j];
    }
  }

  lemma {:induction false} LegalPrefix(log: seq<Event>, j: nat)
    requires Legal(log) && j < |log|
    ensures Legal(log[..j]) && LegalEvent(log[..j], log[j])
  {
    var n := |log| - 1;
    if j < n {
      LegalPrefix(log[..n], j);
      assert log[..n][..j] == log[..j];
    }
  }

  /**
   In a legal history a `park` that returns `Unparked(v)` was queued, then chosen by exactly one
   `unpark_one`, whose callback gave `v`, and nothing else happened to it in between.
   */
  lemma UnparkedByOne(log: seq<Event>, j: nat, t: Tid, v: nat) returns (p: nat, c: nat, k: nat)
    requires Legal(log) && j < |log| && log[j] == Returned(t, Unparked(v))
    ensures p < c < j && log[p] == Parked(t, k) && log[c] == Chosen(t, k, v)
    ensures Silent(log[..c], t, p + 1) && Silent(log[..j], t, c + 1)
  {
    LegalPrefix(log, j);
    c, k := WokenWasChosen(log[..j], t, v);
    assert log[..j][..c] == log[..c];
    LegalPrefix(log[..j], c);
    QueueIsWaiters(log[..c], k);
    assert t in QueueOf(log[..c], k);
    p := WaitingWasParked(log[..c], t, k);
  }

  lemma {:induction false} GoneWithdrew(log: seq<Event>, t: Tid) returns (i: nat, k: nat)
    requires StatusOf(log, t) == Gone
    ensures i < |log| && log[i] == Withdrawn(t, k) && Silent(log, t, i + 1)
  {
    var n := |log| - 1;
    if log[n].Withdrawn? && log[n].t == t {
      i, k := n, log[n].k;
    } else {
      i, k := GoneWithdrew(log[..n], t);
      assert Silent(log[..n], t, i + 1);
      assert forall j :: i + 1 <= j < n ==> log[..n][j] == log[j];
    }
  }

  /** A `park` that returns `TimedOut` was queued and withdrew, and no `unpark_one` chose it. */
  lemma TimedOutByNone(log: seq<Event>, j: nat, t: Tid) returns (p: nat, w: nat, k: nat)
    requires Legal(log) && j < |log| && log[j] == Returned(t, TimedOut)
    ensures p < w < j && log[p] == Parked(t, k) && log[w] == Withdrawn(t, k)
    ensures Silent(log[..w], t, p + 1) && Silent(log[..j], t, w + 1)
  {
    LegalPrefix(log, j);
    w, k := GoneWithdrew(log[..j], t);
    assert log[..j][..w] == log[..w];
    LegalPrefix(log[..j], w);
    p := WaitingWasParked(log[..w], t, k);
  }

  /** The position at which `t` was last queued. */
  function ParkedAt(log: seq<Event>, t: Tid): (p: nat)
    ensures p <= |log|
  {
    if log == [] then 0
    else
      var n := |log| - 1;
      if log[n].Parked? && log[n].t == t then n else ParkedAt(log[..n], t)
  }

  predicate Ordered(log: seq<Event>, q: seq<Tid>) {
    forall i, j :: 0 <= i < j < |q| ==> ParkedAt(log, q[i]) < ParkedAt(log, q[j])
  }

  lemma {:induction false} RemoveOrdered(log: seq<Event>, q: seq<Tid>, t: Tid)
    requires Ordered(log, q)
    ensures Ordered(log, Remove(q, t))
  {
    if q != [] {
      var n := |q| - 1;
      RemoveOrdered(log, q[..n], t);
      var r := Remove(q[..n], t);
      forall i | 0 <= i < |r| && q[n] != t ensures ParkedAt(log, r[i]) < ParkedAt(log, q[n]) {
        assert r[i] in q[..n];
      }
    }
  }

  /** The queue of a key is ordered by the time its threads were queued. */
  lemma {:induction false} QueueIsOrdered(log: seq<Event>, k: nat)
    requires Legal(log)
    ensures Ordered(log, QueueOf(log, k))
    ensures forall t :: t in QueueOf(log, k) ==> ParkedAt(log, t) < |log|
  {
    if log != [] {
      var n := |log| - 1;
      var before, e := log[..n], log[n];
      QueueIsOrdered(before, k);
      QueueIsWaiters(before, k);
      var q := QueueOf(before, k);
      assert forall t :: t in q && !(e.Parked? && e.t == t) ==> ParkedAt(log, t) == ParkedAt(before, t);
      assert forall i :: 0 <= i < |q| ==> q[i] in q;
      assert Ordered(log, q);
      match e
      case Parked(t, j) =>
      case Chosen(t, j, _) => if j == k { RemoveOrdered(log, q, t); }
      case Withdrawn(t, j) => if j == k { RemoveOrdered(log, q, t); }
      case Returned(_, _) =>
      case Missed(_) =>
    }
  }

  /** In a legal history `unpark_one` chooses the thread that has waited longest on its key. */
  lemma ChosenWaitedLongest(log: seq<Event>, c: nat, u: Tid)
    requires Legal(log) && c < |log| && log[c].Chosen?
    requires StatusOf(log[..c], u) == Waiting(log[c].k) && u != log[c].t
    ensures ParkedAt(log[..c], log[c].t) < ParkedAt(log[..c], u)
  {
    LegalPrefix(log, c);
    QueueIsWaiters(log[..c], log[c].k);
    QueueIsOrdered(log[..c], log[c].k);
    assert u in QueueOf(log[..c], log[c].k);
  }
}
