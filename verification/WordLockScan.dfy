/**
 The scan at the start of the outer loop of `WordLock::unlock_slow` (src/mutex/deadlock.rs), on the
 nodes in memory. The queue lock is held, so only this thread changes the nodes reachable from `head`.
 */
module WordLockScan {
  import opened Wrappers
  import opened Threads
  import opened WordLock

  predicate PrevIs(nodes: seq<Node>, t: Tid, newer: Tid) {
    t < |nodes| && nodes[t].prev == Some(newer)
  }

  predicate NextIs(nodes: seq<Node>, t: Tid, older: Tid) {
    t < |nodes| && nodes[t].next == Some(older)
  }

  predicate TailIs(nodes: seq<Node>, t: Tid, tail: Option<Tid>) {
    t < |nodes| && nodes[t].queueTail == tail
  }

  /**
   Following `next` from the last element of `fifo` visits it backwards; up to position `done`, the
   first with a `queue_tail`, `prev` is the inverse of `next`.
   */
  ghost predicate Queued(nodes: seq<Node>, fifo: seq<Tid>, done: nat) {
    && done < |fifo| && Distinct(fifo)
    && (forall i :: 0 <= i < |fifo| ==> fifo[i] < |nodes|)
    && (forall i :: 0 < i < |fifo| ==> NextIs(nodes, fifo[i], fifo[i - 1]))
    && (forall i :: 0 <= i < done ==> PrevIs(nodes, fifo[i], fifo[i + 1]))
    && TailIs(nodes, fifo[done], Some(fifo[0]))
    && (forall i :: done < i < |fifo| ==> TailIs(nodes, fifo[i], None))
  }

  /** Nothing but the `prev` of queued nodes has changed. */
  ghost predicate OnlyPrev(before: seq<Node>, nodes: seq<Node>, fifo: seq<Tid>) {
    && |nodes| == |before|
    && forall t :: 0 <= t < |nodes| ==>
      nodes[t] == before[t].(prev := nodes[t].prev) && (t !in fifo ==> nodes[t] == before[t])
  }

  /** The scan has come down to position `m`. */
  ghost predicate Filling(before: seq<Node>, nodes: seq<Node>, fifo: seq<Tid>, done: nat, m: nat) {
    && Queued(before, fifo, done) && done <= m < |fifo| && OnlyPrev(before, nodes, fifo)
    && (forall i :: 0 <= i < done ==> PrevIs(nodes, fifo[i], fifo[i + 1]))
    && (forall i :: m <= i < |fifo| - 1 ==> PrevIs(nodes, fifo[i], fifo[i + 1]))
  }

  lemma FillOne(before: seq<Node>, nodes: seq<Node>, fifo: seq<Tid>, done: nat, m: nat)
    requires Filling(before, nodes, fifo, done, m) && nodes[fifo[m]].queueTail.None?
    ensures m > done && fifo[m - 1] < |nodes| && nodes[fifo[m]].next == Some(fifo[m - 1])
    ensures Filling(before, nodes[fifo[m - 1] := nodes[fifo[m - 1]].(prev := Some(fifo[m]))], fifo, done, m - 1)
  {
    assert TailIs(before, fifo[done], Some(fifo[0])) && NextIs(before, fifo[m], fifo[m - 1]);
    var nodes' := nodes[fifo[m - 1] := nodes[fifo[m - 1]].(prev := Some(fifo[m]))];
    assert fifo[m - 1] in fifo;
    forall i | 0 <= i < done || m - 1 <= i < |fifo| - 1 ensures PrevIs(nodes', fifo[i], fifo[i + 1]) {
      assert i != m - 1 ==> PrevIs(nodes, fifo[i], fifo[i + 1]);
    }
  }

  lemma FillDone(before: seq<Node>, nodes: seq<Node>, fifo: seq<Tid>, done: nat, m: nat, head: Tid)
    requires Filling(before, nodes, fifo, done, m) && nodes[fifo[m]].queueTail.Some? && head == fifo[|fifo| - 1]
    ensures nodes[fifo[m]].queueTail == Some(fifo[0])
    ensures Queued(nodes[head := nodes[head].(queueTail := Some(fifo[0]))], fifo, |fifo| - 1)
  {
    assert m == done by {
      assert m > done ==> TailIs(before, fifo[m], None);
    }
    assert TailIs(before, fifo[done], Some(fifo[0]));
    var nodes' := nodes[head := nodes[head].(queueTail := Some(fifo[0]))];
    forall i | 0 < i < |fifo| ensures NextIs(nodes', fifo[i], fifo[i - 1]) {
      assert NextIs(before, fifo[i], fifo[i - 1]);
    }
    forall i | 0 <= i < |fifo| - 1 ensures PrevIs(nodes', fifo[i], fifo[i + 1]) {
      assert PrevIs(nodes, fifo[i], fifo[i + 1]);
    }
  }

  /**
   Walks from the newest waiter to the first node that was processed before, filling in `prev`, and
   records the tail in the head: then the whole list is processed and the tail is the oldest waiter.
   */
  method FillPrev(nodes: array<Node>, head: Tid, ghost fifo: seq<Tid>, ghost done: nat) returns (tail: Tid)
    requires Queued(nodes[..], fifo, done) && head == fifo[|fifo| - 1]
    modifies nodes
    ensures tail == fifo[0] && head < nodes.Length && Queued(nodes[..], fifo, |fifo| - 1)
    ensures OnlyPrev(old(nodes[..]), nodes[..][head := nodes[head].(queueTail := old(nodes[head]).queueTail)], fifo)
  {
    var current := head;
    ghost var m := |fifo| - 1;
    ghost var before := nodes[..];
    while nodes[current].queueTail.None?
      invariant 0 <= m < |fifo| && current == fifo[m] && Filling(before, nodes[..], fifo, done, m)
      decreases m
    {
      FillOne(before, nodes[..], fifo, done, m);
      var next := nodes[current].next.value;
      nodes[next] := nodes[next].(prev := Some(current));
      current := next;
      m := m - 1;
    }
    FillDone(before, nodes[..], fifo, done, m, head);
    tail := nodes[current].queueTail.value;
    ghost var filled := nodes[..];
    nodes[head] := nodes[head].(queueTail := Some(tail));
    assert nodes[..][head := nodes[head].(queueTail := before[head].queueTail)] == filled;
  }

  lemma ListIsQueued(s: State)
    requires ListInv(s) && s.fifo != []
    ensures Queued(s.nodes, s.fifo, s.processed)
  {
    forall i | 0 <= i < |s.fifo|
      ensures i > 0 ==> NextIs(s.nodes, s.fifo[i], s.fifo[i - 1])
      ensures i < s.processed ==> PrevIs(s.nodes, s.fifo[i], s.fifo[i + 1])
      ensures i > s.processed ==> TailIs(s.nodes, s.fifo[i], None)
    {
      assert NodeInv(s, i);
    }
    assert NodeInv(s, s.processed);
  }

  /** In every reachable state the waiter list is one that `FillPrev` can process. */
  lemma EveryListIsQueued(threads: nat, schedule: Schedule)
    requires Run(threads, schedule).fifo != []
    ensures var s := Run(threads, schedule); Queued(s.nodes, s.fifo, s.processed)
  {
    ListIsQueued(Run(threads, schedule));
  }
}
