/** `CoQueue` refines a sequence: every run is, step by step, a run of a plain FIFO queue. */
module QueueFifo {
  import opened Wrappers
  import opened Threads
  import opened CoQueue
  import opened QueueInvariant
  import opened QueueRuns
  import opened QueueTheorems

  datatype FifoOp = Enqueue(item: Value) | Dequeue | DequeueEmpty

  /**
   A plain queue: what is in it, what has been taken out, and whether every removal found a value and
   every failed one an empty queue.
   */
  datatype Fifo = Fifo(queue: seq<Value>, out: seq<Value>, ok: bool)

  function Apply(f: Fifo, op: FifoOp): (r: Fifo) {
    match op
    case Enqueue(item) => f.(queue := f.queue + [item])
    case Dequeue =>
      if f.queue == [] then f.(ok := false)
      else Fifo(f.queue[1..], f.out + [f.queue[0]], f.ok)
    case DequeueEmpty => f.(ok := f.ok && f.queue == [])
  }

  function Replay(ops: seq<FifoOp>): (f: Fifo) {
    if ops == [] then Fifo([], [], true) else Apply(Replay(ops[..|ops| - 1]), ops[|ops| - 1])
  }

  /** What the step of thread `t` does to the queue its users see. */
  function Effect(s: State, t: Tid, c: Choice): (ops: seq<FifoOp>) {
    if t >= |s.pcs| then []
    else if Enqueues(s, t, c) then [Enqueue(s.pcs[t].item)]
    else if Dequeues(s, t, c) then [Dequeue]
    else if ReturnsErr(s, t) then [DequeueEmpty]
    else []
  }

  /** The operations of a run in the order in which they took effect. */
  ghost function Trace(threads: nat, bound: nat, schedule: Schedule): (ops: seq<FifoOp>)
    requires IsBound(bound)
  {
    if schedule == [] then []
    else
      var n := |schedule| - 1;
      Trace(threads, bound, schedule[..n]) + Effect(Run(threads, bound, schedule[..n]), schedule[n].0, schedule[n].1)
  }

  /** The plain queue stands where the concurrent one does. */
  predicate Simulates(s: State, f: Fifo) {
    && |s.poppers| <= |s.pushed|
    && f.ok && f.queue == Contents(s) && f.out == s.pushed[..|s.poppers|]
  }

  lemma ReplayExtends(ops: seq<FifoOp>, op: FifoOp)
    ensures Replay(ops + [op]) == Apply(Replay(ops), op)
  {
    assert (ops + [op])[..|ops + [op]| - 1] == ops;
  }

  /** The logs of claims after a step with effect `ops`. */
  predicate Logs(s: State, s': State, effect: seq<FifoOp>) {
    && (effect == [] ==> s'.pushed == s.pushed && s'.poppers == s.poppers)
    && (effect != [] ==>
      && |effect| == 1
      && match effect[0]
         case Enqueue(v) => s'.pushed == s.pushed + [v] && s'.poppers == s.poppers
         case Dequeue => s'.pushed == s.pushed && |s.poppers| < |s.pushed| && |s'.poppers| == |s.poppers| + 1
         case DequeueEmpty => s'.pushed == s.pushed && s'.poppers == s.poppers && |s.poppers| == |s.pushed|)
  }

  lemma StepLogs(s: State, t: Tid, c: Choice)
    requires Inv(s) && t < |s.pcs| && ThreadInv(s, t)
    ensures Logs(s, Next(s, t, c), Effect(s, t, c))
  {
    StepRefinesFifo(s, t, c);
    if ReturnsErr(s, t) {
      ErrMeansEmpty(s, t);
    }
  }

  lemma LogsSimulate(s: State, s': State, ops: seq<FifoOp>, effect: seq<FifoOp>)
    requires Logs(s, s', effect) && Simulates(s, Replay(ops))
    ensures Simulates(s', Replay(ops + effect))
  {
    if effect == [] {
      assert ops + effect == ops;
    } else {
      ReplayExtends(ops, effect[0]);
      assert effect == [effect[0]];
    }
  }

  /**
   Linearizability: replaying the CASes and the failed pops of any run, in the order they took effect, on
   a plain queue never takes from an empty queue, finds the queue empty at every failed pop, and ends with
   the contents of the concurrent queue.
   */
  lemma {:induction false} EveryRunIsFifo(threads: nat, bound: nat, schedule: Schedule)
    requires IsBound(bound)
    ensures Simulates(Run(threads, bound, schedule), Replay(Trace(threads, bound, schedule)))
    decreases |schedule|
  {
    if schedule != [] {
      var n := |schedule| - 1;
      EveryRunIsFifo(threads, bound, schedule[..n]);
      var s, ops := Run(threads, bound, schedule[..n]), Trace(threads, bound, schedule[..n]);
      if schedule[n].0 < threads {
        assert ThreadInv(s, schedule[n].0);
        StepLogs(s, schedule[n].0, schedule[n].1);
        LogsSimulate(s, Next(s, schedule[n].0, schedule[n].1), ops, Effect(s, schedule[n].0, schedule[n].1));
      } else {
        assert ops + Effect(s, schedule[n].0, schedule[n].1) == ops;
      }
    }
  }

  /** Every value a pop has returned is the one the plain queue gave out at that rank. */
  lemma EveryPopIsFifo(threads: nat, bound: nat, schedule: Schedule, k: nat)
    requires IsBound(bound)
    ensures var s, f := Run(threads, bound, schedule), Replay(Trace(threads, bound, schedule));
      if k in s.returned then k < |f.out| && s.returned[k] == f.out[k]
      else k < |f.out| ==>
        k < |s.poppers| && s.poppers[k] < threads && WorkPlace(s.pcs[s.poppers[k]]) == Some(PlaceOf(k))
  {
    EveryRunIsFifo(threads, bound, schedule);
    var s := Run(threads, bound, schedule);
    if k < |s.poppers| {
      PopsReturnPushes(s, k);
    }
  }
}
