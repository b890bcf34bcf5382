/** `Chunk::destroy` (src/lockless_queue.rs) as one call, with nobody else at work on the chunk. */
module QueueDestroy {
  import opened CoQueue

  /** The first slot from `start` on that is not READ, or `bound`. */
  function FirstUnread(slots: seq<Slot>, start: nat, bound: nat): (i: nat)
    requires start <= bound <= |slots|
    ensures start <= i <= bound && (forall o :: start <= o < i ==> slots[o].read) && (i < bound ==> !slots[i].read)
    decreases bound - start
  {
    if start == bound || !slots[start].read then start else FirstUnread(slots, start + 1, bound)
  }

  /** Marks the first slot that is still to be read, or releases the chunk when there is none. */
  method Destroy(slots: array<Slot>, start: nat, bound: nat) returns (released: bool)
    requires start <= bound <= slots.Length
    modifies slots
    ensures var i := FirstUnread(old(slots[..]), start, bound);
      && released == (i == bound)
      && slots[..] == if released then old(slots[..]) else old(slots[..])[i := old(slots[i]).(destroy := true)]
  {
    var i := start;
    while i < bound
      invariant start <= i <= bound && slots[..] == old(slots[..])
      invariant FirstUnread(old(slots[..]), start, bound) == FirstUnread(old(slots[..]), i, bound)
    {
      if !slots[i].read {
        var before := slots[i];
        slots[i] := before.(destroy := true);
        if !before.read {
          return false;
        }
      }
      i := i + 1;
    }
    return true;
  }
}
