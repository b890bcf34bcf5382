/** The index arithmetic of `CoQueue` (src/lockless_queue.rs). Indices are `usize` words that never wrap here. */
module QueueIndex {

  /** Indices per chunk; the last one of every chunk is a sentinel without a slot. */
  const LAP := 32
  const CHUNK_CAP := 31

  /** A word shifted right by SHIFT: the position, without the HAS_NEXT bit. */
  function Pos(raw: nat): (i: nat) { raw / 2 }

  predicate HasNext(raw: nat) { raw % 2 == 1 }

  function Block(raw: nat): (j: nat) { Pos(raw) / LAP }

  function Offset(raw: nat): (o: nat) { Pos(raw) % LAP }

  /** How many slots lie strictly before a position. */
  function Count(raw: nat): (k: nat) { CHUNK_CAP * Block(raw) + Offset(raw) }

  lemma NextInBlock(raw: nat)
    requires Offset(raw) < CHUNK_CAP
    ensures Block(raw + 2) == Block(raw) && Offset(raw + 2) == Offset(raw) + 1
    ensures Count(raw + 2) == Count(raw) + 1
  {
  }

  /** The step over a sentinel skips an index without a slot. */
  lemma NextBlock(raw: nat)
    requires Offset(raw) == CHUNK_CAP
    ensures Block(raw + 2) == Block(raw) + 1 && Offset(raw + 2) == 0
    ensures Count(raw + 2) == Count(raw)
  {
  }

  lemma SamePos(a: nat, b: nat)
    requires Pos(a) == Pos(b)
    ensures Block(a) == Block(b) && Offset(a) == Offset(b) && Count(a) == Count(b)
  {
  }

  lemma CountMonotone(a: nat, b: nat)
    requires Pos(a) <= Pos(b)
    ensures Block(a) <= Block(b) && Count(a) <= Count(b)
    ensures Block(a) == Block(b) ==> Offset(a) <= Offset(b)
  {
  }
}
