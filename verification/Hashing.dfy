/** Sizes of the parking lot's hash table and its hash function (src/mutex/deadlock.rs, 64-bit words). */
module Hashing {

  const WORD_BITS := 64
  const WORD := 0x1_0000_0000_0000_0000
  const LOAD_FACTOR := 3
  const MULTIPLIER := 0x9E37_79B9_7F4A_7C15

  function Pow2(n: nat): (p: nat)
    ensures p > 0
  {
    if n == 0 then 1 else 2 * Pow2(n - 1)
  }

  lemma {:induction false} Pow2Adds(m: nat, n: nat)
    ensures Pow2(m + n) == Pow2(m) * Pow2(n)
  {
    if m > 0 {
      Pow2Adds(m - 1, n);
      assert Pow2(m + n) == 2 * (Pow2(m - 1) * Pow2(n)) == Pow2(m) * Pow2(n);
    }
  }

  lemma {:induction false} Pow2Monotone(m: nat, n: nat)
    requires m < n
    ensures Pow2(m) < Pow2(n)
    decreases n
  {
    if m < n - 1 {
      Pow2Monotone(m, n - 1);
    }
  }

  /** The exponent of `next_power_of_two`: the least `b` with `n <= 2^b`. */
  function NextPow2Bits(n: nat): (b: nat)
    ensures n <= Pow2(b)
    ensures forall c: nat :: n <= Pow2(c) ==> b <= c
  {
    SearchBits(n, 0)
  }

  /** Counts up from `b` to the first power of two that is large enough. */
  function SearchBits(n: nat, b: nat): (r: nat)
    requires forall c: nat :: c < b ==> Pow2(c) < n
    ensures b <= r && n <= Pow2(r)
    ensures forall c: nat :: n <= Pow2(c) ==> r <= c
    decreases n - Pow2(b)
  {
    if n <= Pow2(b) then b else SearchBits(n, b + 1)
  }

  /** `hash_bits` of the table that `HashTable::new(n, _)` builds; the table has `Pow2` of it buckets. */
  function HashBits(threads: nat): (bits: nat) {
    NextPow2Bits(LOAD_FACTOR * threads)
  }

  function WrappingMul(x: nat, y: nat): (r: nat)
    ensures r < WORD
  {
    x * y % WORD
  }

  function ShiftRight(x: nat, n: nat): (r: nat) {
    if n == 0 then x else ShiftRight(x / 2, n - 1)
  }

  lemma {:induction false} ShiftRightBound(x: nat, n: nat, bound: nat)
    requires x < bound * Pow2(n)
    ensures ShiftRight(x, n) < bound
  {
    if n > 0 {
      assert bound * Pow2(n) == 2 * (bound * Pow2(n - 1));
      ShiftRightBound(x / 2, n - 1, bound);
    }
  }

  /** `key.wrapping_mul(MULTIPLIER) >> (64 - bits)`. */
  function Hash(key: nat, bits: nat): (h: nat)
    requires bits <= WORD_BITS
  {
    ShiftRight(WrappingMul(key, MULTIPLIER), WORD_BITS - bits)
  }

  lemma WordIsPow2()
    ensures WORD == Pow2(WORD_BITS)
  {
    assert Pow2(8) == 256;
    Pow2Adds(8, 8);
    assert Pow2(16) == 0x1_0000;
    Pow2Adds(16, 16);
    assert Pow2(32) == 0x1_0000_0000;
    Pow2Adds(32, 32);
  }

  /** The hash of every key is a bucket of the table. */
  lemma HashInTable(key: nat, bits: nat)
    requires bits <= WORD_BITS
    ensures Hash(key, bits) < Pow2(bits)
  {
    WordIsPow2();
    Pow2Adds(bits, WORD_BITS - bits);
    ShiftRightBound(WrappingMul(key, MULTIPLIER), WORD_BITS - bits, Pow2(bits));
  }

  /** A table built for at least one thread has at least two hash bits, so the shift is not by 64. */
  lemma TableHasBits(threads: nat)
    requires threads >= 1
    ensures HashBits(threads) >= 2
  {
    assert Pow2(1) == 2 * Pow2(0);
    assert LOAD_FACTOR * threads <= Pow2(HashBits(threads));
    assert HashBits(threads) != 0 && HashBits(threads) != 1;
  }

  /** The load rounds up to a power of two that a word can count. */
  predicate LoadFits(threads: nat) {
    LOAD_FACTOR * threads <= WORD / 2
  }

  /** Exactly then the number of buckets fits a word; for a larger load `next_power_of_two` overflows. */
  lemma BitsFitWord(threads: nat)
    ensures HashBits(threads) < WORD_BITS <==> LoadFits(threads)
    ensures HashBits(threads) < WORD_BITS ==> Pow2(HashBits(threads)) <= WORD / 2
  {
    WordIsPow2();
    assert WORD / 2 == Pow2(WORD_BITS - 1);
    if HashBits(threads) < WORD_BITS - 1 {
      Pow2Monotone(HashBits(threads), WORD_BITS - 1);
    }
  }

  /**
   Growing for `threads`, which is done only if the table is too small for them, gives a strictly
   larger table that is large enough.
   */
  lemma GrowthIsStrict(bits: nat, threads: nat)
    requires Pow2(bits) < LOAD_FACTOR * threads
    ensures Pow2(bits) < Pow2(HashBits(threads)) && LOAD_FACTOR * threads <= Pow2(HashBits(threads))
    ensures bits < HashBits(threads)
  {
    if HashBits(threads) < bits {
      Pow2Monotone(HashBits(threads), bits);
    }
  }
}
