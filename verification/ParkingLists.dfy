/**
 The bucket queues of the parking lot (src/mutex/deadlock.rs): singly linked lists of parked threads,
 threaded through `next_in_queue`, with a head and a tail pointer per bucket. A pointer to a
 `ThreadData` is the id of its thread. Everything here runs with the bucket locks held.
 */
module ParkingLists {
  import opened Wrappers
  import opened Threads
  import opened Hashing

  // ---------- What a bucket holds ----------

  function First(q: seq<Tid>): (head: Option<Tid>) {
    if q == [] then None else Some(q[0])
  }

  function Last(q: seq<Tid>): (tail: Option<Tid>) {
    if q == [] then None else Some(q[|q| - 1])
  }

  /** Following `next` from `head` visits exactly `q`; both ends are null together. */
  predicate IsQueue(next: seq<Option<Tid>>, head: Option<Tid>, tail: Option<Tid>, q: seq<Tid>) {
    && Distinct(q) && head == First(q) && tail == Last(q)
    && (forall i :: 0 <= i < |q| ==> q[i] < |next|)
    && (forall i :: 0 <= i < |q| ==> NextIs(next, q, i))
  }

  predicate NextIs(next: seq<Option<Tid>>, q: seq<Tid>, i: nat)
    requires i < |q| && q[i] < |next|
  {
    next[q[i]] == if i + 1 < |q| then Some(q[i + 1]) else None
  }

  /** Is some thread of `q` parked on `k`? */
  predicate HasKey(key: seq<nat>, q: seq<Tid>, k: nat) {
    exists i :: 0 <= i < |q| && q[i] < |key| && key[q[i]] == k
  }

  function Without(q: seq<Tid>, i: nat): (r: seq<Tid>)
    requires i < |q|
  {
    q[..i] + q[i + 1..]
  }

  // ---------- Pointer updates ----------

  lemma AppendKeepsQueue(next: seq<Option<Tid>>, head: Option<Tid>, tail: Option<Tid>, q: seq<Tid>, t: Tid)
    requires IsQueue(next, head, tail, q) && t < |next| && t !in q
    ensures var cleared := next[t := None];
      IsQueue(if tail.Some? then cleared[tail.value := Some(t)] else cleared,
              if head.Some? then head else Some(t), Some(t), q + [t])
  {
    var cleared := next[t := None];
    var next' := if tail.Some? then cleared[tail.value := Some(t)] else cleared;
    forall i | 0 <= i < |q + [t]| ensures NextIs(next', q + [t], i) {
      if i < |q| {
        assert NextIs(next, q, i);
      }
    }
  }

  /** Unlinking position `i`, when `previous` is the node before it. */
  lemma UnlinkKeepsQueue(next: seq<Option<Tid>>, head: Option<Tid>, tail: Option<Tid>, q: seq<Tid>, i: nat)
    requires IsQueue(next, head, tail, q) && i < |q|
    ensures
      IsQueue(if i > 0 then next[q[i - 1] := next[q[i]]] else next,
              if i > 0 then head else next[q[i]],
              if tail == Some(q[i]) then (if i > 0 then Some(q[i - 1]) else None) else tail,
              Without(q, i))
  {
    var r := Without(q, i);
    var next' := if i > 0 then next[q[i - 1] := next[q[i]]] else next;
    assert NextIs(next, q, i);
    forall j | 0 <= j < |r| ensures NextIs(next', r, j) {
      assert NextIs(next, q, if j < i then j else j + 1);
    }
  }

  /** Other queues do not notice. */
  lemma DisjointKeepsQueue(next: seq<Option<Tid>>, next': seq<Option<Tid>>,
                           head: Option<Tid>, tail: Option<Tid>, q: seq<Tid>)
    requires IsQueue(next, head, tail, q) && |next'| == |next|
    requires forall i :: 0 <= i < |q| ==> next'[q[i]] == next[q[i]]
    ensures IsQueue(next', head, tail, q)
  {
    forall i | 0 <= i < |q| ensures NextIs(next', q, i) {
      assert NextIs(next, q, i);
    }
  }

  /** Changing links in bucket `b` only, or of threads in no queue, keeps all other queues. */
  lemma OtherQueuesKept(next: seq<Option<Tid>>, next': seq<Option<Tid>>,
                        heads: seq<Option<Tid>>, tails: seq<Option<Tid>>, queues: seq<seq<Tid>>, b: nat, c: nat)
    requires |heads| == |tails| == |queues| && b < |queues| && c < |queues| && c != b && Disjoint(queues)
    requires IsQueue(next, heads[c], tails[c], queues[c]) && |next'| == |next|
    requires forall t :: 0 <= t < |next| && next'[t] != next[t] ==> t in queues[b] || !InSome(queues, t)
    ensures IsQueue(next', heads[c], tails[c], queues[c])
  {
    assert forall i :: 0 <= i < |queues[c]| ==> queues[c][i] in queues[c];
    DisjointKeepsQueue(next, next', heads[c], tails[c], queues[c]);
  }

  // ---------- Rehashing, on sequences ----------

  predicate HashesTo(key: seq<nat>, t: Tid, bits: nat, h: nat)
    requires bits <= WORD_BITS
  {
    t < |key| && Hash(key[t], bits) == h
  }

  /** The threads of `q` that belong into bucket `h`, in their order. */
  function Select(q: seq<Tid>, key: seq<nat>, bits: nat, h: nat): (r: seq<Tid>)
    requires bits <= WORD_BITS
    ensures forall t :: t in r <==> t in q && HashesTo(key, t, bits, h)
  {
    if q == [] then []
    else
      var r := Select(q[..|q| - 1], key, bits, h);
      if HashesTo(key, q[|q| - 1], bits, h) then r + [q[|q| - 1]] else r
  }

  /** Bucket `h` of the new table: what belongs there from every old bucket, bucket by bucket. */
  function Rehashed(queues: seq<seq<Tid>>, key: seq<nat>, bits: nat, h: nat): (r: seq<Tid>)
    requires bits <= WORD_BITS
    ensures forall t :: t in r <==> HashesTo(key, t, bits, h) && InSome(queues, t)
  {
    if queues == [] then []
    else
      var n := |queues| - 1;
      Rehashed(queues[..n], key, bits, h) + Select(queues[n], key, bits, h)
  }

  /** `t` is in some queue. */
  predicate InSome(queues: seq<seq<Tid>>, t: Tid) {
    exists b :: 0 <= b < |queues| && t in queues[b]
  }

  predicate Disjoint(queues: seq<seq<Tid>>) {
    forall b, c, t :: 0 <= b < c < |queues| && t in queues[b] ==> t !in queues[c]
  }

  /** The threads of `q` parked on key `k`, in their order. */
  function OfKey(q: seq<Tid>, key: seq<nat>, k: nat): (r: seq<Tid>) {
    if q == [] then []
    else
      var r := OfKey(q[..|q| - 1], key, k);
      if q[|q| - 1] < |key| && key[q[|q| - 1]] == k then r + [q[|q| - 1]] else r
  }

  lemma {:induction false} OfKeyConcat(p: seq<Tid>, q: seq<Tid>, key: seq<nat>, k: nat)
    ensures OfKey(p + q, key, k) == OfKey(p, key, k) + OfKey(q, key, k)
  {
    if q == [] {
      assert p + q == p;
    } else {
      var n := |q| - 1;
      OfKeyConcat(p, q[..n], key, k);
      assert (p + q)[..|p + q| - 1] == p + q[..n];
    }
  }

  lemma {:induction false} OfKeyEmpty(q: seq<Tid>, key: seq<nat>, k: nat)
    requires !HasKey(key, q, k)
    ensures OfKey(q, key, k) == []
  {
    if q != [] {
      var n := |q| - 1;
      assert forall i :: 0 <= i < n ==> q[..n][i] == q[i];
      OfKeyEmpty(q[..n], key, k);
    }
  }

  /** Selecting the bucket of `k` keeps the threads parked on `k`; selecting another bucket drops them. */
  lemma {:induction false} OfKeySelect(q: seq<Tid>, key: seq<nat>, bits: nat, h: nat, k: nat)
    requires bits <= WORD_BITS
    ensures OfKey(Select(q, key, bits, h), key, k) == if Hash(k, bits) == h then OfKey(q, key, k) else []
  {
    if q != [] {
      var n := |q| - 1;
      OfKeySelect(q[..n], key, bits, h, k);
      var r := Select(q[..n], key, bits, h);
      OfKeyConcat(r, [q[n]], key, k);
      assert [q[n]][..0] == [];
      assert OfKey([q[n]], key, k) == if q[n] < |key| && key[q[n]] == k then [q[n]] else [];
    }
  }

  /** All threads parked on `k` are in bucket `home`. */
  predicate KeyAtHome(queues: seq<seq<Tid>>, key: seq<nat>, k: nat, home: nat) {
    forall b :: 0 <= b < |queues| && b != home ==> !HasKey(key, queues[b], k)
  }

  /** Rehashing preserves the order among the threads parked on one key. */
  lemma {:induction false} RehashKeepsOrder(queues: seq<seq<Tid>>, key: seq<nat>, bits: nat, k: nat, home: nat)
    requires bits <= WORD_BITS && home < |queues| && KeyAtHome(queues, key, k, home)
    ensures OfKey(Rehashed(queues, key, bits, Hash(k, bits)), key, k) == OfKey(queues[home], key, k)
  {
    var n, h := |queues| - 1, Hash(k, bits);
    OfKeyConcat(Rehashed(queues[..n], key, bits, h), Select(queues[n], key, bits, h), key, k);
    OfKeySelect(queues[n], key, bits, h, k);
    if home == n {
      RehashWithoutKey(queues[..n], key, bits, k);
    } else {
      assert KeyAtHome(queues[..n], key, k, home);
      RehashKeepsOrder(queues[..n], key, bits, k, home);
      OfKeyEmpty(queues[n], key, k);
    }
  }

  lemma {:induction false} RehashWithoutKey(queues: seq<seq<Tid>>, key: seq<nat>, bits: nat, k: nat)
    requires bits <= WORD_BITS && forall b :: 0 <= b < |queues| ==> !HasKey(key, queues[b], k)
    ensures OfKey(Rehashed(queues, key, bits, Hash(k, bits)), key, k) == []
  {
    if queues != [] {
      var n, h := |queues| - 1, Hash(k, bits);
      RehashWithoutKey(queues[..n], key, bits, k);
      OfKeyConcat(Rehashed(queues[..n], key, bits, h), Select(queues[n], key, bits, h), key, k);
      OfKeySelect(queues[n], key, bits, h, k);
      OfKeyEmpty(queues[n], key, k);
    }
  }

  /** The new table: one queue per bucket. */
  function RehashedTable(queues: seq<seq<Tid>>, key: seq<nat>, bits: nat): (r: seq<seq<Tid>>)
    requires bits <= WORD_BITS
    ensures |r| == Pow2(bits)
  {
    seq(Pow2(bits), (h: nat) => Rehashed(queues, key, bits, h))
  }

  /** Rehashing loses and invents nobody, and puts everybody into the bucket of its key. */
  lemma RehashKeepsThreads(queues: seq<seq<Tid>>, key: seq<nat>, bits: nat, t: Tid)
    requires bits <= WORD_BITS && forall u: Tid :: InSome(queues, u) ==> u < |key|
    ensures InSome(RehashedTable(queues, key, bits), t) <==> InSome(queues, t)
    ensures InSome(queues, t) ==>
      && Hash(key[t], bits) < Pow2(bits)
      && forall h :: 0 <= h < Pow2(bits) ==> (t in RehashedTable(queues, key, bits)[h] <==> h == Hash(key[t], bits))
  {
    var table := RehashedTable(queues, key, bits);
    if InSome(queues, t) {
      HashInTable(key[t], bits);
      assert t in table[Hash(key[t], bits)];
    }
  }

  lemma {:induction false} SelectDistinct(q: seq<Tid>, key: seq<nat>, bits: nat, h: nat)
    requires bits <= WORD_BITS && Distinct(q)
    ensures Distinct(Select(q, key, bits, h))
  {
    if q != [] {
      var n := |q| - 1;
      SelectDistinct(q[..n], key, bits, h);
      assert q[n] !in q[..n];
    }
  }

  lemma {:induction false} RehashedDistinct(queues: seq<seq<Tid>>, key: seq<nat>, bits: nat, h: nat)
    requires bits <= WORD_BITS && Disjoint(queues) && forall b :: 0 <= b < |queues| ==> Distinct(queues[b])
    ensures Distinct(Rehashed(queues, key, bits, h))
  {
    if queues != [] {
      var n := |queues| - 1;
      RehashedDistinct(queues[..n], key, bits, h);
      SelectDistinct(queues[n], key, bits, h);
      var p, q := Rehashed(queues[..n], key, bits, h), Select(queues[n], key, bits, h);
      forall i, j | 0 <= i < |p| && 0 <= j < |q| ensures p[i] != q[j] {
        assert p[i] in p && q[j] in q;
        var b :| 0 <= b < n && p[i] in queues[..n][b];
        assert p[i] in queues[b];
      }
    }
  }

  // ---------- Rehashing, on the links ----------

  /** No thread is queued twice. */
  predicate AllDistinct(queues: seq<seq<Tid>>) {
    Disjoint(queues) && forall b :: 0 <= b < |queues| ==> Distinct(queues[b])
  }

  /** Bucket `h` of the new table after the first `b` buckets and the first `i` threads of bucket `b`. */
  function Partial(queues: seq<seq<Tid>>, key: seq<nat>, bits: nat, b: nat, i: nat, h: nat): (q: seq<Tid>)
    requires bits <= WORD_BITS && b < |queues| && i <= |queues[b]|
    ensures forall t :: t in q <==> HashesTo(key, t, bits, h) && (InSome(queues[..b], t) || t in queues[b][..i])
  {
    Rehashed(queues[..b], key, bits, h) + Select(queues[b][..i], key, bits, h)
  }

  ghost predicate Filled(next: seq<Option<Tid>>, newHeads: seq<Option<Tid>>, newTails: seq<Option<Tid>>,
                         queues: seq<seq<Tid>>, key: seq<nat>, bits: nat, b: nat, i: nat)
    requires bits <= WORD_BITS && b < |queues| && i <= |queues[b]|
  {
    && |newHeads| == |newTails| == Pow2(bits)
    && forall h :: 0 <= h < Pow2(bits) ==> IsQueue(next, newHeads[h], newTails[h], Partial(queues, key, bits, b, i, h))
  }

  /** The lists from position `i` of bucket `b` on are as they were. */
  ghost predicate Unmoved(next: seq<Option<Tid>>, heads: seq<Option<Tid>>, queues: seq<seq<Tid>>, b: nat, i: nat) {
    && b < |queues| == |heads| && i <= |queues[b]|
    && (i == 0 ==> heads[b] == First(queues[b]))
    && (forall m :: 0 <= m < |queues[b]| ==> queues[b][m] < |next|)
    && (forall m :: i <= m < |queues[b]| ==> NextIs(next, queues[b], m))
    && (forall c :: b < c < |queues| ==> IsQueue(next, heads[c], Last(queues[c]), queues[c]))
  }

  /** The links after appending `t` behind `tail`. */
  function Relink(next: seq<Option<Tid>>, tail: Option<Tid>, t: Tid): (next': seq<Option<Tid>>)
    requires t < |next| && (tail.Some? ==> tail.value < |next|)
  {
    if tail.Some? then next[tail.value := Some(t)][t := None] else next[t := None]
  }

  lemma RelinkElsewhere(next: seq<Option<Tid>>, tail: Option<Tid>, t: Tid,
                        head: Option<Tid>, end: Option<Tid>, q: seq<Tid>)
    requires t < |next| && (tail.Some? ==> tail.value < |next|) && IsQueue(next, head, end, q)
    requires t !in q && (tail.Some? ==> tail.value !in q)
    ensures IsQueue(Relink(next, tail, t), head, end, q)
  {
    assert forall i :: 0 <= i < |q| ==> q[i] in q;
    DisjointKeepsQueue(next, Relink(next, tail, t), head, end, q);
  }

  /** The thread to be moved is in no new bucket yet, and later threads are in none either. */
  lemma LaterIsNew(queues: seq<seq<Tid>>, key: seq<nat>, bits: nat, b: nat, i: nat, t: Tid, h: nat)
    requires bits <= WORD_BITS && b < |queues| && i <= |queues[b]| && AllDistinct(queues)
    requires t in queues[b][i..] || exists c :: b < c < |queues| && t in queues[c]
    ensures t !in Partial(queues, key, bits, b, i, h)
  {
    if t in queues[b][i..] {
      var m :| 0 <= m < |queues[b]| - i && queues[b][i..][m] == t;
      assert queues[b][i + m] == t;
      assert t !in queues[b][..i];
    } else {
      var c :| b < c < |queues| && t in queues[c];
      assert t !in queues[b];
      assert forall m :: 0 <= m < i ==> queues[b][..i][m] in queues[b];
    }
    assert forall a :: 0 <= a < b ==> queues[..b][a] == queues[a];
  }

  /** The list of the new bucket `h` grows by the i-th thread. */
  lemma MoveIntoBucket(next: seq<Option<Tid>>, head: Option<Tid>, tail: Option<Tid>,
                       queues: seq<seq<Tid>>, key: seq<nat>, bits: nat, b: nat, i: nat, h: nat)
    requires bits <= WORD_BITS && b < |queues| && i < |queues[b]| && AllDistinct(queues) && |key| == |next|
    requires queues[b][i] < |next| && HashesTo(key, queues[b][i], bits, h)
    requires IsQueue(next, head, tail, Partial(queues, key, bits, b, i, h))
    ensures (tail.Some? ==> tail.value < |next|) && (head.Some? <==> tail.Some?)
    ensures var t := queues[b][i];
      IsQueue(Relink(next, tail, t), if tail.None? then Some(t) else head, Some(t),
              Partial(queues, key, bits, b, i + 1, h))
  {
    var q, p := queues[b], Partial(queues, key, bits, b, i, h);
    var t := q[i];
    assert q[i..][0] == t;
    LaterIsNew(queues, key, bits, b, i, t, h);
    AppendKeepsQueue(next, head, tail, p, t);
    assert tail.Some? ==> tail.value in p;
    assert tail.Some? ==> next[tail.value := Some(t)][t := None] == next[t := None][tail.value := Some(t)];
    assert q[..i + 1][..i] == q[..i];
    assert Partial(queues, key, bits, b, i + 1, h) == p + [t];
  }

  /** The lists of the other new buckets stay as they are. */
  lemma MoveElsewhere(next: seq<Option<Tid>>, head: Option<Tid>, end: Option<Tid>, tail: Option<Tid>,
                      queues: seq<seq<Tid>>, key: seq<nat>, bits: nat, b: nat, i: nat, h: nat, g: nat)
    requires bits <= WORD_BITS && b < |queues| && i < |queues[b]| && AllDistinct(queues) && |key| == |next|
    requires queues[b][i] < |next| && HashesTo(key, queues[b][i], bits, h) && g != h
    requires tail.Some? ==> tail.value < |next| && HashesTo(key, tail.value, bits, h)
    requires IsQueue(next, head, end, Partial(queues, key, bits, b, i, g))
    ensures IsQueue(Relink(next, tail, queues[b][i]), head, end, Partial(queues, key, bits, b, i + 1, g))
  {
    var q := queues[b];
    assert q[..i + 1][..i] == q[..i] && q[i..][0] == q[i];
    LaterIsNew(queues, key, bits, b, i, q[i], g);
    RelinkElsewhere(next, tail, q[i], head, end, Partial(queues, key, bits, b, i, g));
  }

  /** The lists still to be moved stay as they are. */
  lemma MoveLeavesRest(next: seq<Option<Tid>>, tail: Option<Tid>, heads: seq<Option<Tid>>,
                       queues: seq<seq<Tid>>, key: seq<nat>, bits: nat, b: nat, i: nat, h: nat)
    requires bits <= WORD_BITS && b < |queues| && i < |queues[b]| && AllDistinct(queues)
    requires Unmoved(next, heads, queues, b, i)
    requires tail.Some? ==> tail.value < |next| && tail.value in Partial(queues, key, bits, b, i, h)
    ensures next[queues[b][i]] == First(queues[b][i + 1..])
    ensures Unmoved(Relink(next, tail, queues[b][i]), heads, queues, b, i + 1)
  {
    var q := queues[b];
    var next' := Relink(next, tail, q[i]);
    assert NextIs(next, q, i);
    forall m | i + 1 <= m < |q| ensures NextIs(next', q, m) {
      assert NextIs(next, q, m) && q[i..][m - i] == q[m];
      LaterIsNew(queues, key, bits, b, i, q[m], h);
    }
    forall c | b < c < |queues| ensures IsQueue(next', heads[c], Last(queues[c]), queues[c]) {
      if tail.Some? && tail.value in queues[c] {
        LaterIsNew(queues, key, bits, b, i, tail.value, h);
      }
      assert q[i] in queues[b];
      RelinkElsewhere(next, tail, q[i], heads[c], Last(queues[c]), queues[c]);
    }
  }

  /** The tail of a new list is one of the threads moved there. */
  lemma TailBelongs(next: seq<Option<Tid>>, head: Option<Tid>, tail: Option<Tid>,
                    queues: seq<seq<Tid>>, key: seq<nat>, bits: nat, b: nat, i: nat, h: nat)
    requires bits <= WORD_BITS && b < |queues| && i <= |queues[b]|
    requires IsQueue(next, head, tail, Partial(queues, key, bits, b, i, h))
    ensures tail.Some? ==>
      && tail.value < |next| && HashesTo(key, tail.value, bits, h)
      && tail.value in Partial(queues, key, bits, b, i, h)
  {
  }

  /** The links of the new table after the i-th thread went to the end of its new bucket `h`. */
  lemma MoveFills(next: seq<Option<Tid>>, newHeads: seq<Option<Tid>>, newTails: seq<Option<Tid>>,
                  queues: seq<seq<Tid>>, key: seq<nat>, bits: nat, b: nat, i: nat, h: nat)
    requires bits <= WORD_BITS && b < |queues| && i < |queues[b]| && AllDistinct(queues) && |key| == |next|
    requires Filled(next, newHeads, newTails, queues, key, bits, b, i)
    requires queues[b][i] < |next| && HashesTo(key, queues[b][i], bits, h) && h < Pow2(bits)
    ensures var t := queues[b][i]; var tail := newTails[h];
      && (tail.Some? ==> tail.value < |next| && tail.value in Partial(queues, key, bits, b, i, h))
      && Filled(Relink(next, tail, t), newHeads[h := if tail.None? then Some(t) else newHeads[h]],
                newTails[h := Some(t)], queues, key, bits, b, i + 1)
  {
    var t, tail := queues[b][i], newTails[h];
    TailBelongs(next, newHeads[h], tail, queues, key, bits, b, i, h);
    var heads', tails' := newHeads[h := if tail.None? then Some(t) else newHeads[h]], newTails[h := Some(t)];
    forall g | 0 <= g < Pow2(bits)
      ensures IsQueue(Relink(next, tail, t), heads'[g], tails'[g], Partial(queues, key, bits, b, i + 1, g))
    {
      if g == h {
        MoveIntoBucket(next, newHeads[h], tail, queues, key, bits, b, i, h);
      } else {
        MoveElsewhere(next, newHeads[g], newTails[g], tail, queues, key, bits, b, i, h, g);
      }
    }
  }

  /** One round of `rehash_bucket_into`: the i-th thread goes to the end of its new bucket. */
  lemma MoveOne(next: seq<Option<Tid>>, newHeads: seq<Option<Tid>>, newTails: seq<Option<Tid>>, heads: seq<Option<Tid>>,
                queues: seq<seq<Tid>>, key: seq<nat>, bits: nat, b: nat, i: nat)
    requires bits <= WORD_BITS && b < |queues| && i < |queues[b]| && AllDistinct(queues) && |key| == |next|
    requires Filled(next, newHeads, newTails, queues, key, bits, b, i) && Unmoved(next, heads, queues, b, i)
    requires Hash(key[queues[b][i]], bits) < Pow2(bits)
    ensures var t := queues[b][i]; var h := Hash(key[t], bits); var tail := newTails[h];
      && next[t] == First(queues[b][i + 1..])
      && (tail.Some? ==> tail.value < |next|)
      && Filled(Relink(next, tail, t), newHeads[h := if tail.None? then Some(t) else newHeads[h]],
                newTails[h := Some(t)], queues, key, bits, b, i + 1)
      && Unmoved(Relink(next, tail, t), heads, queues, b, i + 1)
  {
    var h := Hash(key[queues[b][i]], bits);
    MoveFills(next, newHeads, newTails, queues, key, bits, b, i, h);
    MoveLeavesRest(next, newTails[h], heads, queues, key, bits, b, i, h);
  }

  /** The first `b` buckets have been moved into the new table. */
  ghost predicate MovedUpTo(next: seq<Option<Tid>>, newHeads: seq<Option<Tid>>, newTails: seq<Option<Tid>>,
                            heads: seq<Option<Tid>>, queues: seq<seq<Tid>>, key: seq<nat>, bits: nat, b: nat)
  {
    && bits <= WORD_BITS && b <= |queues| == |heads| && |key| == |next| && AllDistinct(queues)
    && |newHeads| == |newTails| == Pow2(bits)
    && (forall h :: 0 <= h < Pow2(bits) ==>
          IsQueue(next, newHeads[h], newTails[h], Rehashed(queues[..b], key, bits, h)))
    && (forall c :: b <= c < |queues| ==> IsQueue(next, heads[c], Last(queues[c]), queues[c]))
  }

  lemma StartMove(next: seq<Option<Tid>>, heads: seq<Option<Tid>>, tails: seq<Option<Tid>>,
                  queues: seq<seq<Tid>>, key: seq<nat>, bits: nat)
    requires bits <= WORD_BITS && |heads| == |tails| == |queues| && |key| == |next| && Disjoint(queues)
    requires forall b :: 0 <= b < |queues| ==> IsQueue(next, heads[b], tails[b], queues[b])
    ensures MovedUpTo(next, seq(Pow2(bits), _ => None), seq(Pow2(bits), _ => None), heads, queues, key, bits, 0)
  {
  }

  lemma EnterBucket(next: seq<Option<Tid>>, newHeads: seq<Option<Tid>>, newTails: seq<Option<Tid>>,
                    heads: seq<Option<Tid>>, queues: seq<seq<Tid>>, key: seq<nat>, bits: nat, b: nat)
    requires MovedUpTo(next, newHeads, newTails, heads, queues, key, bits, b) && b < |queues|
    ensures Filled(next, newHeads, newTails, queues, key, bits, b, 0) && Unmoved(next, heads, queues, b, 0)
  {
    assert IsQueue(next, heads[b], Last(queues[b]), queues[b]);
    forall h | 0 <= h < Pow2(bits) ensures Partial(queues, key, bits, b, 0, h) == Rehashed(queues[..b], key, bits, h) {
      assert queues[b][..0] == [];
    }
  }

  lemma LeaveBucket(next: seq<Option<Tid>>, newHeads: seq<Option<Tid>>, newTails: seq<Option<Tid>>,
                    heads: seq<Option<Tid>>, queues: seq<seq<Tid>>, key: seq<nat>, bits: nat, b: nat)
    requires bits <= WORD_BITS && b < |queues| && |key| == |next| && AllDistinct(queues)
    requires Filled(next, newHeads, newTails, queues, key, bits, b, |queues[b]|)
    requires Unmoved(next, heads, queues, b, |queues[b]|)
    ensures MovedUpTo(next, newHeads, newTails, heads, queues, key, bits, b + 1)
  {
    forall h | 0 <= h < Pow2(bits)
      ensures Partial(queues, key, bits, b, |queues[b]|, h) == Rehashed(queues[..b + 1], key, bits, h)
    {
      assert queues[..b + 1][..b] == queues[..b] && queues[b][..|queues[b]|] == queues[b];
    }
  }

  lemma FinishMove(next: seq<Option<Tid>>, newHeads: seq<Option<Tid>>, newTails: seq<Option<Tid>>,
                   heads: seq<Option<Tid>>, queues: seq<seq<Tid>>, key: seq<nat>, bits: nat)
    requires MovedUpTo(next, newHeads, newTails, heads, queues, key, bits, |queues|)
    ensures forall h :: 0 <= h < Pow2(bits) ==>
      IsQueue(next, newHeads[h], newTails[h], RehashedTable(queues, key, bits)[h])
    ensures Disjoint(RehashedTable(queues, key, bits))
  {
    assert queues[..|queues|] == queues;
  }
}
