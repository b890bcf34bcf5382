/** `park`, `unpark_one` and the rehash of the parking lot on its linked lists (src/mutex/deadlock.rs). */
module ParkingBuckets {
  import opened Wrappers
  import opened Threads
  import opened Hashing
  import opened ParkingLists

  /** What `unpark_one` tells its callback and its caller. */
  datatype UnparkResult = UnparkResult(unparked: nat, haveMore: bool, beFair: bool)

  /** The `ThreadData` of every thread and the buckets of the current hash table. */
  class ParkingLot {
    var next: seq<Option<Tid>>
    var key: seq<nat>
    var flag: seq<bool>
    var token: seq<nat>
    var heads: seq<Option<Tid>>
    var tails: seq<Option<Tid>>
    /** What the callbacks of `unpark_one` have been called with. */
    ghost var calls: seq<UnparkResult>
    /** The queue of every bucket. */
    ghost var queues: seq<seq<Tid>>

    ghost predicate Valid()
      reads this
    {
      && |key| == |flag| == |token| == |next| && |heads| == |tails| == |queues|
      && (forall b :: 0 <= b < |queues| ==> IsQueue(next, heads[b], tails[b], queues[b]))
      && Disjoint(queues)
    }

    /** The part of `park` that queues thread `t` on key `k` at the end of bucket `b`. */
    method Append(b: nat, t: Tid, k: nat)
      requires Valid() && b < |heads| && t < |next| && !InSome(queues, t)
      modifies this
      ensures Valid() && |next| == old(|next|)
      ensures queues == old(queues)[b := old(queues[b]) + [t]]
      ensures key == old(key)[t := k] && flag == old(flag)[t := true] && token == old(token) && calls == old(calls)
    {
      AppendKeepsQueue(next, heads[b], tails[b], queues[b], t);
      ghost var before, tail := next, tails[b];
      next := next[t := None];
      key := key[t := k];
      flag := flag[t := true];
      if heads[b].Some? {
        next := next[tails[b].value := Some(t)];
      } else {
        heads := heads[b := Some(t)];
      }
      tails := tails[b := Some(t)];
      forall c | 0 <= c < |queues| && c != b ensures IsQueue(next, heads[c], tails[c], queues[c]) {
        assert tail.Some? ==> tail.value in queues[b];
        OtherQueuesKept(before, next, heads, tails, queues, b, c);
      }
      queues := queues[b := queues[b] + [t]];
    }

    /** Unlinks the i-th node of bucket `b`, whose predecessor is `previous`. */
    method Unlink(b: nat, current: Tid, previous: Option<Tid>, ghost i: nat)
      requires Valid() && b < |heads| && i < |queues[b]| && current == queues[b][i]
      requires previous == if i > 0 then Some(queues[b][i - 1]) else None
      modifies this
      ensures Valid() && queues == old(queues)[b := Without(old(queues[b]), i)]
      ensures key == old(key) && flag == old(flag) && token == old(token) && next[current] == old(next[current])
      ensures calls == old(calls)
      ensures |next| == old(|next|) && (tails[b] == old(tails[b]) <==> i + 1 < |old(queues[b])|)
    {
      UnlinkKeepsQueue(next, heads[b], tails[b], queues[b], i);
      ghost var before, q := next, queues[b];
      var following := next[current];
      if previous.Some? {
        next := next[previous.value := following];
      } else {
        heads := heads[b := following];
      }
      if tails[b] == Some(current) {
        tails := tails[b := previous];
      }
      forall c | 0 <= c < |queues| && c != b ensures IsQueue(next, heads[c], tails[c], queues[c]) {
        assert previous.Some? ==> previous.value in q;
        OtherQueuesKept(before, next, heads, tails, queues, b, c);
      }
      assert forall t :: t in Without(q, i) ==> t in q;
      queues := queues[b := Without(q, i)];
    }

    /** The scan for another entry with key `k`, from position `from` of bucket `b`. */
    method Scan(b: nat, start: Option<Tid>, k: nat, ghost from: nat) returns (found: bool)
      requires Valid() && b < |queues| && from <= |queues[b]| && start == First(queues[b][from..])
      ensures found <==> HasKey(key, queues[b][from..], k)
    {
      var scan := start;
      ghost var q, m := queues[b], from;
      while scan.Some?
        invariant from <= m <= |q| && scan == First(q[m..])
        invariant forall j :: from <= j < m ==> key[q[j]] != k
        decreases |q| - m
      {
        assert NextIs(next, q, m);
        if key[scan.value] == k {
          assert q[from..][m - from] == scan.value;
          return true;
        }
        scan := next[scan.value];
        m := m + 1;
      }
      return false;
    }

    /** What `unpark_one` does with the thread it has found at position `i` of bucket `b`. */
    method Choose(b: nat, current: Tid, previous: Option<Tid>, k: nat,
                  callback: UnparkResult -> nat, fair: bool, ghost i: nat)
      returns (result: UnparkResult)
      requires Valid() && b < |heads| && i < |queues[b]| && current == queues[b][i]
      requires previous == if i > 0 then Some(queues[b][i - 1]) else None
      modifies this
      ensures Valid() && key == old(key) && |next| == old(|next|) && calls == old(calls) + [result]
      ensures queues == old(queues)[b := Without(old(queues[b]), i)]
      ensures result == UnparkResult(1, HasKey(key, old(queues[b])[i + 1..], k), fair)
      ensures current < |key| && token == old(token)[current := callback(result)] && flag == old(flag)[current := false]
    {
      ghost var q := queues[b];
      assert NextIs(next, q, i);
      var following, wasTail := next[current], tails[b] == Some(current);
      Unlink(b, current, previous, i);
      var more := false;
      if !wasTail {
        assert Without(q, i)[i..] == q[i + 1..];
        more := Scan(b, following, k, i);
      }
      result := UnparkResult(1, more, fair);
      calls := calls + [result];
      token := token[current := callback(result)];
      flag := flag[current := false];
    }

    /**
     The body of `unpark_one` on bucket `b`: removes the first thread parked on `k`, calls the callback,
     hands the thread the token it returns and clears its flag; `i` is the position it had. Without such
     a thread the callback is called too, and what it returns is ignored.
     */
    method UnparkOne(b: nat, k: nat, callback: UnparkResult -> nat, fair: bool)
      returns (result: UnparkResult, target: Option<Tid>, ghost i: nat)
      requires Valid() && b < |heads|
      modifies this
      ensures Valid() && key == old(key) && |next| == old(|next|) && calls == old(calls) + [result]
      ensures target.None? ==>
        && !HasKey(key, old(queues[b]), k) && result == UnparkResult(0, false, false)
        && queues == old(queues) && flag == old(flag) && token == old(token)
      ensures target.Some? ==>
        && i < |old(queues[b])| && target.value == old(queues[b])[i] && target.value < |key| && key[target.value] == k
        && !HasKey(key, old(queues[b])[..i], k)
        && queues == old(queues)[b := Without(old(queues[b]), i)]
        && result == UnparkResult(1, HasKey(key, queues[b], k), fair)
        && token == old(token)[target.value := callback(result)] && flag == old(flag)[target.value := false]
    {
      var current, previous: Option<Tid> := heads[b], None;
      i := 0;
      ghost var q := queues[b];
      while current.Some?
        invariant Valid() && queues == old(queues) && key == old(key) && flag == old(flag) && token == old(token)
        invariant next == old(next) && heads == old(heads) && tails == old(tails) && calls == old(calls)
        invariant i <= |q| && current == First(q[i..]) && previous == Last(q[..i])
        invariant forall j :: 0 <= j < i ==> key[q[j]] != k
        decreases |q| - i
      {
        assert NextIs(next, q, i);
        if key[current.value] == k {
          MoreMeansLater(key, q, k, i);
          result := Choose(b, current.value, previous, k, callback, fair, i);
          return result, current, i;
        }
        previous := current;
        current := next[current.value];
        i := i + 1;
      }
      result := UnparkResult(0, false, false);
      calls := calls + [result];
      var _ := callback(result);
      return result, None, i;
    }

    /** The body of a `park` that has timed out: removes `t` itself from its bucket. */
    method RemoveTimedOut(b: nat, t: Tid, k: nat) returns (wasLast: bool, ghost i: nat)
      requires Valid() && b < |heads| && t in queues[b]
      modifies this
      ensures Valid() && key == old(key) && flag == old(flag) && token == old(token) && calls == old(calls)
      ensures i < |old(queues[b])| && old(queues[b])[i] == t
      ensures queues == old(queues)[b := Without(old(queues[b]), i)]
      ensures wasLast <==> !HasKey(key, queues[b], k)
    {
      var current, previous: Option<Tid> := heads[b], None;
      wasLast := true;
      i := 0;
      ghost var q := queues[b];
      while current.Some?
        invariant Valid() && queues == old(queues) && key == old(key) && flag == old(flag) && token == old(token)
        invariant next == old(next) && heads == old(heads) && tails == old(tails) && calls == old(calls)
        invariant i <= |q| && current == First(q[i..]) && previous == Last(q[..i])
        invariant forall j :: 0 <= j < i ==> q[j] != t
        invariant wasLast <==> !HasKey(key, q[..i], k)
        decreases |q| - i
      {
        assert NextIs(next, q, i);
        if current.value == t {
          var following, wasTail := next[t], tails[b] == current;
          Unlink(b, t, previous, i);
          if !wasTail {
            assert Without(q, i)[i..] == q[i + 1..];
            var more := Scan(b, following, k, i);
            wasLast := wasLast && !more;
          }
          MoreMeansAround(key, q, k, i);
          return wasLast, i;
        }
        MoreMeansAround(key, q[..i + 1], k, i);
        assert q[..i + 1][..i] == q[..i] && q[..i + 1][i + 1..] == [] && q[..i + 1] == q[..i] + [q[i]];
        if key[current.value] == k {
          wasLast := false;
        }
        previous := current;
        current := next[current.value];
        i := i + 1;
      }
      assert false;
    }

    /** The body of the loop of `rehash_bucket_into`: links `t` behind the tail of the new bucket `h`. */
    method AppendInto(heads0: seq<Option<Tid>>, tails0: seq<Option<Tid>>, h: nat, t: Tid)
      returns (newHeads: seq<Option<Tid>>, newTails: seq<Option<Tid>>)
      requires h < |heads0| == |tails0| && t < |next| && (tails0[h].Some? ==> tails0[h].value < |next|)
      modifies this`next
      ensures next == Relink(old(next), tails0[h], t)
      ensures newHeads == heads0[h := if tails0[h].None? then Some(t) else heads0[h]]
      ensures newTails == tails0[h := Some(t)]
    {
      newHeads, newTails := heads0, tails0;
      if newTails[h].None? {
        newHeads := newHeads[h := Some(t)];
      } else {
        next := next[newTails[h].value := Some(t)];
      }
      newTails := newTails[h := Some(t)];
      next := next[t := None];
    }

    /** One round of `rehash_bucket_into`, with the i-th thread of bucket `b`. */
    method MoveThread(b: nat, bits: nat, heads0: seq<Option<Tid>>, tails0: seq<Option<Tid>>, t: Tid, ghost i: nat)
      returns (newHeads: seq<Option<Tid>>, newTails: seq<Option<Tid>>, following: Option<Tid>)
      requires bits <= WORD_BITS && b < |queues| == |heads| && |key| == |next| && AllDistinct(queues)
      requires i < |queues[b]| && t == queues[b][i]
      requires Filled(next, heads0, tails0, queues, key, bits, b, i) && Unmoved(next, heads, queues, b, i)
      modifies this`next
      ensures |next| == old(|next|) && following == First(queues[b][i + 1..])
      ensures Filled(next, newHeads, newTails, queues, key, bits, b, i + 1) && Unmoved(next, heads, queues, b, i + 1)
    {
      HashInTable(key[t], bits);
      MoveOne(next, heads0, tails0, heads, queues, key, bits, b, i);
      following := next[t];
      newHeads, newTails := AppendInto(heads0, tails0, Hash(key[t], bits), t);
    }

    /**
     `rehash_bucket_into` for bucket `b`, with the buckets before it already moved: walks the list and
     appends each thread to the list of its new bucket.
     */
    method RehashBucketInto(b: nat, bits: nat, heads0: seq<Option<Tid>>, tails0: seq<Option<Tid>>)
      returns (newHeads: seq<Option<Tid>>, newTails: seq<Option<Tid>>)
      requires bits <= WORD_BITS && b < |queues| == |heads| && |key| == |next| && AllDistinct(queues)
      requires Filled(next, heads0, tails0, queues, key, bits, b, 0) && Unmoved(next, heads, queues, b, 0)
      modifies this`next
      ensures |next| == old(|next|)
      ensures Filled(next, newHeads, newTails, queues, key, bits, b, |queues[b]|)
      ensures Unmoved(next, heads, queues, b, |queues[b]|)
    {
      newHeads, newTails := heads0, tails0;
      var current := heads[b];
      ghost var i := 0;
      assert queues[b][0..] == queues[b];
      while current.Some?
        invariant |next| == old(|next|) && i <= |queues[b]| && current == First(queues[b][i..])
        invariant Filled(next, newHeads, newTails, queues, key, bits, b, i) && Unmoved(next, heads, queues, b, i)
        decreases |queues[b]| - i
      {
        newHeads, newTails, current := MoveThread(b, bits, newHeads, newTails, current.value, i);
        i := i + 1;
      }
      assert i == |queues[b]|;
    }

    /** Moves every bucket into a fresh table with `bits` hash bits and switches to it. */
    method Rehash(bits: nat)
      requires Valid() && bits <= WORD_BITS
      modifies this
      ensures Valid() && key == old(key) && flag == old(flag) && token == old(token) && |next| == old(|next|)
      ensures calls == old(calls)
      ensures queues == RehashedTable(old(queues), key, bits)
    {
      var newHeads: seq<Option<Tid>> := seq(Pow2(bits), _ => None);
      var newTails: seq<Option<Tid>> := seq(Pow2(bits), _ => None);
      var b := 0;
      StartMove(next, heads, tails, queues, key, bits);
      while b < |heads|
        invariant b <= |heads| == |queues| && |next| == old(|next|)
        invariant queues == old(queues) && key == old(key) && flag == old(flag) && token == old(token)
        invariant heads == old(heads) && calls == old(calls)
        invariant MovedUpTo(next, newHeads, newTails, heads, queues, key, bits, b)
      {
        EnterBucket(next, newHeads, newTails, heads, queues, key, bits, b);
        newHeads, newTails := RehashBucketInto(b, bits, newHeads, newTails);
        LeaveBucket(next, newHeads, newTails, heads, queues, key, bits, b);
        b := b + 1;
      }
      FinishMove(next, newHeads, newTails, heads, queues, key, bits);
      heads, tails, queues := newHeads, newTails, RehashedTable(queues, key, bits);
    }
  }

  /** What remains after removing position `i` is what is before and what is after it. */
  lemma MoreMeansAround(key: seq<nat>, q: seq<Tid>, k: nat, i: nat)
    requires i < |q|
    ensures HasKey(key, Without(q, i), k) <==> HasKey(key, q[..i], k) || HasKey(key, q[i + 1..], k)
  {
    var r := Without(q, i);
    if HasKey(key, q[..i], k) {
      var j :| 0 <= j < i && q[..i][j] < |key| && key[q[..i][j]] == k;
      assert r[j] == q[j];
    }
    if HasKey(key, q[i + 1..], k) {
      var j :| 0 <= j < |q[i + 1..]| && q[i + 1..][j] < |key| && key[q[i + 1..][j]] == k;
      assert r[i + j] == q[i + 1..][j];
    }
    if HasKey(key, r, k) {
      var j :| 0 <= j < |r| && r[j] < |key| && key[r[j]] == k;
      if j < i {
        assert q[..i][j] == r[j];
      } else {
        assert q[i + 1..][j - i] == r[j];
      }
    }
  }

  lemma MoreMeansLater(key: seq<nat>, q: seq<Tid>, k: nat, i: nat)
    requires i < |q| && forall j :: 0 <= j < i ==> q[j] < |key| && key[q[j]] != k
    ensures !HasKey(key, q[..i], k)
    ensures HasKey(key, Without(q, i), k) <==> HasKey(key, q[i + 1..], k)
  {
    MoreMeansAround(key, q, k, i);
  }
}
