/**
  Virtual-time bookkeeping of the two-class weighted fair queue: finish times,
  the byte total of a queue, the "chained" shape of finish times along a queue,
  and the selection rule that compares the two queue heads.
 */
module VirtualTime {
  import opened Options
  import opened Classification

  /**
    The finish time of a packet of `size` bytes that follows a packet (or the
    virtual clock) at `previous` in a queue of the given weight. The division is
    an integer division, so the result is a whole number.
   */
  function FinishTime(previous: nat, size: nat, weight: nat): (f: nat)
    requires weight > 0
    ensures previous <= f <= previous + size
    ensures weight == 1 ==> f == previous + size
  {
    DivisionAtMost(size, weight);
    previous + size / weight
  }

  lemma DivisionAtMost(size: nat, weight: nat)
    requires weight > 0
    ensures 0 <= size / weight <= size
  {
    var q := size / weight;
    assert size == q * weight + size % weight;
    MultiplyMonotone(q, 1, weight);
  }

  lemma {:induction false} MultiplyMonotone(a: nat, b: nat, c: nat)
    requires b <= c
    ensures a * b <= a * c
  {
    if a > 0 {
      MultiplyMonotone(a - 1, b, c);
      assert a * b == (a - 1) * b + b;
      assert a * c == (a - 1) * c + c;
    }
  }

  /** `size / heavy <= size / light` whenever `0 < light <= heavy`. */
  lemma DivisorMonotone(size: nat, light: nat, heavy: nat)
    requires 0 < light <= heavy
    ensures size / heavy <= size / light
  {
    var a, b := size / heavy, size / light;
    assert size == a * heavy + size % heavy;
    assert size == b * light + size % light;
    MultiplyMonotone(a, light, heavy);
    if b < a {
      MultiplyMonotone(light, b + 1, a);
    }
  }

  /** A heavier queue advances its packets' finish times by less. */
  lemma HeavierWeightFinishesNoLater(previous: nat, size: nat, light: nat, heavy: nat)
    requires 0 < light <= heavy
    ensures FinishTime(previous, size, heavy) <= FinishTime(previous, size, light)
  {
    DivisorMonotone(size, light, heavy);
  }

  /** The number of bytes held by a queue. */
  function TotalSize(q: seq<Packet>): nat {
    if q == [] then 0 else q[0].size + TotalSize(q[1..])
  }

  lemma {:induction false} TotalSizeAppend(q: seq<Packet>, p: Packet)
    ensures TotalSize(q + [p]) == TotalSize(q) + p.size
  {
    if q != [] {
      assert (q + [p])[1..] == q[1..] + [p];
      TotalSizeAppend(q[1..], p);
    }
  }

  /** The uids of the packets of a queue. */
  ghost function Uids(q: seq<Packet>): set<nat> {
    if q == [] then {} else {q[0].uid} + Uids(q[1..])
  }

  ghost predicate DistinctUids(q: seq<Packet>) {
    forall i, j | 0 <= i < j < |q| :: q[i].uid != q[j].uid
  }

  /** A uid is in `Uids(q)` exactly when some packet of `q` carries it. */
  lemma {:induction false} UidsMembership(q: seq<Packet>)
    ensures forall i | 0 <= i < |q| :: q[i].uid in Uids(q)
    ensures forall u | u in Uids(q) :: exists i | 0 <= i < |q| :: q[i].uid == u
  {
    if q != [] {
      UidsMembership(q[1..]);
      forall i | 0 < i < |q| ensures q[i].uid in Uids(q) {
        assert q[i] == q[1..][i - 1];
      }
      forall u | u in Uids(q) ensures exists i | 0 <= i < |q| :: q[i].uid == u {
        if u != q[0].uid {
          var k :| 0 <= k < |q[1..]| && q[1..][k].uid == u;
          assert q[k + 1].uid == u;
        }
      }
    }
  }

  lemma UidIn(q: seq<Packet>, x: Packet)
    requires x in q
    ensures x.uid in Uids(q)
  {
  }

  lemma {:induction false} UidsAppend(q: seq<Packet>, p: Packet)
    ensures Uids(q + [p]) == Uids(q) + {p.uid}
  {
    if q != [] {
      assert (q + [p])[1..] == q[1..] + [p];
      UidsAppend(q[1..], p);
    }
  }

  lemma DistinctAppend(q: seq<Packet>, p: Packet)
    requires DistinctUids(q) && p.uid !in Uids(q)
    ensures DistinctUids(q + [p])
  {
    UidsMembership(q);
    forall i, j | 0 <= i < j < |q + [p]|
      ensures (q + [p])[i].uid != (q + [p])[j].uid
    {
      assert (q + [p])[i] == q[i];
    }
  }

  lemma UidsTail(q: seq<Packet>)
    requires q != [] && DistinctUids(q)
    ensures Uids(q[1..]) == Uids(q) - {q[0].uid}
    ensures DistinctUids(q[1..])
  {
    UidsMembership(q[1..]);
  }

  /**
    Every packet of `q` has a finish time in `f`, and the finish time of each
    packet after the head is computed from its predecessor's.
   */
  ghost predicate Chained(q: seq<Packet>, f: map<nat, nat>, weight: nat)
    requires weight > 0
  {
    && (forall p | p in q :: p.uid in f)
    && (forall i | 0 < i < |q| :: f[q[i].uid] == FinishTime(f[q[i - 1].uid], q[i].size, weight))
  }

  lemma {:induction false} ChainedOrderedAt(q: seq<Packet>, f: map<nat, nat>, weight: nat, i: nat, j: nat)
    requires weight > 0 && Chained(q, f, weight)
    requires i <= j < |q|
    ensures q[i] in q && q[j] in q
    ensures f[q[i].uid] <= f[q[j].uid]
    decreases j - i
  {
    if i < j {
      ChainedOrderedAt(q, f, weight, i, j - 1);
    }
  }

  /** Finish times never decrease from the head of a queue to its tail. */
  lemma ChainedIsOrdered(q: seq<Packet>, f: map<nat, nat>, weight: nat)
    requires weight > 0 && Chained(q, f, weight)
    ensures forall i, j | 0 <= i <= j < |q| :: q[i].uid in f && q[j].uid in f && f[q[i].uid] <= f[q[j].uid]
  {
    forall i, j | 0 <= i <= j < |q|
      ensures q[i].uid in f && q[j].uid in f && f[q[i].uid] <= f[q[j].uid]
    {
      ChainedOrderedAt(q, f, weight, i, j);
    }
  }

  /** Appending a packet whose finish time follows the tail keeps a queue chained. */
  lemma ChainedAppend(q: seq<Packet>, f: map<nat, nat>, weight: nat, p: Packet, finish: nat)
    requires weight > 0 && Chained(q, f, weight) && p.uid !in f
    requires q != [] ==> q[|q| - 1].uid in f && finish == FinishTime(f[q[|q| - 1].uid], p.size, weight)
    ensures Chained(q + [p], f[p.uid := finish], weight)
  {
  }

  /** Setting the finish time of a uid that is not in a queue keeps the queue chained. */
  lemma ChainedUpdateOther(q: seq<Packet>, f: map<nat, nat>, weight: nat, u: nat, finish: nat)
    requires weight > 0 && Chained(q, f, weight) && u !in Uids(q)
    ensures Chained(q, f[u := finish], weight)
  {
  }

  /** Removing the head and its finish time keeps the rest of a queue chained. */
  lemma ChainedTail(q: seq<Packet>, f: map<nat, nat>, weight: nat)
    requires weight > 0 && Chained(q, f, weight) && q != [] && DistinctUids(q)
    ensures Chained(q[1..], f - {q[0].uid}, weight)
  {
  }

  /** Removing the finish time of a uid that is not in a queue keeps the queue chained. */
  lemma ChainedRemoveOther(q: seq<Packet>, f: map<nat, nat>, weight: nat, u: nat)
    requires weight > 0 && Chained(q, f, weight) && u !in Uids(q)
    ensures Chained(q, f - {u}, weight)
  {
  }

  /**
    One queue of the scheduler: its weight is positive, its byte counter is
    the total size of its packets, its uids are unique and its finish times
    are chained.
   */
  ghost predicate QueueInvariant(q: seq<Packet>, bytes: nat, f: map<nat, nat>, weight: nat) {
    && weight > 0
    && bytes == TotalSize(q)
    && DistinctUids(q)
    && Chained(q, f, weight)
  }

  /**
    The finish-time table holds an entry for exactly the packets of the two
    queues, and no uid is in both queues.
   */
  ghost predicate TableInvariant(q: seq<Packet>, other: seq<Packet>, f: map<nat, nat>) {
    && Uids(q) !! Uids(other)
    && f.Keys == Uids(q) + Uids(other)
  }

  /** Both queues and the finish-time table of the scheduler are invariant. */
  ghost predicate Invariant(q: seq<Packet>, bytes: nat, other: seq<Packet>, otherBytes: nat,
                            f: map<nat, nat>, weight: nat, otherWeight: nat)
  {
    && QueueInvariant(q, bytes, f, weight)
    && QueueInvariant(other, otherBytes, f, otherWeight)
    && TableInvariant(q, other, f)
  }

  lemma InvariantSymmetric(q: seq<Packet>, bytes: nat, other: seq<Packet>, otherBytes: nat,
                           f: map<nat, nat>, weight: nat, otherWeight: nat)
    requires Invariant(q, bytes, other, otherBytes, f, weight, otherWeight)
    ensures Invariant(other, otherBytes, q, bytes, f, otherWeight, weight)
  {
  }

  /**
    Admitting a packet with a fresh uid at the tail of `q`, its finish time
    following the tail's, keeps both queues and the table invariant.
   */
  lemma AppendPreservesInvariant(q: seq<Packet>, bytes: nat, other: seq<Packet>, otherBytes: nat,
                                 f: map<nat, nat>, weight: nat, otherWeight: nat, p: Packet, finish: nat)
    requires Invariant(q, bytes, other, otherBytes, f, weight, otherWeight)
    requires p.uid !in f
    requires q != [] ==> q[|q| - 1].uid in f && finish == FinishTime(f[q[|q| - 1].uid], p.size, weight)
    ensures Invariant(q + [p], bytes + p.size, other, otherBytes, f[p.uid := finish], weight, otherWeight)
  {
    TotalSizeAppend(q, p);
    UidsAppend(q, p);
    DistinctAppend(q, p);
    ChainedAppend(q, f, weight, p, finish);
    ChainedUpdateOther(other, f, otherWeight, p.uid, finish);
  }

  /**
    Removing the head of `q`, its size from the counter and its uid from the
    table keeps both queues and the table invariant, and the removed packet
    is in neither queue afterwards.
   */
  lemma RemoveHeadPreservesInvariant(q: seq<Packet>, bytes: nat, other: seq<Packet>, otherBytes: nat,
                                     f: map<nat, nat>, weight: nat, otherWeight: nat)
    requires Invariant(q, bytes, other, otherBytes, f, weight, otherWeight)
    requires q != []
    ensures bytes >= q[0].size
    ensures Invariant(q[1..], bytes - q[0].size, other, otherBytes, f - {q[0].uid}, weight, otherWeight)
    ensures q[0] !in q[1..] && q[0] !in other
  {
    UidsTail(q);
    ChainedTail(q, f, weight);
    ChainedRemoveOther(other, f, otherWeight, q[0].uid);
    if q[0] in other {
      UidIn(other, q[0]);
    }
  }

  /** The finish time of the head of a queue, `None` when the queue is empty. */
  function HeadFinish(q: seq<Packet>, f: map<nat, nat>): Option<nat>
    requires q != [] ==> q[0].uid in f
  {
    if q == [] then None else Some(f[q[0].uid])
  }

  /**
    The queue whose head is served next: the one with the smaller head finish
    time, the second queue on a tie, `None` when both are empty.
   */
  function Pick(first: Option<nat>, second: Option<nat>): (c: Option<Class>)
    ensures c.None? <==> first.None? && second.None?
    ensures c == Some(First) ==> first.Some? && (second.Some? ==> first.value < second.value)
    ensures c == Some(Second) ==> second.Some? && (first.Some? ==> second.value <= first.value)
  {
    if second.Some? && (first.None? || second.value <= first.value) then Some(Second)
    else if first.Some? then Some(First)
    else None
  }

  /** The packet the scheduler serves next from the two queues. */
  function Select(q0: seq<Packet>, q1: seq<Packet>, f: map<nat, nat>): (r: Option<Packet>)
    requires q0 != [] ==> q0[0].uid in f
    requires q1 != [] ==> q1[0].uid in f
    ensures r.None? <==> q0 == [] && q1 == []
    ensures r.Some? ==> (q0 != [] && r.value == q0[0]) || (q1 != [] && r.value == q1[0])
    ensures r.Some? && q0 != [] ==> r.value.uid in f && f[r.value.uid] <= f[q0[0].uid]
    ensures r.Some? && q1 != [] ==> r.value.uid in f && f[r.value.uid] <= f[q1[0].uid]
  {
    match Pick(HeadFinish(q0, f), HeadFinish(q1, f))
    case None => None
    case Some(First) => Some(q0[0])
    case Some(Second) => Some(q1[0])
  }

  /** The head of a chained queue has the smallest finish time in it. */
  lemma HeadIsMinimal(q: seq<Packet>, f: map<nat, nat>, weight: nat)
    requires weight > 0 && Chained(q, f, weight) && q != []
    ensures q[0].uid in f
    ensures forall x | x in q :: x.uid in f && f[q[0].uid] <= f[x.uid]
  {
    forall x | x in q ensures x.uid in f && f[q[0].uid] <= f[x.uid] {
      var k :| 0 <= k < |q| && q[k] == x;
      ChainedOrderedAt(q, f, weight, 0, k);
    }
  }

  /**
    The selected packet is a head of one of the queues and has the smallest
    finish time among all queued packets; nothing is selected only when both
    queues are empty.
   */
  lemma SelectIsMinimal(q0: seq<Packet>, q1: seq<Packet>, f: map<nat, nat>, w0: nat, w1: nat)
    requires w0 > 0 && w1 > 0 && Chained(q0, f, w0) && Chained(q1, f, w1)
    ensures q0 != [] ==> q0[0].uid in f
    ensures q1 != [] ==> q1[0].uid in f
    ensures Select(q0, q1, f).None? <==> q0 == [] && q1 == []
    ensures Select(q0, q1, f).Some? ==>
              var p := Select(q0, q1, f).value;
              && ((q0 != [] && p == q0[0]) || (q1 != [] && p == q1[0]))
              && forall x | x in q0 + q1 :: p.uid in f && x.uid in f && f[p.uid] <= f[x.uid]
  {
    if q0 != [] { HeadIsMinimal(q0, f, w0); }
    if q1 != [] { HeadIsMinimal(q1, f, w1); }
  }

  /** On equal head finish times the second queue's head is served first. */
  lemma SecondQueueWinsTies(q0: seq<Packet>, q1: seq<Packet>, f: map<nat, nat>)
    requires q0 != [] && q1 != [] && q0[0].uid in f && q1[0].uid in f
    requires f[q0[0].uid] == f[q1[0].uid]
    ensures Select(q0, q1, f) == Some(q1[0])
  {
  }
}
