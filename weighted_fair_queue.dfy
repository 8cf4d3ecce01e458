/**
  The two-class weighted fair queue: classification, bounded admission into two
  FIFO queues, finish-time bookkeeping against a global virtual clock, and
  selection of the head with the smallest finish time.
 */
module WeightedFairQueueing {
  import opened Options
  import opened Classification
  import opened VirtualTime

  /** Whether the queue limits count packets or bytes. */
  datatype QueueMode = QueueModePackets | QueueModeBytes

  class WeightedFairQueue {
    var mode: QueueMode
    const firstMaxPackets: nat
    const secondMaxPackets: nat
    const firstMaxBytes: nat
    const secondMaxBytes: nat
    const secondQueuePort: nat
    const firstWeight: nat
    const secondWeight: nat

    var virtualTime: nat
    var firstQueue: seq<Packet>
    var bytesInFirstQueue: nat
    var secondQueue: seq<Packet>
    var bytesInSecondQueue: nat
    /** Finish time of every queued packet, keyed by its uid. */
    var finishTimes: map<nat, nat>

    /**
      Both weights are positive; each byte counter is the total size of its
      queue; uids are unique; the finish-time table holds exactly the queued
      packets; finish times are chained along each queue.
     */
    ghost predicate Valid()
      reads this
    {
      Invariant(firstQueue, bytesInFirstQueue, secondQueue, bytesInSecondQueue,
                finishTimes, firstWeight, secondWeight)
    }

    /** The configured limit is respected by every queue in the current mode. */
    ghost predicate WithinLimits()
      reads this
    {
      && (mode == QueueModePackets ==>
            |firstQueue| <= firstMaxPackets && |secondQueue| <= secondMaxPackets)
      && (mode == QueueModeBytes ==>
            (firstQueue == [] || bytesInFirstQueue < firstMaxBytes)
            && (secondQueue == [] || bytesInSecondQueue < secondMaxBytes))
    }

    function Queue(c: Class): seq<Packet>
      reads this
    {
      if c == First then firstQueue else secondQueue
    }

    function BytesIn(c: Class): nat
      reads this
    {
      if c == First then bytesInFirstQueue else bytesInSecondQueue
    }

    function Weight(c: Class): nat {
      if c == First then firstWeight else secondWeight
    }

    function MaxPackets(c: Class): nat {
      if c == First then firstMaxPackets else secondMaxPackets
    }

    function MaxBytes(c: Class): nat {
      if c == First then firstMaxBytes else secondMaxBytes
    }

    /** The finish time a packet appended to queue `c` would follow. */
    ghost function TailFinish(c: Class): nat
      reads this
      requires Valid()
    {
      var q := Queue(c);
      if q == [] then virtualTime
      else
        assert q[|q| - 1] in q;
        finishTimes[q[|q| - 1].uid]
    }

    /** The queue served next, by the selection rule. */
    ghost function Winner(): Option<Class>
      reads this
      requires Valid()
    {
      HeadsIndexed();
      Pick(HeadFinish(firstQueue, finishTimes), HeadFinish(secondQueue, finishTimes))
    }

    /** The packet served next, by the selection rule. */
    ghost function Next(): Option<Packet>
      reads this
      requires Valid()
    {
      HeadsIndexed();
      Select(firstQueue, secondQueue, finishTimes)
    }

    lemma HeadsIndexed()
      requires Valid()
      ensures firstQueue != [] ==> firstQueue[0].uid in finishTimes
      ensures secondQueue != [] ==> secondQueue[0].uid in finishTimes
    {
    }

    constructor(mode: QueueMode, firstMaxPackets: nat, secondMaxPackets: nat,
                firstMaxBytes: nat, secondMaxBytes: nat, secondQueuePort: nat,
                firstWeight: nat, secondWeight: nat)
      requires firstWeight > 0 && secondWeight > 0
      ensures Valid() && WithinLimits()
      ensures this.mode == mode && this.secondQueuePort == secondQueuePort
      ensures this.firstMaxPackets == firstMaxPackets && this.secondMaxPackets == secondMaxPackets
      ensures this.firstMaxBytes == firstMaxBytes && this.secondMaxBytes == secondMaxBytes
      ensures this.firstWeight == firstWeight && this.secondWeight == secondWeight
      ensures virtualTime == 0 && finishTimes == map[]
      ensures firstQueue == [] && secondQueue == []
      ensures bytesInFirstQueue == 0 && bytesInSecondQueue == 0
    {
      this.mode := mode;
      this.firstMaxPackets := firstMaxPackets;
      this.secondMaxPackets := secondMaxPackets;
      this.firstMaxBytes := firstMaxBytes;
      this.secondMaxBytes := secondMaxBytes;
      this.secondQueuePort := secondQueuePort;
      this.firstWeight := firstWeight;
      this.secondWeight := secondWeight;
      virtualTime := 0;
      firstQueue := [];
      bytesInFirstQueue := 0;
      secondQueue := [];
      bytesInSecondQueue := 0;
      finishTimes := map[];
    }

    /** The current mode, as last set by the constructor or `SetMode`. */
    function GetMode(): (m: QueueMode)
      reads this
      ensures m == mode
    {
      mode
    }

    method SetMode(m: QueueMode)
      modifies this`mode
      ensures GetMode() == m
    {
      mode := m;
    }

    /**
      The sum of the weights of the non-empty queues: positive exactly when some
      packet is queued, and at least the weight of every non-empty queue.
     */
    function WeightSum(): (s: nat)
      reads this
      ensures firstQueue != [] ==> s >= firstWeight
      ensures secondQueue != [] ==> s >= secondWeight
      ensures firstQueue == [] && secondQueue == [] ==> s == 0
      ensures s <= firstWeight + secondWeight
    {
      (if firstQueue != [] then firstWeight else 0)
      + (if secondQueue != [] then secondWeight else 0)
    }

    /**
      The running minimum over the two heads: the sentinel is `None`, the first
      head is tested first, and the second head replaces it when its finish
      time is smaller or equal.
     */
    method SelectQueue() returns (c: Option<Class>)
      requires Valid()
      ensures c == Winner()
      ensures c == None <==> firstQueue == [] && secondQueue == []
      ensures c == Some(First) ==> firstQueue != []
      ensures c == Some(Second) ==> secondQueue != []
    {
      HeadsIndexed();
      var minFinish: Option<nat> := None;
      c := None;
      if firstQueue != [] {
        // against the sentinel the test `firstFinish <= minFinish` always succeeds
        var firstFinish := finishTimes[firstQueue[0].uid];
        minFinish := Some(firstFinish);
        c := Some(First);
      }
      if secondQueue != [] {
        var secondFinish := finishTimes[secondQueue[0].uid];
        if minFinish == None || secondFinish <= minFinish.value {
          minFinish := Some(secondFinish);
          c := Some(Second);
        }
      }
    }

    /** The packet the next dequeue would return, with no change to the state. */
    method Peek() returns (r: Option<Packet>)
      requires Valid()
      ensures r == Next()
      ensures r == None <==> firstQueue == [] && secondQueue == []
      ensures r.Some? ==>
        && ((firstQueue != [] && r.value == firstQueue[0]) || (secondQueue != [] && r.value == secondQueue[0]))
        && forall x | x in firstQueue + secondQueue ::
             r.value.uid in finishTimes && x.uid in finishTimes && finishTimes[r.value.uid] <= finishTimes[x.uid]
    {
      SelectIsMinimal(firstQueue, secondQueue, finishTimes, firstWeight, secondWeight);
      var c := SelectQueue();
      match c
      case None => r := None;
      case Some(First) => r := Some(firstQueue[0]);
      case Some(Second) => r := Some(secondQueue[0]);
    }

    /**
      Admits `p` into the queue its class selects, unless that queue is at its
      packet limit or would reach its byte limit.
     */
    method Enqueue(p: Packet) returns (ok: bool)
      requires Valid()
      requires p.uid !in finishTimes
      modifies this
      ensures Valid()
      ensures mode == old(mode) && virtualTime == old(virtualTime)
      ensures var c := Classify(p, secondQueuePort);
        && (ok <==>
              !(mode == QueueModePackets && |old(Queue(c))| >= MaxPackets(c))
              && !(mode == QueueModeBytes && old(BytesIn(c)) + p.size >= MaxBytes(c)))
        && (ok ==>
              && Queue(c) == old(Queue(c)) + [p]
              && BytesIn(c) == old(BytesIn(c)) + p.size
              && Queue(Other(c)) == old(Queue(Other(c)))
              && BytesIn(Other(c)) == old(BytesIn(Other(c)))
              && finishTimes == old(finishTimes)[p.uid := FinishTime(old(TailFinish(c)), p.size, Weight(c))])
        && (ok && mode == QueueModePackets ==> |Queue(c)| <= MaxPackets(c))
        && (ok && mode == QueueModeBytes ==> BytesIn(c) < MaxBytes(c))
      ensures !ok ==> unchanged(this)
      ensures old(WithinLimits()) ==> WithinLimits()
    {
      var c := Classify(p, secondQueuePort);
      if mode == QueueModePackets && |Queue(c)| >= MaxPackets(c) {
        return false;
      }
      if mode == QueueModeBytes && BytesIn(c) + p.size >= MaxBytes(c) {
        return false;
      }
      Append(c, p);
      return true;
    }

    /**
      Gives `p` the finish time that follows the tail of queue `c` (or the
      virtual clock when that queue is empty), records it under the packet's
      uid, and appends the packet to the queue.
     */
    method Append(c: Class, p: Packet)
      requires Valid()
      requires p.uid !in finishTimes
      modifies this
      ensures Valid()
      ensures mode == old(mode) && virtualTime == old(virtualTime)
      ensures Queue(c) == old(Queue(c)) + [p]
      ensures BytesIn(c) == old(BytesIn(c)) + p.size
      ensures Queue(Other(c)) == old(Queue(Other(c)))
      ensures BytesIn(Other(c)) == old(BytesIn(Other(c)))
      ensures finishTimes == old(finishTimes)[p.uid := FinishTime(old(TailFinish(c)), p.size, Weight(c))]
    {
      if c == Second {
        var previous := virtualTime;
        if secondQueue != [] {
          assert secondQueue[|secondQueue| - 1] in secondQueue;
          previous := finishTimes[secondQueue[|secondQueue| - 1].uid];
        }
        var finish := FinishTime(previous, p.size, secondWeight);
        InvariantSymmetric(firstQueue, bytesInFirstQueue, secondQueue, bytesInSecondQueue,
                           finishTimes, firstWeight, secondWeight);
        AppendPreservesInvariant(secondQueue, bytesInSecondQueue, firstQueue, bytesInFirstQueue,
                                 finishTimes, secondWeight, firstWeight, p, finish);
        InvariantSymmetric(secondQueue + [p], bytesInSecondQueue + p.size, firstQueue, bytesInFirstQueue,
                           finishTimes[p.uid := finish], secondWeight, firstWeight);
        finishTimes := finishTimes[p.uid := finish];
        bytesInSecondQueue := bytesInSecondQueue + p.size;
        secondQueue := secondQueue + [p];
      } else {
        var previous := virtualTime;
        if firstQueue != [] {
          assert firstQueue[|firstQueue| - 1] in firstQueue;
          previous := finishTimes[firstQueue[|firstQueue| - 1].uid];
        }
        var finish := FinishTime(previous, p.size, firstWeight);
        AppendPreservesInvariant(firstQueue, bytesInFirstQueue, secondQueue, bytesInSecondQueue,
                                 finishTimes, firstWeight, secondWeight, p, finish);
        finishTimes := finishTimes[p.uid := finish];
        bytesInFirstQueue := bytesInFirstQueue + p.size;
        firstQueue := firstQueue + [p];
      }
    }

    /**
      Removes and returns the packet selected by the same rule as Peek; the
      virtual clock advances by its size divided by the weight sum of the
      queues that were non-empty before the removal.
     */
    method Dequeue() returns (r: Option<Packet>)
      requires Valid()
      modifies this
      ensures Valid()
      ensures r == old(Next())
      ensures r == None <==> old(firstQueue == [] && secondQueue == [])
      ensures r == None ==> unchanged(this)
      ensures r.Some? ==>
        var c := old(Winner()).value;
        && old(Queue(c)) != [] && r.value == old(Queue(c))[0]
        && Queue(c) == old(Queue(c))[1..]
        && BytesIn(c) == old(BytesIn(c)) - r.value.size
        && Queue(Other(c)) == old(Queue(Other(c)))
        && BytesIn(Other(c)) == old(BytesIn(Other(c)))
        && finishTimes == old(finishTimes) - {r.value.uid}
        && old(WeightSum()) >= Weight(c) > 0
        && virtualTime == old(virtualTime) + r.value.size / old(WeightSum())
        && virtualTime <= old(virtualTime) + r.value.size / Weight(c)
      ensures r.Some? ==> r.value !in firstQueue && r.value !in secondQueue
      ensures mode == old(mode) && old(virtualTime) <= virtualTime
      ensures old(WithinLimits()) ==> WithinLimits()
    {
      var c := SelectQueue();
      match c
      case None =>
        r := None;
      case Some(First) =>
        var p := firstQueue[0];
        var weightSum := WeightSum();
        DivisorMonotone(p.size, firstWeight, weightSum);
        RemoveHeadPreservesInvariant(firstQueue, bytesInFirstQueue, secondQueue, bytesInSecondQueue,
                                     finishTimes, firstWeight, secondWeight);
        DivisionAtMost(p.size, weightSum);
        var advance: nat := p.size / weightSum;
        virtualTime := virtualTime + advance;
        firstQueue := firstQueue[1..];
        bytesInFirstQueue := bytesInFirstQueue - p.size;
        finishTimes := finishTimes - {p.uid};
        r := Some(p);
      case Some(Second) =>
        var p := secondQueue[0];
        var weightSum := WeightSum();
        DivisorMonotone(p.size, secondWeight, weightSum);
        InvariantSymmetric(firstQueue, bytesInFirstQueue, secondQueue, bytesInSecondQueue,
                           finishTimes, firstWeight, secondWeight);
        RemoveHeadPreservesInvariant(secondQueue, bytesInSecondQueue, firstQueue, bytesInFirstQueue,
                                     finishTimes, secondWeight, firstWeight);
        InvariantSymmetric(secondQueue[1..], bytesInSecondQueue - p.size, firstQueue, bytesInFirstQueue,
                           finishTimes - {p.uid}, secondWeight, firstWeight);
        DivisionAtMost(p.size, weightSum);
        var advance: nat := p.size / weightSum;
        virtualTime := virtualTime + advance;
        secondQueue := secondQueue[1..];
        bytesInSecondQueue := bytesInSecondQueue - p.size;
        finishTimes := finishTimes - {p.uid};
        r := Some(p);
    }
  }

  /**
    A small scenario, verified from the contracts alone, on weights 1 and 1, packet limits of 2 and second-queue port
    3000: the smaller finish time is served first and the virtual clock
    advances by the served size over the weight sum of both busy queues.
   */
  method ExampleSmallerFinishFirst() {
    var wfq := new WeightedFairQueue(QueueModePackets, 2, 2, 0, 0, 3000, 1, 1);
    var a := Packet(1, 100, TcpProtocol, 80);
    var b := Packet(2, 200, UdpProtocol, 3000);
    var ok := wfq.Enqueue(a);
    assert ok && wfq.firstQueue == [a] && wfq.finishTimes[a.uid] == 100;
    ok := wfq.Enqueue(b);
    assert ok && wfq.secondQueue == [b] && wfq.finishTimes[b.uid] == 200;
    assert wfq.firstQueue == [a] && wfq.WeightSum() == 2;
    var next := wfq.Peek();
    assert next == Some(a);
    var served := wfq.Dequeue();
    assert served == Some(a) && wfq.virtualTime == 50;
  }

  /** The same configuration: a third packet for a full queue is dropped. */
  method ExampleDrop() {
    var wfq := new WeightedFairQueue(QueueModePackets, 2, 2, 0, 0, 3000, 1, 1);
    var p1, p2 := Packet(1, 100, TcpProtocol, 80), Packet(2, 100, TcpProtocol, 80);
    var ok := wfq.Enqueue(p1);
    assert ok && wfq.firstQueue == [p1];
    ok := wfq.Enqueue(p2);
    assert ok && wfq.firstQueue == [p1, p2];
    ok := wfq.Enqueue(Packet(3, 10, TcpProtocol, 80));
    assert !ok && wfq.firstQueue == [p1, p2] && wfq.secondQueue == [];
  }

  /** The same configuration: on equal finish times the second queue's head is served. */
  method ExampleTie() {
    var wfq := new WeightedFairQueue(QueueModePackets, 2, 2, 0, 0, 3000, 1, 1);
    var p1, p2 := Packet(1, 100, TcpProtocol, 80), Packet(2, 100, UdpProtocol, 3000);
    var ok := wfq.Enqueue(p1);
    assert ok && wfq.firstQueue == [p1] && wfq.finishTimes[1] == 100;
    ok := wfq.Enqueue(p2);
    assert ok && wfq.secondQueue == [p2] && wfq.finishTimes[2] == 100;
    var served := wfq.Dequeue();
    assert served == Some(p2);
  }
}
