/** The queues between the parts of the executor (MacrotaskQueue). */
module Queues {
  import opened Sequences
  import opened Tasks

  class MacrotaskQueue {
    const c: Config
    /** A heap by the schedule method. */
    var waitingQueue: seq<WMT>
    var execNextQueue: seq<EMT>
    /** A heap by finish time. */
    var executingQueueSimulator: seq<Running>

    ghost predicate Valid()
      reads this
    {
      && HeapBy(WaitingOrder(c), waitingQueue)
      && HeapBy(ExecutingOrder(c), executingQueueSimulator)
    }

    constructor (c: Config)
      ensures Valid() && this.c == c
      ensures waitingQueue == [] && execNextQueue == [] && executingQueueSimulator == []
    {
      this.c := c;
      waitingQueue, execNextQueue, executingQueueSimulator := [], [], [];
    }

    method Clear()
      modifies this
      ensures Valid()
      ensures waitingQueue == [] && execNextQueue == [] && executingQueueSimulator == []
    {
      waitingQueue, execNextQueue, executingQueueSimulator := [], [], [];
    }

    function Size(): nat
      reads this
    {
      |waitingQueue| + |execNextQueue| + |executingQueueSimulator|
    }

    method WaitingQueueEmplace(w: WMT)
      requires Valid()
      modifies `waitingQueue
      ensures Valid() && multiset(waitingQueue) == old(multiset(waitingQueue)) + multiset{w}
    {
      OrdersAreStrictWeak(c);
      waitingQueue := Heapify(WaitingOrder(c), waitingQueue + [w]);
    }

    /** The top of the heap: nobody is to be taken out earlier. */
    method WaitingQueueTop() returns (w: WMT)
      requires Valid() && waitingQueue != []
      ensures w == waitingQueue[0]
      ensures forall x :: x in multiset(waitingQueue) ==> !After(c, w, x)
    {
      w := waitingQueue[0];
      forall x | x in multiset(waitingQueue) ensures !After(c, w, x) {
        var i :| 0 <= i < |waitingQueue| && waitingQueue[i] == x;
        assert !WaitingOrder(c)(waitingQueue[i], waitingQueue[0]);
      }
    }

    method WaitingQueuePopFront()
      requires Valid() && waitingQueue != []
      modifies `waitingQueue
      ensures Valid() && multiset(waitingQueue) == old(multiset(waitingQueue)) - multiset{old(waitingQueue[0])}
      ensures |waitingQueue| == old(|waitingQueue|) - 1
    {
      OrdersAreStrictWeak(c);
      var rest := RemoveAt(waitingQueue, 0);
      waitingQueue := Heapify(WaitingOrder(c), rest);
      assert |multiset(waitingQueue)| == |multiset(rest)|;
    }

    method ExecNextQueueEmplace(w: WMT, numThreads: nat)
      modifies `execNextQueue
      ensures execNextQueue == old(execNextQueue) + [EMT(w, numThreads)]
    {
      execNextQueue := execNextQueue + [EMT(w, numThreads)];
    }

    method ExecNextQueuePopFrontMove() returns (e: EMT)
      requires execNextQueue != []
      modifies `execNextQueue
      ensures e == old(execNextQueue[0]) && execNextQueue == old(execNextQueue[1..])
    {
      e := execNextQueue[0];
      execNextQueue := execNextQueue[1..];
    }

    method ExecutingQueueSimulatorEmplace(r: Running)
      requires Valid()
      modifies `executingQueueSimulator
      ensures Valid() && multiset(executingQueueSimulator) == old(multiset(executingQueueSimulator)) + multiset{r}
    {
      OrdersAreStrictWeak(c);
      executingQueueSimulator := Heapify(ExecutingOrder(c), executingQueueSimulator + [r]);
    }

    /** Takes out exactly those that are finished by now, earliest first. */
    method ExecutingQueueSimulatorFinishedEmt(currentTime: nat) returns (result: seq<Running>)
      requires Valid()
      modifies `executingQueueSimulator
      ensures Valid()
      ensures multiset(executingQueueSimulator) + multiset(result) == old(multiset(executingQueueSimulator))
      ensures forall r :: r in multiset(result) ==> r.finishTime <= currentTime
      ensures forall r :: r in multiset(executingQueueSimulator) ==> r.finishTime > currentTime
      ensures SortedBy(ExecutingOrder(c), result)
    {
      OrdersAreStrictWeak(c);
      result := [];
      while |executingQueueSimulator| > 0 && executingQueueSimulator[0].finishTime <= currentTime
        invariant Valid()
        invariant Drained(c, currentTime, old(executingQueueSimulator), executingQueueSimulator, result)
        decreases |executingQueueSimulator|
      {
        var rest := RemoveAt(executingQueueSimulator, 0);
        var heap := Heapify(ExecutingOrder(c), rest);
        DrainStep(c, currentTime, old(executingQueueSimulator), executingQueueSimulator, heap, result);
        result := result + [executingQueueSimulator[0]];
        executingQueueSimulator := heap;
      }
      TopFinishesFirst(c, executingQueueSimulator);
    }
  }

  /** Part of the heap `h0` has been moved to `result`, the earliest first. */
  ghost predicate Drained(c: Config, currentTime: nat, h0: seq<Running>, h: seq<Running>, result: seq<Running>) {
    && multiset(h) + multiset(result) == multiset(h0)
    && (forall r :: r in multiset(result) ==> r.finishTime <= currentTime)
    && SortedBy(ExecutingOrder(c), result)
    && (forall i, r :: 0 <= i < |result| && r in multiset(h) ==> !RunsBefore(c, r, result[i]))
  }

  lemma DrainStep(c: Config, currentTime: nat, h0: seq<Running>, h: seq<Running>, heap: seq<Running>,
                  result: seq<Running>)
    requires HeapBy(ExecutingOrder(c), h) && h != [] && h[0].finishTime <= currentTime
    requires multiset(heap) == multiset(h) - multiset{h[0]}
    requires Drained(c, currentTime, h0, h, result)
    ensures Drained(c, currentTime, h0, heap, result + [h[0]])
    ensures |heap| < |h|
  {
    assert |multiset(heap)| == |multiset(h)| - 1;
    var after := result + [h[0]];
    assert h[0] in multiset(h);
    forall i, r | 0 <= i < |after| && r in multiset(heap) ensures !RunsBefore(c, r, after[i]) {
      if i == |result| {
        var k :| 0 <= k < |h| && h[k] == r;
        assert !ExecutingOrder(c)(h[k], h[0]);
      }
    }
  }

  lemma TopFinishesFirst(c: Config, h: seq<Running>)
    requires HeapBy(ExecutingOrder(c), h)
    ensures forall r :: r in multiset(h) ==> r.finishTime >= h[0].finishTime
  {
    forall r | r in multiset(h) ensures r.finishTime >= h[0].finishTime {
      var i :| 0 <= i < |h| && h[i] == r;
      assert !ExecutingOrder(c)(h[i], h[0]);
    }
  }
}
