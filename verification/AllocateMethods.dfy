/** The allocate methods: which waiting macrotasks are executed next, and on how
    many threads each. */
module AllocateMethods {
  import opened Sequences
  import opened ExecTimeInfo
  import opened Tasks
  import opened Thresholds
  import opened Search
  import opened Queues

  function NumThreads(e: EMT): nat { e.numThreads }

  function Wmts(s: seq<EMT>): (r: seq<WMT>)
    ensures |r| == |s| && forall i :: 0 <= i < |r| ==> r[i] == s[i].wmt
  {
    if s == [] then [] else Wmts(s[..|s| - 1]) + [s[|s| - 1].wmt]
  }

  /** A macrotask that can be executed on one thread, at least. */
  ghost predicate Executable(c: Config, w: WMT) {
    Known(c, w) && |InfoOf(c, w).execTime| > 1
  }

  /** Between one thread and the width of the macrotask's table. */
  ghost predicate ValidThreads(c: Config, e: EMT) {
    Known(c, e.wmt) && 1 <= e.numThreads < |InfoOf(c, e.wmt).execTime|
  }

  /** Nobody comes before one who is to be taken out earlier. */
  ghost predicate InOrder(c: Config, s: seq<WMT>) {
    forall i, k :: 0 <= i < k < |s| ==> !After(c, s[i], s[k])
  }

  /** From the queue `before` the macrotasks `given` got threads, `after` are left:
      nobody is lost, the free threads suffice, no one is passed over, and those served
      are in the order of the schedule. */
  ghost predicate Granted(c: Config, before: seq<WMT>, after: seq<WMT>, given: seq<EMT>, available: nat) {
    && multiset(before) == multiset(after) + multiset(Wmts(given))
    && Total(NumThreads, multiset(given)) <= available
    && (forall e :: e in multiset(given) ==> ValidThreads(c, e))
    && (forall e, w :: e in multiset(given) && w in multiset(after) ==> !After(c, e.wmt, w))
    && InOrder(c, Wmts(given))
  }

  ghost predicate OneEach(given: seq<EMT>) {
    forall e :: e in multiset(given) ==> e.numThreads == 1
  }

  function Min(a: nat, b: nat): nat { if a <= b then a else b }

  lemma GrantNone(c: Config, before: seq<WMT>, available: nat)
    ensures Granted(c, before, before, [], available)
  {
    assert multiset(Wmts([])) == multiset{};
  }

  ghost predicate AllExecutable(c: Config, q: seq<WMT>) {
    forall w :: w in multiset(q) ==> Executable(c, w)
  }

  lemma TopFirst(c: Config, waiting: seq<WMT>, after: seq<WMT>)
    requires HeapBy(WaitingOrder(c), waiting) && waiting != []
    requires multiset(after) == multiset(waiting) - multiset{waiting[0]}
    ensures forall x :: x in multiset(after) ==> !After(c, waiting[0], x)
  {
    forall x | x in multiset(after) ensures !After(c, waiting[0], x) {
      assert x in multiset(waiting);
      var i :| 0 <= i < |waiting| && waiting[i] == x;
      assert !WaitingOrder(c)(waiting[i], waiting[0]);
    }
  }

  lemma AppendAssociates(a: seq<EMT>, b: seq<EMT>, e: EMT)
    ensures (a + b) + [e] == a + (b + [e])
  {
  }

  lemma WmtsAppend(given: seq<EMT>, e: EMT)
    ensures Wmts(given + [e]) == Wmts(given) + [e.wmt]
  {
    assert (given + [e])[..|given|] == given;
  }

  lemma MoveOne<T>(all: multiset<T>, waiting: multiset<T>, served: multiset<T>, x: T)
    requires all == waiting + served && x in waiting
    ensures all == (waiting - multiset{x}) + (served + multiset{x})
  {
  }

  /** The head of the queue comes before whatever is behind it. */
  lemma OrderKept(c: Config, waiting: seq<WMT>, after: seq<WMT>, given: seq<EMT>, e: EMT)
    requires HeapBy(WaitingOrder(c), waiting) && waiting != [] && e.wmt == waiting[0]
    requires multiset(after) == multiset(waiting) - multiset{waiting[0]}
    requires forall x, w :: x in multiset(given) && w in multiset(waiting) ==> !After(c, x.wmt, w)
    ensures forall x, w :: x in multiset(given + [e]) && w in multiset(after) ==> !After(c, x.wmt, w)
  {
    hide After;
    TopFirst(c, waiting, after);
    forall x, w | x in multiset(given + [e]) && w in multiset(after) ensures !After(c, x.wmt, w) {
      assert w in multiset(waiting);
    }
  }

  lemma AppendInOrder(c: Config, waiting: seq<WMT>, given: seq<EMT>, e: EMT)
    requires InOrder(c, Wmts(given)) && e.wmt in multiset(waiting)
    requires forall x, w :: x in multiset(given) && w in multiset(waiting) ==> !After(c, x.wmt, w)
    ensures InOrder(c, Wmts(given + [e]))
  {
    hide After;
    WmtsAppend(given, e);
    var s := Wmts(given + [e]);
    forall i, k | 0 <= i < k < |s| ensures !After(c, s[i], s[k]) {
      if k == |given| { assert given[i] in multiset(given); }
    }
  }

  /** The head of the queue is granted `n` threads. */
  lemma GrantOne(c: Config, before: seq<WMT>, waiting: seq<WMT>, after: seq<WMT>, given: seq<EMT>, n: nat,
                 available: nat)
    requires Granted(c, before, waiting, given, available)
    requires HeapBy(WaitingOrder(c), waiting) && waiting != []
    requires multiset(after) == multiset(waiting) - multiset{waiting[0]}
    requires ValidThreads(c, EMT(waiting[0], n)) && Total(NumThreads, multiset(given)) + n <= available
    ensures Granted(c, before, after, given + [EMT(waiting[0], n)], available)
    ensures Total(NumThreads, multiset(given + [EMT(waiting[0], n)])) == Total(NumThreads, multiset(given)) + n
  {
    hide After, ValidThreads, HeapBy, Wmts, Total, InOrder;
    var e := EMT(waiting[0], n);
    AppendInOrder(c, waiting, given, e);
    TotalAppend(NumThreads, given, e);
    WmtsAppend(given, e);
    OrderKept(c, waiting, after, given, e);
    MoveOne(multiset(before), multiset(waiting), multiset(Wmts(given)), waiting[0]);
  }

  lemma StillExecutable(c: Config, before: seq<WMT>, waiting: seq<WMT>, given: seq<EMT>, available: nat)
    requires Granted(c, before, waiting, given, available) && AllExecutable(c, before)
    ensures AllExecutable(c, waiting)
  {
  }

  /** Some macrotasks have got one thread each. */
  ghost predicate GrantedOnes(c: Config, before: seq<WMT>, after: seq<WMT>, given: seq<EMT>, available: nat) {
    && Granted(c, before, after, given, available)
    && Total(NumThreads, multiset(given)) == |given|
    && OneEach(given)
  }

  lemma GrantNoOnes(c: Config, before: seq<WMT>, available: nat)
    ensures GrantedOnes(c, before, before, [], available)
  {
    GrantNone(c, before, available);
  }

  lemma OnesAreEnough(c: Config, before: seq<WMT>, after: seq<WMT>, given: seq<EMT>, available: nat)
    requires GrantedOnes(c, before, after, given, available)
    ensures |given| <= available && |after| + |given| == |before|
  {
    assert |multiset(after)| + |multiset(Wmts(given))| == |multiset(before)|;
  }

  lemma GrantOneThread(c: Config, before: seq<WMT>, waiting: seq<WMT>, after: seq<WMT>, given: seq<EMT>, available: nat)
    requires AllExecutable(c, before) && GrantedOnes(c, before, waiting, given, available) && |given| < available
    requires HeapBy(WaitingOrder(c), waiting) && waiting != []
    requires multiset(after) == multiset(waiting) - multiset{waiting[0]}
    ensures GrantedOnes(c, before, after, given + [EMT(waiting[0], 1)], available)
  {
    StillExecutable(c, before, waiting, given, available);
    assert waiting[0] in multiset(waiting);
    GrantOne(c, before, waiting, after, given, 1, available);
  }

  /** Gives one thread to each of the first `n` macrotasks. */
  method GiveOneEach(mq: MacrotaskQueue, n: nat, ghost available: nat) returns (ghost given: seq<EMT>)
    requires mq.Valid() && n <= |mq.waitingQueue| && n <= available
    requires AllExecutable(mq.c, mq.waitingQueue)
    modifies mq`waitingQueue, mq`execNextQueue
    ensures mq.Valid() && mq.execNextQueue == old(mq.execNextQueue) + given
    ensures GrantedOnes(mq.c, old(mq.waitingQueue), mq.waitingQueue, given, available)
    ensures |given| == n
  {
    hide After, Executable, ValidThreads, Granted, GrantedOnes, HeapBy, Total;
    given := [];
    GrantNoOnes(mq.c, mq.waitingQueue, available);
    for i := 0 to n
      invariant mq.Valid() && mq.execNextQueue == old(mq.execNextQueue) + given
      invariant GrantedOnes(mq.c, old(mq.waitingQueue), mq.waitingQueue, given, available)
      invariant |given| == i && |mq.waitingQueue| == old(|mq.waitingQueue|) - i
    {
      ghost var waiting := mq.waitingQueue;
      var x := mq.WaitingQueueTop();
      mq.ExecNextQueueEmplace(x, 1);
      mq.WaitingQueuePopFront();
      GrantOneThread(mq.c, old(mq.waitingQueue), waiting, mq.waitingQueue, given, available);
      AppendAssociates(old(mq.execNextQueue), given, EMT(x, 1));
      given := given + [EMT(x, 1)];
    }
  }

  /** allocate_method/single.cpp */
  method Single(mq: MacrotaskQueue, maxThreads: nat, current: nat) returns (ghost given: seq<EMT>)
    requires mq.Valid() && current <= maxThreads
    requires AllExecutable(mq.c, mq.waitingQueue)
    modifies mq`waitingQueue, mq`execNextQueue
    ensures mq.Valid() && mq.execNextQueue == old(mq.execNextQueue) + given
    ensures GrantedOnes(mq.c, old(mq.waitingQueue), mq.waitingQueue, given, maxThreads - current)
    ensures |given| == Min(old(|mq.waitingQueue|), maxThreads - current)
  {
    var l := |mq.waitingQueue|;
    var available := maxThreads - current;
    l := if l <= available then l else available;
    given := GiveOneEach(mq, l, available);
  }

  /** allocate_method/minimum.cpp: a check per macrotask, the same outcome. */
  method Minimum(mq: MacrotaskQueue, maxThreads: nat, current: nat) returns (ghost given: seq<EMT>)
    requires mq.Valid() && current <= maxThreads
    requires AllExecutable(mq.c, mq.waitingQueue)
    modifies mq`waitingQueue, mq`execNextQueue
    ensures mq.Valid() && mq.execNextQueue == old(mq.execNextQueue) + given
    ensures GrantedOnes(mq.c, old(mq.waitingQueue), mq.waitingQueue, given, maxThreads - current)
    ensures |given| == Min(old(|mq.waitingQueue|), maxThreads - current)
  {
    hide After, Executable, ValidThreads, Granted, GrantedOnes, HeapBy, Total;
    var l := |mq.waitingQueue|;
    var tmp := current;
    ghost var available := maxThreads - current;
    given := [];
    GrantNoOnes(mq.c, mq.waitingQueue, available);
    var i := 0;
    while i < l
      invariant 0 <= i <= l
      invariant mq.Valid() && mq.execNextQueue == old(mq.execNextQueue) + given
      invariant GrantedOnes(mq.c, old(mq.waitingQueue), mq.waitingQueue, given, available)
      invariant |given| == i && |mq.waitingQueue| == l - i && tmp == current + i
    {
      ghost var waiting := mq.waitingQueue;
      var x := mq.WaitingQueueTop();
      tmp := tmp + 1;
      if !(tmp <= maxThreads) {
        break;
      }
      mq.ExecNextQueueEmplace(x, 1);
      mq.WaitingQueuePopFront();
      GrantOneThread(mq.c, old(mq.waitingQueue), waiting, mq.waitingQueue, given, available);
      AppendAssociates(old(mq.execNextQueue), given, EMT(x, 1));
      given := given + [EMT(x, 1)];
      i := i + 1;
    }
    OnesAreEnough(mq.c, old(mq.waitingQueue), mq.waitingQueue, given, available);
  }

  /** The widest allocation of a macrotask. */
  function Width(c: Config, w: WMT): int
    requires Known(c, w)
  {
    |InfoOf(c, w).execTime| - 1
  }

  /** Some macrotasks have got their full width each; `available` threads are left. */
  ghost predicate GrantedWide(c: Config, before: seq<WMT>, after: seq<WMT>, given: seq<EMT>, free: nat,
                              available: nat) {
    && Granted(c, before, after, given, free)
    && available + Total(NumThreads, multiset(given)) == free
    && (forall e :: e in multiset(given) ==> Known(c, e.wmt) && e.numThreads == Width(c, e.wmt))
    && (given == [] ==> after == before)
  }

  lemma WideNone(c: Config, before: seq<WMT>, free: nat)
    ensures GrantedWide(c, before, before, [], free, free)
  {
    GrantNone(c, before, free);
  }

  lemma HeadExecutable(c: Config, before: seq<WMT>, waiting: seq<WMT>, given: seq<EMT>, free: nat, available: nat)
    requires AllExecutable(c, before) && GrantedWide(c, before, waiting, given, free, available) && waiting != []
    ensures Executable(c, waiting[0])
  {
    assert waiting[0] in multiset(waiting);
  }

  lemma GrantWide(c: Config, before: seq<WMT>, waiting: seq<WMT>, after: seq<WMT>, given: seq<EMT>, n: nat, free: nat,
                  available: nat)
    requires GrantedWide(c, before, waiting, given, free, available + n)
    requires HeapBy(WaitingOrder(c), waiting) && waiting != []
    requires multiset(after) == multiset(waiting) - multiset{waiting[0]}
    requires Executable(c, waiting[0]) && n == Width(c, waiting[0])
    ensures GrantedWide(c, before, after, given + [EMT(waiting[0], n)], free, available)
  {
    GrantOne(c, before, waiting, after, given, n, free);
  }

  /** allocate_method/max_parallel.cpp: everybody gets the full width, and the
      first who does not fit stops all behind. */
  method MaxParallel(mq: MacrotaskQueue, maxThreads: nat, current: nat) returns (ghost given: seq<EMT>, ghost left: nat)
    requires mq.Valid() && current <= maxThreads
    requires AllExecutable(mq.c, mq.waitingQueue)
    modifies mq`waitingQueue, mq`execNextQueue
    ensures mq.Valid() && mq.execNextQueue == old(mq.execNextQueue) + given
    ensures GrantedWide(mq.c, old(mq.waitingQueue), mq.waitingQueue, given, maxThreads - current, left)
    ensures mq.waitingQueue != [] ==> Known(mq.c, mq.waitingQueue[0]) && Width(mq.c, mq.waitingQueue[0]) > left
    ensures given != [] ==> old(mq.waitingQueue) != [] && given[0].wmt == old(mq.waitingQueue)[0]
  {
    hide After, Executable, ValidThreads, Granted, HeapBy, Total;
    var l := |mq.waitingQueue|;
    var available := maxThreads - current;
    ghost var free: nat := available;
    given := [];
    WideNone(mq.c, mq.waitingQueue, free);
    var i := 0;
    while i < l
      invariant 0 <= i <= l == i + |mq.waitingQueue| && 0 <= available
      invariant mq.Valid() && mq.execNextQueue == old(mq.execNextQueue) + given
      invariant GrantedWide(mq.c, old(mq.waitingQueue), mq.waitingQueue, given, free, available)
      invariant given != [] ==> old(mq.waitingQueue) != [] && given[0].wmt == old(mq.waitingQueue)[0]
    {
      ghost var waiting := mq.waitingQueue;
      HeadExecutable(mq.c, old(mq.waitingQueue), waiting, given, free, available);
      var x := mq.WaitingQueueTop();
      var nt := |InfoOf(mq.c, x).execTime| - 1;
      if available < nt {
        break;
      }
      available := available - nt;
      mq.ExecNextQueueEmplace(x, nt);
      mq.WaitingQueuePopFront();
      GrantWide(mq.c, old(mq.waitingQueue), waiting, mq.waitingQueue, given, nt, free, available);
      AppendAssociates(old(mq.execNextQueue), given, EMT(x, nt));
      given := given + [EMT(x, nt)];
      i := i + 1;
    }
    left := available;
  }

  /** Everybody in the queue gets what the threshold `e` grants. */
  ghost predicate AllChosen(c: Config, q: seq<WMT>, given: seq<EMT>, e: real)
    requires AllGrouped(c, q)
  {
    && Wmts(given) == q
    && forall i :: 0 <= i < |q| ==> given[i].numThreads == ChosenFor(c, q[i], e)
  }

  ghost predicate CandidatesInTable(c: Config, w: WMT)
    requires Known(c, w)
  {
    forall x :: x in InfoOf(c, w).candidates ==> 1 <= x.1 < |InfoOf(c, w).execTime|
  }

  /** What bits2020 can read. */
  ghost predicate Resizable(c: Config, w: WMT) {
    Executable(c, w) && Grouped(c, w) && CandidatesInTable(c, w)
  }

  ghost predicate AllResizable(c: Config, q: seq<WMT>) {
    forall w :: w in multiset(q) ==> Resizable(c, w)
  }

  /** The whole queue is served: at the best of its thresholds, or with one thread
      each where there are no two of them. */
  ghost predicate SharedOut(c: Config, queue: seq<WMT>, t: seq<real>, available: nat, given: seq<EMT>) {
    && AllGrouped(c, queue)
    && ThresholdsOf(c, queue, t)
    && Wmts(given) == queue
    && (|t| <= 1 ==> OneEach(given))
    && (|t| > 1 ==> exists l: nat :: Best(c, queue, t, available, l) && AllChosen(c, queue, given, t[l]))
  }

  /** What bits2020 has handed out, and on what grounds; Failed where it looks up the
      end of a table or an assert does not hold. */
  datatype Bits2020Grant =
    | Scarce(given: seq<EMT>)
    | Ample(queue: seq<WMT>, thresholds: seq<real>, given: seq<EMT>)
    | Failed(queue: seq<WMT>, thresholds: seq<real>)

  /** allocate_method/bits2020.cpp: one thread each while threads are scarce, the
      best common efficiency threshold for the whole queue otherwise. */
  method Bits2020(mq: MacrotaskQueue, maxThreads: nat, current: nat) returns (ghost g: Bits2020Grant)
    requires mq.Valid() && current <= maxThreads
    requires AllResizable(mq.c, mq.waitingQueue)
    modifies mq`waitingQueue, mq`execNextQueue
    ensures g.Scarce? <==> maxThreads - current <= old(|mq.waitingQueue|)
    ensures !g.Scarce? ==> multiset(g.queue) == old(multiset(mq.waitingQueue)) && mq.waitingQueue == []
    ensures !g.Scarce? ==> AllGrouped(mq.c, g.queue) && ThresholdsOf(mq.c, g.queue, g.thresholds)
    ensures !g.Scarce? ==> (g.Ample? <==> Sound(TotalsAt(mq.c, g.queue, g.thresholds), maxThreads - current))
    ensures g.Scarce? ==> OneEach(g.given) && |g.given| == maxThreads - current
    ensures g.Ample? ==> SharedOut(mq.c, g.queue, g.thresholds, maxThreads - current, g.given)
    ensures mq.Valid() && (!g.Failed? ==> mq.execNextQueue == old(mq.execNextQueue) + g.given)
    ensures !g.Failed? ==> Granted(mq.c, old(mq.waitingQueue), mq.waitingQueue, g.given, maxThreads - current)
  {
    hide After, ValidThreads, Granted, HeapBy, Total, AllResizable, SharedOut, Sound, ThresholdsOf, Grouped, InOrder;
    AllExecutableFrom(mq.c, mq.waitingQueue);
    var numWaiting := |mq.waitingQueue|;
    var available := maxThreads - current;
    if available <= numWaiting {
      ghost var given := GiveOneEach(mq, available, available);
      g := Scarce(given);
      return;
    }
    ghost var before := mq.waitingQueue;
    var queue := DrainWaiting(mq);
    g := ServeQueue(mq, queue, before, available);
  }

  lemma AllExecutableFrom(c: Config, q: seq<WMT>)
    requires AllResizable(c, q)
    ensures AllExecutable(c, q)
  {
  }

  /** Histogram, thresholds, binary search and hand-out. */
  method ServeQueue(mq: MacrotaskQueue, queue: seq<WMT>, ghost before: seq<WMT>, available: nat)
    returns (ghost g: Bits2020Grant)
    requires mq.Valid() && AllGrouped(mq.c, queue) && AllResizable(mq.c, queue)
    requires |before| < available && multiset(queue) == multiset(before) && mq.waitingQueue == []
    requires InOrder(mq.c, queue)
    modifies mq`execNextQueue
    ensures !g.Scarce? && g.queue == queue && ThresholdsOf(mq.c, queue, g.thresholds)
    ensures g.Ample? <==> Sound(TotalsAt(mq.c, queue, g.thresholds), available)
    ensures g.Ample? ==> SharedOut(mq.c, queue, g.thresholds, available, g.given)
    ensures g.Ample? ==> mq.execNextQueue == old(mq.execNextQueue) + g.given
    ensures g.Ample? ==> Granted(mq.c, before, [], g.given, available)
    ensures mq.Valid()
  {
    hide After, ValidThreads, Granted, HeapBy, Total, AllResizable, Grouped, TotalThreads, Occurs, EndOf, InOrder;
    var info0, priorities := Collect(mq.c, queue);
    var ok, info, total := SearchThreshold(mq.c, queue, info0, priorities, available);
    if !ok || total > available {
      return Failed(queue, priorities);
    }
    ghost var given := Allot(mq, queue, info);
    g := Ample(queue, priorities, given);
    if |priorities| <= 1 {
      OnesFit(mq.c, queue, given, info, available, before);
    } else {
      SoundIsBest(mq.c, queue, priorities, available);
      ghost var l := EndOf(TotalsAt(mq.c, queue, priorities), available, 0, |priorities|);
      AllottedIsChosen(mq.c, queue, given, info, priorities[l]);
      ChosenFits(mq.c, queue, given, priorities, available, l, before);
    }
  }

  /** Empties the waiting heap in its order. */
  method DrainWaiting(mq: MacrotaskQueue) returns (queue: seq<WMT>)
    requires mq.Valid() && AllResizable(mq.c, mq.waitingQueue)
    modifies mq`waitingQueue
    ensures mq.waitingQueue == [] && multiset(queue) == old(multiset(mq.waitingQueue))
    ensures AllGrouped(mq.c, queue) && AllResizable(mq.c, queue) && mq.Valid()
    ensures InOrder(mq.c, queue)
  {
    hide After;
    queue := [];
    var n := |mq.waitingQueue|;
    for i := 0 to n
      invariant mq.Valid() && |mq.waitingQueue| == n - i
      invariant multiset(queue) + multiset(mq.waitingQueue) == old(multiset(mq.waitingQueue))
      invariant InOrder(mq.c, queue)
      invariant forall k, w :: 0 <= k < |queue| && w in multiset(mq.waitingQueue) ==> !After(mq.c, queue[k], w)
    {
      var x := mq.WaitingQueueTop();
      assert x in multiset(mq.waitingQueue);
      queue := queue + [x];
      mq.WaitingQueuePopFront();
    }
    forall i | 0 <= i < |queue| ensures Resizable(mq.c, queue[i]) {
      assert queue[i] in multiset(queue);
    }
  }

  /** Every macrotask has the threads noted for its group. */
  ghost predicate Allotted(c: Config, queue: seq<WMT>, given: seq<EMT>, info: MacrotaskInfo)
    requires AllGrouped(c, queue)
  {
    && Wmts(given) == queue
    && forall i :: 0 <= i < |queue| ==>
         GroupOf(c, queue[i]) in info && given[i].numThreads == info[GroupOf(c, queue[i])].1
  }

  /** Hands every macrotask the threads noted for its group. */
  method Allot(mq: MacrotaskQueue, queue: seq<WMT>, info: MacrotaskInfo) returns (ghost given: seq<EMT>)
    requires AllGrouped(mq.c, queue) && forall i :: 0 <= i < |queue| ==> GroupOf(mq.c, queue[i]) in info
    requires mq.Valid()
    modifies mq`execNextQueue
    ensures mq.Valid() && mq.execNextQueue == old(mq.execNextQueue) + given
    ensures Allotted(mq.c, queue, given, info)
  {
    hide Grouped;
    given := [];
    for i := 0 to |queue|
      invariant mq.Valid() && |given| == i && mq.execNextQueue == old(mq.execNextQueue) + given
      invariant forall k :: 0 <= k < i ==>
                given[k].wmt == queue[k] && given[k].numThreads == info[GroupOf(mq.c, queue[k])].1
    {
      var n := info[GroupOf(mq.c, queue[i])].1;
      mq.ExecNextQueueEmplace(queue[i], n);
      AppendAssociates(old(mq.execNextQueue), given, EMT(queue[i], n));
      given := given + [EMT(queue[i], n)];
    }
    assert Wmts(given) == queue;
  }

  lemma AllottedIsChosen(c: Config, queue: seq<WMT>, given: seq<EMT>, info: MacrotaskInfo, e: real)
    requires AllGrouped(c, queue) && Allotted(c, queue, given, info) && ChosenAt(c, info, e)
    ensures AllChosen(c, queue, given, e)
  {
    forall i | 0 <= i < |queue| ensures given[i].numThreads == ChosenFor(c, queue[i], e) {
      TableOfGroup(c, queue[i]);
    }
  }

  /** One thread for everybody is a proper grant. */
  lemma OnesFit(c: Config, queue: seq<WMT>, given: seq<EMT>, info: MacrotaskInfo, available: nat, before: seq<WMT>)
    requires AllGrouped(c, queue) && AllResizable(c, queue) && multiset(before) == multiset(queue)
    requires Allotted(c, queue, given, info) && OnesIn(info) && |before| <= available && InOrder(c, queue)
    ensures Granted(c, before, [], given, available) && OneEach(given)
  {
    forall e | e in multiset(given) ensures ValidThreads(c, e) && e.numThreads == 1 {
      var i :| 0 <= i < |given| && given[i] == e;
      assert Wmts(given)[i] == queue[i];
      assert queue[i] in multiset(queue);
    }
    TotalOfOnes(given);
    assert |multiset(before)| == |multiset(queue)|;
  }

  lemma {:induction false} TotalOfOnes(given: seq<EMT>)
    requires OneEach(given)
    ensures Total(NumThreads, multiset(given)) == |given|
  {
    if given == [] {
      assert multiset(given) == multiset{};
    } else {
      var k := |given| - 1;
      assert given == given[..k] + [given[k]];
      TotalOfOnes(given[..k]);
      TotalAppend(NumThreads, given[..k], given[k]);
    }
  }

  /** The choices at the best threshold are a proper grant. */
  lemma ChosenFits(c: Config, queue: seq<WMT>, given: seq<EMT>, t: seq<real>, available: nat, l: nat, before: seq<WMT>)
    requires AllGrouped(c, queue) && AllResizable(c, queue) && multiset(before) == multiset(queue)
    requires Best(c, queue, t, available, l) && AllChosen(c, queue, given, t[l]) && InOrder(c, queue)
    ensures Granted(c, before, [], given, available)
  {
    TotalOfChosen(c, queue, given, t[l]);
    forall e | e in multiset(given) ensures ValidThreads(c, e) {
      var i :| 0 <= i < |given| && given[i] == e;
      assert Wmts(given)[i] == queue[i];
      assert queue[i] in multiset(queue);
      var s := CandidatesFor(c, queue[i]);
      assert s[LowerBound(s, t[l])] in s;
    }
  }

  lemma {:induction false} TotalOfChosen(c: Config, queue: seq<WMT>, given: seq<EMT>, e: real)
    requires AllGrouped(c, queue) && AllChosen(c, queue, given, e)
    ensures Total(NumThreads, multiset(given)) == TotalThreads(c, queue, e)
  {
    if queue != [] {
      var k := |queue| - 1;
      assert given == given[..k] + [given[k]];
      assert Wmts(given[..k]) == queue[..k];
      TotalOfChosen(c, queue[..k], given[..k], e);
      TotalAdd(NumThreads, multiset(given[..k]), given[k]);
    }
  }

  /** Each macrotask of the queue is given what the allocate method of the
      configuration gives. */
  ghost predicate AsConfigured(c: Config, before: seq<WMT>, after: seq<WMT>, given: seq<EMT>, free: nat) {
    match c.allocation
    case Single => OneEach(given) && |given| == Min(|before|, free)
    case Minimum => OneEach(given) && |given| == Min(|before|, free)
    case MaxParallel => AllWide(c, before, after, given, free)
    case Bits2020 => Shared(c, before, after, given, free)
  }

  /** A thread count that the allocate method may hand out to a macrotask. */
  ghost predicate Allots(a: Allocation, info: Info, n: nat) {
    && 1 <= n < |info.execTime|
    && match a
       case Single => n == 1
       case Minimum => n == 1
       case MaxParallel => n == |info.execTime| - 1
       case Bits2020 => n == 1 || exists x :: x in info.candidates && x.1 == n
  }

  ghost predicate AsAllotted(c: Config, e: EMT) {
    Known(c, e.wmt) && Allots(c.allocation, InfoOf(c, e.wmt), e.numThreads)
  }

  /** Everybody served has such a count. */
  lemma GivenAsAllotted(c: Config, before: seq<WMT>, after: seq<WMT>, given: seq<EMT>, free: nat)
    requires Granted(c, before, after, given, free) && AsConfigured(c, before, after, given, free)
    ensures forall e :: e in multiset(given) ==> AsAllotted(c, e)
  {
    hide Shared, Total, After;
    forall e | e in multiset(given) ensures AsAllotted(c, e) {
      if c.allocation.Bits2020? { SharedAllots(c, before, after, given, free, e); }
    }
  }

  lemma SharedAllots(c: Config, before: seq<WMT>, after: seq<WMT>, given: seq<EMT>, free: nat, e: EMT)
    requires Shared(c, before, after, given, free) && e in multiset(given) && ValidThreads(c, e)
    ensures e.numThreads == 1 || exists y :: y in InfoOf(c, e.wmt).candidates && y.1 == e.numThreads
  {
    hide SharedOut;
    if free > |before| {
      var queue, t :| multiset(queue) == multiset(before) && SharedOut(c, queue, t, free, given);
      SharedOutAllots(c, queue, t, free, given, e);
    }
  }

  lemma SharedOutAllots(c: Config, queue: seq<WMT>, t: seq<real>, free: nat, given: seq<EMT>, e: EMT)
    requires SharedOut(c, queue, t, free, given) && e in multiset(given) && ValidThreads(c, e)
    ensures e.numThreads == 1 || exists y :: y in InfoOf(c, e.wmt).candidates && y.1 == e.numThreads
  {
    hide Grouped, AllDefined, TotalThreads, ThresholdsOf, AllChosen;
    if |t| > 1 {
      var l: nat :| Best(c, queue, t, free, l) && AllChosen(c, queue, given, t[l]);
      ChosenIsCandidate(c, queue, given, t[l], e);
    }
  }

  lemma ChosenIsCandidate(c: Config, queue: seq<WMT>, given: seq<EMT>, e: real, x: EMT)
    requires AllGrouped(c, queue) && AllChosen(c, queue, given, e) && x in multiset(given) && ValidThreads(c, x)
    ensures exists y :: y in InfoOf(c, x.wmt).candidates && y.1 == x.numThreads
  {
    var i :| 0 <= i < |given| && given[i] == x;
    assert Wmts(given)[i] == queue[i];
    var s := CandidatesFor(c, queue[i]);
    assert Defined(s, e);
    assert s[LowerBound(s, e)] in s;
  }

  /** Everybody served has the full width; the head of what is left does not fit. */
  ghost predicate AllWide(c: Config, before: seq<WMT>, after: seq<WMT>, given: seq<EMT>, free: nat) {
    && (forall e :: e in multiset(given) ==> Known(c, e.wmt) && e.numThreads == Width(c, e.wmt))
    && (given == [] ==> after == before)
    && (given != [] ==> before != [] && given[0].wmt == before[0])
    && (after != [] ==> Known(c, after[0]) && Width(c, after[0]) + Total(NumThreads, multiset(given)) > free)
  }

  /** One thread each while threads are scarce, the whole queue served otherwise. */
  ghost predicate Shared(c: Config, before: seq<WMT>, after: seq<WMT>, given: seq<EMT>, free: nat) {
    && (free <= |before| ==> OneEach(given) && |given| == free)
    && (free > |before| ==>
          after == [] && exists queue, t :: multiset(queue) == multiset(before) && SharedOut(c, queue, t, free, given))
  }

  /** Under bits2020 the search for this queue fails. */
  ghost predicate CannotShare(c: Config, before: seq<WMT>, free: nat) {
    && c.allocation.Bits2020? && free > |before|
    && exists queue, t :: multiset(queue) == multiset(before) && IsUnsound(c, queue, t, free)
  }

  ghost predicate IsUnsound(c: Config, queue: seq<WMT>, t: seq<real>, free: nat) {
    AllGrouped(c, queue) && ThresholdsOf(c, queue, t) && !Sound(TotalsAt(c, queue, t), free)
  }

  /** calculate_allocated_computational_resource, as configured.  `ok` is false where
      bits2020 looks up the end of a table or an assert of its does not hold. */
  method CalculateAllocatedComputationalResource(mq: MacrotaskQueue, current: nat)
    returns (ghost ok: bool, ghost given: seq<EMT>)
    requires mq.Valid() && current <= mq.c.maxThreads && AllExecutable(mq.c, mq.waitingQueue)
    requires mq.c.allocation.Bits2020? ==> AllResizable(mq.c, mq.waitingQueue)
    modifies mq`waitingQueue, mq`execNextQueue
    ensures mq.Valid() && (ok ==> mq.execNextQueue == old(mq.execNextQueue) + given)
    ensures ok ==> Granted(mq.c, old(mq.waitingQueue), mq.waitingQueue, given, mq.c.maxThreads - current)
    ensures ok ==> AsConfigured(mq.c, old(mq.waitingQueue), mq.waitingQueue, given, mq.c.maxThreads - current)
    ensures !ok ==> CannotShare(mq.c, old(mq.waitingQueue), mq.c.maxThreads - current)
  {
    hide After, ValidThreads, Granted, HeapBy, Total, AllResizable, AllExecutable, OneEach, Shared, CannotShare;
    ok := true;
    match mq.c.allocation
    case Single => given := Single(mq, mq.c.maxThreads, current);
    case Minimum => given := Minimum(mq, mq.c.maxThreads, current);
    case MaxParallel =>
      ghost var left;
      given, left := MaxParallel(mq, mq.c.maxThreads, current);
    case Bits2020 => ok, given := ShareOut(mq, current);
  }

  /** bits2020 as one of the methods. */
  method ShareOut(mq: MacrotaskQueue, current: nat) returns (ghost ok: bool, ghost given: seq<EMT>)
    requires mq.Valid() && current <= mq.c.maxThreads && AllResizable(mq.c, mq.waitingQueue)
    requires mq.c.allocation.Bits2020?
    modifies mq`waitingQueue, mq`execNextQueue
    ensures mq.Valid() && (ok ==> mq.execNextQueue == old(mq.execNextQueue) + given)
    ensures ok ==> Granted(mq.c, old(mq.waitingQueue), mq.waitingQueue, given, mq.c.maxThreads - current)
    ensures ok ==> Shared(mq.c, old(mq.waitingQueue), mq.waitingQueue, given, mq.c.maxThreads - current)
    ensures !ok ==> CannotShare(mq.c, old(mq.waitingQueue), mq.c.maxThreads - current)
  {
    hide After, ValidThreads, Granted, HeapBy, Total, AllResizable, OneEach, SharedOut, Sound, ThresholdsOf, Grouped;
    ghost var g := Bits2020(mq, mq.c.maxThreads, current);
    if g.Ample? {
      assert |multiset(g.queue)| == |old(multiset(mq.waitingQueue))|;
    }
    ok := !g.Failed?;
    given := if ok then g.given else [];
    assert !ok ==> IsUnsound(mq.c, g.queue, g.thresholds, mq.c.maxThreads - current);
  }

  /** With workable tables that does not happen. */
  lemma WorkableCanShare(c: Config, before: seq<WMT>, free: nat)
    requires c.allocation.Bits2020? ==> Workable(c)
    ensures !CannotShare(c, before, free)
  {
    hide Grouped, ThresholdsOf, Sound, Workable;
    if CannotShare(c, before, free) {
      var queue, t :| multiset(queue) == multiset(before) && IsUnsound(c, queue, t, free);
      assert |multiset(queue)| == |multiset(before)|;
      WorkableIsSound(c, queue, t, free);
    }
  }
}
