/** Applications, queries and the macrotasks on their way through the queues
    (Application, Query, WMT, EMT), and the orders of the waiting queue. */
module Tasks {
  import opened Sequences
  import opened Graphs
  import opened ExecTimeInfo
  import opened Operands

  /** The finished tables of a macrotask. */
  datatype Info = Info(execTime: seq<nat>, candidates: seq<Candidate>, predictedLaunchedToDeadline: nat)

  datatype Application = Application(
    graph: Graph,
    group: seq<nat>,
    info: seq<Info>,
    totalExecTimeForPrediction: nat,
    operations: seq<seq<Operation>>,
    constants: ConstantData,
    numVarPt: nat,
    numVarCt: nat)
  {
    /** Tables that an executor can work with. */
    ghost predicate WellFormed() {
      && graph.WellFormed()
      && |group| == |info| == |operations| == |graph.next|
      && (forall i :: 1 <= i < |info| ==> 1 <= group[i] < |info| && info[i] == info[group[i]])
      && (forall i :: 1 <= i < |info| ==> |info[i].execTime| > 1)
      && (forall i, n :: 1 <= i < |info| && 1 <= n < |info[i].execTime| ==> info[i].execTime[n] > 0)
    }

    /** Every macrotask has candidates, and none lies behind its table. */
    ghost predicate Resizable()
      requires WellFormed()
    {
      forall i :: 1 <= i < |info| ==>
        && info[i].candidates != []
        && Frontier(info[i].candidates)
        && forall x :: x in info[i].candidates ==> 1 <= x.1 < |info[i].execTime|
    }

    /** One thread is the most efficient count of every macrotask. */
    ghost predicate Elastic()
      requires WellFormed()
    {
      forall i :: 1 <= i < |info| ==> OneThreadTop(info[i].candidates)
    }

    /** Every macrotask has one candidate only, of efficiency `e`. */
    ghost predicate Flat(e: real)
      requires WellFormed()
    {
      forall i :: 1 <= i < |info| ==> |info[i].candidates| == 1 && info[i].candidates[0].0 == e
    }

    /** No table is wider than the machine. */
    ghost predicate Fits(maxThreads: nat)
      requires WellFormed()
    {
      forall i :: 1 <= i < |info| ==> |info[i].execTime| - 1 <= maxThreads
    }
  }

  datatype Query = Query(
    appId: nat, clientId: nat, queryId: nat, jobId: nat,
    pt: seq<Plaintext>, ct: seq<Ciphertext>,
    receivedTime: nat, deadline: nat, startTime: nat, finishTime: nat)

  datatype Schedule = Fifo | FifoFifo | FifoDeadline | Deadline | DeadlineFifo | DeadlineDeadline

  datatype Allocation = Single | Minimum | MaxParallel | Bits2020

  datatype Config = Config(
    apps: map<nat, Application>,
    maxThreads: nat,
    maxNumExecutingJobs: nat,
    schedule: Schedule,
    allocation: Allocation,
    schemes: map<(nat, nat), Scheme>)
  {
    ghost predicate WellFormed() {
      && (forall a :: a in apps ==> apps[a].WellFormed())
      && (allocation == Bits2020 ==> CanShare())
    }

    /** Tables that bits2020 can work with, whatever waits. */
    ghost predicate CanShare()
      requires forall a :: a in apps ==> apps[a].WellFormed()
    {
      && (forall a :: a in apps ==> apps[a].Resizable())
      && ((forall a :: a in apps ==> apps[a].Elastic()) || exists e :: AllFlat(e))
    }

    ghost predicate AllFlat(e: real)
      requires forall a :: a in apps ==> apps[a].WellFormed()
    {
      forall a :: a in apps ==> apps[a].Flat(e)
    }

    /** Application::scheme: keys belong to an application and a client. */
    function SchemeFor(appId: nat, clientId: nat): Scheme {
      if (appId, clientId) in schemes then schemes[(appId, clientId)] else NO_SCHEME
    }
  }

  /** A macrotask that is ready; what it refers to is fixed when its job is admitted. */
  datatype WMT = WMT(macrotaskId: nat, query: Query, readyTime: nat)

  /** A macrotask with its threads. */
  datatype EMT = EMT(wmt: WMT, numThreads: nat)

  /** A macrotask in execution and when it will be finished. */
  datatype Running = Running(finishTime: nat, emt: EMT)

  /** Which macrotask of which job. */
  type TaskKey = (nat, nat)

  function Key(w: WMT): TaskKey { (w.query.jobId, w.macrotaskId) }

  predicate Known(c: Config, w: WMT) {
    w.query.appId in c.apps && w.macrotaskId < |c.apps[w.query.appId].info|
  }

  /** The table of a macrotask. */
  function InfoOf(c: Config, w: WMT): Info
    requires Known(c, w)
  {
    c.apps[w.query.appId].info[w.macrotaskId]
  }

  function PredictedLaunchedToDeadline(c: Config, w: WMT): int {
    if Known(c, w) then InfoOf(c, w).predictedLaunchedToDeadline else 0
  }

  /** Deadline minus prediction, in the arithmetic of uint64. */
  function LatestStart(c: Config, w: WMT): int {
    (w.query.deadline - PredictedLaunchedToDeadline(c, w)) % TWO_TO_THE_64
  }

  /** operator< of the schedule methods. */
  function Before(c: Config, a: WMT, b: WMT): bool {
    match c.schedule
    case Fifo => a.readyTime < b.readyTime
    case FifoFifo =>
      if a.query.receivedTime < b.query.receivedTime then true
      else if a.query.receivedTime > b.query.receivedTime then false
      else a.readyTime < b.readyTime
    case FifoDeadline =>
      if a.query.receivedTime < b.query.receivedTime then true
      else if a.query.receivedTime > b.query.receivedTime then false
      else PredictedLaunchedToDeadline(c, a) > PredictedLaunchedToDeadline(c, b)
    case Deadline => LatestStart(c, a) < LatestStart(c, b)
    case DeadlineFifo =>
      if a.query.deadline < b.query.deadline then true
      else if a.query.deadline > b.query.deadline then false
      else a.readyTime < b.readyTime
    case DeadlineDeadline =>
      if a.query.deadline < b.query.deadline then true
      else if a.query.deadline > b.query.deadline then false
      else LatestStart(c, a) < LatestStart(c, b)
  }

  /** operator> of the schedule methods, by which the heap is kept. */
  function After(c: Config, a: WMT, b: WMT): bool {
    match c.schedule
    case Fifo => a.readyTime > b.readyTime
    case FifoFifo =>
      if a.query.receivedTime > b.query.receivedTime then true
      else if a.query.receivedTime < b.query.receivedTime then false
      else a.readyTime > b.readyTime
    case FifoDeadline =>
      if a.query.receivedTime > b.query.receivedTime then true
      else if a.query.receivedTime < b.query.receivedTime then false
      else PredictedLaunchedToDeadline(c, a) < PredictedLaunchedToDeadline(c, b)
    case Deadline => LatestStart(c, a) > LatestStart(c, b)
    case DeadlineFifo =>
      if a.query.deadline > b.query.deadline then true
      else if a.query.deadline < b.query.deadline then false
      else a.readyTime > b.readyTime
    case DeadlineDeadline =>
      if a.query.deadline > b.query.deadline then true
      else if a.query.deadline < b.query.deadline then false
      else LatestStart(c, a) > LatestStart(c, b)
  }

  /** The order of the waiting queue: who is to be taken out earlier. */
  function WaitingOrder(c: Config): (WMT, WMT) -> bool {
    (a, b) => After(c, b, a)
  }

  /** The order of the simulator's execution queue: finish time, then schedule. */
  function RunsBefore(c: Config, a: Running, b: Running): bool {
    a.finishTime < b.finishTime || (a.finishTime == b.finishTime && Before(c, a.emt.wmt, b.emt.wmt))
  }

  function ExecutingOrder(c: Config): (Running, Running) -> bool {
    (a, b) => RunsBefore(c, a, b)
  }

  /** Each schedule method orders macrotasks by a pair of numbers. */
  function Rank(c: Config, w: WMT): (int, int) {
    match c.schedule
    case Fifo => (0, w.readyTime)
    case FifoFifo => (w.query.receivedTime, w.readyTime)
    case FifoDeadline => (w.query.receivedTime, -PredictedLaunchedToDeadline(c, w))
    case Deadline => (0, LatestStart(c, w))
    case DeadlineFifo => (w.query.deadline, w.readyTime)
    case DeadlineDeadline => (w.query.deadline, LatestStart(c, w))
  }

  function Smaller(x: (int, int), y: (int, int)): bool {
    x.0 < y.0 || (x.0 == y.0 && x.1 < y.1)
  }

  /** The two operators mirror each other and are the lexicographic order of the ranks. */
  lemma OrderIsLexicographic(c: Config, a: WMT, b: WMT)
    ensures Before(c, a, b) <==> Smaller(Rank(c, a), Rank(c, b))
    ensures After(c, a, b) <==> Before(c, b, a)
  {
  }

  lemma OrdersAreStrictWeak(c: Config)
    ensures StrictWeakOrder(WaitingOrder(c))
    ensures StrictWeakOrder(ExecutingOrder(c))
  {
    forall a, b { OrderIsLexicographic(c, a, b); }
    var w, e := WaitingOrder(c), ExecutingOrder(c);
    assert forall a, b :: w(a, b) <==> Smaller(Rank(c, a), Rank(c, b));
    assert forall a, b :: e(a, b) <==>
        (a.finishTime < b.finishTime ||
         (a.finishTime == b.finishTime && Smaller(Rank(c, a.emt.wmt), Rank(c, b.emt.wmt))));
  }

  /** What each schedule method compares, in terms of what tables and queries hold. */
  lemma WhatIsCompared(c: Config, a: WMT, b: WMT)
    requires Known(c, a) && Known(c, b)
    ensures var p := c.apps[a.query.appId].info[a.macrotaskId].predictedLaunchedToDeadline;
            var q := c.apps[b.query.appId].info[b.macrotaskId].predictedLaunchedToDeadline;
            var x := (a.query.deadline - p) % 0x1_0000_0000_0000_0000;
            var y := (b.query.deadline - q) % 0x1_0000_0000_0000_0000;
            Before(c, a, b) <==>
              match c.schedule
              case Fifo => a.readyTime < b.readyTime
              case FifoFifo =>
                a.query.receivedTime < b.query.receivedTime ||
                (a.query.receivedTime == b.query.receivedTime && a.readyTime < b.readyTime)
              case FifoDeadline =>
                a.query.receivedTime < b.query.receivedTime || (a.query.receivedTime == b.query.receivedTime && p > q)
              case Deadline => x < y
              case DeadlineFifo =>
                a.query.deadline < b.query.deadline ||
                (a.query.deadline == b.query.deadline && a.readyTime < b.readyTime)
              case DeadlineDeadline =>
                a.query.deadline < b.query.deadline || (a.query.deadline == b.query.deadline && x < y)
    ensures WaitingOrder(c)(a, b) <==> Before(c, a, b)
    ensures forall s: nat, t: nat, m: nat, n: nat ::
              ExecutingOrder(c)(Running(s, EMT(a, m)), Running(t, EMT(b, n))) <==>
              s < t || (s == t && Before(c, a, b))
  {
  }

  /** Where no prediction exceeds the job's deadline the subtraction does not
      wrap, and the deadline schedule really goes by latest start. */
  lemma DeadlineGoesByLatestStart(c: Config, a: WMT, b: WMT)
    requires c.schedule == Deadline && Known(c, a) && Known(c, b)
    requires c.apps[a.query.appId].info[a.macrotaskId].predictedLaunchedToDeadline <= a.query.deadline < TWO_TO_THE_64
    requires c.apps[b.query.appId].info[b.macrotaskId].predictedLaunchedToDeadline <= b.query.deadline < TWO_TO_THE_64
    ensures Before(c, a, b) <==>
              a.query.deadline - c.apps[a.query.appId].info[a.macrotaskId].predictedLaunchedToDeadline <
                b.query.deadline - c.apps[b.query.appId].info[b.macrotaskId].predictedLaunchedToDeadline
  {
  }

  /** Application::scheme, by application and client; without it nothing can be executed. */
  lemma SchemeByClient(c: Config, appId: nat, clientId: nat, k: Constants, m: Memory, o: Operation)
    ensures (appId, clientId) in c.schemes ==> c.SchemeFor(appId, clientId) == c.schemes[(appId, clientId)]
    ensures (appId, clientId) !in c.schemes ==> Execute(c.SchemeFor(appId, clientId), k, m, o) == None
  {
  }
}
