/** The state of the simulated executor as values, its steps, and what every
    step keeps.  The classes of the executor are proved against it. */
module Machine {
  import opened Sequences
  import opened Operands
  import opened Tasks
  import opened AllocateMethods

  /** A job in execution.  `order` remembers in which order its macrotasks were
      started; the job itself has no such field. */
  datatype JobState = JobState(
    query: Query,
    inputDependency: seq<set<nat>>,
    finalMacrotaskId: set<nat>,
    log: seq<(nat, nat)>,
    memory: Option<Memory>,
    order: seq<nat>)

  /** What has ever happened: the queries admitted, by job, the macrotasks
      started, and the macrotasks finished. */
  datatype History = History(admitted: map<nat, Query>, started: set<TaskKey>, done: set<TaskKey>)

  ghost predicate AppKnown(c: Config, q: Query) { q.appId in c.apps }

  function App(c: Config, q: Query): Application
    requires AppKnown(c, q)
  {
    c.apps[q.appId]
  }

  /** Number of macrotasks, the virtual source included. */
  ghost function Size(c: Config, q: Query): nat {
    if AppKnown(c, q) then |App(c, q).graph.next| else 0
  }

  ghost function Previous(c: Config, q: Query, v: nat): set<nat> {
    if AppKnown(c, q) && v < |App(c, q).graph.previous| then App(c, q).graph.previous[v] else {}
  }

  ghost predicate IsTask(c: Config, h: History, k: TaskKey) {
    k.0 in h.admitted && k.1 < Size(c, h.admitted[k.0])
  }

  /** All predecessors of the macrotask are finished. */
  ghost predicate Ready(c: Config, h: History, k: TaskKey) {
    && IsTask(c, h, k) && k.1 > 0
    && forall u :: u in Previous(c, h.admitted[k.0], k.1) ==> (k.0, u) in h.done
  }

  ghost predicate AllDone(c: Config, h: History, j: nat) {
    forall v: nat :: IsTask(c, h, (j, v)) ==> (j, v) in h.done
  }

  ghost predicate AdmittedOk(c: Config, h: History, now: nat, j: nat)
    requires j in h.admitted
  {
    var q := h.admitted[j];
    q.jobId == j && AppKnown(c, q) && q.receivedTime <= q.startTime <= now && (j, 0) in h.done
  }

  /** The history is one that the dependencies allow. */
  ghost predicate HistoryOk(c: Config, h: History, now: nat) {
    && (forall j :: j in h.admitted ==> AdmittedOk(c, h, now, j))
    && (forall k :: k in h.done ==> IsTask(c, h, k))
    && (forall k :: k in h.done && k.1 > 0 ==> k in h.started)
    && (forall k :: k in h.started ==> Ready(c, h, k))
  }

  function IsWaiting(k: TaskKey): WMT -> nat { (w: WMT) => if Key(w) == k then 1 else 0 }

  function IsNext(k: TaskKey): EMT -> nat { (e: EMT) => if Key(e.wmt) == k then 1 else 0 }

  function IsRunning(k: TaskKey): Running -> nat { (r: Running) => if Key(r.emt.wmt) == k then 1 else 0 }

  /** The entry refers to a job that has been admitted. */
  ghost predicate Refers(h: History, w: WMT) {
    w.query.jobId in h.admitted && w.query == h.admitted[w.query.jobId]
  }

  /** Every macrotask that is ready and not started is exactly once in the queues
      before execution, and nothing else is. */
  ghost predicate WaitingOnce(c: Config, h: History, waiting: multiset<WMT>, next: multiset<EMT>) {
    forall k ::
      Total(IsWaiting(k), waiting) + Total(IsNext(k), next) == if Ready(c, h, k) && k !in h.started then 1 else 0
  }

  ghost predicate WaitingOk(c: Config, h: History, waiting: multiset<WMT>, next: multiset<EMT>) {
    && WaitingOnce(c, h, waiting, next)
    && (forall w :: w in waiting ==> Refers(h, w))
    && (forall e :: e in next ==> Refers(h, e.wmt) && ValidThreads(c, e))
  }

  /** Every macrotask that is started and not finished is exactly once in
      execution, and nothing else is. */
  ghost predicate FlightOk(c: Config, h: History, flight: multiset<Running>) {
    && (forall k :: Total(IsRunning(k), flight) == if k in h.started && k !in h.done then 1 else 0)
    && (forall r :: r in flight ==> Refers(h, r.emt.wmt) && ValidThreads(c, r.emt))
  }

  function RunningThreads(r: Running): nat { r.emt.numThreads }

  /** Thread accounting. */
  ghost predicate AccountOk(c: Config, current: nat, next: multiset<EMT>, flight: multiset<Running>) {
    && current == Total(RunningThreads, flight)
    && current + Total(NumThreads, next) <= c.maxThreads
  }

  /** Those of the macrotasks `s` of job `j` that are not finished. */
  ghost function Unfinished(h: History, j: nat, s: set<nat>): set<nat> {
    set u | u in s && (j, u) !in h.done
  }

  /** Dependency sets and final sets are what is left of the graph's. */
  ghost predicate DependenciesOk(c: Config, h: History, j: nat, js: JobState) {
    && j in h.admitted && AppKnown(c, js.query) && js.query == h.admitted[j]
    && |js.inputDependency| == Size(c, js.query)
    && (forall v: nat :: v < |js.inputDependency| ==>
          js.inputDependency[v] == Unfinished(h, j, Previous(c, js.query, v)))
    && js.finalMacrotaskId == Unfinished(h, j, App(c, js.query).graph.finals)
  }

  /** Exactly the jobs that are not finished are in execution. */
  ghost predicate JobsOk(c: Config, h: History, jobs: map<nat, JobState>) {
    && (forall j :: j in jobs <==> j in h.admitted && !AllDone(c, h, j))
    && (forall j :: j in jobs ==> DependenciesOk(c, h, j, jobs[j]))
  }

  /** `n` threads are what the allocate method may hand out to macrotask `v`. */
  ghost predicate MayTake(c: Config, q: Query, v: nat, n: nat)
    requires AppKnown(c, q)
  {
    v < |App(c, q).info| && Allots(c.allocation, App(c, q).info[v], n)
  }

  /** A macrotask is finished when its table says for such a count of threads. */
  ghost predicate Timed(c: Config, q: Query, v: nat, log: (nat, nat))
    requires AppKnown(c, q)
  {
    exists n: nat :: MayTake(c, q, v, n) && log.1 == log.0 + App(c, q).info[v].execTime[n]
  }

  function TableOf(c: Config, q: Query, v: nat): seq<nat>
    requires AppKnown(c, q)
  {
    if v < |App(c, q).info| then App(c, q).info[v].execTime else []
  }

  /** The log of a job: times follow the dependencies and the tables. */
  ghost predicate LogOk(c: Config, h: History, now: nat, j: nat, js: JobState) {
    && AppKnown(c, js.query) && |js.log| == Size(c, js.query) > 0
    && js.log[0].1 == js.query.startTime
    && (forall v: nat :: v < |js.log| && (j, v) in h.done ==> js.log[v].1 <= now)
    && (forall v: nat :: v < |js.log| && (j, v) in h.started ==> js.query.startTime <= js.log[v].0 <= now)
    && (forall v: nat, u: nat ::
          v < |js.log| && (j, v) in h.started && u in Previous(c, js.query, v) && u < |js.log| ==>
          js.log[u].1 <= js.log[v].0)
    && (forall v: nat :: 0 < v < |js.log| && (j, v) in h.done ==> Timed(c, js.query, v, js.log[v]))
  }

  ghost predicate LogsOk(c: Config, h: History, now: nat, jobs: map<nat, JobState>) {
    forall j :: j in jobs ==> LogOk(c, h, now, j, jobs[j])
  }

  /** The entry will be finished as its job's log and its table say. */
  ghost predicate FinishesAsPlanned(c: Config, jobs: map<nat, JobState>, r: Running) {
    var j, v := r.emt.wmt.query.jobId, r.emt.wmt.macrotaskId;
    && j in jobs && v < |jobs[j].log|
    && ValidThreads(c, r.emt) && AsAllotted(c, r.emt)
    && r.finishTime == jobs[j].log[v].0 + InfoOf(c, r.emt.wmt).execTime[r.emt.numThreads]
  }

  /** Nothing that is finished already was finished after `t`. */
  ghost predicate NothingFinishedAfter(h: History, jobs: map<nat, JobState>, t: nat) {
    forall i: nat, u: nat :: i in jobs && u < |jobs[i].log| && (i, u) in h.done ==> jobs[i].log[u].1 <= t
  }

  ghost predicate FinishOk(c: Config, h: History, jobs: map<nat, JobState>, flight: multiset<Running>) {
    forall r :: r in flight ==> FinishesAsPlanned(c, jobs, r) && NothingFinishedAfter(h, jobs, r.finishTime)
  }

  /** Inputs first, then variables as they are constructed. */
  function InitialMemory(a: Application, q: Query): Memory {
    Memory(q.pt + seq(a.numVarPt, _ => Plaintext(0, [])), q.ct + seq(a.numVarCt, _ => Ciphertext(2, 0, [])))
  }

  /** The operands that a job begins with: the inputs of its query, each at its own
      index, and blank variables behind them. */
  ghost predicate Laid(m: Memory, a: Application, q: Query) {
    && |m.pt| == |q.pt| + a.numVarPt && |m.ct| == |q.ct| + a.numVarCt
    && (forall i :: 0 <= i < |q.pt| ==> m.pt[i] == q.pt[i])
    && (forall i :: 0 <= i < |q.ct| ==> m.ct[i] == q.ct[i])
    && (forall i :: |q.pt| <= i < |m.pt| ==> m.pt[i] == Plaintext(0, []))
    && (forall i :: |q.ct| <= i < |m.ct| ==> m.ct[i] == Ciphertext(2, 0, []))
  }

  lemma LaidOut(m: Memory, a: Application, q: Query)
    ensures Laid(m, a, q) <==> m == InitialMemory(a, q)
  {
    var n := InitialMemory(a, q);
    if Laid(m, a, q) { assert m.pt == n.pt && m.ct == n.ct; }
  }

  /** An operation that names the `i`-th operand behind the constants reads the `i`-th
      input of the query. */
  lemma InputsAreRead(a: Application, q: Query, m: Memory, i: nat, o: Operation)
    requires Laid(m, a, q)
    ensures var k := a.constants.For(q.clientId);
            && (i < |q.pt| && o.v1 == a.constants.numPt + i && o.op.ReadsPlain() && Accessible(k, m, o) ==>
                  Source(k, m, o) == Some(PlainValue(q.pt[i])))
            && (i < |q.ct| && o.v1 == a.constants.numCt + i && o.op.ReadsCipher() && Accessible(k, m, o) ==>
                  Source(k, m, o) == Some(CipherValue(q.ct[i])))
    ensures i < |q.pt| ==> PlainAt(a.constants.For(q.clientId), m, a.constants.numPt + i) == Some(q.pt[i])
    ensures i < |q.ct| ==> CipherAt(a.constants.For(q.clientId), m, a.constants.numCt + i) == Some(q.ct[i])
  {
    ConstantsByClient(a.constants, q.clientId, m, i);
  }

  /** Every entry names a macrotask that has operations. */
  ghost predicate NamesTasks(a: Application, order: seq<nat>) {
    forall i :: 0 <= i < |order| ==> 0 < order[i] < |a.operations|
  }

  ghost predicate NoRepeats(order: seq<nat>) {
    forall i, k :: 0 <= i < k < |order| ==> order[i] != order[k]
  }

  /** Predecessors come first; the virtual source is not executed. */
  ghost predicate DependenciesFirst(c: Config, q: Query, order: seq<nat>) {
    forall i, u :: 0 <= i < |order| && u in Previous(c, q, order[i]) && u > 0 ==> u in order[..i]
  }

  /** The scheme of the client who sent the query. */
  function SchemeOf(c: Config, q: Query): Scheme { c.SchemeFor(q.appId, q.clientId) }

  /** The constant operands of that client. */
  function ConstantsOf(c: Config, q: Query): Constants
    requires AppKnown(c, q)
  {
    App(c, q).constants.For(q.clientId)
  }

  function Outcome(c: Config, q: Query, order: seq<nat>): Option<Memory>
    requires AppKnown(c, q) && forall i :: 0 <= i < |order| ==> order[i] < |App(c, q).operations|
  {
    ExecuteOrder(SchemeOf(c, q), ConstantsOf(c, q), App(c, q).operations, Some(InitialMemory(App(c, q), q)), order)
  }

  /** That is: from the inputs, by the scheme and the constants of the client. */
  lemma OutcomeOfInputs(c: Config, q: Query, order: seq<nat>, m: Memory)
    requires AppKnown(c, q) && NamesTasks(App(c, q), order) && Laid(m, c.apps[q.appId], q)
    ensures Outcome(c, q, order) ==
              ExecuteOrder(c.SchemeFor(q.appId, q.clientId), c.apps[q.appId].constants.For(q.clientId),
                           c.apps[q.appId].operations, Some(m), order)
  {
    LaidOut(m, c.apps[q.appId], q);
  }

  /** The operands are the outcome of the macrotasks started, in that order, and
      that order respects the graph. */
  ghost predicate OrderOk(c: Config, h: History, j: nat, js: JobState) {
    && AppKnown(c, js.query)
    && NamesTasks(App(c, js.query), js.order)
    && NoRepeats(js.order)
    && (forall v: nat :: v in js.order <==> (j, v) in h.started)
    && DependenciesFirst(c, js.query, js.order)
    && js.memory == Outcome(c, js.query, js.order)
  }

  ghost predicate OrdersOk(c: Config, h: History, jobs: map<nat, JobState>) {
    forall j :: j in jobs ==> OrderOk(c, h, j, jobs[j])
  }

  /** Macrotasks were started in the recorded order. */
  ghost predicate InOrderOfStart(js: JobState) {
    && (forall i :: 0 <= i < |js.order| ==> js.order[i] < |js.log|)
    && forall i, k :: 0 <= i < k < |js.order| ==> js.log[js.order[i]].0 <= js.log[js.order[k]].0
  }

  ghost predicate StartsOk(jobs: map<nat, JobState>) {
    forall j :: j in jobs ==> InOrderOfStart(jobs[j])
  }

  /** The macrotask has been ready since the last of its predecessors was finished;
      macrotask 0 counts as finished when the query was started. */
  ghost predicate ReadySince(c: Config, js: JobState, w: WMT) {
    && (forall u :: u in Previous(c, w.query, w.macrotaskId) ==> u < |js.log| && js.log[u].1 <= w.readyTime)
    && exists u :: u in Previous(c, w.query, w.macrotaskId) && u < |js.log| && js.log[u].1 == w.readyTime
  }

  ghost predicate ReadyIn(c: Config, jobs: map<nat, JobState>, w: WMT) {
    w.query.jobId in jobs && ReadySince(c, jobs[w.query.jobId], w)
  }

  ghost predicate ReadyOk(c: Config, jobs: map<nat, JobState>, waiting: multiset<WMT>, next: multiset<EMT>) {
    && (forall w :: w in waiting ==> ReadyIn(c, jobs, w))
    && (forall e :: e in next ==> ReadyIn(c, jobs, e.wmt))
  }

  /** The executor between two steps. */
  datatype State = State(
    h: History,
    now: nat,
    current: nat,
    jobs: map<nat, JobState>,
    waiting: multiset<WMT>,
    next: multiset<EMT>,
    flight: multiset<Running>)

  /** Threads are handed out as the allocate method does.  Without threads nothing is
      ever started; under MaxParallel nothing wider than the machine is. */
  ghost predicate WidthOk(c: Config, h: History, next: multiset<EMT>) {
    && (c.maxThreads == 0 ==> h.started == {})
    && (forall e :: e in next ==> AsAllotted(c, e))
    && (c.allocation.MaxParallel? ==>
          forall k :: k in h.started && k.0 in h.admitted && AppKnown(c, h.admitted[k.0]) ==>
            |TableOf(c, h.admitted[k.0], k.1)| <= c.maxThreads + 1)
  }

  ghost predicate Ok(c: Config, s: State) {
    match s
    case State(h, now, current, jobs, waiting, next, flight) =>
      && HistoryOk(c, h, now)
      && WaitingOk(c, h, waiting, next)
      && FlightOk(c, h, flight)
      && AccountOk(c, current, next, flight)
      && JobsOk(c, h, jobs)
      && LogsOk(c, h, now, jobs)
      && FinishOk(c, h, jobs, flight)
      && OrdersOk(c, h, jobs)
      && WidthOk(c, h, next)
      && StartsOk(jobs)
      && ReadyOk(c, jobs, waiting, next)
  }

  // ---- what is delivered ----

  /** Times follow the dependencies and the tables, from arrival to delivery. */
  ghost predicate LogDelivered(c: Config, js: JobState) {
    && AppKnown(c, js.query) && |js.log| == Size(c, js.query)
    && js.query.receivedTime <= js.query.startTime <= js.query.finishTime
    && (forall v: nat :: v < |js.log| ==> js.log[v].1 <= js.query.finishTime)
    && (exists v: nat :: 0 < v < |js.log| && js.log[v].1 == js.query.finishTime)
    && (|js.log| > 0 ==> js.log[0].1 == js.query.startTime)
    && (forall v: nat :: 0 < v < |js.log| ==> js.query.startTime <= js.log[v].0 <= js.log[v].1)
    && (forall v: nat :: 0 < v < |js.log| ==> Timed(c, js.query, v, js.log[v]))
    && (forall v: nat, u: nat :: 0 < v < |js.log| && u in Previous(c, js.query, v) && u < |js.log| ==>
          js.log[u].1 <= js.log[v].0)
  }

  /** Every macrotask has been executed, once and after its predecessors; the
      operands are what that gives. */
  ghost predicate OperandsDelivered(c: Config, js: JobState) {
    && AppKnown(c, js.query)
    && NamesTasks(App(c, js.query), js.order) && NoRepeats(js.order) && DependenciesFirst(c, js.query, js.order)
    && (forall v: nat :: v in js.order <==> 0 < v < Size(c, js.query))
    && InOrderOfStart(js)
    && js.memory == Outcome(c, js.query, js.order)
  }

  ghost predicate Delivered(c: Config, js: JobState) {
    LogDelivered(c, js) && OperandsDelivered(c, js)
  }

  /** The same query, whenever it was finished. */
  ghost predicate SameQuery(a: Query, b: Query) { a.(finishTime := b.finishTime) == b }

  /** Nothing is admitted or started. */
  ghost predicate Winds(s: State, t: State) {
    t.h.admitted == s.h.admitted && t.h.started == s.h.started && t.now == s.now && t.next == s.next
  }

  /** `js` is a job of the executor, complete. */
  ghost predicate Completes(c: Config, s: State, js: JobState) {
    var j := js.query.jobId;
    j in s.jobs && j in s.h.admitted && SameQuery(s.h.admitted[j], js.query) && Delivered(c, js)
  }

  ghost function Ids(result: seq<JobState>): (r: seq<nat>)
    ensures |r| == |result| && forall i :: 0 <= i < |r| ==> r[i] == result[i].query.jobId
  {
    seq(|result|, i requires 0 <= i < |result| => result[i].query.jobId)
  }

  /** Between two states exactly the jobs `result` were taken out, each once and
      complete. */
  ghost predicate Handed(c: Config, s: State, t: State, result: seq<JobState>) {
    match t
    case State(_, _, _, left, _, _, _) =>
      && Winds(s, t)
      && (forall i :: 0 <= i < |result| ==> Completes(c, s, result[i]))
      && NoRepeats(Ids(result))
      && (forall j :: j in s.jobs <==> j in left || j in Ids(result))
      && (forall j :: j in Ids(result) ==> j !in left)
  }

  // ---- steps of a job ----

  function ErasedDependency(dep: seq<set<nat>>, next: seq<nat>, v: nat): (r: seq<set<nat>>)
    ensures |r| == |dep|
    ensures forall d :: 0 <= d < |dep| ==> r[d] == if d in next then dep[d] - {v} else dep[d]
  {
    seq(|dep|, d requires 0 <= d < |dep| => if d in next then dep[d] - {v} else dep[d])
  }

  /** The successors whose last dependency is `v`. */
  function Solved(dep: seq<set<nat>>, next: seq<nat>, v: nat): (r: seq<nat>)
    ensures forall d :: d in r <==> d in next && d < |dep| && dep[d] - {v} == {}
  {
    if next == [] then [] else
      var d := next[|next| - 1];
      assert next == next[..|next| - 1] + [d];
      Solved(dep, next[..|next| - 1], v) + if d < |dep| && dep[d] - {v} == {} then [d] else []
  }

  lemma {:induction false} SolvedDistinct(dep: seq<set<nat>>, next: seq<nat>, v: nat)
    requires NoRepeats(next)
    ensures NoRepeats(Solved(dep, next, v))
  {
    if next != [] {
      var k := |next| - 1;
      SolvedDistinct(dep, next[..k], v);
      var s := Solved(dep, next[..k], v);
      forall i | 0 <= i < |s| ensures s[i] != next[k] {
        assert s[i] in s;
      }
    }
  }

  /** Job::finish_task without the log. */
  function Finish(next: seq<nat>, js: JobState, v: nat): JobState {
    js.(inputDependency := ErasedDependency(js.inputDependency, next, v), finalMacrotaskId := js.finalMacrotaskId - {v})
  }

  function LogFinish(js: JobState, v: nat, t: nat): JobState
    requires v < |js.log|
  {
    js.(log := js.log[v := (js.log[v].0, t)])
  }

  /** Job::execute. */
  function Start(c: Config, js: JobState, v: nat, now: nat): JobState
    requires AppKnown(c, js.query) && v < |js.log| && v < |App(c, js.query).operations|
  {
    js.(log := js.log[v := (now, js.log[v].1)],
        memory := ExecuteAll(SchemeOf(c, js.query), ConstantsOf(c, js.query), js.memory,
                             App(c, js.query).operations[v]),
        order := js.order + [v])
  }

  /** The query as the job keeps it: without a deadline it gets the predicted one. */
  function WithDeadline(c: Config, q: Query): Query
    requires AppKnown(c, q)
  {
    if q.deadline == 0 then q.(deadline := q.receivedTime + App(c, q).totalExecTimeForPrediction) else q
  }

  /** The constructor of Job. */
  function NewJob(c: Config, q: Query): JobState
    requires AppKnown(c, q)
  {
    JobState(WithDeadline(c, q), App(c, q).graph.previous, App(c, q).graph.finals,
             seq(|App(c, q).graph.next|, _ => (0, 0)), Some(InitialMemory(App(c, q), q)), [])
  }

  /** The macrotasks that become ready, as entries of the waiting queue. */
  function Emitted(q: Query, solved: seq<nat>, readyTime: nat): (r: seq<WMT>)
    ensures |r| == |solved| && forall i :: 0 <= i < |r| ==> r[i] == WMT(solved[i], q, readyTime)
  {
    if solved == [] then [] else
      Emitted(q, solved[..|solved| - 1], readyTime) + [WMT(solved[|solved| - 1], q, readyTime)]
  }

  lemma {:induction false} EmittedCount(q: Query, solved: seq<nat>, t: nat, k: TaskKey)
    requires NoRepeats(solved)
    ensures Total(IsWaiting(k), multiset(Emitted(q, solved, t))) == if k.0 == q.jobId && k.1 in solved then 1 else 0
  {
    if solved == [] {
      assert multiset(Emitted(q, solved, t)) == multiset{};
    } else {
      hide Total;
      var n := |solved| - 1;
      var last := WMT(solved[n], q, t);
      EmittedCount(q, solved[..n], t, k);
      TotalAppend(IsWaiting(k), Emitted(q, solved[..n], t), last);
      LastIsNew(solved, k.1);
    }
  }

  lemma LastIsNew(s: seq<nat>, x: nat)
    requires NoRepeats(s) && s != []
    ensures x in s <==> x in s[..|s| - 1] || x == s[|s| - 1]
    ensures !(x in s[..|s| - 1] && x == s[|s| - 1])
  {
    assert s == s[..|s| - 1] + [s[|s| - 1]];
  }
}
