/** The executor of the simulation (Executor<TimeManagerSimulator>). */
module Executors {
  import opened Sequences
  import opened Tasks
  import opened Queues
  import opened AllocateMethods
  import opened Machine
  import opened Finishing
  import opened Starting
  import opened Admitting
  import opened States
  import opened Steps
  import opened Clock
  import opened Jobs
  import opened Results
  import opened Delivery

  class Executor {
    const c: Config
    const timeManager: TimeManagerSimulator
    const mq: MacrotaskQueue
    /** The jobs in execution. */
    var jobs: map<nat, Job>
    var currentComputationalResource: nat
    ghost var history: History
    /** What the jobs are like. */
    ghost var states: map<nat, JobState>

    /** Each job is filed under its own number. */
    ghost predicate JobsFiled()
      reads `jobs, `states, jobs.Values
    {
      && jobs.Keys == states.Keys
      && forall j :: j in jobs ==>
           jobs[j].c == c && jobs[j].Valid() && jobs[j].query.jobId == j && states[j] == jobs[j].State()
    }

    ghost predicate Valid()
      reads this, jobs.Values, timeManager, mq
    {
      c.WellFormed() && mq.c == c && mq.Valid() && timeManager.Valid() && JobsFiled()
    }

    /** The executor is in state `s`; the entries `rest` are finished but not yet
        processed. */
    ghost predicate Is(s: State, rest: multiset<Running>)
      reads this, jobs.Values, timeManager, mq
    {
      match s
      case State(h, now, current, jobs, waiting, next, flight) =>
        && Valid()
        && h == history && now == timeManager.currentTime && current == currentComputationalResource && jobs == states
        && waiting == multiset(mq.waitingQueue) && next == multiset(mq.execNextQueue)
        && flight == multiset(mq.executingQueueSimulator) + rest
    }

    constructor (c: Config, timeManager: TimeManagerSimulator)
      requires c.WellFormed() && timeManager.Valid()
      ensures this.c == c && this.timeManager == timeManager && fresh(mq)
      ensures Valid() && jobs == map[] && currentComputationalResource == 0
    {
      this.c, this.timeManager := c, timeManager;
      mq := new MacrotaskQueue(c);
      jobs := map[];
      currentComputationalResource := 0;
      history := History(map[], {}, {});
      states := map[];
    }

    /** Forgets everything. */
    method Init()
      requires c.WellFormed() && mq.c == c && timeManager.Valid()
      modifies this, mq
      ensures var empty := State(History(map[], {}, {}), timeManager.currentTime, 0, map[], multiset{}, multiset{},
                                 multiset{});
              Safe(empty, multiset{})
      ensures mq.execNextQueue == [] && jobs == map[] && !IsContinue()
    {
      currentComputationalResource := 0;
      mq.Clear();
      jobs, states, history := map[], map[], History(map[], {}, {});
      EmptyIsOk(c, timeManager.currentTime);
    }

    predicate IsContinue()
      reads mq
    {
      mq.Size() > 0
    }

    /** How many more jobs may be executed; the subtraction does not wrap. */
    function NumAcceptableQueries(): nat
      requires |jobs| <= c.maxNumExecutingJobs
      reads `jobs
    {
      c.maxNumExecutingJobs - |jobs|
    }

    /** Macrotasks become ready. */
    method WaitingQueueEmplaceAll(solved: seq<nat>, query: Query, readyTime: nat)
      requires mq.Valid() && JobsFiled()
      modifies mq`waitingQueue
      ensures mq.Valid() && JobsFiled()
      ensures multiset(mq.waitingQueue) == old(multiset(mq.waitingQueue)) + multiset(Emitted(query, solved, readyTime))
    {
      EmplaceAll(mq, solved, query, readyTime);
    }

    /** A macrotask of one job is finished; the other jobs do not notice. */
    method FinishTask(j: nat, v: nat, t: nat) returns (isEnd: bool, solved: seq<nat>)
      requires JobsFiled() && j in states && v < |states[j].log| && AppKnown(c, states[j].query)
      requires App(c, states[j].query).graph.Consistent()
      modifies `states, jobs.Values
      ensures JobsFiled() && states == old(states)[j := FinishedJob(c, old(states)[j], v, t)]
      ensures solved == Solved(old(states)[j].inputDependency, App(c, old(states)[j].query).graph.next[v], v)
      ensures isEnd <==> old(states)[j].finalMacrotaskId - {v} == {}
    {
      hide Finish, LogFinish, Solved;
      assert forall i :: i in jobs && i != j ==> jobs[i] != jobs[j];
      ghost var js := FinishedJob(c, states[j], v, t);
      isEnd, solved := jobs[j].FinishTask(v, t);
      assert jobs[j].State() == js;
      states := states[j := js];
    }

    /** The entry is one the executor knows how to process. */
    ghost predicate Holds(r: Running)
      reads `states
    {
      && JobOf(r) in states && TaskOf(r) < |states[JobOf(r)].log|
      && AppKnown(c, states[JobOf(r)].query) && TaskOf(r) < |App(c, states[JobOf(r)].query).graph.next|
      && App(c, states[JobOf(r)].query).graph.Consistent()
      && r.emt.wmt.query == states[JobOf(r)].query
    }

    /** The threads of a finished entry are free again. */
    method GiveBack(r: Running)
      requires r.emt.numThreads <= currentComputationalResource && JobsFiled()
      modifies `currentComputationalResource, `history
      ensures currentComputationalResource == old(currentComputationalResource) - r.emt.numThreads
      ensures history == Finished(old(history), (JobOf(r), TaskOf(r))) && JobsFiled()
    {
      currentComputationalResource := currentComputationalResource - r.emt.numThreads;
      history := Finished(history, (JobOf(r), TaskOf(r)));
    }

    /** A job that has ended leaves the executor. */
    method TakeOut(j: nat, t: nat) returns (finished: Option<JobState>)
      requires JobsFiled() && j in jobs
      modifies `jobs, `states, jobs.Values
      ensures JobsFiled() && jobs == old(jobs) - {j} && states == old(states) - {j}
      ensures finished == Some(AtFinish(old(states)[j], t))
    {
      var job := jobs[j];
      job.FinishTime(t);
      finished := Some(job.State());
      jobs := jobs - {j};
      states := states - {j};
    }

    /** One of the finished entries: threads are given back, dependencies
        resolved, and a job that ends is taken out. */
    method ProcessFinished(r: Running) returns (finished: Option<JobState>)
      requires Valid() && Holds(r) && r.emt.numThreads <= currentComputationalResource
      modifies `currentComputationalResource, `jobs, `states, `history, mq`waitingQueue, jobs.Values
      ensures Valid() && jobs.Values <= old(jobs.Values)
      ensures currentComputationalResource == old(currentComputationalResource) - r.emt.numThreads
      ensures history == Finished(old(history), (JobOf(r), TaskOf(r)))
      ensures states == JobsAfterFinish(c, old(states), JobOf(r), old(states)[JobOf(r)], TaskOf(r), r.finishTime)
      ensures multiset(mq.waitingQueue) == old(multiset(mq.waitingQueue)) + NewlyReady(c, old(states)[JobOf(r)], r)
      ensures finished == EndOf(c, old(states)[JobOf(r)], r)
    {
      hide JobsFiled, Finished, FinishedJob, AtFinish, Solved, Emitted, MacrotaskQueue.Valid, Config.WellFormed;
      var jobId := r.emt.wmt.query.jobId;
      GiveBack(r);
      var isEnd, solved := FinishTask(jobId, r.emt.wmt.macrotaskId, r.finishTime);
      WaitingQueueEmplaceAll(solved, r.emt.wmt.query, r.finishTime);
      finished := None;
      if isEnd {
        RemoveUpdated(old(states), jobId, states[jobId]);
        finished := TakeOut(jobId, r.finishTime);
      }
    }

    /** The same as a step of the whole executor. */
    method ProcessNext(r: Running, ghost rest: multiset<Running>, ghost s: State)
      returns (finished: Option<JobState>, ghost t: State)
      requires Is(s, rest + multiset{r}) && Holds(r) && r.emt.numThreads <= currentComputationalResource
      modifies `currentComputationalResource, `jobs, `states, `history, mq`waitingQueue, jobs.Values
      ensures jobs.Values <= old(jobs.Values)
      ensures t == AfterFinish(c, s, r) && Is(t, rest)
      ensures finished == EndOf(c, s.jobs[JobOf(r)], r)
    {
      hide JobsFiled, NewlyReady, JobsAfterFinish, EndOf, Finished;
      finished := ProcessFinished(r);
      t := AfterFinish(c, s, r);
      assert t.flight == multiset(mq.executingQueueSimulator) + rest;
    }

    lemma FlightHolds(s: State, rest: multiset<Running>, r: Running)
      requires Ok(c, s) && Is(s, rest) && r in s.flight
      ensures Holds(r) && r.emt.numThreads <= currentComputationalResource
    {
      FlightJob(c, s, r);
      AppIsSane(c, s.jobs[JobOf(r)].query);
      FinishKeepsAccount(c, s.current, s.next, s.flight, r);
    }

    /** The executor is in a state that is as it should be; the entries `rest` are
        finished but not yet processed. */
    ghost predicate Safe(s: State, rest: multiset<Running>)
      reads this, jobs.Values, timeManager, mq
    {
      Is(s, rest) && Ok(c, s)
    }

    /** Processes one entry, keeping what every step keeps. */
    method ProcessSafely(r: Running, ghost rest: multiset<Running>, ghost s: State)
      returns (finished: Option<JobState>, ghost t: State)
      requires Safe(s, rest + multiset{r}) && FirstToFinish(s, r)
      modifies `currentComputationalResource, `jobs, `states, `history, mq`waitingQueue, jobs.Values
      ensures jobs.Values <= old(jobs.Values)
      ensures Safe(t, rest) && Winds(s, t) && Ends(c, s, t, finished) && t.flight == s.flight - multiset{r}
    {
      hide Ok, Delivered, Handed;
      FlightHolds(s, rest + multiset{r}, r);
      FinishStep(c, s, r);
      FinishEnds(c, s, r);
      finished, t := ProcessNext(r, rest, s);
    }

    /** The entries that are finished by now, earliest first. */
    method TakeFinished(ghost s: State) returns (finished: seq<Running>)
      requires Safe(s, multiset{})
      modifies mq`executingQueueSimulator
      ensures Safe(s, multiset(finished)) && Due(c, s.now, finished, multiset(mq.executingQueueSimulator))
      ensures s.flight == multiset(mq.executingQueueSimulator) + multiset(finished)
    {
      hide Ok, JobsFiled;
      finished := mq.ExecutingQueueSimulatorFinishedEmt(timeManager.currentTime);
    }

    /** Processes everything that is finished by now. */
    method UpdateExecutingJobs(ghost s: State) returns (result: seq<JobState>, ghost t: State)
      requires Safe(s, multiset{})
      modifies `currentComputationalResource, `jobs, `states, `history, mq`waitingQueue, mq`executingQueueSimulator
      modifies jobs.Values
      ensures jobs.Values <= old(jobs.Values)
      ensures Safe(t, multiset{}) && Handed(c, s, t, result)
      ensures OnlyDueLeft(s.now, s.flight, t.flight)
    {
      hide Ok, Is, Handed, Ends, JobsFiled, Due, OnlyDueLeft, FirstToFinish, Safe;
      var finished := TakeFinished(s);
      ghost var running := multiset(mq.executingQueueSimulator);
      DueHaveLeft(c, s.now, finished, running, s.flight);
      result, t := [], s;
      HandNone(c, s);
      assert finished[0..] == finished;
      for i := 0 to |finished|
        invariant jobs.Values <= old(jobs.Values)
        invariant Safe(t, multiset(finished[i..])) && Handed(c, s, t, result)
        invariant t.flight == running + multiset(finished[i..]) && t.now == s.now
      {
        NextIsFirst(c, finished, i, running, t);
        ghost var u := t;
        var f;
        f, t := ProcessSafely(finished[i], multiset(finished[i + 1..]), u);
        HandOver(c, s, u, t, result, f);
        if f.Some? {
          result := result + [f.value];
        }
      }
      assert t.flight == running;
    }

    /** A job is set up for the query; `filed` is the query as the job keeps it. */
    method FileJob(q: Query) returns (filed: Query)
      requires c.WellFormed() && JobsFiled() && AppKnown(c, q) && q.jobId !in jobs
      modifies `jobs, `states
      ensures JobsFiled() && forall o :: o in jobs.Values && o !in old(jobs.Values) ==> fresh(o)
      ensures q.jobId in jobs && jobs.Keys == old(jobs.Keys) + {q.jobId}
      ensures states == old(states)[q.jobId := NewJob(c, q)] && filed == WithDeadline(c, q)
    {
      hide NewJob, WithDeadline, Laid, Config.WellFormed, Application.WellFormed;
      NewJobId(c, q);
      AppIsSane(c, q);
      var job := new Job(c, q);
      filed := job.query;
      jobs := jobs[q.jobId := job];
      states := states[q.jobId := NewJob(c, q)];
    }

    /** The query may become a job. */
    ghost predicate MayFile(q: Query)
      reads `jobs
    {
      AppKnown(c, q) && q.jobId !in jobs && |App(c, q).graph.next| > 0 && App(c, q).graph.Consistent()
    }

    /** Its virtual source is finished at once. */
    method SetUpJob(q: Query) returns (filed: Query, solved: seq<nat>)
      requires MayFile(q) && Valid()
      modifies `jobs, `states, jobs.Values
      ensures JobsFiled() && forall o :: o in jobs.Values && o !in old(jobs.Values) ==> fresh(o)
      ensures states == old(states)[q.jobId := AdmittedJob(c, q, timeManager.currentTime)]
      ensures filed == WithDeadline(c, q) && solved == FirstSolved(c, q)
    {
      hide FinishedJob, JobsFiled, NewJob, Config.WellFormed, Application.WellFormed, Solved;
      NewJobId(c, q);
      filed := FileJob(q);
      UpdateTwice(old(states), q.jobId, NewJob(c, q), AdmittedJob(c, q, timeManager.currentTime));
      var isEnd;
      isEnd, solved := FinishTask(q.jobId, 0, timeManager.currentTime);
    }

    /** A query becomes a job, and what is ready then waits. */
    method AdmitQuery(q: Query)
      requires MayFile(q) && Valid()
      modifies `jobs, `states, `history, mq`waitingQueue, jobs.Values
      ensures Valid() && forall o :: o in jobs.Values && o !in old(jobs.Values) ==> fresh(o)
      ensures history == Admitted(old(history), WithDeadline(c, q))
      ensures states == old(states)[q.jobId := AdmittedJob(c, q, timeManager.currentTime)]
      ensures multiset(mq.waitingQueue) ==
                old(multiset(mq.waitingQueue)) + multiset(Emitted(WithDeadline(c, q), FirstSolved(c, q), q.startTime))
    {
      hide AdmittedJob, JobsFiled, Config.WellFormed, WithDeadline, FirstSolved, Emitted;
      var filed, solved := SetUpJob(q);
      WaitingQueueEmplaceAll(solved, filed, q.startTime);
      history := Admitted(history, filed);
    }

    /** The same as a step of the whole executor. */
    method AdmitNext(q: Query, ghost s: State) returns (ghost t: State)
      requires Is(s, multiset{}) && AppKnown(c, q) && q.jobId !in s.jobs && |App(c, q).graph.next| > 0
      requires App(c, q).graph.Consistent()
      modifies `jobs, `states, `history, mq`waitingQueue, jobs.Values
      ensures forall o :: o in jobs.Values && o !in old(jobs.Values) ==> fresh(o)
      ensures t == AfterAdmit(c, s, WithDeadline(c, q)) && Is(t, multiset{})
    {
      hide JobsFiled, AdmittedJob, WithDeadline, FirstSolved, Emitted;
      SameJob(c, q, s.now);
      assert q.jobId !in jobs by { KeysFiled(); }
      AdmitQuery(q);
      t := AfterAdmit(c, s, WithDeadline(c, q));
    }

    lemma KeysFiled()
      requires JobsFiled()
      ensures jobs.Keys == states.Keys
    {
    }

    /** The same, keeping what every step keeps. */
    method AdmitSafely(q: Query, ghost s: State) returns (ghost t: State)
      requires Safe(s, multiset{}) && AppKnown(c, q) && q.jobId !in s.h.admitted
      requires q.receivedTime <= q.startTime == s.now && forall r :: r in s.flight ==> r.finishTime > s.now
      modifies `jobs, `states, `history, mq`waitingQueue, jobs.Values
      ensures forall o :: o in jobs.Values && o !in old(jobs.Values) ==> fresh(o)
      ensures Safe(t, multiset{}) && Received(c, s, t, [q])
    {
      hide Ok, JobsFiled;
      AdmitIsSafe(c, s, q);
      t := AdmitNext(q, s);
    }

    /** Makes jobs of the queries, in their order. */
    method UpdateQueries(queries: seq<Query>, ghost s: State) returns (ghost t: State)
      requires Safe(s, multiset{}) && Incoming(c, s, queries) && forall r :: r in s.flight ==> r.finishTime > s.now
      modifies `jobs, `states, `history, mq`waitingQueue, jobs.Values
      ensures forall o :: o in jobs.Values && o !in old(jobs.Values) ==> fresh(o)
      ensures Safe(t, multiset{}) && Received(c, s, t, queries)
    {
      hide Ok, Is, JobsFiled;
      t := s;
      ReceivedNone(c, s);
      for i := 0 to |queries|
        invariant forall o :: o in jobs.Values && o !in old(jobs.Values) ==> fresh(o)
        invariant Safe(t, multiset{}) && Received(c, s, t, queries[..i])
      {
        ghost var u := t;
        ReceiveNext(c, s, u, queries, i);
        t := AdmitSafely(queries[i], u);
        ReceiveOne(c, s, u, t, queries, i);
      }
      assert queries[..|queries|] == queries;
    }

    /** A macrotask of one job is executed; the other jobs do not notice. */
    method ExecuteTask(e: EMT)
      requires JobsFiled() && Startable(c, states, e)
      modifies `states, jobs.Values
      ensures JobsFiled()
      ensures states == JobsAfterStart(c, old(states), e, timeManager.currentTime)
    {
      hide Start, Job.Valid, ValidThreads;
      var j, v := e.wmt.query.jobId, e.wmt.macrotaskId;
      assert forall i :: i in jobs && i != j ==> jobs[i] != jobs[j];
      jobs[j].Execute(v, timeManager.currentTime);
      states := states[j := jobs[j].State()];
    }

    /** The head of the queue gets its threads. */
    method TakeNext(ghost s: State) returns (e: EMT, ghost t: State)
      requires Is(s, multiset{}) && mq.execNextQueue != []
      modifies `currentComputationalResource, mq`execNextQueue
      ensures e == old(mq.execNextQueue[0]) && mq.execNextQueue == old(mq.execNextQueue[1..])
      ensures t == s.(current := s.current + e.numThreads, next := s.next - multiset{e}) && Is(t, multiset{})
    {
      hide JobsFiled, Config.WellFormed;
      currentComputationalResource := currentComputationalResource + mq.execNextQueue[0].numThreads;
      e := mq.ExecNextQueuePopFrontMove();
      t := s.(current := s.current + e.numThreads, next := s.next - multiset{e});
      PopsOne(old(mq.execNextQueue));
    }

    /** The operations of the entry are executed. */
    method ExecuteReady(e: EMT, ghost s: State) returns (ghost t: State)
      requires Is(s, multiset{}) && Startable(c, s.jobs, e)
      modifies `states, jobs.Values
      ensures t == s.(jobs := JobsAfterStart(c, s.jobs, e, s.now)) && Is(t, multiset{})
    {
      hide JobsFiled, Startable, JobsAfterStart, MacrotaskQueue.Valid, Config.WellFormed;
      ExecuteTask(e);
      t := s.(jobs := JobsAfterStart(c, s.jobs, e, s.now));
    }

    /** The entry goes into execution and announces when it will be finished. */
    method PutInExecution(e: EMT, ghost s: State) returns (ghost t: State)
      requires Is(s, multiset{}) && ValidThreads(c, e)
      modifies `history, mq`executingQueueSimulator, timeManager`nextEventOccuringTimeQueue
      ensures t == s.(h := Started(s.h, Key(e.wmt)), flight := s.flight + multiset{Launched(c, s.now, e)})
      ensures Is(t, multiset{})
      ensures timeManager.Events() == old(timeManager.Events()) + multiset{Launched(c, s.now, e).finishTime}
    {
      hide JobsFiled, Started, MacrotaskQueue.Valid, Config.WellFormed;
      var expectedFinishTime := timeManager.currentTime + InfoOf(c, e.wmt).execTime[e.numThreads];
      timeManager.PushNextEventOccuringTime(expectedFinishTime);
      mq.ExecutingQueueSimulatorEmplace(Running(expectedFinishTime, e));
      history := Started(history, Key(e.wmt));
      t := s.(h := Started(s.h, Key(e.wmt)), flight := s.flight + multiset{Launched(c, s.now, e)});
    }

    /** The next of the macrotasks with threads is executed, and will be finished
        when its table says. */
    method ExecuteNext(ghost s: State) returns (ghost t: State, ghost e: EMT)
      requires Is(s, multiset{}) && mq.execNextQueue != [] && Startable(c, s.jobs, mq.execNextQueue[0])
      modifies `currentComputationalResource, `states, `history, mq`execNextQueue, mq`executingQueueSimulator
      modifies jobs.Values
      modifies timeManager`nextEventOccuringTimeQueue
      ensures e == old(mq.execNextQueue[0]) && Startable(c, s.jobs, e) && ValidThreads(c, e)
      ensures t == AfterStart(c, s, e) && Is(t, multiset{}) && mq.execNextQueue == old(mq.execNextQueue[1..])
      ensures timeManager.Events() == old(timeManager.Events()) + multiset{Launched(c, s.now, e).finishTime}
    {
      hide Is, JobsFiled, Startable, ValidThreads, Started, Launched, JobsAfterStart;
      HasThreads(c, s.jobs, mq.execNextQueue[0]);
      var next;
      next, t := TakeNext(s);
      t := ExecuteReady(next, t);
      t := PutInExecution(next, t);
      e := next;
    }

    /** Decides who is executed next, and on how many threads. */
    method Allocate(ghost s: State) returns (ghost t: State, ghost given: seq<EMT>)
      requires Safe(s, multiset{}) && mq.execNextQueue == []
      modifies mq`waitingQueue, mq`execNextQueue
      ensures Safe(t, multiset{}) && mq.execNextQueue == given
      ensures HandedOut(c, s, t, old(mq.waitingQueue), mq.waitingQueue, given)
    {
      hide Ok, JobsFiled, Granted, AsConfigured, AllExecutable, AllResizable, CannotShare;
      WaitingIsExecutable(c, s, mq.waitingQueue);
      FreeThreads(c, s);
      ghost var before := mq.waitingQueue;
      WorkableCanShare(c, before, c.maxThreads - currentComputationalResource);
      ghost var ok;
      ok, given := CalculateAllocatedComputationalResource(mq, currentComputationalResource);
      t := s.(waiting := multiset(mq.waitingQueue), next := multiset(given));
      HandOutIsSafe(c, s, t, before, mq.waitingQueue, given);
    }

    /** The same as ExecuteNext, keeping what every step keeps. */
    method ExecuteSafely(ghost s: State, ghost u: State, ghost before: seq<Running>)
      returns (ghost t: State, ghost launched: seq<Running>)
      requires Safe(u, multiset{}) && mq.execNextQueue != [] && LaunchedSince(s, u, before)
      modifies `currentComputationalResource, `states, `history, mq`execNextQueue, mq`executingQueueSimulator
      modifies jobs.Values
      modifies timeManager`nextEventOccuringTimeQueue
      ensures Safe(t, multiset{}) && LaunchedSince(s, t, launched) && mq.execNextQueue == old(mq.execNextQueue)[1..]
      ensures |launched| > 0 && launched[..|launched| - 1] == before
      ensures launched[|launched| - 1].emt == old(mq.execNextQueue)[0]
      ensures timeManager.Events() == old(timeManager.Events()) + multiset{launched[|launched| - 1].finishTime}
    {
      hide Ok, JobsFiled, LaunchedSince;
      ghost var e := mq.execNextQueue[0];
      assert e in u.next;
      NextJob(c, u, e);
      StartStep(c, u, e);
      LaunchOne(c, s, u, before, e);
      t, e := ExecuteNext(u);
      launched := before + [Launched(c, u.now, e)];
    }

    /** Hands out threads and starts the macrotasks served. */
    method ExecuteTasks(ghost s: State) returns (ghost t: State, ghost given: seq<EMT>, ghost launched: seq<Running>)
      requires Safe(s, multiset{}) && mq.execNextQueue == []
      modifies `currentComputationalResource, `states, `history, mq, jobs.Values
      modifies timeManager`nextEventOccuringTimeQueue
      ensures Safe(t, multiset{}) && mq.execNextQueue == [] && |launched| == |given|
      ensures forall i :: 0 <= i < |given| ==> launched[i].emt == given[i]
      ensures exists u ::
                HandedOut(c, s, u, old(mq.waitingQueue), mq.waitingQueue, given) && LaunchedSince(u, t, launched)
      ensures timeManager.Events() == old(timeManager.Events()) + multiset(FinishTimes(launched))
    {
      hide Ok, Is, JobsFiled, HandedOut, LaunchedSince;
      ghost var u;
      u, given := Allocate(s);
      t, launched := u, [];
      LaunchedNone(u);
      while |mq.execNextQueue| > 0
        invariant Safe(t, multiset{}) && LaunchedSince(u, t, launched)
        invariant HandedOut(c, s, u, old(mq.waitingQueue), mq.waitingQueue, given)
        invariant |launched| <= |given| && mq.execNextQueue == given[|launched|..]
        invariant forall i :: 0 <= i < |launched| ==> launched[i].emt == given[i]
        invariant timeManager.Events() == old(timeManager.Events()) + multiset(FinishTimes(launched))
        decreases |mq.execNextQueue|
      {
        ghost var before := launched;
        t, launched := ExecuteSafely(u, t, launched);
        FinishTimesAppend(before, launched);
      }
    }
  }

  lemma HasThreads(c: Config, jobs: map<nat, JobState>, e: EMT)
    requires Startable(c, jobs, e)
    ensures ValidThreads(c, e)
  {
  }

  lemma PopsOne<T>(q: seq<T>)
    requires q != []
    ensures multiset(q[1..]) == multiset(q) - multiset{q[0]}
  {
    assert q == [q[0]] + q[1..];
  }

  lemma UpdateTwice<T>(m: map<nat, T>, j: nat, x: T, y: T)
    ensures m[j := x][j := y] == m[j := y]
  {
  }

  lemma RemoveUpdated<T>(m: map<nat, T>, j: nat, x: T)
    ensures m[j := x] - {j} == m - {j}
  {
  }

  method EmplaceAll(mq: MacrotaskQueue, solved: seq<nat>, query: Query, readyTime: nat)
    requires mq.Valid()
    modifies mq`waitingQueue
    ensures mq.Valid()
    ensures multiset(mq.waitingQueue) == old(multiset(mq.waitingQueue)) + multiset(Emitted(query, solved, readyTime))
  {
    hide Emitted;
    ghost var emitted: multiset<WMT> := multiset{};
    EmittedNone(query, readyTime);
    for i := 0 to |solved|
      invariant mq.Valid()
      invariant emitted == multiset(Emitted(query, solved[..i], readyTime))
      invariant multiset(mq.waitingQueue) == old(multiset(mq.waitingQueue)) + emitted
    {
      mq.WaitingQueueEmplace(WMT(solved[i], query, readyTime));
      EmittedNext(query, solved, readyTime, i);
      emitted := emitted + multiset{WMT(solved[i], query, readyTime)};
    }
    assert solved[..|solved|] == solved;
  }

  lemma NewJobId(c: Config, q: Query)
    requires AppKnown(c, q)
    ensures NewJob(c, q).query == WithDeadline(c, q) && WithDeadline(c, q).jobId == q.jobId
    ensures NewJob(c, q).inputDependency == App(c, q).graph.previous && |NewJob(c, q).log| == |App(c, q).graph.next|
  {
  }

  /** A deadline is set only once. */
  lemma SameJob(c: Config, q: Query, now: nat)
    requires AppKnown(c, q) && |App(c, q).graph.next| > 0
    ensures AppKnown(c, WithDeadline(c, q)) && App(c, WithDeadline(c, q)) == App(c, q)
    ensures AdmittedJob(c, WithDeadline(c, q), now) == AdmittedJob(c, q, now)
    ensures FirstReadyOf(c, WithDeadline(c, q)) ==
              multiset(Emitted(WithDeadline(c, q), FirstSolved(c, q), q.startTime))
    ensures WithDeadline(c, WithDeadline(c, q)) == WithDeadline(c, q) && WithDeadline(c, q).jobId == q.jobId
  {
    assert NewJob(c, WithDeadline(c, q)) == NewJob(c, q);
  }

  lemma FinishTimesAppend(before: seq<Running>, launched: seq<Running>)
    requires |launched| > 0 && launched[..|launched| - 1] == before
    ensures multiset(FinishTimes(launched)) ==
              multiset(FinishTimes(before)) + multiset{launched[|launched| - 1].finishTime}
  {
    assert FinishTimes(launched) == FinishTimes(before) + [launched[|launched| - 1].finishTime];
  }

  lemma EmittedNone(query: Query, readyTime: nat)
    ensures multiset(Emitted(query, [], readyTime)) == multiset{}
  {
  }

  lemma EmittedNext(query: Query, solved: seq<nat>, readyTime: nat, i: nat)
    requires i < |solved|
    ensures multiset(Emitted(query, solved[..i + 1], readyTime)) ==
              multiset(Emitted(query, solved[..i], readyTime)) + multiset{WMT(solved[i], query, readyTime)}
  {
    assert solved[..i + 1][..i] == solved[..i];
  }
}
