/** Every step keeps the invariant of the executor. */
module Steps {
  import opened Tasks
  import opened AllocateMethods
  import opened Machine
  import opened Finishing
  import opened Starting
  import opened Admitting
  import opened States
  import opened Readiness

  lemma AppIsSane(c: Config, q: Query)
    requires c.WellFormed() && AppKnown(c, q)
    ensures App(c, q).WellFormed() && App(c, q).graph.WellFormed() && Sane(App(c, q).graph)
  {
    var g := App(c, q).graph;
    assert App(c, q).WellFormed();
    forall u | 0 <= u < |g.next| ensures NoRepeats(g.next[u]) {}
  }

  /** The clock goes on. */
  lemma Tick(c: Config, s: State, now: nat)
    requires Ok(c, s) && s.now <= now
    ensures Ok(c, s.(now := now))
  {
    forall j | j in s.h.admitted ensures AdmittedOk(c, s.h, now, j) { assert AdmittedOk(c, s.h, s.now, j); }
    forall j | j in s.jobs ensures LogOk(c, s.h, now, j, s.jobs[j]) { assert LogOk(c, s.h, s.now, j, s.jobs[j]); }
  }

  /** An entry in execution belongs to a job in execution, which knows its macrotask. */
  lemma FlightJob(c: Config, s: State, r: Running)
    requires c.WellFormed() && Ok(c, s) && r in s.flight
    ensures JobOf(r) in s.jobs && JobOf(r) in s.h.admitted
    ensures var js := s.jobs[JobOf(r)];
            && js.query == s.h.admitted[JobOf(r)] == r.emt.wmt.query && js.query.jobId == JobOf(r)
            && AppKnown(c, js.query)
            && 0 < TaskOf(r) < |js.log| == Size(c, js.query)
            && (JobOf(r), TaskOf(r)) in s.h.started && (JobOf(r), TaskOf(r)) !in s.h.done
            && DependenciesOk(c, s.h, JobOf(r), js)
  {
    assert FinishesAsPlanned(c, s.jobs, r);
    FinishKeepsFlight(c, s.h, s.flight, r);
    assert Ready(c, s.h, Key(r.emt.wmt));
    assert AdmittedOk(c, s.h, s.now, JobOf(r));
    assert DependenciesOk(c, s.h, JobOf(r), s.jobs[JobOf(r)]);
    assert LogOk(c, s.h, s.now, JobOf(r), s.jobs[JobOf(r)]);
  }

  /** The next of the finished entries is processed. */
  lemma FinishStep(c: Config, s: State, r: Running)
    requires c.WellFormed() && Ok(c, s) && r in s.flight && r.finishTime <= s.now
    requires forall x :: x in s.flight ==> r.finishTime <= x.finishTime
    ensures JobOf(r) in s.jobs && r.emt.numThreads <= s.current && AppKnown(c, s.jobs[JobOf(r)].query)
    ensures TaskOf(r) < |s.jobs[JobOf(r)].log| && TaskOf(r) < |App(c, s.jobs[JobOf(r)].query).graph.next|
    ensures Ok(c, AfterFinish(c, s, r))
  {
    hide HistoryOk, WaitingOk, FlightOk, AccountOk, JobsOk, LogsOk, FinishOk, OrdersOk, StartsOk, ReadyOk;
    hide DependenciesOk, JobsAfterFinish;
    var j, v := JobOf(r), TaskOf(r);
    FlightJob(c, s, r);
    var js := s.jobs[j];
    var solved := Solved(js.inputDependency, App(c, js.query).graph.next[v], v);
    AppIsSane(c, js.query);
    FinishKeepsHistory(c, s.h, s.now, (j, v));
    FinishKeepsWaiting(c, s.h, s.now, j, js, v, solved, r.finishTime, s.waiting, s.next);
    FinishKeepsFlight(c, s.h, s.flight, r);
    FinishAccount(c, s, r);
    FinishKeepsJobs(c, s.h, s.now, s.jobs, j, v, r.finishTime);
    FinishIsTimed(c, s, r);
    PlannedInFlight(c, s, r);
    FinishKeepsLogs(c, s.h, s.now, s.jobs, j, v, r.finishTime);
    RestHasJobs(c, s, r);
    FinishKeepsFinish(c, s.h, s.jobs, JobsAfterFinish(c, s.jobs, j, js, v, r.finishTime), s.flight, r);
    FinishKeepsOrders(c, s.h, s.jobs, j, v, r.finishTime);
    FinishKeepsStarts(c, s.jobs, j, v, r.finishTime);
    FinishKeepsReady(c, s.h, s.now, s.jobs, JobsAfterFinish(c, s.jobs, j, js, v, r.finishTime), j, v, r.finishTime,
                     s.waiting, s.next);
  }

  lemma FinishAccount(c: Config, s: State, r: Running)
    requires AccountOk(c, s.current, s.next, s.flight) && r in s.flight && JobOf(r) in s.jobs
    requires AppKnown(c, s.jobs[JobOf(r)].query)
    requires TaskOf(r) < |s.jobs[JobOf(r)].log| && TaskOf(r) < |App(c, s.jobs[JobOf(r)].query).graph.next|
    ensures r.emt.numThreads <= s.current
    ensures AccountOk(c, AfterFinish(c, s, r).current, AfterFinish(c, s, r).next, AfterFinish(c, s, r).flight)
  {
    FinishKeepsAccount(c, s.current, s.next, s.flight, r);
  }

  lemma PlannedInFlight(c: Config, s: State, r: Running)
    requires Ok(c, s) && r in s.flight
    ensures FinishesAsPlanned(c, s.jobs, r) && NothingFinishedAfter(s.h, s.jobs, r.finishTime)
  {
  }

  lemma FinishIsTimed(c: Config, s: State, r: Running)
    requires c.WellFormed() && Ok(c, s) && r in s.flight
    ensures JobOf(r) in s.jobs && TaskOf(r) < |s.jobs[JobOf(r)].log| && AppKnown(c, s.jobs[JobOf(r)].query)
    ensures Timed(c, s.jobs[JobOf(r)].query, TaskOf(r), (s.jobs[JobOf(r)].log[TaskOf(r)].0, r.finishTime))
  {
    hide Ok;
    FlightJob(c, s, r);
    PlannedInFlight(c, s, r);
    assert MayTake(c, s.jobs[JobOf(r)].query, TaskOf(r), r.emt.numThreads);
  }

  lemma RestHasJobs(c: Config, s: State, r: Running)
    requires c.WellFormed() && Ok(c, s) && r in s.flight && JobOf(r) in s.jobs && AppKnown(c, s.jobs[JobOf(r)].query)
    requires TaskOf(r) < |s.jobs[JobOf(r)].log| && TaskOf(r) < |App(c, s.jobs[JobOf(r)].query).graph.next|
    requires JobsOk(c, Finished(s.h, (JobOf(r), TaskOf(r))),
                    JobsAfterFinish(c, s.jobs, JobOf(r), s.jobs[JobOf(r)], TaskOf(r), r.finishTime))
    ensures forall x :: x in s.flight - multiset{r} ==>
              JobOf(x) in JobsAfterFinish(c, s.jobs, JobOf(r), s.jobs[JobOf(r)], TaskOf(r), r.finishTime)
  {
    var h2 := Finished(s.h, (JobOf(r), TaskOf(r)));
    FinishKeepsFlight(c, s.h, s.flight, r);
    FinishKeepsHistory(c, s.h, s.now, (JobOf(r), TaskOf(r)));
    forall x | x in s.flight - multiset{r}
      ensures JobOf(x) in JobsAfterFinish(c, s.jobs, JobOf(r), s.jobs[JobOf(r)], TaskOf(r), r.finishTime)
    {
      StillInFlight(c, h2, s.now, s.flight - multiset{r}, x);
    }
  }

  /** An entry with threads at hand belongs to a job in execution. */
  lemma NextJob(c: Config, s: State, e: EMT)
    requires c.WellFormed() && Ok(c, s) && e in s.next
    ensures Key(e.wmt).0 in s.jobs && ValidThreads(c, e) && Refers(s.h, e.wmt)
    ensures Ready(c, s.h, Key(e.wmt)) && Key(e.wmt) !in s.h.started
    ensures var js := s.jobs[Key(e.wmt).0];
            && js.query == s.h.admitted[Key(e.wmt).0] == e.wmt.query && js.query.jobId == Key(e.wmt).0
            && AppKnown(c, js.query)
            && 0 < Key(e.wmt).1 < |js.log| == Size(c, js.query) == |App(c, js.query).operations|
  {
    NextIsReady(c, s.h, s.waiting, s.next, e);
    JobOfReady(c, s.h, s.now, s.jobs, Key(e.wmt));
    var j := Key(e.wmt).0;
    assert DependenciesOk(c, s.h, j, s.jobs[j]);
    assert LogOk(c, s.h, s.now, j, s.jobs[j]);
    AppIsSane(c, s.jobs[j].query);
  }

  lemma StartStep(c: Config, s: State, e: EMT)
    requires c.WellFormed() && Ok(c, s) && e in s.next
    ensures Startable(c, s.jobs, e) && Ok(c, AfterStart(c, s, e))
  {
    NextJob(c, s, e);
    var j, v := Key(e.wmt).0, Key(e.wmt).1;
    var r := Launched(c, s.now, e);
    StartKeepsHistory(c, s.h, s.now, (j, v));
    StartKeepsWaiting(c, s.h, s.waiting, s.next, e);
    StartKeepsFlight(c, s.h, s.now, s.flight, r);
    StartKeepsJobs(c, s.h, s.now, s.jobs, j, v);
    StartKeepsLogs(c, s.h, s.now, s.jobs, j, v);
    NextAsAllotted(c, s, e);
    StartKeepsFinish(c, s.h, s.now, s.jobs, s.flight, r);
    StartKeepsOrders(c, s.h, s.now, s.jobs, j, v);
    StartKeepsWidth(c, s.h, s.current, s.next, s.flight, e);
    StartAccount(c, s, e);
    StartKeepsStarts(c, s.h, s.now, s.jobs, j, v);
    StartKeepsReady(c, s.jobs, j, v, s.now, s.waiting, s.next, e);
  }

  lemma NextAsAllotted(c: Config, s: State, e: EMT)
    requires Ok(c, s) && e in s.next
    ensures AsAllotted(c, e)
  {
  }

  lemma StartAccount(c: Config, s: State, e: EMT)
    requires Startable(c, s.jobs, e) && e in s.next && AccountOk(c, s.current, s.next, s.flight)
    ensures AccountOk(c, AfterStart(c, s, e).current, AfterStart(c, s, e).next, AfterStart(c, s, e).flight)
  {
    StartKeepsAccount(c, s.current, s.next, s.flight, e, Launched(c, s.now, e));
  }

  lemma AdmitStep(c: Config, s: State, q: Query)
    requires c.WellFormed() && Ok(c, s) && AppKnown(c, q) && WithDeadline(c, q) == q
    requires q.jobId !in s.h.admitted && q.receivedTime <= q.startTime == s.now
    requires forall r :: r in s.flight ==> r.finishTime >= s.now
    ensures |App(c, q).graph.next| > 0
    ensures Ok(c, AfterAdmit(c, s, q))
  {
    AppIsSane(c, q);
    assert Admissible(c, s.h, s.now, q);
    AdmitKeepsHistory(c, s.h, s.now, q);
    AdmitKeepsWaiting(c, s.h, s.now, q, s.waiting, s.next,
                      Solved(App(c, q).graph.previous, App(c, q).graph.next[0], 0), q.startTime);
    AdmitKeepsFlight(c, s.h, s.now, q, s.flight);
    AdmitKeepsJobs(c, s.h, s.now, q, s.jobs);
    AdmitKeepsLogs(c, s.h, s.now, q, s.jobs);
    AdmitKeepsFinish(c, s.h, s.now, q, s.jobs, s.flight);
    AdmitKeepsOrders(c, s.h, s.now, q, s.jobs);
    AdmitKeepsWidth(c, s.h, s.now, q, s.next);
    AdmitKeepsStarts(c, q, s.now, s.jobs);
    AdmitKeepsReady(c, s.h, s.now, q, s.jobs, s.waiting, s.next);
  }

  /** Threads are handed out. */
  lemma AllocateStep(c: Config, s: State, waiting: seq<WMT>, after: seq<WMT>, given: seq<EMT>)
    requires Ok(c, s) && s.waiting == multiset(waiting) && s.next == multiset{}
    requires s.current <= c.maxThreads && Granted(c, waiting, after, given, c.maxThreads - s.current)
    requires AsConfigured(c, waiting, after, given, c.maxThreads - s.current)
    ensures Ok(c, s.(waiting := multiset(after), next := multiset(given)))
  {
    hide Granted, AsConfigured, AsAllotted, HistoryOk, JobsOk, LogsOk, FinishOk, OrdersOk, FlightOk, WaitingOnce;
    hide StartsOk, ReadyOk;
    AllocateKeepsWaiting(c, s.h, waiting, after, given, c.maxThreads - s.current);
    AllocateKeepsAccount(c, s.current, waiting, after, given, s.flight);
    AllocateKeepsWidth(c, s.h, waiting, after, given, c.maxThreads - s.current);
    AllocateKeepsReady(c, s.jobs, waiting, after, given, c.maxThreads - s.current);
  }

  lemma AllocateKeepsAccount(c: Config, current: nat, waiting: seq<WMT>, after: seq<WMT>, given: seq<EMT>,
                             flight: multiset<Running>)
    requires AccountOk(c, current, multiset{}, flight) && current <= c.maxThreads
    requires Granted(c, waiting, after, given, c.maxThreads - current)
    ensures AccountOk(c, current, multiset(given), flight)
  {
  }

  lemma AllocateKeepsWidth(c: Config, h: History, waiting: seq<WMT>, after: seq<WMT>, given: seq<EMT>, free: nat)
    requires WidthOk(c, h, multiset{})
    requires Granted(c, waiting, after, given, free) && AsConfigured(c, waiting, after, given, free)
    ensures WidthOk(c, h, multiset(given))
  {
    hide Granted, AsConfigured, AsAllotted;
    GivenAsAllotted(c, waiting, after, given, free);
  }
}
