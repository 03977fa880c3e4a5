/** Every job that ends is complete, there is always something to do while a job
    is in execution, and the schedule does not change the outcome. */
module Delivery {
  import opened Sequences
  import opened Graphs
  import opened Operands
  import opened Tasks
  import Search
  import opened AllocateMethods
  import opened Machine
  import opened Finishing
  import opened Starting
  import opened States
  import opened Steps
  import opened Results

  /** The job that ends with the entry `r` is complete. */
  lemma DeliveryIsComplete(c: Config, s: State, r: Running)
    requires c.WellFormed() && Ok(c, s) && r in s.flight && r.finishTime <= s.now
    requires JobOf(r) in s.jobs && AppKnown(c, s.jobs[JobOf(r)].query)
    requires TaskOf(r) < |s.jobs[JobOf(r)].log| && TaskOf(r) < |App(c, s.jobs[JobOf(r)].query).graph.next|
    requires s.jobs[JobOf(r)].finalMacrotaskId - {TaskOf(r)} == {}
    ensures Delivered(c, AtFinish(FinishedJob(c, s.jobs[JobOf(r)], TaskOf(r), r.finishTime), r.finishTime))
  {
    hide Ok, LogOk, OrderOk, LogDelivered, OperandsDelivered, Finished, FinishedJob, InOrderOfStart;
    var j, v := JobOf(r), TaskOf(r);
    var js := s.jobs[j];
    var h2 := Finished(s.h, (j, v));
    FlightJob(c, s, r);
    AllFinished(c, s, r);
    LogAtEnd(c, s, r);
    OrderAtEnd(c, s, r);
    LoggedByNow(c, s.h, s.jobs, j, js, v, r.finishTime);
    DeliveredLog(c, h2, s.now, j, FinishedJob(c, js, v, r.finishTime), v, r.finishTime);
    DeliveredOperands(c, h2, j, FinishedJob(c, js, v, r.finishTime), r.finishTime);
  }

  /** By then every macrotask of the job has been started and is finished. */
  lemma AllFinished(c: Config, s: State, r: Running)
    requires c.WellFormed() && Ok(c, s) && r in s.flight && r.finishTime <= s.now
    requires JobOf(r) in s.jobs && AppKnown(c, s.jobs[JobOf(r)].query)
    requires TaskOf(r) < |s.jobs[JobOf(r)].log| && TaskOf(r) < |App(c, s.jobs[JobOf(r)].query).graph.next|
    requires s.jobs[JobOf(r)].finalMacrotaskId - {TaskOf(r)} == {}
    ensures var h2, js := Finished(s.h, (JobOf(r), TaskOf(r))), s.jobs[JobOf(r)];
            && JobOf(r) in h2.admitted && js.query == h2.admitted[JobOf(r)]
            && js.query.receivedTime <= js.query.startTime && |js.log| == Size(c, js.query)
            && (forall v: nat :: (JobOf(r), v) in h2.started <==> 0 < v < Size(c, js.query))
            && (forall v: nat :: v < Size(c, js.query) ==> (JobOf(r), v) in h2.done)
  {
    hide Ok, HistoryOk, DependenciesOk, AllDone;
    var j, v := JobOf(r), TaskOf(r);
    FlightJob(c, s, r);
    AppIsSane(c, s.jobs[j].query);
    HistoryOf(c, s, j);
    EndIsExact(c, s.h, s.now, j, s.jobs[j], v);
    FinishKeepsHistory(c, s.h, s.now, (j, v));
    AllStarted(c, Finished(s.h, (j, v)), s.now, j);
  }

  lemma HistoryOf(c: Config, s: State, j: nat)
    requires Ok(c, s) && j in s.jobs
    ensures HistoryOk(c, s.h, s.now) && DependenciesOk(c, s.h, j, s.jobs[j]) && j in s.h.admitted
    ensures s.h.admitted[j].receivedTime <= s.h.admitted[j].startTime
  {
    assert AdmittedOk(c, s.h, s.now, j);
  }

  lemma LogAtEnd(c: Config, s: State, r: Running)
    requires c.WellFormed() && Ok(c, s) && r in s.flight && r.finishTime <= s.now
    requires JobOf(r) in s.jobs && AppKnown(c, s.jobs[JobOf(r)].query)
    requires TaskOf(r) < |s.jobs[JobOf(r)].log| && TaskOf(r) < |App(c, s.jobs[JobOf(r)].query).graph.next|
    ensures NothingFinishedAfter(s.h, s.jobs, r.finishTime)
    ensures LogOk(c, Finished(s.h, (JobOf(r), TaskOf(r))), s.now, JobOf(r),
                  FinishedJob(c, s.jobs[JobOf(r)], TaskOf(r), r.finishTime))
  {
    hide Ok, HistoryOk, LogOk, LogsOk, Finished, FinishedJob;
    FlightJob(c, s, r);
    FinishIsTimed(c, s, r);
    LogsSoFar(c, s, r);
    FinishKeepsLogs(c, s.h, s.now, s.jobs, JobOf(r), TaskOf(r), r.finishTime);
  }

  lemma LogsSoFar(c: Config, s: State, r: Running)
    requires Ok(c, s) && r in s.flight
    ensures HistoryOk(c, s.h, s.now) && LogsOk(c, s.h, s.now, s.jobs) && NothingFinishedAfter(s.h, s.jobs, r.finishTime)
  {
  }

  lemma OrderAtEnd(c: Config, s: State, r: Running)
    requires c.WellFormed() && Ok(c, s) && r in s.flight && r.finishTime <= s.now
    requires JobOf(r) in s.jobs && AppKnown(c, s.jobs[JobOf(r)].query)
    requires TaskOf(r) < |s.jobs[JobOf(r)].log| && TaskOf(r) < |App(c, s.jobs[JobOf(r)].query).graph.next|
    ensures OrderOk(c, Finished(s.h, (JobOf(r), TaskOf(r))), JobOf(r),
                    FinishedJob(c, s.jobs[JobOf(r)], TaskOf(r), r.finishTime))
    ensures InOrderOfStart(FinishedJob(c, s.jobs[JobOf(r)], TaskOf(r), r.finishTime))
  {
    hide OrderOk, FinishedJob, InOrderOfStart;
    FinishKeepsOrders(c, s.h, s.jobs, JobOf(r), TaskOf(r), r.finishTime);
    FinishKeepsStarts(c, s.jobs, JobOf(r), TaskOf(r), r.finishTime);
  }

  /** The macrotask that ends the job is its latest. */
  lemma LoggedByNow(c: Config, h: History, jobs: map<nat, JobState>, j: nat, js: JobState, v: nat, t: nat)
    requires NothingFinishedAfter(h, jobs, t) && j in jobs && js == jobs[j] && AppKnown(c, js.query)
    requires v < |js.log| && v < |App(c, js.query).graph.next|
    requires forall u: nat :: u < |js.log| ==> (j, u) in Finished(h, (j, v)).done
    ensures FinishedJob(c, js, v, t).query == js.query && |FinishedJob(c, js, v, t).log| == |js.log|
    ensures forall u: nat :: u < |js.log| ==> FinishedJob(c, js, v, t).log[u].1 <= t
    ensures FinishedJob(c, js, v, t).log[v].1 == t
  {
    forall u: nat | u < |js.log| && u != v ensures js.log[u].1 <= t { assert (j, u) in h.done; }
  }

  lemma DeliveredOperands(c: Config, h: History, j: nat, js: JobState, t: nat)
    requires OrderOk(c, h, j, js) && InOrderOfStart(js)
    requires forall v: nat :: (j, v) in h.started <==> 0 < v < Size(c, js.query)
    ensures OperandsDelivered(c, AtFinish(js, t))
  {
    assert AtFinish(js, t).order == js.order;
  }

  lemma FinishEnds(c: Config, s: State, r: Running)
    requires c.WellFormed() && Ok(c, s) && FirstToFinish(s, r)
    requires JobOf(r) in s.jobs && r.emt.numThreads <= s.current && AppKnown(c, s.jobs[JobOf(r)].query)
    requires TaskOf(r) < |s.jobs[JobOf(r)].log| && TaskOf(r) < |App(c, s.jobs[JobOf(r)].query).graph.next|
    ensures Ends(c, s, AfterFinish(c, s, r), EndOf(c, s.jobs[JobOf(r)], r))
  {
    hide Ok, Delivered;
    FlightJob(c, s, r);
    if s.jobs[JobOf(r)].finalMacrotaskId - {TaskOf(r)} == {} {
      JobCompletes(c, s, r);
    }
  }

  lemma JobCompletes(c: Config, s: State, r: Running)
    requires c.WellFormed() && Ok(c, s) && r in s.flight && r.finishTime <= s.now
    requires FirstToFinish(s, r)
    requires JobOf(r) in s.jobs && AppKnown(c, s.jobs[JobOf(r)].query)
    requires TaskOf(r) < |s.jobs[JobOf(r)].log| && TaskOf(r) < |App(c, s.jobs[JobOf(r)].query).graph.next|
    requires s.jobs[JobOf(r)].finalMacrotaskId - {TaskOf(r)} == {}
    ensures Completes(c, s, AtFinish(FinishedJob(c, s.jobs[JobOf(r)], TaskOf(r), r.finishTime), r.finishTime))
    ensures AtFinish(FinishedJob(c, s.jobs[JobOf(r)], TaskOf(r), r.finishTime), r.finishTime).query.jobId == JobOf(r)
  {
    hide Ok, Delivered;
    FlightJob(c, s, r);
    DeliveryIsComplete(c, s, r);
  }

  lemma HandNone(c: Config, s: State)
    ensures Handed(c, s, s, [])
  {
  }

  lemma HandOver(c: Config, s: State, t: State, u: State, result: seq<JobState>, finished: Option<JobState>)
    requires Handed(c, s, t, result) && Winds(t, u) && Ends(c, t, u, finished)
    ensures Handed(c, s, u, if finished.Some? then result + [finished.value] else result)
  {
    hide Delivered, SameQuery;
    if finished.Some? {
      var js := finished.value;
      var all := result + [js];
      assert Ids(all) == Ids(result) + [js.query.jobId];
      forall j ensures j in s.jobs <==> j in u.jobs || j in Ids(all) {
        assert j in Ids(all) <==> j in Ids(result) || j == js.query.jobId;
      }
      forall i | 0 <= i < |all| ensures Completes(c, s, all[i]) {
        if i == |result| { assert Completes(c, t, js); }
      }
    }
  }

  lemma NextIsFirst(c: Config, finished: seq<Running>, i: nat, running: multiset<Running>, t: State)
    requires i < |finished| && Due(c, t.now, finished, running) && t.flight == running + multiset(finished[i..])
    ensures FirstToFinish(t, finished[i])
    ensures multiset(finished[i..]) == multiset(finished[i + 1..]) + multiset{finished[i]}
  {
    assert finished[i..] == [finished[i]] + finished[i + 1..];
    assert finished[i] in multiset(finished);
    forall x | x in multiset(finished[i..]) ensures finished[i].finishTime <= x.finishTime {
      var k :| 0 <= k < |finished[i..]| && finished[i..][k] == x;
      if k > 0 { assert !ExecutingOrder(c)(finished[i + k], finished[i]); }
    }
  }

  lemma DueHaveLeft(c: Config, now: nat, finished: seq<Running>, running: multiset<Running>, before: multiset<Running>)
    requires Due(c, now, finished, running) && before == running + multiset(finished)
    ensures OnlyDueLeft(now, before, running)
  {
    assert before - running == multiset(finished);
  }

  /** A query can be admitted safely; what then has happened. */
  lemma AdmitIsSafe(c: Config, s: State, q: Query)
    requires c.WellFormed() && Ok(c, s) && AppKnown(c, q) && q.jobId !in s.h.admitted
    requires q.receivedTime <= q.startTime == s.now && forall r :: r in s.flight ==> r.finishTime > s.now
    ensures q.jobId !in s.jobs && |App(c, q).graph.next| > 0 && App(c, q).graph.Consistent()
    ensures AppKnown(c, WithDeadline(c, q)) && App(c, WithDeadline(c, q)) == App(c, q)
    ensures Ok(c, AfterAdmit(c, s, WithDeadline(c, q)))
    ensures Received(c, s, AfterAdmit(c, s, WithDeadline(c, q)), [q])
  {
    AppIsSane(c, q);
    AdmitStep(c, s, WithDeadline(c, q));
    NotYetInExecution(c, s.h, s.jobs, q.jobId);
    AdmitReceives(c, s, q);
  }

  lemma NotYetInExecution(c: Config, h: History, jobs: map<nat, JobState>, j: nat)
    requires JobsOk(c, h, jobs) && j !in h.admitted
    ensures j !in jobs
  {
  }

  lemma AdmitReceives(c: Config, s: State, q: Query)
    requires AppKnown(c, q) && q.jobId !in s.h.admitted && |App(c, q).graph.next| > 0
    ensures Received(c, s, AfterAdmit(c, s, WithDeadline(c, q)), [q])
  {
    assert JobIds([q]) == [q.jobId];
  }

  lemma ReceivedNone(c: Config, s: State)
    ensures Received(c, s, s, [])
  {
  }

  lemma ReceiveNext(c: Config, s: State, t: State, queries: seq<Query>, i: nat)
    requires Incoming(c, s, queries) && i < |queries| && Received(c, s, t, queries[..i])
    ensures queries[i].jobId !in t.h.admitted && AppKnown(c, queries[i])
    ensures queries[i].receivedTime <= queries[i].startTime == t.now
  {
  }

  lemma ReceiveOne(c: Config, s: State, t: State, u: State, queries: seq<Query>, i: nat)
    requires i < |queries| && Received(c, s, t, queries[..i]) && Received(c, t, u, [queries[i]])
    ensures Received(c, s, u, queries[..i + 1])
  {
    var q := queries[i];
    assert JobIds([q]) == [q.jobId];
    assert JobIds(queries[..i + 1]) == JobIds(queries[..i]) + [q.jobId];
    assert [q][0] == q;
  }

  /** Under MaxParallel a job with a macrotask that is wider than the machine is
      never delivered: it stays in execution in every state that can be reached. */
  lemma TooWideIsNeverDelivered(c: Config, s: State, j: nat, v: nat)
    requires Ok(c, s) && c.allocation.MaxParallel? && j in s.h.admitted && AppKnown(c, s.h.admitted[j])
    requires 0 < v < Size(c, s.h.admitted[j]) && |TableOf(c, s.h.admitted[j], v)| > c.maxThreads + 1
    ensures j in s.jobs
  {
    assert (j, v) !in s.h.started;
    assert IsTask(c, s.h, (j, v)) && (j, v) !in s.h.done;
  }

  lemma LaunchedNone(s: State)
    ensures LaunchedSince(s, s, [])
  {
  }

  /** One more entry is started. */
  lemma LaunchOne(c: Config, s: State, t: State, launched: seq<Running>, e: EMT)
    requires c.WellFormed() && Ok(c, t) && e in t.next && LaunchedSince(s, t, launched)
    requires Startable(c, t.jobs, e)
    ensures LaunchedSince(s, AfterStart(c, t, e), launched + [Launched(c, t.now, e)])
  {
    hide Ok, Config.WellFormed, Startable, ValidThreads;
    NextJob(c, t, e);
    TakesTime(c, t, e);
    var r := Launched(c, t.now, e);
    assert multiset(launched + [r]) == multiset(launched) + multiset{r};
  }

  lemma TakesTime(c: Config, s: State, e: EMT)
    requires c.WellFormed() && Ok(c, s) && e in s.next && ValidThreads(c, e)
    ensures Launched(c, s.now, e).finishTime > s.now
  {
    NextJob(c, s, e);
    assert App(c, e.wmt.query).WellFormed();
  }

  /** What waits can be executed, and resized where bits2020 is to do so. */
  lemma WaitingIsExecutable(c: Config, s: State, queue: seq<WMT>)
    requires c.WellFormed() && Ok(c, s) && multiset(queue) == s.waiting
    ensures AllExecutable(c, queue)
    ensures c.allocation.Bits2020? ==> AllResizable(c, queue)
    ensures c.allocation.Bits2020? ==> Search.Workable(c)
  {
    forall w | w in multiset(queue) ensures Executable(c, w) && (c.allocation.Bits2020? ==> Resizable(c, w)) {
      WaitingTask(c, s, w);
      TaskIsExecutable(c, w);
    }
    if c.allocation.Bits2020? { Search.SharingWorks(c); }
  }

  lemma WaitingTask(c: Config, s: State, w: WMT)
    requires c.WellFormed() && Ok(c, s) && w in s.waiting
    ensures AppKnown(c, w.query) && 0 < w.macrotaskId < Size(c, w.query)
  {
    WaitingIsReady(c, s.h, s.waiting, s.next, w);
    assert Refers(s.h, w);
  }

  lemma TaskIsExecutable(c: Config, w: WMT)
    requires c.WellFormed() && AppKnown(c, w.query) && 0 < w.macrotaskId < Size(c, w.query)
    ensures Executable(c, w)
    ensures c.allocation.Bits2020? ==> Resizable(c, w)
  {
    var a := App(c, w.query);
    assert a.WellFormed();
    if c.allocation.Bits2020? { assert a.Resizable(); }
  }

  lemma HandOutIsSafe(c: Config, s: State, t: State, before: seq<WMT>, after: seq<WMT>, given: seq<EMT>)
    requires Ok(c, s) && s.next == multiset{} && HandedOut(c, s, t, before, after, given)
    ensures Ok(c, t)
  {
    hide Ok, Granted, AsConfigured;
    FreeThreads(c, s);
    AllocateStep(c, s, before, after, given);
  }

  lemma FreeThreads(c: Config, s: State)
    requires Ok(c, s)
    ensures s.current <= c.maxThreads && Free(c, s.current) == c.maxThreads - s.current
    ensures s.flight == multiset{} ==> s.current == 0
  {
  }

  /** An idle executor serves somebody, unless the head of the queue is too wide. */
  lemma IdleServes(c: Config, before: seq<WMT>, after: seq<WMT>, given: seq<EMT>)
    requires c.maxThreads > 0 && before != [] && Known(c, before[0])
    requires Granted(c, before, after, given, c.maxThreads) && AsConfigured(c, before, after, given, c.maxThreads)
    ensures given == [] <==> TooWide(c, before[0])
  {
    if given != [] {
      assert given[0] in multiset(given);
      TotalRemove(NumThreads, multiset(given), given[0]);
    } else {
      assert multiset(Wmts(given)) == multiset{};
      assert |multiset(before)| == |multiset(after)|;
    }
  }

  lemma EmptyIsOk(c: Config, now: nat)
    ensures Ok(c, State(History(map[], {}, {}), now, 0, map[], multiset{}, multiset{}, multiset{}))
  {
  }

  lemma AllStarted(c: Config, h: History, now: nat, j: nat)
    requires HistoryOk(c, h, now) && AllDone(c, h, j) && j in h.admitted
    ensures forall v: nat :: (j, v) in h.started <==> 0 < v < Size(c, h.admitted[j])
    ensures forall v: nat :: v < Size(c, h.admitted[j]) ==> (j, v) in h.done
  {
    forall v: nat ensures (j, v) in h.started <==> 0 < v < Size(c, h.admitted[j]) {
      if (j, v) in h.started { assert Ready(c, h, (j, v)); }
      if 0 < v < Size(c, h.admitted[j]) { assert IsTask(c, h, (j, v)); }
    }
    forall v: nat | v < Size(c, h.admitted[j]) ensures (j, v) in h.done { assert IsTask(c, h, (j, v)); }
  }

  lemma DeliveredLog(c: Config, h: History, now: nat, j: nat, js: JobState, last: nat, t: nat)
    requires LogOk(c, h, now, j, js) && j in h.admitted && js.query == h.admitted[j]
    requires js.query.receivedTime <= js.query.startTime
    requires forall v: nat :: (j, v) in h.started <==> 0 < v < Size(c, js.query)
    requires forall v: nat :: v < Size(c, js.query) ==> (j, v) in h.done
    requires forall v: nat :: v < |js.log| ==> js.log[v].1 <= t
    requires 0 < last < |js.log| && js.log[last].1 == t
    ensures LogDelivered(c, AtFinish(js, t))
  {
    var d := AtFinish(js, t);
    hide Timed, Previous, HistoryOk;
    forall v: nat | 0 < v < |d.log| ensures Timed(c, d.query, v, d.log[v]) && d.log[v].0 <= d.log[v].1 {
      SameTimed(c, js.query, d.query, v, js.log[v]);
    }
    forall v: nat, u: nat | 0 < v < |d.log| && u in Previous(c, d.query, v) && u < |d.log|
      ensures d.log[u].1 <= d.log[v].0
    {
      SamePrevious(c, js.query, d.query, v);
    }
  }

  lemma SameTimed(c: Config, q: Query, r: Query, v: nat, log: (nat, nat))
    requires AppKnown(c, q) && r.appId == q.appId && Timed(c, q, v, log)
    ensures Timed(c, r, v, log) && log.0 <= log.1
  {
    var n: nat :| MayTake(c, q, v, n) && log.1 == log.0 + App(c, q).info[v].execTime[n];
    assert MayTake(c, r, v, n);
  }

  lemma SamePrevious(c: Config, q: Query, r: Query, v: nat)
    requires r.appId == q.appId
    ensures Previous(c, r, v) == Previous(c, q, v) && Size(c, r) == Size(c, q)
  {
  }

  /** While a job is in execution, one of its macrotasks waits or is executed. */
  lemma JobHasWork(c: Config, s: State, j: nat)
    requires c.WellFormed() && Ok(c, s) && j in s.jobs
    ensures s.waiting != multiset{} || s.next != multiset{} || s.flight != multiset{}
  {
    assert AdmittedOk(c, s.h, s.now, j);
    AppIsSane(c, s.h.admitted[j]);
    var k := ReadyUndone(c, s.h, s.now, j);
    if k in s.h.started {
      RunsOnce(c, s.h, s.flight, k);
    } else {
      WaitsOnce(c, s.h, s.waiting, s.next, k);
    }
  }

  lemma ReadyUndone(c: Config, h: History, now: nat, j: nat) returns (k: TaskKey)
    requires HistoryOk(c, h, now) && j in h.admitted && AdmittedOk(c, h, now, j) && !AllDone(c, h, j)
    requires App(c, h.admitted[j]).graph.WellFormed()
    ensures Ready(c, h, k) && k !in h.done
  {
    var q := h.admitted[j];
    var g := App(c, q).graph;
    var d := set u: nat | u < |g.next| && (j, u) in h.done;
    var v: nat :| IsTask(c, h, (j, v)) && (j, v) !in h.done;
    var rank :| g.Ranked(rank);
    var w := ReadyExists(g, rank, d, v);
    k := (j, w);
    forall u | u in Previous(c, q, w) ensures (j, u) in h.done { assert u in g.previous[w]; }
  }

  lemma RunsOnce(c: Config, h: History, flight: multiset<Running>, k: TaskKey)
    requires FlightOk(c, h, flight) && k in h.started && k !in h.done
    ensures flight != multiset{}
  {
    assert Total(IsRunning(k), flight) == 1;
  }

  lemma WaitsOnce(c: Config, h: History, waiting: multiset<WMT>, next: multiset<EMT>, k: TaskKey)
    requires WaitingOk(c, h, waiting, next) && Ready(c, h, k) && k !in h.started
    ensures waiting != multiset{} || next != multiset{}
  {
    assert Total(IsWaiting(k), waiting) + Total(IsNext(k), next) == 1;
  }

  // ---- the outcome does not depend on the schedule ----

  lemma {:induction false} PathGoesBack(c: Config, q: Query, order: seq<nat>, p: seq<nat>, i: nat) returns (k: nat)
    requires AppKnown(c, q) && App(c, q).graph.WellFormed() && DependenciesFirst(c, q, order)
    requires App(c, q).graph.Path(p) && |p| > 1 && p[0] > 0 && i < |order| && order[i] == p[|p| - 1]
    ensures k < i && order[k] == p[0]
    decreases |p|
  {
    var g := App(c, q).graph;
    var n := |p| - 2;
    assert g.Edge(p[n], p[n + 1]);
    assert p[n] in Previous(c, q, order[i]);
    if n > 0 { assert g.Edge(p[n - 1], p[n]); }
    assert p[n] in order[..i];
    k :| 0 <= k < i && order[k] == p[n];
    if n > 0 {
      k := PathGoesBack(c, q, order, p[..n + 1], k);
    }
  }

  /** Predecessors first means whole paths in order. */
  lemma DependenciesFirstRespects(c: Config, q: Query, order: seq<nat>)
    requires AppKnown(c, q) && App(c, q).graph.WellFormed()
    requires NamesTasks(App(c, q), order) && NoRepeats(order) && DependenciesFirst(c, q, order)
    ensures Respects(App(c, q).graph, order)
  {
    var g := App(c, q).graph;
    forall i, k | 0 <= i < k < |order| ensures !g.Before(order[k], order[i]) {
      if g.Before(order[k], order[i]) {
        var p: seq<nat> :| |p| > 1 && g.PathBetween(p, order[k], order[i]);
        var m := PathGoesBack(c, q, order, p, i);
      }
    }
  }

  lemma {:induction false} SameElements(a: seq<nat>, b: seq<nat>)
    requires NoRepeats(a) && NoRepeats(b) && forall x :: x in a <==> x in b
    ensures multiset(a) == multiset(b)
  {
    forall x ensures multiset(a)[x] == multiset(b)[x] {
      CountOne(a, x);
      CountOne(b, x);
    }
  }

  lemma {:induction false} CountOne(a: seq<nat>, x: nat)
    requires NoRepeats(a)
    ensures multiset(a)[x] == if x in a then 1 else 0
  {
    if a != [] {
      CountOne(a[..|a| - 1], x);
      LastIsNew(a, x);
      assert a == a[..|a| - 1] + [a[|a| - 1]];
    }
  }

  /** Whatever the schedule, the allocation and the timing, a delivered job's operands
      are those of any serial execution in topological order: from the inputs of its
      query, with the scheme and the constants of its client. */
  lemma DeliveredIsSerial(c: Config, js: JobState, order: seq<nat>, m: Memory)
    requires c.WellFormed() && Delivered(c, js) && SerialOrder(c, js.query, order)
    requires Laid(m, c.apps[js.query.appId], js.query)
    requires var a := c.apps[js.query.appId];
             Independent(a.constants.For(js.query.clientId), a.graph, a.operations)
    ensures var a, scheme := c.apps[js.query.appId], c.SchemeFor(js.query.appId, js.query.clientId);
            js.memory == ExecuteOrder(scheme, a.constants.For(js.query.clientId), a.operations, Some(m), order)
  {
    AppIsSane(c, js.query);
    var a := App(c, js.query);
    DependenciesFirstRespects(c, js.query, js.order);
    SameElements(js.order, order);
    OutcomeOfInputs(c, js.query, js.order, m);
    OrderIrrelevant(c.SchemeFor(js.query.appId, js.query.clientId), a.constants.For(js.query.clientId), a.graph,
                    a.operations, Some(m), js.order, order);
  }
}
