/** Why the run goes on, why it ends, and what each part of a pass keeps. */
module Passes {
  import opened Sequences
  import opened Tasks
  import opened AllocateMethods
  import opened Machine
  import opened Results
  import opened Delivery
  import opened Serving

  // ---- counting macrotasks ----

  lemma {:induction false} TasksOfOne(j: nat, n: nat) returns (s: set<TaskKey>)
    ensures s == (set v: nat | 0 < v < n :: (j, v)) && |s| == Upto(n)
  {
    s := set v: nat | 0 < v < n :: (j, v);
    if n > 1 {
      var t := TasksOfOne(j, n - 1);
      assert s == t + {(j, n - 1)};
    }
  }

  lemma {:induction false} TasksCount(c: Config, arrivals: seq<Arrival>)
    ensures |AllTasks(c, arrivals)| == NumTasks(c, arrivals)
  {
    if arrivals != [] {
      var k := |arrivals| - 1;
      TasksCount(c, arrivals[..k]);
      var s := TasksOfOne(k, SizeOf(c, arrivals[k]));
      assert AllTasks(c, arrivals) == AllTasks(c, arrivals[..k]) + s;
      assert AllTasks(c, arrivals[..k]) !! s;
    }
  }

  lemma {:induction false} SubsetSize<T>(a: set<T>, b: set<T>)
    requires a <= b
    ensures |a| <= |b|
  {
    assert b == a + (b - a);
  }

  /** Only macrotasks of arrivals are ever started. */
  lemma StartedAreTasks(c: Config, arrivals: seq<Arrival>, k: nat, s: State)
    requires Ok(c, s) && AdmittedFrom(c, arrivals, k, s.h.admitted)
    ensures s.h.started <= AllTasks(c, arrivals) && |s.h.started| <= NumTasks(c, arrivals)
  {
    forall x | x in s.h.started ensures x in AllTasks(c, arrivals) {
      assert Ready(c, s.h, x);
      assert Matches(c, arrivals[x.0], x.0, s.h.admitted[x.0]);
    }
    SubsetSize(s.h.started, AllTasks(c, arrivals));
    TasksCount(c, arrivals);
  }

  /** When nothing is left in execution, everything has been started. */
  lemma AllStartedAtLast(c: Config, arrivals: seq<Arrival>, s: State)
    requires Ok(c, s) && AdmittedFrom(c, arrivals, |arrivals|, s.h.admitted) && s.jobs == map[]
    ensures |s.h.started| == NumTasks(c, arrivals)
  {
    StartedAreTasks(c, arrivals, |arrivals|, s);
    forall x | x in AllTasks(c, arrivals) ensures x in s.h.started {
      assert Matches(c, arrivals[x.0], x.0, s.h.admitted[x.0]);
      assert x.0 !in s.jobs;
      assert IsTask(c, s.h, (x.0, x.1));
    }
    assert s.h.started == AllTasks(c, arrivals);
    TasksCount(c, arrivals);
  }

  // ---- events ----

  lemma {:induction false} TotalZero<A(!new)>(f: A -> nat, m: multiset<A>)
    requires forall x :: x in m ==> f(x) == 0
    ensures Total(f, m) == 0
  {
    if Total(f, m) > 0 {
      var x := TotalWitness(f, m);
    }
  }

  /** While there is work, an event is pending. */
  lemma EventPending(c: Config, arrivals: seq<Arrival>, k: nat, s: State, events: multiset<nat>,
                     results: map<ResultKey, JobState>)
    requires CanServe(c, arrivals) && Ok(c, s) && Between(c, arrivals, k, s, events, results)
    requires s.waiting != multiset{} || s.flight != multiset{} || k < |arrivals|
    ensures events != multiset{}
  {
    hide Ok, ResultsOk, AdmittedFrom;
    assert Midway(c, arrivals, k, s, events, results);
    if k == 0 && |events| == |arrivals| > 0 {
    } else if s.flight == multiset{} {
      var a := arrivals[k..][0];
      if a.time <= s.now {
        var j :| j in s.jobs;
        JobHasWork(c, s, j);
        assert false;
      } else {
        TotalRemove(ArrivesAt(a.time), multiset(arrivals[k..]), a);
        assert events[a.time] > 0;
      }
    } else {
      var r :| r in s.flight;
      TotalRemove(FinishesAt(r.finishTime), s.flight, r);
      assert events[r.finishTime] > 0;
    }
  }

  /** The clock goes to the earliest event: nothing in execution is passed over. */
  lemma TickKeepsEvents(now: nat, events: multiset<nat>, flight: multiset<Running>, pending: seq<Arrival>, t: nat,
                        events2: multiset<nat>)
    requires EventsOk(now, events, flight, pending) && Ticked(now, events, t, events2)
    ensures now <= t && EventsOk(t, events2, flight, pending)
  {
  }

  lemma DrainKeepsEvents(now: nat, events: multiset<nat>, before: multiset<Running>, after: multiset<Running>,
                         pending: seq<Arrival>)
    requires EventsOk(now, events, before, pending) && OnlyDueLeft(now, before, after)
    ensures EventsOk(now, events, after, pending)
  {
    forall t: nat | now < t ensures Total(FinishesAt(t), before) == Total(FinishesAt(t), after) {
      TotalUnion(FinishesAt(t), after, before - after);
      TotalZero(FinishesAt(t), before - after);
      assert before == after + (before - after);
    }
  }

  lemma {:induction false} ReceiveKeepsEvents(now: nat, events: multiset<nat>, flight: multiset<Running>,
                                              pending: seq<Arrival>, m: nat)
    requires EventsOk(now, events, flight, pending) && m <= |pending|
    requires forall i :: 0 <= i < m ==> pending[i].time <= now
    ensures EventsOk(now, events, flight, pending[m..])
  {
    assert pending == pending[..m] + pending[m..];
    forall t: nat | now < t
      ensures Total(ArrivesAt(t), multiset(pending)) == Total(ArrivesAt(t), multiset(pending[m..]))
    {
      TotalUnion(ArrivesAt(t), multiset(pending[..m]), multiset(pending[m..]));
      TotalZero(ArrivesAt(t), multiset(pending[..m]));
    }
  }

  lemma {:induction false} FinishTimesCount(launched: seq<Running>, t: nat)
    ensures Total(FinishesAt(t), multiset(launched)) == multiset(FinishTimes(launched))[t]
  {
    if launched == [] {
      assert multiset(launched) == multiset{};
    } else {
      hide Total;
      var front, r := launched[..|launched| - 1], launched[|launched| - 1];
      FinishTimesCount(front, t);
      TotalAppend(FinishesAt(t), front, r);
      assert launched == front + [r];
      FinishTimesAppend(front, r);
    }
  }

  lemma FinishTimesAppend(front: seq<Running>, r: Running)
    ensures FinishTimes(front + [r]) == FinishTimes(front) + [r.finishTime]
  {
  }

  lemma LaunchKeepsEvents(now: nat, events: multiset<nat>, flight: multiset<Running>, pending: seq<Arrival>,
                          launched: seq<Running>)
    requires EventsOk(now, events, flight, pending)
    requires forall i :: 0 <= i < |launched| ==> launched[i].finishTime > now
    ensures EventsOk(now, events + multiset(FinishTimes(launched)), flight + multiset(launched), pending)
  {
    var events2 := events + multiset(FinishTimes(launched));
    forall t | t in events2 ensures now <= t {
      if t !in events {
        var i :| 0 <= i < |launched| && FinishTimes(launched)[i] == t;
      }
    }
    forall t: nat | now < t
      ensures events2[t] == Total(FinishesAt(t), flight + multiset(launched)) + Total(ArrivesAt(t), multiset(pending))
    {
      TotalUnion(FinishesAt(t), flight, multiset(launched));
      FinishTimesCount(launched, t);
    }
  }

  // ---- results ----

  lemma {:induction false} WithResultsNew(results: map<ResultKey, JobState>, jobs: seq<JobState>, i: nat)
    requires i < |jobs| && forall a, b :: 0 <= a < b < |jobs| ==> KeyOfResult(jobs[a]) != KeyOfResult(jobs[b])
    ensures KeyOfResult(jobs[i]) in WithResults(results, jobs)
    ensures WithResults(results, jobs)[KeyOfResult(jobs[i])] == jobs[i]
  {
    if i < |jobs| - 1 {
      WithResultsNew(results, jobs[..|jobs| - 1], i);
    }
  }

  lemma {:induction false} WithResultsOld(results: map<ResultKey, JobState>, jobs: seq<JobState>, key: ResultKey)
    requires forall i :: 0 <= i < |jobs| ==> KeyOfResult(jobs[i]) != key
    ensures key in WithResults(results, jobs) <==> key in results
    ensures key in results ==> WithResults(results, jobs)[key] == results[key]
  {
    if jobs != [] {
      WithResultsOld(results, jobs[..|jobs| - 1], key);
    }
  }

  /** A job that is handed over matches its arrival. */
  lemma CompletedMatches(c: Config, arrivals: seq<Arrival>, k: nat, s: State, js: JobState)
    requires AdmittedFrom(c, arrivals, k, s.h.admitted) && Completes(c, s, js)
    ensures js.query.jobId < k && Matches(c, arrivals[js.query.jobId], js.query.jobId, js.query)
    ensures KeyOfResult(js) == ResultKeyOf(arrivals[js.query.jobId], js.query.jobId)
  {
    var j := js.query.jobId;
    assert Matches(c, arrivals[j], j, s.h.admitted[j]);
    assert s.h.admitted[j].(finishTime := js.query.finishTime) == js.query;
  }

  /** Exactly the jobs handed over get a result. */
  lemma HandOverServes(c: Config, arrivals: seq<Arrival>, k: nat, s: State, t: State, jobs: seq<JobState>,
                       results: map<ResultKey, JobState>)
    requires AdmittedFrom(c, arrivals, k, s.h.admitted) && ResultsOk(c, arrivals, k, s.jobs.Keys, results)
    requires Handed(c, s, t, jobs)
    ensures ResultsOk(c, arrivals, k, t.jobs.Keys, WithResults(results, jobs))
  {
    hide Served, Handed, AdmittedFrom;
    forall i: nat | i < k && i !in t.jobs ensures Served(c, arrivals[i], i, WithResults(results, jobs)) {
      HandedOverIsServed(c, arrivals, k, s, t, jobs, results, i);
    }
    forall key | key in WithResults(results, jobs)
      ensures key.2 < k && key.2 !in t.jobs && key == ResultKeyOf(arrivals[key.2], key.2)
    {
      OnlyHandedOver(c, arrivals, k, s, t, jobs, results, key);
    }
  }

  lemma HandedOverIsServed(c: Config, arrivals: seq<Arrival>, k: nat, s: State, t: State, jobs: seq<JobState>,
                           results: map<ResultKey, JobState>, i: nat)
    requires AdmittedFrom(c, arrivals, k, s.h.admitted) && ResultsOk(c, arrivals, k, s.jobs.Keys, results)
    requires Handed(c, s, t, jobs) && i < k && i !in t.jobs
    ensures Served(c, arrivals[i], i, WithResults(results, jobs))
  {
    hide Delivered, Matches;
    forall n | 0 <= n < |jobs|
      ensures Ids(jobs)[n] == jobs[n].query.jobId < k
      ensures KeyOfResult(jobs[n]) == ResultKeyOf(arrivals[jobs[n].query.jobId], jobs[n].query.jobId)
    {
      CompletedMatches(c, arrivals, k, s, jobs[n]);
    }
    if i in Ids(jobs) {
      var n :| 0 <= n < |jobs| && Ids(jobs)[n] == i;
      CompletedMatches(c, arrivals, k, s, jobs[n]);
      WithResultsNew(results, jobs, n);
    } else {
      WithResultsOld(results, jobs, ResultKeyOf(arrivals[i], i));
      assert Served(c, arrivals[i], i, results);
    }
  }

  lemma OnlyHandedOver(c: Config, arrivals: seq<Arrival>, k: nat, s: State, t: State, jobs: seq<JobState>,
                       results: map<ResultKey, JobState>, key: ResultKey)
    requires AdmittedFrom(c, arrivals, k, s.h.admitted) && ResultsOk(c, arrivals, k, s.jobs.Keys, results)
    requires Handed(c, s, t, jobs) && key in WithResults(results, jobs)
    ensures key.2 < k && key.2 !in t.jobs && key == ResultKeyOf(arrivals[key.2], key.2)
  {
    hide Delivered, Matches, Served;
    if forall i :: 0 <= i < |jobs| ==> KeyOfResult(jobs[i]) != key {
      WithResultsOld(results, jobs, key);
      assert key.2 !in s.jobs;
    } else {
      var n :| 0 <= n < |jobs| && KeyOfResult(jobs[n]) == key;
      CompletedMatches(c, arrivals, k, s, jobs[n]);
      assert Ids(jobs)[n] in Ids(jobs);
    }
  }

  /** Results keep the start of their query. */
  lemma HandOverKeepsStarts(c: Config, arrivals: seq<Arrival>, k: nat, s: State, t: State, jobs: seq<JobState>,
                            results: map<ResultKey, JobState>)
    requires AdmittedFrom(c, arrivals, k, s.h.admitted) && Handed(c, s, t, jobs)
    requires StartsKept(arrivals, k, s.h.admitted, s.jobs.Keys, results)
    ensures StartsKept(arrivals, k, t.h.admitted, t.jobs.Keys, WithResults(results, jobs))
  {
    hide Handed, AdmittedFrom, StartKept;
    HandedAdmitted(c, s, t, jobs);
    EnoughAdmitted(c, arrivals, k, s.h.admitted);
    forall i: nat | i < k && i !in t.jobs ensures StartKept(arrivals[i], i, s.h.admitted, WithResults(results, jobs)) {
      HandedOverKeepsStart(c, arrivals, k, s, t, jobs, results, i);
    }
  }

  lemma HandedAdmitted(c: Config, s: State, t: State, jobs: seq<JobState>)
    requires Handed(c, s, t, jobs)
    ensures t.h.admitted == s.h.admitted
  {
  }

  lemma EnoughAdmitted(c: Config, arrivals: seq<Arrival>, k: nat, admitted: map<nat, Query>)
    requires AdmittedFrom(c, arrivals, k, admitted)
    ensures k <= |arrivals| && forall j: nat :: j < k ==> j in admitted
  {
  }

  lemma HandedOverKeepsStart(c: Config, arrivals: seq<Arrival>, k: nat, s: State, t: State, jobs: seq<JobState>,
                             results: map<ResultKey, JobState>, i: nat)
    requires AdmittedFrom(c, arrivals, k, s.h.admitted) && Handed(c, s, t, jobs) && i < k && i !in t.jobs
    requires StartsKept(arrivals, k, s.h.admitted, s.jobs.Keys, results)
    ensures StartKept(arrivals[i], i, s.h.admitted, WithResults(results, jobs))
  {
    hide Delivered, Matches;
    forall n | 0 <= n < |jobs|
      ensures Ids(jobs)[n] == jobs[n].query.jobId < k
      ensures KeyOfResult(jobs[n]) == ResultKeyOf(arrivals[jobs[n].query.jobId], jobs[n].query.jobId)
    {
      CompletedMatches(c, arrivals, k, s, jobs[n]);
    }
    if i in Ids(jobs) {
      var n :| 0 <= n < |jobs| && Ids(jobs)[n] == i;
      WithResultsNew(results, jobs, n);
      assert s.h.admitted[i].(finishTime := jobs[n].query.finishTime) == jobs[n].query;
    } else {
      WithResultsOld(results, jobs, ResultKeyOf(arrivals[i], i));
      assert StartKept(arrivals[i], i, s.h.admitted, results);
    }
  }

  // ---- admission ----

  /** The queries are the arrivals from `k` on, started now. */
  ghost predicate AreArrivals(arrivals: seq<Arrival>, k: nat, now: nat, queries: seq<Query>) {
    && k + |queries| <= |arrivals|
    && forall i :: 0 <= i < |queries| ==>
         arrivals[k + i].time <= now && queries[i] == StartedAt(NewQuery(arrivals[k + i], k + i, k + i), now)
  }

  lemma ArrivalsMayCome(c: Config, arrivals: seq<Arrival>, k: nat, s: State, queries: seq<Query>)
    requires Hosts(c, arrivals) && AdmittedFrom(c, arrivals, k, s.h.admitted)
    requires AreArrivals(arrivals, k, s.now, queries)
    ensures Incoming(c, s, queries)
  {
  }

  lemma {:induction false} SizeGrows(a: set<nat>, b: set<nat>, k: nat, m: nat)
    requires forall j :: j in b <==> j in a || k <= j < k + m
    requires forall j :: j in a ==> j < k
    ensures |b| == |a| + m
  {
    if m == 0 {
      assert a == b;
    } else {
      SizeGrows(a, b - {k + m - 1}, k, m - 1);
    }
  }

  lemma ArrivalsAreAdmitted(c: Config, arrivals: seq<Arrival>, k: nat, s: State, t: State, queries: seq<Query>)
    requires AdmittedFrom(c, arrivals, k, s.h.admitted) && AreArrivals(arrivals, k, s.now, queries)
    requires Received(c, s, t, queries)
    ensures AdmittedFrom(c, arrivals, k + |queries|, t.h.admitted)
  {
    forall j: nat | k <= j < k + |queries| ensures j in t.h.admitted && Matches(c, arrivals[j], j, t.h.admitted[j]) {
      assert queries[j - k].jobId == j;
    }
    forall j: nat ensures j in t.h.admitted <==> j < k + |queries| {
      if j in JobIds(queries) {
        var i :| 0 <= i < |queries| && JobIds(queries)[i] == j;
      }
    }
  }

  /** They are started now, and nobody was started later. */
  lemma ArrivalsInOrderOfStart(c: Config, arrivals: seq<Arrival>, k: nat, s: State, t: State, queries: seq<Query>,
                               results: map<ResultKey, JobState>)
    requires Ok(c, s) && AdmittedFrom(c, arrivals, k, s.h.admitted) && AreArrivals(arrivals, k, s.now, queries)
    requires Received(c, s, t, queries) && StartedInOrder(k, s.h.admitted)
    requires StartsKept(arrivals, k, s.h.admitted, s.jobs.Keys, results)
    ensures StartedInOrder(k + |queries|, t.h.admitted)
    ensures StartsKept(arrivals, k + |queries|, t.h.admitted, t.jobs.Keys, results)
  {
    hide Ok, Matches, AdmittedFrom, AreArrivals, Received;
    StartedByNow(c, s);
    EnoughArrivals(arrivals, k, s.now, queries);
    forall j: nat | j < k + |queries|
      ensures j in t.h.admitted && (j >= k ==> t.h.admitted[j].startTime == s.now && j in t.jobs)
      ensures j < k ==> t.h.admitted[j] == s.h.admitted[j] && (j in s.jobs ==> j in t.jobs)
    {
      if j < k { OldJob(c, s, t, queries, j); } else { NewJobStarts(c, arrivals, k, s, t, queries, j); }
    }
    forall i: nat | i < k + |queries| && i !in t.jobs ensures StartKept(arrivals[i], i, t.h.admitted, results) {
      assert StartKept(arrivals[i], i, s.h.admitted, results);
    }
  }

  lemma OldJob(c: Config, s: State, t: State, queries: seq<Query>, j: nat)
    requires Received(c, s, t, queries) && j in s.h.admitted
    ensures j in t.h.admitted && t.h.admitted[j] == s.h.admitted[j] && (j in s.jobs ==> j in t.jobs)
  {
  }

  lemma NewJobStarts(c: Config, arrivals: seq<Arrival>, k: nat, s: State, t: State, queries: seq<Query>, j: nat)
    requires AreArrivals(arrivals, k, s.now, queries) && Received(c, s, t, queries) && k <= j < k + |queries|
    ensures j in t.h.admitted && t.h.admitted[j].startTime == s.now && j in t.jobs
  {
    assert queries[j - k].jobId == j;
    assert JobIds(queries)[j - k] == j;
  }

  lemma StartedByNow(c: Config, s: State)
    requires Ok(c, s)
    ensures forall j :: j in s.h.admitted ==> s.h.admitted[j].startTime <= s.now
  {
    forall j | j in s.h.admitted ensures s.h.admitted[j].startTime <= s.now { assert AdmittedOk(c, s.h, s.now, j); }
  }

  /** New jobs are in execution, and each of them counts. */
  lemma ArrivalsAreInExecution(c: Config, arrivals: seq<Arrival>, k: nat, s: State, t: State, queries: seq<Query>,
                               results: map<ResultKey, JobState>)
    requires AdmittedFrom(c, arrivals, k, s.h.admitted) && AreArrivals(arrivals, k, s.now, queries)
    requires Received(c, s, t, queries)
    requires Ok(c, s) && ResultsOk(c, arrivals, k, s.jobs.Keys, results)
    ensures ResultsOk(c, arrivals, k + |queries|, t.jobs.Keys, results)
    ensures |t.jobs| == |s.jobs| + |queries|
  {
    hide Served, Matches, Ok, StartedAt, NewQuery, AreArrivals, AdmittedFrom, Received;
    forall j: nat ensures j in JobIds(queries) <==> k <= j < k + |queries| {
      IdsAreNew(arrivals, k, s.now, queries, j);
    }
    OnlyAdmittedInExecution(c, arrivals, k, s);
    NewJobs(c, s, t, queries);
    EnoughArrivals(arrivals, k, s.now, queries);
    SizeGrows(s.jobs.Keys, t.jobs.Keys, k, |queries|);
  }

  lemma OnlyAdmittedInExecution(c: Config, arrivals: seq<Arrival>, k: nat, s: State)
    requires Ok(c, s) && AdmittedFrom(c, arrivals, k, s.h.admitted)
    ensures forall j :: j in s.jobs ==> j < k
  {
  }

  lemma NewJobs(c: Config, s: State, t: State, queries: seq<Query>)
    requires Received(c, s, t, queries)
    ensures forall j :: j in t.jobs <==> j in s.jobs || j in JobIds(queries)
  {
  }

  lemma EnoughArrivals(arrivals: seq<Arrival>, k: nat, now: nat, queries: seq<Query>)
    requires AreArrivals(arrivals, k, now, queries)
    ensures k + |queries| <= |arrivals|
  {
  }

  lemma IdsAreNew(arrivals: seq<Arrival>, k: nat, now: nat, queries: seq<Query>, j: nat)
    requires AreArrivals(arrivals, k, now, queries)
    ensures j in JobIds(queries) <==> k <= j < k + |queries|
  {
    if j in JobIds(queries) {
      var i :| 0 <= i < |queries| && JobIds(queries)[i] == j;
    }
    if k <= j < k + |queries| {
      assert JobIds(queries)[j - k] == j;
    }
  }

  // ---- the executor is never idle ----

  /** If something waits, something is in execution after threads have been handed out. */
  lemma ServesSomebody(c: Config, arrivals: seq<Arrival>, k: nat, s: State, u: State, t: State, before: seq<WMT>,
                       after: seq<WMT>, given: seq<EMT>, launched: seq<Running>)
    requires CanServe(c, arrivals) && Ok(c, s) && HandedOut(c, s, u, before, after, given)
    requires LaunchedSince(u, t, launched) && |launched| == |given|
    requires t.next == multiset{} && AdmittedFrom(c, arrivals, k, s.h.admitted)
    ensures Busy(t)
  {
    hide Ok, Granted, AsConfigured, CanServe, AdmittedFrom, Application.Fits;
    WellFormedToServe(c, arrivals);
    FreeThreads(c, s);
    if s.flight == multiset{} && t.waiting != multiset{} {
      if before == [] {
        NobodyServed(c, before, after, given, c.maxThreads);
      } else {
        assert before[0] in s.waiting;
        WaitingTask(c, s, before[0]);
        TaskIsExecutable(c, before[0]);
        NotTooWide(c, arrivals, k, s, before[0]);
        IdleServes(c, before, after, given);
        assert launched[0] in multiset(launched);
      }
    } else if s.flight != multiset{} {
      var r :| r in s.flight;
      assert r in t.flight;
    }
  }

  lemma NobodyServed(c: Config, before: seq<WMT>, after: seq<WMT>, given: seq<EMT>, free: nat)
    requires Granted(c, before, after, given, free) && before == []
    ensures after == []
  {
    assert |multiset(after)| + |multiset(Wmts(given))| == |multiset(before)|;
  }

  lemma WellFormedToServe(c: Config, arrivals: seq<Arrival>)
    requires CanServe(c, arrivals)
    ensures Hosts(c, arrivals) && c.WellFormed() && c.maxThreads > 0
  {
  }

  lemma IsFromArrival(c: Config, arrivals: seq<Arrival>, k: nat, s: State, w: WMT)
    requires CanServe(c, arrivals) && Ok(c, s) && AdmittedFrom(c, arrivals, k, s.h.admitted) && w in s.waiting
    ensures FitsMachine(c, w.query.appId)
  {
    hide FitsMachine, Config.WellFormed;
    assert Refers(s.h, w);
    var j := w.query.jobId;
    assert Matches(c, arrivals[j], j, s.h.admitted[j]);
    assert FitsMachine(c, arrivals[j].appId);
  }

  lemma NotTooWide(c: Config, arrivals: seq<Arrival>, k: nat, s: State, w: WMT)
    requires CanServe(c, arrivals) && Ok(c, s) && AdmittedFrom(c, arrivals, k, s.h.admitted) && w in s.waiting
    requires AppKnown(c, w.query) && 0 < w.macrotaskId < Size(c, w.query)
    ensures !TooWide(c, w)
  {
    IsFromArrival(c, arrivals, k, s, w);
    hide Ok, AdmittedFrom;
    var a := App(c, w.query);
    assert a.WellFormed();
    if c.allocation.MaxParallel? { assert a.Fits(c.maxThreads); }
  }

  // ---- a pass, part by part ----

  /** The clock goes on, what is finished is processed, and results are delivered. */
  lemma SettleIsMidway(c: Config, arrivals: seq<Arrival>, k: nat, s: State, now: nat, t: State, events: multiset<nat>,
                       events2: multiset<nat>, results: map<ResultKey, JobState>, jobs: seq<JobState>)
    requires Between(c, arrivals, k, s, events, results) && Ticked(s.now, events, now, events2) && k <= |arrivals|
    requires Handed(c, s.(now := now), t, jobs) && OnlyDueLeft(now, s.flight, t.flight)
    ensures s.now <= now && Midway(c, arrivals, k, t, events2, WithResults(results, jobs))
  {
    hide EventsOk, ResultsOk, Delivered, AdmittedFrom, Completes, StartedInOrder, StartsKept;
    var u := s.(now := now);
    assert Midway(c, arrivals, k, s, events, results);
    HandOverServes(c, arrivals, k, u, t, jobs, results);
    HandOverKeepsStarts(c, arrivals, k, u, t, jobs, results);
    TickKeepsEvents(s.now, events, s.flight, arrivals[k..], now, events2);
    DrainKeepsEvents(now, events2, s.flight, t.flight, arrivals[k..]);
    FewerJobs(c, u, t, jobs);
  }

  lemma FewerJobs(c: Config, s: State, t: State, jobs: seq<JobState>)
    requires Handed(c, s, t, jobs)
    ensures |t.jobs| <= |s.jobs|
  {
    hide Completes;
    SubsetSize(t.jobs.Keys, s.jobs.Keys);
  }

  /** Arrivals that are due are admitted. */
  lemma AdmitIsMidway(c: Config, arrivals: seq<Arrival>, k: nat, s: State, t: State, events: multiset<nat>,
                      results: map<ResultKey, JobState>, queries: seq<Query>)
    requires Midway(c, arrivals, k, s, events, results) && Ok(c, s) && Received(c, s, t, queries)
    requires AreArrivals(arrivals, k, s.now, queries) && |s.jobs| + |queries| <= c.maxNumExecutingJobs
    ensures Midway(c, arrivals, k + |queries|, t, events, results) && |t.jobs| == |s.jobs| + |queries|
    ensures t.now == s.now && t.h.started == s.h.started
  {
    hide EventsOk, ResultsOk, AdmittedFrom, Ok, AreArrivals, Received, StartedInOrder, StartsKept;
    ArrivalsInOrderOfStart(c, arrivals, k, s, t, queries, results);
    ArrivalsAreAdmitted(c, arrivals, k, s, t, queries);
    ArrivalsAreInExecution(c, arrivals, k, s, t, queries, results);
    OthersAsBefore(c, s, t, queries);
    ArrivalsAreDue(arrivals, k, s.now, queries);
    ReceiveKeepsEvents(s.now, events, s.flight, arrivals[k..], |queries|);
    assert arrivals[k..][|queries|..] == arrivals[k + |queries|..];
  }

  lemma OthersAsBefore(c: Config, s: State, t: State, queries: seq<Query>)
    requires Received(c, s, t, queries)
    ensures t.now == s.now && t.flight == s.flight && t.next == s.next && t.h.started == s.h.started
  {
  }

  lemma ArrivalsAreDue(arrivals: seq<Arrival>, k: nat, now: nat, queries: seq<Query>)
    requires AreArrivals(arrivals, k, now, queries)
    ensures k + |queries| <= |arrivals| && forall i :: 0 <= i < |queries| ==> arrivals[k..][i].time <= now
  {
    forall i | 0 <= i < |queries| ensures arrivals[k..][i].time <= now {
      assert queries[i] == StartedAt(NewQuery(arrivals[k + i], k + i, k + i), now);
    }
  }

  /** Macrotasks are started. */
  lemma DispatchIsBetween(c: Config, arrivals: seq<Arrival>, k: nat, s: State, u: State, t: State,
                          events: multiset<nat>,
                          results: map<ResultKey, JobState>, launched: seq<Running>)
    requires Midway(c, arrivals, k, s, events, results) && NobodyWaitsInVain(c, s.now, arrivals[k..], |s.jobs|)
    requires k <= |arrivals| && u == s.(waiting := u.waiting, next := u.next) && LaunchedSince(u, t, launched)
    requires t.next == multiset{} && (CanServe(c, arrivals) ==> Busy(t))
    ensures Between(c, arrivals, k, t, events + multiset(FinishTimes(launched)), results)
  {
    hide EventsOk, ResultsOk, AdmittedFrom, Busy, CanServe, StartedInOrder, StartsKept;
    LaunchKeepsEvents(s.now, events, s.flight, arrivals[k..], launched);
    assert |t.jobs| == |t.jobs.Keys| == |s.jobs|;
    forall r | r in t.flight ensures r.finishTime > t.now {
      if r !in s.flight { assert r in multiset(launched); }
    }
  }

  // ---- the end ----

  /** When nothing is to come and nothing is in the queues, every arrival is served. */
  lemma EndServesAll(c: Config, arrivals: seq<Arrival>, s: State, events: multiset<nat>,
                     results: map<ResultKey, JobState>)
    requires c.WellFormed() && Ok(c, s) && Midway(c, arrivals, |arrivals|, s, events, results)
    requires s.waiting == multiset{} && s.flight == multiset{}
    ensures AllServed(c, arrivals, results) && |s.h.started| == NumTasks(c, arrivals)
  {
    hide Ok, Served, EventsOk, AdmittedFrom, Later, StartedInOrder, StartsKept;
    NoJobsLeft(c, s);
    AllInOrder(arrivals, s.h.admitted, results);
    AllStartedAtLast(c, arrivals, s);
    ServedHaveKeys(c, arrivals, results);
    ResultsCount(arrivals, results);
  }

  lemma AllInOrder(arrivals: seq<Arrival>, admitted: map<nat, Query>, results: map<ResultKey, JobState>)
    requires StartedInOrder(|arrivals|, admitted) && StartsKept(arrivals, |arrivals|, admitted, {}, results)
    ensures forall i: nat, j: nat :: i < j < |arrivals| ==> NoLaterStart(arrivals, i, j, results)
  {
    forall i: nat, j: nat | i < j < |arrivals| ensures NoLaterStart(arrivals, i, j, results) {
      assert StartKept(arrivals[i], i, admitted, results) && StartKept(arrivals[j], j, admitted, results);
    }
  }

  /** With a limit of 0 jobs, which the options describe as no limit, nobody is ever
      admitted. */
  lemma NobodyIsAdmitted(c: Config, arrivals: seq<Arrival>, k: nat, s: State, events: multiset<nat>,
                         results: map<ResultKey, JobState>)
    requires Midway(c, arrivals, k, s, events, results) && c.maxNumExecutingJobs == 0
    ensures k == 0 && s.h.admitted == map[] && results == map[] && arrivals[k..] == arrivals
  {
  }

  /** A server that cannot serve its arrivals does not get so far. */
  lemma NeverComesToEnd(c: Config, arrivals: seq<Arrival>, s: State, events: multiset<nat>,
                        results: map<ResultKey, JobState>)
    requires Hosts(c, arrivals) && Ok(c, s) && Midway(c, arrivals, |arrivals|, s, events, results)
    requires s.waiting == multiset{} && s.flight == multiset{}
    ensures arrivals == [] || CanServe(c, arrivals)
  {
    hide Ok, ResultsOk, EventsOk, Later;
    NoJobsLeft(c, s);
    forall i | 0 <= i < |arrivals| ensures c.maxThreads > 0 && FitsMachine(c, arrivals[i].appId) {
      assert Matches(c, arrivals[i], i, s.h.admitted[i]);
      FitsAfterAll(c, s, i);
    }
    if arrivals != [] { assert FitsMachine(c, arrivals[0].appId); }
  }

  /** A job that is not in execution any more has had its macrotask 1 executed. */
  lemma FirstWasStarted(c: Config, s: State, j: nat)
    requires Ok(c, s) && j in s.h.admitted && j !in s.jobs && Size(c, s.h.admitted[j]) > 1
    ensures c.maxThreads > 0
  {
    assert AllDone(c, s.h, j);
    assert IsTask(c, s.h, (j, 1));
    assert (j, 1) in s.h.started;
  }

  lemma FitsAfterAll(c: Config, s: State, j: nat)
    requires c.WellFormed() && Ok(c, s) && j in s.h.admitted && AppKnown(c, s.h.admitted[j]) && j !in s.jobs
    ensures c.maxThreads > 0
    ensures App(c, s.h.admitted[j]).WellFormed()
    ensures c.allocation.MaxParallel? ==> App(c, s.h.admitted[j]).Fits(c.maxThreads)
  {
    hide Ok;
    var q := s.h.admitted[j];
    assert App(c, q).WellFormed();
    FirstWasStarted(c, s, j);
    if c.allocation.MaxParallel? {
      forall v | 1 <= v < |App(c, q).info| ensures |App(c, q).info[v].execTime| - 1 <= c.maxThreads {
        if |TableOf(c, q, v)| > c.maxThreads + 1 { TooWideIsNeverDelivered(c, s, j, v); }
      }
    }
  }

  lemma NoJobsLeft(c: Config, s: State)
    requires c.WellFormed() && Ok(c, s) && s.waiting == multiset{} && s.next == multiset{} && s.flight == multiset{}
    ensures s.jobs == map[]
  {
    hide Ok;
    if s.jobs != map[] {
      var j :| j in s.jobs;
      JobHasWork(c, s, j);
    }
  }

  lemma ServedHaveKeys(c: Config, arrivals: seq<Arrival>, results: map<ResultKey, JobState>)
    requires forall i: nat :: i < |arrivals| ==> Served(c, arrivals[i], i, results)
    ensures forall i: nat :: i < |arrivals| ==> ResultKeyOf(arrivals[i], i) in results
  {
    forall i: nat | i < |arrivals| ensures ResultKeyOf(arrivals[i], i) in results {
      assert Served(c, arrivals[i], i, results);
    }
  }

  lemma {:induction false} ResultsCount(arrivals: seq<Arrival>, results: map<ResultKey, JobState>)
    requires forall i: nat :: i < |arrivals| ==> ResultKeyOf(arrivals[i], i) in results
    requires forall key :: key in results ==> key.2 < |arrivals| && key == ResultKeyOf(arrivals[key.2], key.2)
    ensures |results| == |arrivals|
  {
    if arrivals == [] {
      assert results.Keys == {};
    } else {
      var k := |arrivals| - 1;
      var last := ResultKeyOf(arrivals[k], k);
      var rest := results - {last};
      forall i: nat | i < k ensures ResultKeyOf(arrivals[..k][i], i) in rest {}
      ResultsCount(arrivals[..k], rest);
      assert results.Keys == rest.Keys + {last};
    }
  }
}
