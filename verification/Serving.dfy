/** A whole run of the simulation: what holds between two passes of the server's
    loop, and what each part of a pass does to it. */
module Serving {
  import opened Sequences
  import opened Operands
  import opened Tasks
  import opened Machine

  /** A query that will arrive: when, for which application, with which inputs. */
  datatype Arrival = Arrival(time: nat, appId: nat, clientId: nat, pt: seq<Plaintext>, ct: seq<Ciphertext>)

  /** Application, client and query number. */
  type ResultKey = (nat, nat, nat)

  function ResultKeyOf(a: Arrival, i: nat): ResultKey { (a.appId, a.clientId, i) }

  function NewQuery(a: Arrival, queryId: nat, jobId: nat): Query {
    Query(a.appId, a.clientId, queryId, jobId, a.pt, a.ct, a.time, 0, 0, 0)
  }

  function StartedAt(q: Query, t: nat): Query { q.(startTime := t) }

  /** The query is the `i`-th arrival. */
  ghost predicate Matches(c: Config, a: Arrival, i: nat, q: Query) {
    && AppKnown(c, q) && q.appId == a.appId && q.clientId == a.clientId && q.queryId == i && q.jobId == i
    && q.pt == a.pt && q.ct == a.ct && q.receivedTime == a.time
    && q.deadline == a.time + App(c, q).totalExecTimeForPrediction
  }

  /** Exactly the first `k` arrivals have been admitted, each as a job of its own. */
  ghost predicate AdmittedFrom(c: Config, arrivals: seq<Arrival>, k: nat, admitted: map<nat, Query>) {
    && k <= |arrivals|
    && (forall j: nat :: j in admitted <==> j < k)
    && (forall j: nat :: j < k ==> Matches(c, arrivals[j], j, admitted[j]))
  }

  /** The `i`-th arrival has been served. */
  ghost predicate Served(c: Config, a: Arrival, i: nat, results: map<ResultKey, JobState>) {
    var key := ResultKeyOf(a, i);
    key in results && Matches(c, a, i, results[key].query) && Delivered(c, results[key])
  }

  /** Results are there for exactly the queries admitted and no longer in execution. */
  ghost predicate ResultsOk(c: Config, arrivals: seq<Arrival>, k: nat, jobs: set<nat>,
                            results: map<ResultKey, JobState>) {
    && k <= |arrivals|
    && (forall i: nat :: i < k && i !in jobs ==> Served(c, arrivals[i], i, results))
    && (forall key :: key in results ==> key.2 < k && key.2 !in jobs && key == ResultKeyOf(arrivals[key.2], key.2))
  }

  /** Queries were started in the order of their arrival. */
  ghost predicate StartedInOrder(k: nat, admitted: map<nat, Query>) {
    && (forall j: nat :: j < k ==> j in admitted)
    && forall i: nat, j: nat :: i < j < k ==> admitted[i].startTime <= admitted[j].startTime
  }

  /** Results keep when their queries were started. */
  ghost predicate StartsKept(arrivals: seq<Arrival>, k: nat, admitted: map<nat, Query>, jobs: set<nat>,
                             results: map<ResultKey, JobState>) {
    k <= |arrivals| && forall i: nat :: i < k && i !in jobs ==> StartKept(arrivals[i], i, admitted, results)
  }

  ghost predicate StartKept(a: Arrival, i: nat, admitted: map<nat, Query>, results: map<ResultKey, JobState>) {
    && i in admitted && ResultKeyOf(a, i) in results
    && results[ResultKeyOf(a, i)].query.startTime == admitted[i].startTime
  }

  /** The `i`-th query was started no later than the `j`-th. */
  ghost predicate NoLaterStart(arrivals: seq<Arrival>, i: nat, j: nat, results: map<ResultKey, JobState>)
    requires i < |arrivals| && j < |arrivals|
  {
    && ResultKeyOf(arrivals[i], i) in results && ResultKeyOf(arrivals[j], j) in results
    && results[ResultKeyOf(arrivals[i], i)].query.startTime <= results[ResultKeyOf(arrivals[j], j)].query.startTime
  }

  function FinishesAt(t: nat): Running -> nat { (r: Running) => if r.finishTime == t then 1 else 0 }

  function ArrivesAt(t: nat): Arrival -> nat { (a: Arrival) => if a.time == t then 1 else 0 }

  /** The pending events after now are exactly the ends of what is in execution
      and the arrivals to come; no event lies in the past. */
  ghost predicate EventsOk(now: nat, events: multiset<nat>, flight: multiset<Running>, pending: seq<Arrival>) {
    && (forall t :: t in events ==> now <= t)
    && (forall t: nat :: now < t ==> events[t] == Total(FinishesAt(t), flight) + Total(ArrivesAt(t), multiset(pending)))
  }

  ghost predicate Later(now: nat, flight: multiset<Running>) {
    forall r :: r in flight ==> r.finishTime > now
  }

  /** An arrival that is due waits only while as many jobs are in execution as may be. */
  ghost predicate NobodyWaitsInVain(c: Config, now: nat, pending: seq<Arrival>, numJobs: nat) {
    pending != [] && pending[0].time <= now ==> numJobs == c.maxNumExecutingJobs
  }

  /** The executor does not stand still while something waits. */
  ghost predicate Busy(s: State) {
    s.waiting != multiset{} ==> s.flight != multiset{}
  }

  /** What is known of the arrivals: their applications. */
  ghost predicate Hosts(c: Config, arrivals: seq<Arrival>) {
    c.WellFormed() && forall i :: 0 <= i < |arrivals| ==> arrivals[i].appId in c.apps
  }

  /** What a server must be like to serve these arrivals: it must have threads and
      execute some job at a time, and under MaxParallel it must be as wide as every
      table of their applications. */
  ghost predicate CanServe(c: Config, arrivals: seq<Arrival>) {
    && Hosts(c, arrivals) && c.maxThreads > 0 && c.maxNumExecutingJobs > 0
    && forall i :: 0 <= i < |arrivals| ==> FitsMachine(c, arrivals[i].appId)
  }

  ghost predicate FitsMachine(c: Config, appId: nat)
    requires c.WellFormed()
  {
    appId in c.apps && (c.allocation.MaxParallel? ==> c.apps[appId].Fits(c.maxThreads))
  }

  /** Within a pass: `k` queries have been admitted, and every arrival is to come, in
      execution or served. */
  ghost predicate Midway(c: Config, arrivals: seq<Arrival>, k: nat, s: State, events: multiset<nat>,
                         results: map<ResultKey, JobState>) {
    && AdmittedFrom(c, arrivals, k, s.h.admitted)
    && ResultsOk(c, arrivals, k, s.jobs.Keys, results)
    && StartedInOrder(k, s.h.admitted)
    && StartsKept(arrivals, k, s.h.admitted, s.jobs.Keys, results)
    && EventsOk(s.now, events, s.flight, arrivals[k..])
    && Later(s.now, s.flight)
    && |s.jobs| <= c.maxNumExecutingJobs
    && (c.maxNumExecutingJobs == 0 ==> k == 0)
    && s.next == multiset{}
  }

  /** Between two passes; before the first one every arrival is announced.  A server
      that cannot serve its arrivals may come to a standstill. */
  ghost predicate Between(c: Config, arrivals: seq<Arrival>, k: nat, s: State, events: multiset<nat>,
                          results: map<ResultKey, JobState>) {
    && Midway(c, arrivals, k, s, events, results)
    && (NobodyWaitsInVain(c, s.now, arrivals[k..], |s.jobs|) || (k == 0 && |events| == |arrivals|))
    && (CanServe(c, arrivals) ==> Busy(s))
  }

  /** The clock has gone from `now` to the earliest event, if there is one. */
  ghost predicate Ticked(now: nat, events: multiset<nat>, now2: nat, events2: multiset<nat>) {
    if events == multiset{} then now2 == now && events2 == events else
      now2 in events && (forall t :: t in events ==> now2 <= t) && events2 == events - multiset{now2}
  }

  function KeyOfResult(js: JobState): ResultKey { (js.query.appId, js.query.clientId, js.query.queryId) }

  /** The results with some more added. */
  ghost function WithResults(results: map<ResultKey, JobState>, jobs: seq<JobState>): map<ResultKey, JobState> {
    if jobs == [] then results else
      WithResults(results, jobs[..|jobs| - 1])[KeyOfResult(jobs[|jobs| - 1]) := jobs[|jobs| - 1]]
  }

  // ---- the measure ----

  ghost function SizeOf(c: Config, a: Arrival): nat {
    if a.appId in c.apps then |c.apps[a.appId].graph.next| else 0
  }

  /** All macrotasks of all arrivals. */
  ghost function AllTasks(c: Config, arrivals: seq<Arrival>): set<TaskKey> {
    set j: nat, v: nat | j < |arrivals| && 0 < v < SizeOf(c, arrivals[j]) :: (j, v)
  }

  ghost function NumTasks(c: Config, arrivals: seq<Arrival>): nat {
    if arrivals == [] then 0 else
      NumTasks(c, arrivals[..|arrivals| - 1]) + Upto(SizeOf(c, arrivals[|arrivals| - 1]))
  }

  function Upto(n: nat): nat { if n == 0 then 0 else n - 1 }

  /** Every arrival has its result, complete, there are no other results, and queries
      were started in the order of the arrivals. */
  ghost predicate AllServed(c: Config, arrivals: seq<Arrival>, results: map<ResultKey, JobState>) {
    && (forall i: nat :: i < |arrivals| ==> Served(c, arrivals[i], i, results))
    && (forall key :: key in results ==> key.2 < |arrivals| && key == ResultKeyOf(arrivals[key.2], key.2))
    && |results| == |arrivals|
    && (forall i: nat, j: nat :: i < j < |arrivals| ==> NoLaterStart(arrivals, i, j, results))
  }
}
