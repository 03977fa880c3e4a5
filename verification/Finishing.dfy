/** What finishing a macrotask keeps. */
module Finishing {
  import opened Sequences
  import opened Graphs
  import opened Tasks
  import opened Machine

  /** What finish_task needs of the graph. */
  ghost predicate Sane(g: Graph) {
    && g.Consistent() && |g.next| > 1 && g.previous[0] == {}
    && forall u :: 0 <= u < |g.next| ==> NoRepeats(g.next[u])
  }

  ghost function Finished(h: History, k: TaskKey): History { h.(done := h.done + {k}) }

  lemma ReadyGrows(c: Config, h: History, h2: History, k: TaskKey)
    requires h.admitted == h2.admitted && h.done <= h2.done && Ready(c, h, k)
    ensures Ready(c, h2, k)
  {
  }

  lemma FinishKeepsHistory(c: Config, h: History, now: nat, k: TaskKey)
    requires HistoryOk(c, h, now) && k in h.started
    ensures HistoryOk(c, Finished(h, k), now)
  {
    var h2 := Finished(h, k);
    forall i | i in h2.started ensures Ready(c, h2, i) { ReadyGrows(c, h, h2, i); }
    forall j | j in h2.admitted ensures AdmittedOk(c, h2, now, j) { assert AdmittedOk(c, h, now, j); }
    forall i | i in h2.done ensures IsTask(c, h2, i) { assert Ready(c, h, k); assert i == k || IsTask(c, h, i); }
  }

  lemma NothingUnfinished(h: History, j: nat, s: set<nat>, v: nat)
    ensures Unfinished(h, j, s) - {v} == {} <==> forall u :: u in s ==> (j, u) in Finished(h, (j, v)).done
  {
    var h2 := Finished(h, (j, v));
    if Unfinished(h, j, s) - {v} == {} {
      forall u | u in s ensures (j, u) in h2.done {
        if u != v { assert u !in Unfinished(h, j, s) - {v}; }
      }
    }
    if forall u :: u in s ==> (j, u) in h2.done {
      forall u | u in Unfinished(h, j, s) ensures u == v { assert (j, u) in h2.done; }
    }
  }

  /** Exactly the solved successors become ready. */
  lemma SolvedBecomeReady(c: Config, h: History, now: nat, j: nat, js: JobState, v: nat, k: TaskKey)
    requires HistoryOk(c, h, now) && DependenciesOk(c, h, j, js)
    requires (j, v) in h.started && (j, v) !in h.done
    requires Sane(App(c, js.query).graph) && v < |App(c, js.query).graph.next|
    ensures k.0 == j && k.1 in Solved(js.inputDependency, App(c, js.query).graph.next[v], v)
            <==> Ready(c, Finished(h, (j, v)), k) && !Ready(c, h, k)
  {
    var g := App(c, js.query).graph;
    var h2 := Finished(h, (j, v));
    if k.0 == j && k.1 < |js.inputDependency| {
      NothingUnfinished(h, j, Previous(c, js.query, k.1), v);
      assert g.Edge(v, k.1) <==> v in Previous(c, js.query, k.1);
    }
    if Ready(c, h2, k) && !Ready(c, h, k) {
      var u :| u in Previous(c, h.admitted[k.0], k.1) && (k.0, u) !in h.done;
      assert (k.0, u) == (j, v);
    }
  }

  lemma FinishKeepsCount(c: Config, h: History, now: nat, j: nat, js: JobState, v: nat, solved: seq<nat>, t: nat,
                         waiting: multiset<WMT>, next: multiset<EMT>, k: TaskKey)
    requires HistoryOk(c, h, now) && DependenciesOk(c, h, j, js)
    requires Total(IsWaiting(k), waiting) + Total(IsNext(k), next) == if Ready(c, h, k) && k !in h.started then 1 else 0
    requires (j, v) in h.started && NoRepeats(solved)
    requires k.0 == j && k.1 in solved <==> Ready(c, Finished(h, (j, v)), k) && !Ready(c, h, k)
    ensures Total(IsWaiting(k), waiting + multiset(Emitted(js.query, solved, t))) + Total(IsNext(k), next)
            == if Ready(c, Finished(h, (j, v)), k) && k !in h.started then 1 else 0
  {
    TotalUnion(IsWaiting(k), waiting, multiset(Emitted(js.query, solved, t)));
    EmittedCount(js.query, solved, t, k);
    if Ready(c, h, k) { ReadyGrows(c, h, Finished(h, (j, v)), k); }
    assert AdmittedOk(c, h, now, j);
  }

  lemma EmittedRefer(h: History, q: Query, solved: seq<nat>, t: nat, waiting: multiset<WMT>)
    requires q.jobId in h.admitted && q == h.admitted[q.jobId]
    requires forall w :: w in waiting ==> Refers(h, w)
    ensures forall w :: w in waiting + multiset(Emitted(q, solved, t)) ==> Refers(h, w)
  {
    var new_ := Emitted(q, solved, t);
    forall w | w in multiset(new_) ensures Refers(h, w) {
      var i :| 0 <= i < |new_| && new_[i] == w;
    }
  }

  lemma FinishKeepsCounts(c: Config, h: History, now: nat, j: nat, js: JobState, v: nat, solved: seq<nat>, t: nat,
                          waiting: multiset<WMT>, next: multiset<EMT>)
    requires HistoryOk(c, h, now) && DependenciesOk(c, h, j, js) && WaitingOnce(c, h, waiting, next)
    requires (j, v) in h.started && (j, v) !in h.done && Sane(App(c, js.query).graph)
    requires v < |App(c, js.query).graph.next|
    requires solved == Solved(js.inputDependency, App(c, js.query).graph.next[v], v)
    ensures WaitingOnce(c, Finished(h, (j, v)), waiting + multiset(Emitted(js.query, solved, t)), next)
  {
    SolvedDistinct(js.inputDependency, App(c, js.query).graph.next[v], v);
    forall k ensures Total(IsWaiting(k), waiting + multiset(Emitted(js.query, solved, t))) + Total(IsNext(k), next)
                     == if Ready(c, Finished(h, (j, v)), k) && k !in h.started then 1 else 0
    {
      SolvedBecomeReady(c, h, now, j, js, v, k);
      FinishKeepsCount(c, h, now, j, js, v, solved, t, waiting, next, k);
    }
  }

  lemma FinishKeepsWaiting(c: Config, h: History, now: nat, j: nat, js: JobState, v: nat, solved: seq<nat>, t: nat,
                           waiting: multiset<WMT>, next: multiset<EMT>)
    requires HistoryOk(c, h, now) && DependenciesOk(c, h, j, js) && WaitingOk(c, h, waiting, next)
    requires (j, v) in h.started && (j, v) !in h.done && Sane(App(c, js.query).graph)
    requires v < |App(c, js.query).graph.next|
    requires solved == Solved(js.inputDependency, App(c, js.query).graph.next[v], v)
    requires js.query.jobId == j
    ensures WaitingOk(c, Finished(h, (j, v)), waiting + multiset(Emitted(js.query, solved, t)), next)
  {
    FinishKeepsCounts(c, h, now, j, js, v, solved, t, waiting, next);
    EmittedRefer(h, js.query, solved, t, waiting);
  }

  lemma FinishKeepsFlight(c: Config, h: History, flight: multiset<Running>, r: Running)
    requires FlightOk(c, h, flight) && r in flight
    ensures Key(r.emt.wmt) in h.started && Key(r.emt.wmt) !in h.done
    ensures FlightOk(c, Finished(h, Key(r.emt.wmt)), flight - multiset{r})
  {
    forall k
      ensures Total(IsRunning(k), flight) ==
                Total(IsRunning(k), flight - multiset{r}) + if Key(r.emt.wmt) == k then 1 else 0
    {
      TotalRemove(IsRunning(k), flight, r);
    }
  }

  lemma FinishKeepsAccount(c: Config, current: nat, next: multiset<EMT>, flight: multiset<Running>, r: Running)
    requires AccountOk(c, current, next, flight) && r in flight
    ensures r.emt.numThreads <= current
    ensures AccountOk(c, current - r.emt.numThreads, next, flight - multiset{r})
  {
    TotalRemove(RunningThreads, flight, r);
  }

  /** The final set runs empty exactly when all macrotasks are finished. */
  lemma EndIsExact(c: Config, h: History, now: nat, j: nat, js: JobState, v: nat)
    requires HistoryOk(c, h, now) && DependenciesOk(c, h, j, js) && (j, v) in h.started
    requires App(c, js.query).graph.WellFormed()
    ensures js.finalMacrotaskId - {v} == {} <==> AllDone(c, Finished(h, (j, v)), j)
  {
    var g := App(c, js.query).graph;
    var h2 := Finished(h, (j, v));
    FinishKeepsHistory(c, h, now, (j, v));
    var d := set u: nat | u < |g.next| && (j, u) in h2.done;
    if js.finalMacrotaskId - {v} == {} {
      forall f | f in g.finals ensures f in d {
        if (j, f) !in h.done {
          assert f in js.finalMacrotaskId;
          assert f !in js.finalMacrotaskId - {v};
        }
      }
      assert g.DownwardClosed(d) by { DoneIsClosed(c, h2, now, j, d); }
      forall u: nat | IsTask(c, h2, (j, u)) ensures (j, u) in h2.done {
        FinalsImplyAll(g, d, u);
      }
    }
    if AllDone(c, h2, j) {
      forall f | f in js.finalMacrotaskId ensures f == v {
        assert IsTask(c, h2, (j, f));
      }
    }
  }

  lemma DoneIsClosed(c: Config, h: History, now: nat, j: nat, d: set<nat>)
    requires HistoryOk(c, h, now) && j in h.admitted && AppKnown(c, h.admitted[j])
    requires App(c, h.admitted[j]).graph.WellFormed()
    requires d == set u: nat | u < Size(c, h.admitted[j]) && (j, u) in h.done
    ensures App(c, h.admitted[j]).graph.DownwardClosed(d)
  {
    var g := App(c, h.admitted[j]).graph;
    forall v: nat | v in d && v < |g.next| ensures g.previous[v] <= d {
      if v > 0 {
        assert Ready(c, h, (j, v));
        forall u | u in g.previous[v] ensures u in d { assert (j, u) in h.done; assert IsTask(c, h, (j, u)); }
      }
    }
  }

  ghost function JobsAfterFinish(c: Config, jobs: map<nat, JobState>, j: nat, js: JobState, v: nat,
                                 t: nat): map<nat, JobState>
    requires AppKnown(c, js.query) && v < |App(c, js.query).graph.next| && v < |js.log|
  {
    if js.finalMacrotaskId - {v} == {} then jobs - {j} else jobs[j := FinishedJob(c, js, v, t)]
  }

  /** Job::finish_task. */
  ghost function FinishedJob(c: Config, js: JobState, v: nat, t: nat): JobState
    requires AppKnown(c, js.query) && v < |App(c, js.query).graph.next| && v < |js.log|
  {
    LogFinish(Finish(App(c, js.query).graph.next[v], js, v), v, t)
  }

  /** The job's dependency sets stay in step with the history. */
  lemma FinishKeepsDependencies(c: Config, h: History, j: nat, js: JobState, v: nat, t: nat)
    requires DependenciesOk(c, h, j, js) && Sane(App(c, js.query).graph) && v < |App(c, js.query).graph.next|
    requires v < |js.log|
    ensures DependenciesOk(c, Finished(h, (j, v)), j, FinishedJob(c, js, v, t))
  {
    var g := App(c, js.query).graph;
    var js2 := FinishedJob(c, js, v, t);
    forall w: nat | w < |js2.inputDependency|
      ensures js2.inputDependency[w] == Unfinished(Finished(h, (j, v)), j, Previous(c, js.query, w))
    {
      UnfinishedAfter(h, j, v, Previous(c, js.query, w));
      assert g.Edge(v, w) <==> v in g.previous[w];
    }
    UnfinishedAfter(h, j, v, g.finals);
  }

  lemma UnfinishedAfter(h: History, j: nat, v: nat, s: set<nat>)
    ensures Unfinished(Finished(h, (j, v)), j, s) == Unfinished(h, j, s) - {v}
  {
  }

  lemma OthersKeepDependencies(c: Config, h: History, i: nat, js: JobState, k: TaskKey)
    requires DependenciesOk(c, h, i, js) && k.0 != i
    ensures DependenciesOk(c, Finished(h, k), i, js)
  {
    forall s ensures Unfinished(Finished(h, k), i, s) == Unfinished(h, i, s) {}
  }

  lemma FinishKeepsJobs(c: Config, h: History, now: nat, jobs: map<nat, JobState>, j: nat, v: nat, t: nat)
    requires HistoryOk(c, h, now) && JobsOk(c, h, jobs) && (j, v) in h.started && (j, v) !in h.done && j in jobs
    requires DependenciesOk(c, h, j, jobs[j]) && v < |jobs[j].log|
    requires App(c, jobs[j].query).graph.WellFormed() && Sane(App(c, jobs[j].query).graph)
    ensures v < |App(c, jobs[j].query).graph.next|
    ensures JobsOk(c, Finished(h, (j, v)), JobsAfterFinish(c, jobs, j, jobs[j], v, t))
  {
    assert Ready(c, h, (j, v));
    var js := jobs[j];
    var h2 := Finished(h, (j, v));
    var jobs2 := JobsAfterFinish(c, jobs, j, js, v, t);
    EndIsExact(c, h, now, j, js, v);
    forall i ensures i in jobs2 <==> i in h2.admitted && !AllDone(c, h2, i) {
      if i != j { OthersKeepDone(c, h, i, (j, v)); }
    }
    forall i | i in jobs2 ensures DependenciesOk(c, h2, i, jobs2[i]) {
      if i == j {
        FinishKeepsDependencies(c, h, j, js, v, t);
      } else {
        OthersKeepDependencies(c, h, i, jobs[i], (j, v));
      }
    }
  }

  lemma OthersKeepDone(c: Config, h: History, i: nat, k: TaskKey)
    requires k.0 != i
    ensures AllDone(c, Finished(h, k), i) <==> AllDone(c, h, i)
  {
    var h2 := Finished(h, k);
    if AllDone(c, h, i) {
      forall v: nat | IsTask(c, h2, (i, v)) ensures (i, v) in h2.done { assert IsTask(c, h, (i, v)); }
    }
    if AllDone(c, h2, i) {
      forall v: nat | IsTask(c, h, (i, v)) ensures (i, v) in h.done { assert IsTask(c, h2, (i, v)); }
    }
  }

  /** The log of the job itself, with the new finish time. */
  lemma FinishKeepsLog(c: Config, h: History, now: nat, j: nat, js: JobState, v: nat, t: nat)
    requires HistoryOk(c, h, now) && LogOk(c, h, now, j, js) && (j, v) in h.started && (j, v) !in h.done
    requires 0 < v < |js.log|
    requires j in h.admitted && js.query == h.admitted[j] && v < |App(c, js.query).graph.next|
    requires t <= now && Timed(c, js.query, v, (js.log[v].0, t))
    ensures LogOk(c, Finished(h, (j, v)), now, j, FinishedJob(c, js, v, t))
  {
    var js2 := FinishedJob(c, js, v, t);
    forall w: nat, u: nat | w < |js2.log| && (j, w) in h.started && u in Previous(c, js.query, w) && u < |js2.log|
      ensures js2.log[u].1 <= js2.log[w].0
    {
      assert Ready(c, h, (j, w));
      assert u != v;
    }
  }

  lemma OthersKeepLog(c: Config, h: History, now: nat, i: nat, js: JobState, k: TaskKey)
    requires LogOk(c, h, now, i, js) && k.0 != i
    ensures LogOk(c, Finished(h, k), now, i, js)
  {
  }

  lemma FinishKeepsLogs(c: Config, h: History, now: nat, jobs: map<nat, JobState>, j: nat, v: nat, t: nat)
    requires HistoryOk(c, h, now) && LogsOk(c, h, now, jobs) && (j, v) in h.started && (j, v) !in h.done && j in jobs
    requires j in h.admitted && jobs[j].query == h.admitted[j] && AppKnown(c, jobs[j].query)
    requires 0 < v < |jobs[j].log| && v < |App(c, jobs[j].query).graph.next|
    requires t <= now && Timed(c, jobs[j].query, v, (jobs[j].log[v].0, t))
    ensures LogsOk(c, Finished(h, (j, v)), now, JobsAfterFinish(c, jobs, j, jobs[j], v, t))
    ensures LogOk(c, Finished(h, (j, v)), now, j, FinishedJob(c, jobs[j], v, t))
  {
    var jobs2 := JobsAfterFinish(c, jobs, j, jobs[j], v, t);
    FinishKeepsLog(c, h, now, j, jobs[j], v, t);
    forall i | i in jobs2 && i != j ensures LogOk(c, Finished(h, (j, v)), now, i, jobs2[i]) {
      OthersKeepLog(c, h, now, i, jobs[i], (j, v));
    }
  }

  /** What remains in execution is still on schedule. */
  lemma FinishKeepsFinish(c: Config, h: History, jobs: map<nat, JobState>, jobs2: map<nat, JobState>,
                          flight: multiset<Running>, r: Running)
    requires FinishOk(c, h, jobs, flight) && r in flight
    requires forall x :: x in flight ==> r.finishTime <= x.finishTime
    requires var j, v := r.emt.wmt.query.jobId, r.emt.wmt.macrotaskId;
             && j in jobs && v < |jobs[j].log| && AppKnown(c, jobs[j].query) && v < |App(c, jobs[j].query).graph.next|
             && jobs2 == JobsAfterFinish(c, jobs, j, jobs[j], v, r.finishTime)
    requires forall x :: x in flight - multiset{r} ==> x.emt.wmt.query.jobId in jobs2
    ensures FinishOk(c, Finished(h, Key(r.emt.wmt)), jobs2, flight - multiset{r})
  {
    forall x | x in flight - multiset{r}
      ensures FinishesAsPlanned(c, jobs2, x) && NothingFinishedAfter(Finished(h, Key(r.emt.wmt)), jobs2, x.finishTime)
    {
      assert x in flight;
      assert FinishesAsPlanned(c, jobs, x) && NothingFinishedAfter(h, jobs, x.finishTime);
      LaterKeepsFinish(c, h, jobs, jobs2, r, x);
    }
  }

  lemma LaterKeepsFinish(c: Config, h: History, jobs: map<nat, JobState>, jobs2: map<nat, JobState>, r: Running,
                         x: Running)
    requires FinishesAsPlanned(c, jobs, x) && NothingFinishedAfter(h, jobs, x.finishTime)
    requires r.finishTime <= x.finishTime && x.emt.wmt.query.jobId in jobs2
    requires var j, v := r.emt.wmt.query.jobId, r.emt.wmt.macrotaskId;
             && j in jobs && v < |jobs[j].log| && AppKnown(c, jobs[j].query) && v < |App(c, jobs[j].query).graph.next|
             && jobs2 == JobsAfterFinish(c, jobs, j, jobs[j], v, r.finishTime)
    ensures FinishesAsPlanned(c, jobs2, x) && NothingFinishedAfter(Finished(h, Key(r.emt.wmt)), jobs2, x.finishTime)
  {
    var j, v := r.emt.wmt.query.jobId, r.emt.wmt.macrotaskId;
    var h2 := Finished(h, Key(r.emt.wmt));
    forall i: nat, u: nat | i in jobs2 && u < |jobs2[i].log| && (i, u) in h2.done
      ensures jobs2[i].log[u].1 <= x.finishTime
    {
      if (i, u) != (j, v) { assert (i, u) in h.done; assert u < |jobs[i].log|; }
    }
  }

  /** A job with something in execution is not finished. */
  lemma StillInFlight(c: Config, h: History, now: nat, flight: multiset<Running>, x: Running)
    requires FlightOk(c, h, flight) && x in flight && forall k :: k in h.started ==> Ready(c, h, k)
    ensures Key(x.emt.wmt) in h.started && Key(x.emt.wmt) !in h.done
    ensures x.emt.wmt.query.jobId in h.admitted && !AllDone(c, h, x.emt.wmt.query.jobId)
  {
    TotalRemove(IsRunning(Key(x.emt.wmt)), flight, x);
  }

  lemma FinishKeepsStarts(c: Config, jobs: map<nat, JobState>, j: nat, v: nat, t: nat)
    requires StartsOk(jobs) && j in jobs && AppKnown(c, jobs[j].query)
    requires v < |jobs[j].log| && v < |App(c, jobs[j].query).graph.next|
    ensures StartsOk(JobsAfterFinish(c, jobs, j, jobs[j], v, t)) && InOrderOfStart(FinishedJob(c, jobs[j], v, t))
  {
  }

  lemma FinishKeepsOrders(c: Config, h: History, jobs: map<nat, JobState>, j: nat, v: nat, t: nat)
    requires OrdersOk(c, h, jobs) && j in jobs && AppKnown(c, jobs[j].query)
    requires v < |jobs[j].log| && v < |App(c, jobs[j].query).graph.next|
    ensures OrdersOk(c, Finished(h, (j, v)), JobsAfterFinish(c, jobs, j, jobs[j], v, t))
    ensures OrderOk(c, Finished(h, (j, v)), j, FinishedJob(c, jobs[j], v, t))
  {
    forall i | i in jobs ensures OrderOk(c, Finished(h, (j, v)), i, jobs[i]) {
      assert OrderOk(c, h, i, jobs[i]);
    }
  }
}
