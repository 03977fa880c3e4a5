/** What starting a macrotask keeps. */
module Starting {
  import opened Sequences
  import opened Operands
  import opened Tasks
  import opened AllocateMethods
  import opened Machine

  ghost function Started(h: History, k: TaskKey): History { h.(started := h.started + {k}) }

  /** Whoever waits with threads at hand is ready and has not been started. */
  lemma NextIsReady(c: Config, h: History, waiting: multiset<WMT>, next: multiset<EMT>, e: EMT)
    requires WaitingOk(c, h, waiting, next) && e in next
    ensures Ready(c, h, Key(e.wmt)) && Key(e.wmt) !in h.started
  {
    TotalRemove(IsNext(Key(e.wmt)), next, e);
  }

  lemma WaitingIsReady(c: Config, h: History, waiting: multiset<WMT>, next: multiset<EMT>, w: WMT)
    requires WaitingOk(c, h, waiting, next) && w in waiting
    ensures Ready(c, h, Key(w)) && Key(w) !in h.started
  {
    TotalRemove(IsWaiting(Key(w)), waiting, w);
  }

  lemma StartKeepsHistory(c: Config, h: History, now: nat, k: TaskKey)
    requires HistoryOk(c, h, now) && Ready(c, h, k)
    ensures HistoryOk(c, Started(h, k), now)
  {
    var h2 := Started(h, k);
    forall i | i in h2.started ensures Ready(c, h2, i) { assert Ready(c, h, i); }
    forall j | j in h2.admitted ensures AdmittedOk(c, h2, now, j) { assert AdmittedOk(c, h, now, j); }
  }

  lemma ReadyUnchanged(c: Config, h: History, k: TaskKey, i: TaskKey)
    ensures Ready(c, Started(h, k), i) <==> Ready(c, h, i)
  {
  }

  lemma StartKeepsWaiting(c: Config, h: History, waiting: multiset<WMT>, next: multiset<EMT>, e: EMT)
    requires WaitingOk(c, h, waiting, next) && e in next
    ensures WaitingOk(c, Started(h, Key(e.wmt)), waiting, next - multiset{e})
  {
    var h2 := Started(h, Key(e.wmt));
    NextIsReady(c, h, waiting, next, e);
    forall k ensures Total(IsWaiting(k), waiting) + Total(IsNext(k), next - multiset{e})
                     == if Ready(c, h2, k) && k !in h2.started then 1 else 0
    {
      TotalRemove(IsNext(k), next, e);
      ReadyUnchanged(c, h, Key(e.wmt), k);
    }
    forall w | w in waiting ensures Refers(h2, w) { assert Refers(h, w); }
    forall x | x in next - multiset{e} ensures Refers(h2, x.wmt) && ValidThreads(c, x) { assert x in next; }
  }

  lemma StartKeepsFlight(c: Config, h: History, now: nat, flight: multiset<Running>, r: Running)
    requires FlightOk(c, h, flight) && HistoryOk(c, h, now)
    requires Key(r.emt.wmt) !in h.started && Key(r.emt.wmt).1 > 0 && Refers(h, r.emt.wmt) && ValidThreads(c, r.emt)
    ensures FlightOk(c, Started(h, Key(r.emt.wmt)), flight + multiset{r})
  {
    var h2 := Started(h, Key(r.emt.wmt));
    forall k ensures Total(IsRunning(k), flight + multiset{r}) == if k in h2.started && k !in h2.done then 1 else 0 {
      TotalAdd(IsRunning(k), flight, r);
    }
    forall x | x in flight + multiset{r} ensures Refers(h2, x.emt.wmt) && ValidThreads(c, x.emt) {
      if x != r { assert x in flight; }
    }
  }

  lemma StartKeepsAccount(c: Config, current: nat, next: multiset<EMT>, flight: multiset<Running>, e: EMT, r: Running)
    requires AccountOk(c, current, next, flight) && e in next && r.emt == e
    ensures AccountOk(c, current + e.numThreads, next - multiset{e}, flight + multiset{r})
  {
    TotalRemove(NumThreads, next, e);
    TotalAdd(RunningThreads, flight, r);
  }

  lemma SameDone(c: Config, h: History, k: TaskKey, j: nat)
    ensures AllDone(c, Started(h, k), j) <==> AllDone(c, h, j)
  {
    var h2 := Started(h, k);
    if AllDone(c, h, j) {
      forall v: nat | IsTask(c, h2, (j, v)) ensures (j, v) in h2.done { assert IsTask(c, h, (j, v)); }
    }
    if AllDone(c, h2, j) {
      forall v: nat | IsTask(c, h, (j, v)) ensures (j, v) in h.done { assert IsTask(c, h2, (j, v)); }
    }
  }

  /** The job of a ready macrotask that is not started is in execution. */
  lemma JobOfReady(c: Config, h: History, now: nat, jobs: map<nat, JobState>, k: TaskKey)
    requires HistoryOk(c, h, now) && JobsOk(c, h, jobs) && Ready(c, h, k) && k !in h.started
    ensures k.0 in jobs && k !in h.done
  {
    assert IsTask(c, h, k);
    assert (k.0, k.1) == k;
    assert !AllDone(c, h, k.0);
  }

  lemma DependenciesUnchanged(c: Config, h: History, k: TaskKey, j: nat, js: JobState, js2: JobState)
    requires DependenciesOk(c, h, j, js)
    requires js2.query == js.query && js2.inputDependency == js.inputDependency
    requires js2.finalMacrotaskId == js.finalMacrotaskId
    ensures DependenciesOk(c, Started(h, k), j, js2)
  {
    forall s ensures Unfinished(Started(h, k), j, s) == Unfinished(h, j, s) {}
  }

  lemma StartKeepsJobs(c: Config, h: History, now: nat, jobs: map<nat, JobState>, j: nat, v: nat)
    requires JobsOk(c, h, jobs) && j in jobs && AppKnown(c, jobs[j].query)
    requires v < |jobs[j].log| && v < |App(c, jobs[j].query).operations|
    ensures JobsOk(c, Started(h, (j, v)), jobs[j := Start(c, jobs[j], v, now)])
  {
    var h2 := Started(h, (j, v));
    var jobs2 := jobs[j := Start(c, jobs[j], v, now)];
    forall i ensures i in jobs2 <==> i in h2.admitted && !AllDone(c, h2, i) { SameDone(c, h, (j, v), i); }
    forall i | i in jobs2 ensures DependenciesOk(c, h2, i, jobs2[i]) {
      DependenciesUnchanged(c, h, (j, v), i, jobs[i], jobs2[i]);
    }
  }

  lemma StartKeepsLog(c: Config, h: History, now: nat, j: nat, js: JobState, v: nat)
    requires HistoryOk(c, h, now) && LogOk(c, h, now, j, js) && Ready(c, h, (j, v)) && (j, v) !in h.started
    requires j in h.admitted && js.query == h.admitted[j] && v < |js.log| && v < |App(c, js.query).operations|
    ensures LogOk(c, Started(h, (j, v)), now, j, Start(c, js, v, now))
  {
    var js2 := Start(c, js, v, now);
    var h2 := Started(h, (j, v));
    assert AdmittedOk(c, h, now, j);
    assert (j, v) !in h.done;
    forall w: nat, u: nat | w < |js2.log| && (j, w) in h2.started && u in Previous(c, js.query, w) && u < |js2.log|
      ensures js2.log[u].1 <= js2.log[w].0
    {
      if w == v { assert (j, u) in h.done; }
    }
  }

  lemma StartKeepsLogs(c: Config, h: History, now: nat, jobs: map<nat, JobState>, j: nat, v: nat)
    requires HistoryOk(c, h, now) && LogsOk(c, h, now, jobs) && Ready(c, h, (j, v)) && (j, v) !in h.started && j in jobs
    requires j in h.admitted && jobs[j].query == h.admitted[j] && AppKnown(c, jobs[j].query)
    requires v < |jobs[j].log| && v < |App(c, jobs[j].query).operations|
    ensures LogsOk(c, Started(h, (j, v)), now, jobs[j := Start(c, jobs[j], v, now)])
  {
    var jobs2 := jobs[j := Start(c, jobs[j], v, now)];
    forall i | i in jobs2 ensures LogOk(c, Started(h, (j, v)), now, i, jobs2[i]) {
      if i == j { StartKeepsLog(c, h, now, j, jobs[j], v); } else { OthersKeepLog(c, h, now, i, jobs[i], (j, v)); }
    }
  }

  lemma OthersKeepLog(c: Config, h: History, now: nat, i: nat, js: JobState, k: TaskKey)
    requires LogOk(c, h, now, i, js) && k.0 != i
    ensures LogOk(c, Started(h, k), now, i, js)
  {
  }

  /** The new entry is on schedule, and so are the others. */
  lemma StartKeepsFinish(c: Config, h: History, now: nat, jobs: map<nat, JobState>, flight: multiset<Running>,
                         r: Running)
    requires FinishOk(c, h, jobs, flight) && FlightOk(c, h, flight) && LogsOk(c, h, now, jobs)
    requires Key(r.emt.wmt) !in h.started && ValidThreads(c, r.emt) && AsAllotted(c, r.emt)
    requires var j, v := r.emt.wmt.query.jobId, r.emt.wmt.macrotaskId;
             && j in jobs && AppKnown(c, jobs[j].query) && v < |jobs[j].log| && v < |App(c, jobs[j].query).operations|
             && r.finishTime == now + InfoOf(c, r.emt.wmt).execTime[r.emt.numThreads]
    ensures var j, v := r.emt.wmt.query.jobId, r.emt.wmt.macrotaskId;
            FinishOk(c, Started(h, Key(r.emt.wmt)), jobs[j := Start(c, jobs[j], v, now)], flight + multiset{r})
  {
    var j, v := r.emt.wmt.query.jobId, r.emt.wmt.macrotaskId;
    var h2 := Started(h, (j, v));
    var jobs2 := jobs[j := Start(c, jobs[j], v, now)];
    forall x | x in flight + multiset{r}
      ensures FinishesAsPlanned(c, jobs2, x) && NothingFinishedAfter(h2, jobs2, x.finishTime)
    {
      if x in flight {
        TotalRemove(IsRunning(Key(x.emt.wmt)), flight, x);
        PlanKept(c, jobs, j, v, now, x);
      } else {
        FinishedByNow(c, h, now, jobs, x.finishTime);
      }
      StartKeepsTimes(c, h, jobs, jobs2, j, v, now, x.finishTime);
    }
  }

  lemma PlanKept(c: Config, jobs: map<nat, JobState>, j: nat, v: nat, now: nat, x: Running)
    requires FinishesAsPlanned(c, jobs, x) && Key(x.emt.wmt) != (j, v)
    requires j in jobs && AppKnown(c, jobs[j].query) && v < |jobs[j].log| && v < |App(c, jobs[j].query).operations|
    ensures FinishesAsPlanned(c, jobs[j := Start(c, jobs[j], v, now)], x)
  {
  }

  lemma FinishedByNow(c: Config, h: History, now: nat, jobs: map<nat, JobState>, t: nat)
    requires LogsOk(c, h, now, jobs) && now <= t
    ensures NothingFinishedAfter(h, jobs, t)
  {
    forall i: nat, u: nat | i in jobs && u < |jobs[i].log| && (i, u) in h.done ensures jobs[i].log[u].1 <= t {
      assert LogOk(c, h, now, i, jobs[i]);
    }
  }

  lemma StartKeepsTimes(c: Config, h: History, jobs: map<nat, JobState>, jobs2: map<nat, JobState>, j: nat, v: nat,
                        now: nat, t: nat)
    requires NothingFinishedAfter(h, jobs, t) && j in jobs && AppKnown(c, jobs[j].query)
    requires v < |jobs[j].log| && v < |App(c, jobs[j].query).operations|
    requires jobs2 == jobs[j := Start(c, jobs[j], v, now)]
    ensures NothingFinishedAfter(Started(h, (j, v)), jobs2, t)
  {
    forall i: nat, u: nat | i in jobs2 && u < |jobs2[i].log| && (i, u) in h.done ensures jobs2[i].log[u].1 <= t {
      assert jobs2[i].log[u].1 == jobs[i].log[u].1;
    }
  }

  lemma StartKeepsOrder(c: Config, h: History, now: nat, j: nat, js: JobState, v: nat)
    requires HistoryOk(c, h, now) && OrderOk(c, h, j, js) && Ready(c, h, (j, v)) && (j, v) !in h.started
    requires j in h.admitted && js.query == h.admitted[j] && v < |js.log| && v < |App(c, js.query).operations|
    ensures OrderOk(c, Started(h, (j, v)), j, Start(c, js, v, now))
  {
    var a := App(c, js.query);
    var order2 := js.order + [v];
    forall u | u in Previous(c, js.query, v) && u > 0 ensures u in js.order { assert (j, u) in h.done; }
    forall i, u | 0 <= i < |order2| && u in Previous(c, js.query, order2[i]) && u > 0 ensures u in order2[..i] {
      if i < |js.order| { assert order2[..i] == js.order[..i]; } else { assert order2[..i] == js.order; }
    }
    forall i | 0 <= i < |js.order| ensures js.order[i] != v { assert js.order[i] in js.order; }
    OrderConcat(SchemeOf(c, js.query), ConstantsOf(c, js.query), a.operations, Some(InitialMemory(a, js.query)),
                js.order, [v]);
    assert [v][1..] == [];
  }

  /** The latest start is logged last. */
  lemma StartKeepsStarts(c: Config, h: History, now: nat, jobs: map<nat, JobState>, j: nat, v: nat)
    requires StartsOk(jobs) && LogsOk(c, h, now, jobs) && OrdersOk(c, h, jobs) && j in jobs && (j, v) !in h.started
    requires AppKnown(c, jobs[j].query) && v < |jobs[j].log| && v < |App(c, jobs[j].query).operations|
    ensures StartsOk(jobs[j := Start(c, jobs[j], v, now)])
  {
    hide LogOk, OrderOk, InOrderOfStart, Start;
    assert LogOk(c, h, now, j, jobs[j]) && OrderOk(c, h, j, jobs[j]) && InOrderOfStart(jobs[j]);
    StartedLast(c, h, now, j, jobs[j], v);
  }

  lemma StartedLast(c: Config, h: History, now: nat, j: nat, js: JobState, v: nat)
    requires InOrderOfStart(js) && LogOk(c, h, now, j, js) && OrderOk(c, h, j, js) && (j, v) !in h.started
    requires AppKnown(c, js.query) && v < |js.log| && v < |App(c, js.query).operations|
    ensures InOrderOfStart(Start(c, js, v, now))
  {
    StartedEarlier(c, h, now, j, js, v);
    hide LogOk, OrderOk;
  }

  lemma StartedEarlier(c: Config, h: History, now: nat, j: nat, js: JobState, v: nat)
    requires InOrderOfStart(js) && LogOk(c, h, now, j, js) && OrderOk(c, h, j, js) && (j, v) !in h.started
    ensures forall i :: 0 <= i < |js.order| ==> js.log[js.order[i]].0 <= now && js.order[i] != v
  {
    forall i | 0 <= i < |js.order| ensures js.log[js.order[i]].0 <= now && js.order[i] != v {
      assert js.order[i] in js.order;
    }
  }

  lemma OthersKeepOrder(c: Config, h: History, i: nat, js: JobState, k: TaskKey)
    requires OrderOk(c, h, i, js) && k.0 != i
    ensures OrderOk(c, Started(h, k), i, js)
  {
  }

  lemma StartKeepsOrders(c: Config, h: History, now: nat, jobs: map<nat, JobState>, j: nat, v: nat)
    requires HistoryOk(c, h, now) && OrdersOk(c, h, jobs) && Ready(c, h, (j, v)) && (j, v) !in h.started && j in jobs
    requires j in h.admitted && jobs[j].query == h.admitted[j] && AppKnown(c, jobs[j].query)
    requires v < |jobs[j].log| && v < |App(c, jobs[j].query).operations|
    ensures OrdersOk(c, Started(h, (j, v)), jobs[j := Start(c, jobs[j], v, now)])
  {
    var jobs2 := jobs[j := Start(c, jobs[j], v, now)];
    forall i | i in jobs2 ensures OrderOk(c, Started(h, (j, v)), i, jobs2[i]) {
      if i == j { StartKeepsOrder(c, h, now, j, jobs[j], v); } else { OthersKeepOrder(c, h, i, jobs[i], (j, v)); }
    }
  }

  /** What is started fits the machine. */
  lemma StartKeepsWidth(c: Config, h: History, current: nat, next: multiset<EMT>, flight: multiset<Running>, e: EMT)
    requires WidthOk(c, h, next) && AccountOk(c, current, next, flight) && e in next && Refers(h, e.wmt)
    requires e.numThreads >= 1
    ensures WidthOk(c, Started(h, Key(e.wmt)), next - multiset{e})
  {
    TotalRemove(NumThreads, next, e);
    if c.allocation.MaxParallel? {
      assert e.numThreads == |TableOf(c, h.admitted[e.wmt.query.jobId], e.wmt.macrotaskId)| - 1;
    }
  }
}
