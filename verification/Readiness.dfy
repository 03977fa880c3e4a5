/** By which time whatever waits was ready: the schedules that go by it go by what is
    logged. */
module Readiness {
  import opened Sequences
  import opened Tasks
  import opened AllocateMethods
  import opened Machine
  import opened Finishing
  import opened Starting
  import opened Admitting

  // ---- a macrotask is finished ----

  /** Whatever of the job waited before has all its predecessors behind it. */
  lemma FinishKeepsReadyIn(c: Config, h: History, now: nat, js: JobState, j: nat, v: nat, t: nat, w: WMT)
    requires HistoryOk(c, h, now) && Ready(c, h, Key(w)) && Refers(h, w) && w.query.jobId == j
    requires (j, v) !in h.done && AppKnown(c, js.query) && v < |App(c, js.query).graph.next| && v < |js.log|
    requires ReadySince(c, js, w)
    ensures ReadySince(c, FinishedJob(c, js, v, t), w)
  {
    var js2 := FinishedJob(c, js, v, t);
    forall u | u in Previous(c, w.query, w.macrotaskId) ensures u < |js.log| && js2.log[u] == js.log[u] {
      assert (j, u) in h.done;
    }
  }

  /** What becomes ready does so now: its other predecessors were finished earlier. */
  lemma SolvedSince(c: Config, h: History, jobs: map<nat, JobState>, j: nat, js: JobState, v: nat, t: nat, d: nat)
    requires DependenciesOk(c, h, j, js) && Sane(App(c, js.query).graph) && |js.log| == Size(c, js.query)
    requires j in jobs && jobs[j] == js && NothingFinishedAfter(h, jobs, t) && v < |App(c, js.query).graph.next|
    requires d in Solved(js.inputDependency, App(c, js.query).graph.next[v], v)
    ensures ReadySince(c, FinishedJob(c, js, v, t), WMT(d, js.query, t))
  {
    var g := App(c, js.query).graph;
    var js2 := FinishedJob(c, js, v, t);
    NothingUnfinished(h, j, Previous(c, js.query, d), v);
    assert g.Edge(v, d);
    forall u | u in Previous(c, js.query, d) ensures u < |js2.log| && js2.log[u].1 <= t {
      assert g.Edge(u, d);
      if u != v { assert (j, u) in h.done; }
    }
    assert v in Previous(c, js.query, d) && js2.log[v].1 == t;
  }

  lemma FinishKeepsReady(c: Config, h: History, now: nat, jobs: map<nat, JobState>, jobs2: map<nat, JobState>, j: nat,
                         v: nat, t: nat, waiting: multiset<WMT>, next: multiset<EMT>)
    requires HistoryOk(c, h, now) && WaitingOk(c, h, waiting, next) && JobsOk(c, h, jobs)
    requires ReadyOk(c, jobs, waiting, next)
    requires (j, v) in h.started && (j, v) !in h.done && j in jobs && jobs[j].query.jobId == j
    requires AppKnown(c, jobs[j].query) && DependenciesOk(c, h, j, jobs[j]) && Sane(App(c, jobs[j].query).graph)
    requires |jobs[j].log| == Size(c, jobs[j].query) && v < |App(c, jobs[j].query).graph.next|
    requires NothingFinishedAfter(h, jobs, t)
    requires jobs2 == JobsAfterFinish(c, jobs, j, jobs[j], v, t) && JobsOk(c, Finished(h, (j, v)), jobs2)
    requires HistoryOk(c, Finished(h, (j, v)), now)
    ensures var solved := Solved(jobs[j].inputDependency, App(c, jobs[j].query).graph.next[v], v);
            ReadyOk(c, jobs2, waiting + multiset(Emitted(jobs[j].query, solved, t)), next)
  {
    hide ReadySince, DependenciesOk, HistoryOk, JobsOk, WaitingOk, NothingFinishedAfter, Solved, FinishedJob, Sane;
    var js := jobs[j];
    var emitted := Emitted(js.query, Solved(js.inputDependency, App(c, js.query).graph.next[v], v), t);
    forall w | w in waiting ensures ReadyIn(c, jobs2, w) {
      WaitingIsReady(c, h, waiting, next, w);
      WaitingRefers(c, h, waiting, next, w);
      FinishKeepsOne(c, h, now, jobs, jobs2, j, v, t, w);
    }
    forall e | e in next ensures ReadyIn(c, jobs2, e.wmt) {
      NextIsReady(c, h, waiting, next, e);
      NextRefers(c, h, waiting, next, e);
      FinishKeepsOne(c, h, now, jobs, jobs2, j, v, t, e.wmt);
    }
    forall w | w in multiset(emitted) ensures ReadyIn(c, jobs2, w) {
      var i :| 0 <= i < |emitted| && emitted[i] == w;
      SolvedSince(c, h, jobs, j, js, v, t, w.macrotaskId);
      EmittedIsOpen(c, h, now, jobs, jobs2, j, v, t, w.macrotaskId);
    }
  }

  lemma WaitingRefers(c: Config, h: History, waiting: multiset<WMT>, next: multiset<EMT>, w: WMT)
    requires WaitingOk(c, h, waiting, next) && w in waiting
    ensures Refers(h, w)
  {
  }

  lemma NextRefers(c: Config, h: History, waiting: multiset<WMT>, next: multiset<EMT>, e: EMT)
    requires WaitingOk(c, h, waiting, next) && e in next
    ensures Refers(h, e.wmt)
  {
  }

  /** A job with a macrotask that waits is not finished. */
  lemma FinishKeepsOne(c: Config, h: History, now: nat, jobs: map<nat, JobState>, jobs2: map<nat, JobState>, j: nat,
                       v: nat, t: nat, w: WMT)
    requires HistoryOk(c, h, now) && JobsOk(c, h, jobs) && ReadyIn(c, jobs, w) && Refers(h, w)
    requires Ready(c, h, Key(w)) && Key(w) !in h.started && (j, v) in h.started && (j, v) !in h.done && j in jobs
    requires AppKnown(c, jobs[j].query) && v < |jobs[j].log| && v < |App(c, jobs[j].query).graph.next|
    requires jobs2 == JobsAfterFinish(c, jobs, j, jobs[j], v, t) && JobsOk(c, Finished(h, (j, v)), jobs2)
    requires HistoryOk(c, Finished(h, (j, v)), now)
    ensures ReadyIn(c, jobs2, w)
  {
    hide ReadySince, JobsOk, HistoryOk, FinishedJob;
    ReadyGrows(c, h, Finished(h, (j, v)), Key(w));
    JobOfReady(c, Finished(h, (j, v)), now, jobs2, Key(w));
    if w.query.jobId == j { FinishKeepsReadyIn(c, h, now, jobs[j], j, v, t, w); }
  }

  /** Nor is one of which a macrotask becomes ready. */
  lemma EmittedIsOpen(c: Config, h: History, now: nat, jobs: map<nat, JobState>, jobs2: map<nat, JobState>, j: nat,
                      v: nat, t: nat, d: nat)
    requires HistoryOk(c, h, now) && (j, v) in h.started && (j, v) !in h.done && j in jobs
    requires DependenciesOk(c, h, j, jobs[j]) && Sane(App(c, jobs[j].query).graph) && v < |jobs[j].log|
    requires v < |App(c, jobs[j].query).graph.next|
    requires jobs2 == JobsAfterFinish(c, jobs, j, jobs[j], v, t) && JobsOk(c, Finished(h, (j, v)), jobs2)
    requires HistoryOk(c, Finished(h, (j, v)), now)
    requires d in Solved(jobs[j].inputDependency, App(c, jobs[j].query).graph.next[v], v)
    ensures j in jobs2 && jobs2[j] == FinishedJob(c, jobs[j], v, t)
  {
    hide Solved, JobsOk, Sane, FinishedJob, Ready;
    SolvedBecomeReady(c, h, now, j, jobs[j], v, (j, d));
    NotYetStarted(c, h, now, (j, d));
    JobOfReady(c, Finished(h, (j, v)), now, jobs2, (j, d));
  }

  lemma NotYetStarted(c: Config, h: History, now: nat, k: TaskKey)
    requires HistoryOk(c, h, now) && !Ready(c, h, k)
    ensures k !in h.started
  {
  }

  // ---- a macrotask is started, a query admitted, threads are handed out ----

  lemma StartKeepsReady(c: Config, jobs: map<nat, JobState>, j: nat, v: nat, now: nat, waiting: multiset<WMT>,
                        next: multiset<EMT>, e: EMT)
    requires ReadyOk(c, jobs, waiting, next) && j in jobs && AppKnown(c, jobs[j].query)
    requires v < |jobs[j].log| && v < |App(c, jobs[j].query).operations|
    ensures ReadyOk(c, jobs[j := Start(c, jobs[j], v, now)], waiting, next - multiset{e})
  {
    var jobs2 := jobs[j := Start(c, jobs[j], v, now)];
    forall w | ReadyIn(c, jobs, w) ensures ReadyIn(c, jobs2, w) {
      StartKeepsReadyIn(c, jobs, j, v, now, w);
    }
    forall x | x in next - multiset{e} ensures ReadyIn(c, jobs2, x.wmt) { assert x in next; }
  }

  lemma StartKeepsReadyIn(c: Config, jobs: map<nat, JobState>, j: nat, v: nat, now: nat, w: WMT)
    requires ReadyIn(c, jobs, w) && j in jobs && AppKnown(c, jobs[j].query)
    requires v < |jobs[j].log| && v < |App(c, jobs[j].query).operations|
    ensures ReadyIn(c, jobs[j := Start(c, jobs[j], v, now)], w)
  {
    var js, js2 := jobs[j], Start(c, jobs[j], v, now);
    assert |js2.log| == |js.log| && forall u: nat :: u < |js.log| ==> js2.log[u].1 == js.log[u].1;
  }

  lemma FirstSince(c: Config, h: History, now: nat, q: Query, d: nat)
    requires Admissible(c, h, now, q) && WithDeadline(c, q) == q
    requires d in Solved(App(c, q).graph.previous, App(c, q).graph.next[0], 0)
    ensures ReadySince(c, AdmittedJob(c, q, now), WMT(d, q, q.startTime))
  {
    var g := App(c, q).graph;
    assert g.Edge(0, d);
    forall u | u in Previous(c, q, d) ensures u == 0 { assert u !in g.previous[d] - {0}; }
    assert 0 in Previous(c, q, d) && AdmittedJob(c, q, now).log[0].1 == now;
  }

  lemma AdmitKeepsReady(c: Config, h: History, now: nat, q: Query, jobs: map<nat, JobState>, waiting: multiset<WMT>,
                        next: multiset<EMT>)
    requires Admissible(c, h, now, q) && ReadyOk(c, jobs, waiting, next) && q.jobId !in jobs && WithDeadline(c, q) == q
    ensures var solved := Solved(App(c, q).graph.previous, App(c, q).graph.next[0], 0);
            ReadyOk(c, jobs[q.jobId := AdmittedJob(c, q, now)],
                    waiting + multiset(Emitted(q, solved, q.startTime)), next)
  {
    hide ReadyOk, ReadyIn, Solved, AdmittedJob;
    var emitted := Emitted(q, Solved(App(c, q).graph.previous, App(c, q).graph.next[0], 0), q.startTime);
    FirstReadyIn(c, h, now, q, jobs, emitted);
    MoreWait(c, jobs, jobs[q.jobId := AdmittedJob(c, q, now)], waiting, emitted, next);
  }

  lemma MoreWait(c: Config, jobs: map<nat, JobState>, jobs2: map<nat, JobState>, waiting: multiset<WMT>,
                 emitted: seq<WMT>, next: multiset<EMT>)
    requires ReadyOk(c, jobs, waiting, next) && forall j :: j in jobs ==> j in jobs2 && jobs2[j] == jobs[j]
    requires forall w :: w in multiset(emitted) ==> ReadyIn(c, jobs2, w)
    ensures ReadyOk(c, jobs2, waiting + multiset(emitted), next)
  {
    hide ReadySince;
    forall w | ReadyIn(c, jobs, w) ensures ReadyIn(c, jobs2, w) {}
  }

  lemma FirstReadyIn(c: Config, h: History, now: nat, q: Query, jobs: map<nat, JobState>, emitted: seq<WMT>)
    requires Admissible(c, h, now, q) && WithDeadline(c, q) == q
    requires emitted == Emitted(q, Solved(App(c, q).graph.previous, App(c, q).graph.next[0], 0), q.startTime)
    ensures forall w :: w in multiset(emitted) ==> ReadyIn(c, jobs[q.jobId := AdmittedJob(c, q, now)], w)
  {
    hide ReadySince, Solved, AdmittedJob;
    forall w | w in multiset(emitted) ensures ReadyIn(c, jobs[q.jobId := AdmittedJob(c, q, now)], w) {
      var i :| 0 <= i < |emitted| && emitted[i] == w;
      FirstSince(c, h, now, q, w.macrotaskId);
    }
  }

  lemma AdmitKeepsStarts(c: Config, q: Query, now: nat, jobs: map<nat, JobState>)
    requires StartsOk(jobs) && AppKnown(c, q) && |App(c, q).graph.next| > 0
    ensures StartsOk(jobs[q.jobId := AdmittedJob(c, q, now)])
  {
  }

  lemma AllocateKeepsReady(c: Config, jobs: map<nat, JobState>, waiting: seq<WMT>, after: seq<WMT>, given: seq<EMT>,
                           available: nat)
    requires ReadyOk(c, jobs, multiset(waiting), multiset{}) && Granted(c, waiting, after, given, available)
    ensures ReadyOk(c, jobs, multiset(after), multiset(given))
  {
    hide ReadyIn, Granted;
    SameMacrotasks(c, waiting, after, given, available);
    forall e | e in multiset(given) ensures ReadyIn(c, jobs, e.wmt) {
      var i :| 0 <= i < |given| && given[i] == e;
      assert Wmts(given)[i] in multiset(Wmts(given));
    }
  }

  lemma SameMacrotasks(c: Config, waiting: seq<WMT>, after: seq<WMT>, given: seq<EMT>, available: nat)
    requires Granted(c, waiting, after, given, available)
    ensures forall w :: w in multiset(after) || w in multiset(Wmts(given)) ==> w in multiset(waiting)
  {
  }
}
