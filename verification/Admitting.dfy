/** What admitting a query and handing out threads keep. */
module Admitting {
  import opened Sequences
  import opened Tasks
  import opened AllocateMethods
  import opened Machine
  import opened Finishing

  /** The query is admitted and its virtual source is finished. */
  ghost function Admitted(h: History, q: Query): History {
    h.(admitted := h.admitted[q.jobId := q], done := h.done + {(q.jobId, 0)})
  }

  /** A new job with macrotask 0 finished. */
  ghost function AdmittedJob(c: Config, q: Query, now: nat): JobState
    requires AppKnown(c, q) && |App(c, q).graph.next| > 0
  {
    FinishedJob(c, NewJob(c, q), 0, now)
  }

  /** The query is one that the executor may admit now. */
  ghost predicate Admissible(c: Config, h: History, now: nat, q: Query) {
    && AppKnown(c, q) && App(c, q).graph.WellFormed() && Sane(App(c, q).graph)
    && q.jobId !in h.admitted && q.receivedTime <= q.startTime == now
  }

  lemma OthersUnchanged(c: Config, h: History, q: Query, k: TaskKey)
    requires q.jobId !in h.admitted && k.0 != q.jobId
    ensures Ready(c, Admitted(h, q), k) <==> Ready(c, h, k)
    ensures IsTask(c, Admitted(h, q), k) <==> IsTask(c, h, k)
    ensures k in Admitted(h, q).done <==> k in h.done
  {
  }

  /** Nothing has happened yet to a job that is not admitted. */
  lemma NoHistory(c: Config, h: History, now: nat, k: TaskKey)
    requires HistoryOk(c, h, now) && k.0 !in h.admitted
    ensures k !in h.started && k !in h.done
  {
    assert !IsTask(c, h, k);
    assert !Ready(c, h, k);
  }

  lemma AdmitKeepsHistory(c: Config, h: History, now: nat, q: Query)
    requires HistoryOk(c, h, now) && Admissible(c, h, now, q)
    ensures HistoryOk(c, Admitted(h, q), now)
  {
    var h2 := Admitted(h, q);
    forall k | k in h2.started ensures Ready(c, h2, k) { assert Ready(c, h, k); OthersUnchanged(c, h, q, k); }
    forall j | j in h2.admitted ensures AdmittedOk(c, h2, now, j) {
      if j != q.jobId { assert AdmittedOk(c, h, now, j); }
    }
    forall k | k in h2.done ensures IsTask(c, h2, k) {
      if k.0 != q.jobId { OthersUnchanged(c, h, q, k); } else { assert k in h.done ==> IsTask(c, h, k); }
    }
  }

  /** Exactly the successors of the virtual source are ready. */
  lemma FirstReady(c: Config, h: History, now: nat, q: Query, v: nat)
    requires HistoryOk(c, h, now) && Admissible(c, h, now, q)
    ensures v in Solved(App(c, q).graph.previous, App(c, q).graph.next[0], 0) <==>
              Ready(c, Admitted(h, q), (q.jobId, v))
  {
    var g := App(c, q).graph;
    var h2 := Admitted(h, q);
    forall u: nat ensures (q.jobId, u) in h2.done <==> u == 0 {
      NoHistory(c, h, now, (q.jobId, u));
    }
    if v in Solved(g.previous, g.next[0], 0) {
      assert g.Edge(0, v);
      forall u | u in Previous(c, q, v) ensures (q.jobId, u) in h2.done { assert u !in g.previous[v] - {0}; }
    }
    if Ready(c, h2, (q.jobId, v)) {
      assert g.previous[v] != {};
      var u :| u in g.previous[v];
      assert u in Previous(c, q, v);
      assert g.Edge(0, v);
      forall u | u in g.previous[v] ensures u == 0 { assert u in Previous(c, q, v); }
    }
  }

  lemma AdmitKeepsWaiting(c: Config, h: History, now: nat, q: Query, waiting: multiset<WMT>, next: multiset<EMT>,
                          solved: seq<nat>, t: nat)
    requires HistoryOk(c, h, now) && Admissible(c, h, now, q) && WaitingOk(c, h, waiting, next)
    requires solved == Solved(App(c, q).graph.previous, App(c, q).graph.next[0], 0)
    ensures WaitingOk(c, Admitted(h, q), waiting + multiset(Emitted(q, solved, t)), next)
  {
    var h2 := Admitted(h, q);
    SolvedDistinct(App(c, q).graph.previous, App(c, q).graph.next[0], 0);
    forall k ensures Total(IsWaiting(k), waiting + multiset(Emitted(q, solved, t))) + Total(IsNext(k), next)
                     == if Ready(c, h2, k) && k !in h2.started then 1 else 0
    {
      AdmitKeepsCount(c, h, now, q, waiting, next, solved, t, k);
    }
    forall w | w in waiting ensures Refers(h2, w) { assert Refers(h, w); }
    forall e | e in next ensures Refers(h2, e.wmt) && ValidThreads(c, e) { assert Refers(h, e.wmt); }
    EmittedRefer(h2, q, solved, t, waiting);
  }

  lemma AdmitKeepsCount(c: Config, h: History, now: nat, q: Query, waiting: multiset<WMT>, next: multiset<EMT>,
                        solved: seq<nat>, t: nat, k: TaskKey)
    requires HistoryOk(c, h, now) && Admissible(c, h, now, q) && NoRepeats(solved)
    requires Total(IsWaiting(k), waiting) + Total(IsNext(k), next) == if Ready(c, h, k) && k !in h.started then 1 else 0
    requires solved == Solved(App(c, q).graph.previous, App(c, q).graph.next[0], 0)
    ensures Total(IsWaiting(k), waiting + multiset(Emitted(q, solved, t))) + Total(IsNext(k), next)
            == if Ready(c, Admitted(h, q), k) && k !in h.started then 1 else 0
  {
    TotalUnion(IsWaiting(k), waiting, multiset(Emitted(q, solved, t)));
    EmittedCount(q, solved, t, k);
    if k.0 == q.jobId {
      FirstReady(c, h, now, q, k.1);
      assert k == (q.jobId, k.1);
      NoHistory(c, h, now, k);
    } else {
      OthersUnchanged(c, h, q, k);
    }
  }

  lemma AdmitKeepsFlight(c: Config, h: History, now: nat, q: Query, flight: multiset<Running>)
    requires HistoryOk(c, h, now) && Admissible(c, h, now, q) && FlightOk(c, h, flight)
    ensures FlightOk(c, Admitted(h, q), flight)
  {
    var h2 := Admitted(h, q);
    forall k ensures Total(IsRunning(k), flight) == if k in h2.started && k !in h2.done then 1 else 0 {
      if k in h.started { assert Ready(c, h, k); }
    }
    forall r | r in flight ensures Refers(h2, r.emt.wmt) && ValidThreads(c, r.emt) { assert Refers(h, r.emt.wmt); }
  }

  lemma AdmitKeepsJobs(c: Config, h: History, now: nat, q: Query, jobs: map<nat, JobState>)
    requires HistoryOk(c, h, now) && Admissible(c, h, now, q) && JobsOk(c, h, jobs) && WithDeadline(c, q) == q
    ensures q.jobId !in jobs
    ensures JobsOk(c, Admitted(h, q), jobs[q.jobId := AdmittedJob(c, q, now)])
  {
    var j := q.jobId;
    var h2 := Admitted(h, q);
    var js2 := AdmittedJob(c, q, now);
    var jobs2 := jobs[j := js2];
    forall i ensures i in jobs2 <==> i in h2.admitted && !AllDone(c, h2, i) {
      if i == j {
        assert IsTask(c, h2, (j, 1));
        NoHistory(c, h, now, (j, 1));
      } else {
        OthersKeepDoneAdmitted(c, h, q, i);
      }
    }
    forall i | i in jobs2 ensures DependenciesOk(c, h2, i, jobs2[i]) {
      if i == j { NewDependencies(c, h, now, q); } else {
        forall s ensures Unfinished(h2, i, s) == Unfinished(h, i, s) {}
      }
    }
  }

  lemma OthersKeepDoneAdmitted(c: Config, h: History, q: Query, i: nat)
    requires q.jobId !in h.admitted && i != q.jobId
    ensures AllDone(c, Admitted(h, q), i) <==> AllDone(c, h, i)
  {
    var h2 := Admitted(h, q);
    if AllDone(c, h, i) {
      forall v: nat | IsTask(c, h2, (i, v)) ensures (i, v) in h2.done { OthersUnchanged(c, h, q, (i, v)); }
    }
    if AllDone(c, h2, i) {
      forall v: nat | IsTask(c, h, (i, v)) ensures (i, v) in h.done { OthersUnchanged(c, h, q, (i, v)); }
    }
  }

  lemma NewDependencies(c: Config, h: History, now: nat, q: Query)
    requires HistoryOk(c, h, now) && Admissible(c, h, now, q) && WithDeadline(c, q) == q
    ensures DependenciesOk(c, Admitted(h, q), q.jobId, AdmittedJob(c, q, now))
  {
    var g := App(c, q).graph;
    var j := q.jobId;
    var h2 := Admitted(h, q);
    var js2 := AdmittedJob(c, q, now);
    forall u: nat ensures (j, u) in h2.done <==> u == 0 {
      NoHistory(c, h, now, (j, u));
    }
    forall v: nat | v < |js2.inputDependency| ensures js2.inputDependency[v] == Unfinished(h2, j, Previous(c, q, v)) {
      assert g.Edge(0, v) <==> 0 in g.previous[v];
    }
    assert js2.finalMacrotaskId == Unfinished(h2, j, g.finals);
  }

  lemma AdmitKeepsLogs(c: Config, h: History, now: nat, q: Query, jobs: map<nat, JobState>)
    requires HistoryOk(c, h, now) && Admissible(c, h, now, q) && LogsOk(c, h, now, jobs) && q.jobId !in jobs
    requires WithDeadline(c, q) == q
    ensures LogsOk(c, Admitted(h, q), now, jobs[q.jobId := AdmittedJob(c, q, now)])
  {
    var j := q.jobId;
    var h2 := Admitted(h, q);
    var jobs2 := jobs[j := AdmittedJob(c, q, now)];
    forall i | i in jobs2 ensures LogOk(c, h2, now, i, jobs2[i]) {
      if i == j {
        forall v: nat ensures (j, v) !in h.started && (j, v) !in h.done {
          NoHistory(c, h, now, (j, v));
        }
      } else {
        assert LogOk(c, h, now, i, jobs[i]);
      }
    }
  }

  lemma AdmitKeepsFinish(c: Config, h: History, now: nat, q: Query, jobs: map<nat, JobState>, flight: multiset<Running>)
    requires HistoryOk(c, h, now) && Admissible(c, h, now, q) && FinishOk(c, h, jobs, flight) && q.jobId !in jobs
    requires forall r :: r in flight ==> r.finishTime >= now
    ensures FinishOk(c, Admitted(h, q), jobs[q.jobId := AdmittedJob(c, q, now)], flight)
  {
    var j := q.jobId;
    var h2 := Admitted(h, q);
    var jobs2 := jobs[j := AdmittedJob(c, q, now)];
    forall r | r in flight ensures FinishesAsPlanned(c, jobs2, r) && NothingFinishedAfter(h2, jobs2, r.finishTime) {
      assert FinishesAsPlanned(c, jobs, r) && NothingFinishedAfter(h, jobs, r.finishTime);
      forall i: nat, u: nat | i in jobs2 && u < |jobs2[i].log| && (i, u) in h2.done
        ensures jobs2[i].log[u].1 <= r.finishTime
      {
        if i == j {
          NoHistory(c, h, now, (j, u));
        } else {
          assert (i, u) in h.done;
        }
      }
    }
  }

  lemma AdmitKeepsOrders(c: Config, h: History, now: nat, q: Query, jobs: map<nat, JobState>)
    requires HistoryOk(c, h, now) && Admissible(c, h, now, q) && OrdersOk(c, h, jobs) && q.jobId !in jobs
    requires WithDeadline(c, q) == q
    ensures OrdersOk(c, Admitted(h, q), jobs[q.jobId := AdmittedJob(c, q, now)])
  {
    var j := q.jobId;
    var h2 := Admitted(h, q);
    var jobs2 := jobs[j := AdmittedJob(c, q, now)];
    forall i | i in jobs2 ensures OrderOk(c, h2, i, jobs2[i]) {
      if i == j {
        forall v: nat ensures (j, v) !in h.started {
          NoHistory(c, h, now, (j, v));
        }
      } else {
        assert OrderOk(c, h, i, jobs[i]);
      }
    }
  }

  lemma AdmitKeepsWidth(c: Config, h: History, now: nat, q: Query, next: multiset<EMT>)
    requires HistoryOk(c, h, now) && Admissible(c, h, now, q) && WidthOk(c, h, next)
    ensures WidthOk(c, Admitted(h, q), next)
  {
    forall k | k in h.started ensures k.0 != q.jobId { assert Ready(c, h, k); }
  }

  // ---- handing out threads ----

  /** Macrotasks do not change by being given threads. */
  ghost predicate SameCount(given: seq<EMT>, k: TaskKey) {
    Total(IsWaiting(k), multiset(Wmts(given))) == Total(IsNext(k), multiset(given))
  }

  lemma {:induction false} GivenCount(given: seq<EMT>, k: TaskKey)
    ensures SameCount(given, k)
  {
    hide Total, Wmts, SameCount;
    if given == [] {
      GivenNone(k);
    } else {
      var front, e := given[..|given| - 1], given[|given| - 1];
      GivenCount(front, k);
      GivenAppend(front, e, k);
      assert front + [e] == given;
    }
  }

  lemma GivenNone(k: TaskKey)
    ensures SameCount([], k)
  {
    assert multiset(Wmts([])) == multiset{};
  }

  lemma GivenAppend(front: seq<EMT>, e: EMT, k: TaskKey)
    requires SameCount(front, k)
    ensures SameCount(front + [e], k)
  {
    WmtsAppend(front, e);
    TotalAppend(IsWaiting(k), Wmts(front), e.wmt);
    TotalAppend(IsNext(k), front, e);
  }

  lemma AllocateKeepsCount(c: Config, h: History, waiting: seq<WMT>, after: seq<WMT>, given: seq<EMT>, k: TaskKey)
    requires WaitingOnce(c, h, multiset(waiting), multiset{})
    requires multiset(waiting) == multiset(after) + multiset(Wmts(given))
    ensures Total(IsWaiting(k), multiset(after)) + Total(IsNext(k), multiset(given)) ==
              if Ready(c, h, k) && k !in h.started then 1 else 0
  {
    GivenCount(given, k);
    assert SameCount(given, k);
    TotalUnion(IsWaiting(k), multiset(after), multiset(Wmts(given)));
  }

  lemma AllocateKeepsOnce(c: Config, h: History, waiting: seq<WMT>, after: seq<WMT>, given: seq<EMT>)
    requires WaitingOnce(c, h, multiset(waiting), multiset{})
    requires multiset(waiting) == multiset(after) + multiset(Wmts(given))
    ensures WaitingOnce(c, h, multiset(after), multiset(given))
  {
    hide Ready, Total, Wmts;
    forall k ensures Total(IsWaiting(k), multiset(after)) + Total(IsNext(k), multiset(given))
                     == if Ready(c, h, k) && k !in h.started then 1 else 0
    {
      AllocateKeepsCount(c, h, waiting, after, given, k);
    }
  }

  lemma AllocateKeepsWaiting(c: Config, h: History, waiting: seq<WMT>, after: seq<WMT>, given: seq<EMT>, available: nat)
    requires WaitingOk(c, h, multiset(waiting), multiset{})
    requires Granted(c, waiting, after, given, available)
    ensures WaitingOk(c, h, multiset(after), multiset(given))
  {
    hide ValidThreads, Refers, After, WaitingOnce, Total;
    AllocateKeepsOnce(c, h, waiting, after, given);
    GivenRefer(h, waiting, after, given);
  }

  lemma GivenRefer(h: History, waiting: seq<WMT>, after: seq<WMT>, given: seq<EMT>)
    requires multiset(waiting) == multiset(after) + multiset(Wmts(given))
    requires forall w :: w in multiset(waiting) ==> Refers(h, w)
    ensures forall w :: w in multiset(after) ==> Refers(h, w)
    ensures forall e :: e in multiset(given) ==> Refers(h, e.wmt)
  {
    hide Refers;
    forall w | w in multiset(after) ensures Refers(h, w) { assert w in multiset(waiting); }
    forall e | e in multiset(given) ensures Refers(h, e.wmt) {
      var i :| 0 <= i < |given| && given[i] == e;
      assert Wmts(given)[i] in multiset(Wmts(given));
      assert e.wmt in multiset(waiting);
    }
  }
}
