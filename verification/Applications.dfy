/** From the loaded tables of an application to what its jobs are executed by. */
module Applications {
  import opened Graphs
  import opened ExecTimeInfo
  import opened ExecTimeManager
  import Search
  import opened Operands
  import opened Tasks
  import opened Machine
  import opened Delivery
  import opened Serving

  /** A table as the executor reads it. */
  ghost function InfoOfTable(x: MacrotaskExecTimeInfo?): Info
    reads x
  {
    if x == null then Info([0], [], 0) else Info(x.execTime, x.sortedCandidates, x.predictedLaunchedToDeadline)
  }

  ghost function Infos(info: seq<MacrotaskExecTimeInfo?>): (r: seq<Info>)
    reads info
    ensures |r| == |info| && forall i :: 0 <= i < |r| ==> r[i] == InfoOfTable(info[i])
  {
    if info == [] then [] else Infos(info[..|info| - 1]) + [InfoOfTable(info[|info| - 1])]
  }

  ghost function ApplicationOf(m: MacrotaskExecTimeInfoManager, operations: seq<seq<Operation>>, k: ConstantData,
                               numVarPt: nat, numVarCt: nat): Application
    reads m, m.info
  {
    Application(m.graph, m.group, Infos(m.info), m.totalExecTimeForPrediction, operations, k, numVarPt, numVarCt)
  }

  /** The tables were loaded from `times`, and each group has some efficient width. */
  ghost predicate Loaded(m: MacrotaskExecTimeInfoManager, times: map<nat, seq<nat>>, lowerBound: real,
                         useMaxThreads: bool)
    reads m.info`execTime, m.info`sortedCandidates, m.info`execTimeForPrediction
  {
    forall i :: 1 <= i < |m.info| && i < |m.group| ==>
      && m.group[i] in times && Measured(times[m.group[i]])
      && (exists n :: 1 <= n < |times[m.group[i]]| && Efficiency(times[m.group[i]], n) >= lowerBound)
      && m.info[i] != null && TablesOf(m.info[i], times[m.group[i]], lowerBound, useMaxThreads)
  }

  /** No macrotask is predicted to be longer before the end than the whole job takes. */
  ghost predicate Timely(a: Application) {
    forall i :: 1 <= i < |a.info| ==> a.info[i].predictedLaunchedToDeadline <= a.totalExecTimeForPrediction
  }

  /** Loaded tables are what an executor can work with. */
  lemma LoadedIsWellFormed(m: MacrotaskExecTimeInfoManager, times: map<nat, seq<nat>>, lowerBound: real,
                           useMaxThreads: bool,
                           operations: seq<seq<Operation>>, k: ConstantData, numVarPt: nat, numVarCt: nat)
    requires m.Valid() && m.graph.WellFormed() && GroupsOk(m.group) && |operations| == |m.graph.next|
    requires Loaded(m, times, lowerBound, useMaxThreads)
    ensures ApplicationOf(m, operations, k, numVarPt, numVarCt).WellFormed()
  {
    hide Graph.WellFormed;
    var a := ApplicationOf(m, operations, k, numVarPt, numVarCt);
    forall i | 1 <= i < |a.info|
      ensures 1 <= a.group[i] < |a.info| && a.info[i] == a.info[a.group[i]] && |a.info[i].execTime| > 1
      ensures forall n :: 1 <= n < |a.info[i].execTime| ==> a.info[i].execTime[n] > 0
    {
      var t := times[m.group[i]];
      WidestExists(t, lowerBound, |m.info[i].execTime| - 1);
      assert m.group[m.group[i]] == m.group[i];
      assert m.info[m.group[i]] == m.info[i];
    }
  }

  /** bits2020 can read them, and they are what the conditions on its search suppose. */
  lemma LoadedIsResizable(m: MacrotaskExecTimeInfoManager, times: map<nat, seq<nat>>, lowerBound: real,
                          useMaxThreads: bool,
                          operations: seq<seq<Operation>>, k: ConstantData, numVarPt: nat, numVarCt: nat)
    requires m.Valid() && m.graph.WellFormed() && GroupsOk(m.group) && |operations| == |m.graph.next|
    requires Loaded(m, times, lowerBound, useMaxThreads)
    ensures ApplicationOf(m, operations, k, numVarPt, numVarCt).WellFormed()
    ensures ApplicationOf(m, operations, k, numVarPt, numVarCt).Resizable()
    ensures forall i :: 1 <= i < |m.info| ==>
              Search.Genuine(ApplicationOf(m, operations, k, numVarPt, numVarCt).info[i].candidates)
  {
    hide Graph.WellFormed, Search.Genuine;
    LoadedIsWellFormed(m, times, lowerBound, useMaxThreads, operations, k, numVarPt, numVarCt);
    var a := ApplicationOf(m, operations, k, numVarPt, numVarCt);
    forall i | 1 <= i < |a.info|
      ensures a.info[i].candidates != [] && Frontier(a.info[i].candidates) && Search.Genuine(a.info[i].candidates)
      ensures forall x :: x in a.info[i].candidates ==> 1 <= x.1 < |a.info[i].execTime|
    {
      OneTable(m.info[i], times[m.group[i]], lowerBound, useMaxThreads);
    }
  }

  lemma OneTable(x: MacrotaskExecTimeInfo, t: seq<nat>, lowerBound: real, useMaxThreads: bool)
    requires Measured(t) && TablesOf(x, t, lowerBound, useMaxThreads)
    requires exists n :: 1 <= n < |t| && Efficiency(t, n) >= lowerBound
    ensures x.sortedCandidates != [] && Search.Genuine(x.sortedCandidates) && Frontier(x.sortedCandidates)
    ensures forall c :: c in x.sortedCandidates ==> 1 <= c.1 < |x.execTime|
  {
    var n :| 1 <= n < |t| && Efficiency(t, n) >= lowerBound;
    var w := Dominator(t, lowerBound, n);
    assert (Efficiency(t, w), w) in x.sortedCandidates;
    Search.CandidatesAreGenuine(t, lowerBound, x.sortedCandidates);
    forall c | c in x.sortedCandidates ensures 1 <= c.1 < |x.execTime| {
      assert OnFrontier(t, lowerBound, c.1);
    }
  }

  /** The table is what was measured, up to the widest count that is efficient enough,
      and the candidates are the best of it. */
  ghost predicate TableFrom(x: Info, t: seq<nat>, lowerBound: real)
    requires Measured(t)
  {
    && x.execTime != [] && x.execTime <= t && IsWidest(t, lowerBound, |x.execTime| - 1)
    && CandidatesOf(x.candidates, t, lowerBound)
  }

  /** `t` are the times that predictions go by, `last` the last member of each group:
      a macrotask is predicted to be away from the end by its own time and what is
      behind the last member of its group. */
  ghost predicate PredictedAs(a: Application, useMaxThreads: bool, useCriticalPath: bool, t: seq<nat>,
                              last: map<nat, nat>)
    requires a.WellFormed()
  {
    && |t| == |a.info| && t[0] == 0
    && (forall i :: 1 <= i < |t| ==>
          t[i] == a.info[i].execTime[if useMaxThreads then |a.info[i].execTime| - 1 else 1])
    && PredictedTotal(a.graph, t, useCriticalPath, a.totalExecTimeForPrediction)
    && LastMembers(a.group, last, |a.group|)
    && forall i :: 1 <= i < |t| ==>
         && t[i] <= a.info[i].predictedLaunchedToDeadline
         && Predicted(a.graph, t, useCriticalPath, last[a.group[i]], a.info[i].predictedLaunchedToDeadline - t[i])
  }

  /** Loaded tables are those of the files. */
  lemma LoadedIsMeasured(m: MacrotaskExecTimeInfoManager, times: map<nat, seq<nat>>, lowerBound: real,
                         useMaxThreads: bool,
                         operations: seq<seq<Operation>>, k: ConstantData, numVarPt: nat, numVarCt: nat, i: nat)
    requires m.Valid() && Loaded(m, times, lowerBound, useMaxThreads) && 1 <= i < |m.info|
    ensures m.group[i] in times && Measured(times[m.group[i]])
    ensures TableFrom(ApplicationOf(m, operations, k, numVarPt, numVarCt).info[i], times[m.group[i]], lowerBound)
  {
    hide IsWidest, CandidatesOf;
  }

  lemma TimeOfTable(m: MacrotaskExecTimeInfoManager, times: map<nat, seq<nat>>, lowerBound: real,
                    useMaxThreads: bool, i: nat)
    requires m.Valid() && Loaded(m, times, lowerBound, useMaxThreads) && 1 <= i < |m.info|
    ensures |m.info[i].execTime| > 1
    ensures m.info[i].execTimeForPrediction ==
              m.info[i].execTime[if useMaxThreads then |m.info[i].execTime| - 1 else 1]
  {
    hide CandidatesOf;
    WidestExists(times[m.group[i]], lowerBound, |m.info[i].execTime| - 1);
  }

  /** And predictions those of the tables. */
  lemma PredictedIsOfTables(m: MacrotaskExecTimeInfoManager, times: map<nat, seq<nat>>, lowerBound: real,
                            useMaxThreads: bool, useCriticalPath: bool, last: map<nat, nat>,
                            operations: seq<seq<Operation>>, k: ConstantData, numVarPt: nat, numVarCt: nat)
    requires m.Valid() && PredictedBy(m, useCriticalPath, last) && Loaded(m, times, lowerBound, useMaxThreads)
    requires ApplicationOf(m, operations, k, numVarPt, numVarCt).WellFormed()
    ensures PredictedAs(ApplicationOf(m, operations, k, numVarPt, numVarCt), useMaxThreads, useCriticalPath, m.Times(),
                        last)
  {
    hide Graph.WellFormed, Application.WellFormed, Loaded, PredictedTotal, Predicted;
    var a, t := ApplicationOf(m, operations, k, numVarPt, numVarCt), m.Times();
    forall i | 1 <= i < |t|
      ensures |a.info[i].execTime| > 1
      ensures t[i] == a.info[i].execTime[if useMaxThreads then |a.info[i].execTime| - 1 else 1]
    {
      assert a.info[i] == InfoOfTable(m.info[i]);
      TimeOfTable(m, times, lowerBound, useMaxThreads, i);
    }
    forall i | 1 <= i < |t|
      ensures t[i] <= a.info[i].predictedLaunchedToDeadline
      ensures Predicted(a.graph, t, useCriticalPath, last[a.group[i]], a.info[i].predictedLaunchedToDeadline - t[i])
    {
      assert a.info[i].predictedLaunchedToDeadline - t[i] == m.info[i].deadline;
    }
  }

  /** One thread is the most efficient count everywhere, in terms of what was measured. */
  lemma LoadedIsElastic(m: MacrotaskExecTimeInfoManager, times: map<nat, seq<nat>>, lowerBound: real,
                        useMaxThreads: bool,
                        operations: seq<seq<Operation>>, k: ConstantData, numVarPt: nat, numVarCt: nat)
    requires m.Valid() && m.graph.WellFormed() && GroupsOk(m.group) && |operations| == |m.graph.next|
    requires Loaded(m, times, lowerBound, useMaxThreads)
    ensures ApplicationOf(m, operations, k, numVarPt, numVarCt).WellFormed()
    ensures ApplicationOf(m, operations, k, numVarPt, numVarCt).Elastic() <==>
              lowerBound <= 1.0 && forall i :: 1 <= i < |m.info| ==> CostsMore(times[m.group[i]])
  {
    hide Graph.WellFormed;
    LoadedIsWellFormed(m, times, lowerBound, useMaxThreads, operations, k, numVarPt, numVarCt);
    var a := ApplicationOf(m, operations, k, numVarPt, numVarCt);
    forall i | 1 <= i < |a.info|
      ensures OneThreadTop(a.info[i].candidates) <==> lowerBound <= 1.0 && CostsMore(times[m.group[i]])
    {
      OneThreadTopIff(times[m.group[i]], lowerBound, m.info[i].sortedCandidates);
    }
    assert 1 < |m.info|;
  }

  /** More threads always cost more thread time. */
  ghost predicate CostsMore(t: seq<nat>)
    requires Measured(t)
  {
    forall n :: 2 <= n < |t| ==> t[n] * n > t[1]
  }

  /** What `Predict` leaves behind. */
  ghost predicate PredictedBy(m: MacrotaskExecTimeInfoManager, useCriticalPath: bool, last: map<nat, nat>)
    requires m.Valid()
    reads m, m.info
  {
    && LastMembers(m.group, last, |m.group|)
    && PredictedTotal(m.graph, m.Times(), useCriticalPath, m.totalExecTimeForPrediction)
    && forall i :: 1 <= i < |m.info| ==>
         && Predicted(m.graph, m.Times(), useCriticalPath, last[m.group[i]], m.info[i].deadline)
         && m.info[i].predictedLaunchedToDeadline == m.Times()[i] + m.info[i].deadline
  }

  /** After prediction, with shared tables too, no macrotask is predicted to be longer
      before the end than the whole job takes. */
  lemma PredictedIsTimely(m: MacrotaskExecTimeInfoManager, useCriticalPath: bool, last: map<nat, nat>,
                          operations: seq<seq<Operation>>, k: ConstantData, numVarPt: nat, numVarCt: nat)
    requires m.Valid() && m.graph.WellFormed() && PredictedBy(m, useCriticalPath, last)
    ensures Timely(ApplicationOf(m, operations, k, numVarPt, numVarCt))
  {
    var a := ApplicationOf(m, operations, k, numVarPt, numVarCt);
    hide Graph.WellFormed;
    forall i | 1 <= i < |a.info| ensures a.info[i].predictedLaunchedToDeadline <= a.totalExecTimeForPrediction {
      LatestStartFits(m, useCriticalPath, last, i);
    }
  }

  /** A job that came without a deadline may start each macrotask no earlier than it
      was received: the subtraction of the schedule methods does not wrap. */
  lemma LatestStartDoesNotWrap(c: Config, q: Query, w: WMT)
    requires AppKnown(c, q) && Timely(App(c, q)) && q.deadline == 0
    requires w.query == WithDeadline(c, q) && 0 < w.macrotaskId < |App(c, q).info| && w.query.deadline < TWO_TO_THE_64
    ensures LatestStart(c, w) ==
              w.query.deadline - c.apps[q.appId].info[w.macrotaskId].predictedLaunchedToDeadline >= q.receivedTime
  {
    NoWrap(c, w);
  }

  /** Predictions are those of `Timely` applications, and deadlines fit 64 bits. */
  ghost predicate InTime(c: Config, arrivals: seq<Arrival>) {
    && (forall a :: a in c.apps ==> Timely(c.apps[a]))
    && (forall i :: 0 <= i < |arrivals| && arrivals[i].appId in c.apps ==>
          arrivals[i].time + c.apps[arrivals[i].appId].totalExecTimeForPrediction < TWO_TO_THE_64)
  }

  /** In every state of a run the latest start of whatever waits is no earlier than the
      arrival of its job. */
  lemma WaitingIsInTime(c: Config, arrivals: seq<Arrival>, k: nat, s: State, w: WMT)
    requires c.WellFormed() && Ok(c, s) && AdmittedFrom(c, arrivals, k, s.h.admitted) && InTime(c, arrivals)
    requires w in s.waiting
    ensures Known(c, w)
    ensures LatestStart(c, w) ==
              w.query.deadline - c.apps[w.query.appId].info[w.macrotaskId].predictedLaunchedToDeadline >=
              w.query.receivedTime
  {
    WaitingTask(c, s, w);
    WaitingMatches(c, arrivals, k, s, w);
    hide Ok, AdmittedFrom, Config.WellFormed;
    NoWrap(c, w);
  }

  lemma WaitingMatches(c: Config, arrivals: seq<Arrival>, k: nat, s: State, w: WMT)
    requires Ok(c, s) && AdmittedFrom(c, arrivals, k, s.h.admitted) && w in s.waiting
    ensures w.query.jobId < |arrivals| && Matches(c, arrivals[w.query.jobId], w.query.jobId, w.query)
  {
    assert Refers(s.h, w);
  }

  lemma NoWrap(c: Config, w: WMT)
    requires Known(c, w) && 0 < w.macrotaskId && Timely(c.apps[w.query.appId])
    requires w.query.deadline == w.query.receivedTime + c.apps[w.query.appId].totalExecTimeForPrediction
    requires w.query.deadline < TWO_TO_THE_64
    ensures LatestStart(c, w) ==
              w.query.deadline - c.apps[w.query.appId].info[w.macrotaskId].predictedLaunchedToDeadline >=
              w.query.receivedTime
  {
    var p := c.apps[w.query.appId].info[w.macrotaskId].predictedLaunchedToDeadline;
    assert p <= c.apps[w.query.appId].totalExecTimeForPrediction;
    assert (w.query.deadline - p) % TWO_TO_THE_64 == w.query.deadline - p;
  }

  /** So under a deadline schedule the waiting queue goes by latest start. */
  lemma WaitingGoesByLatestStart(c: Config, arrivals: seq<Arrival>, k: nat, s: State, v: WMT, w: WMT)
    requires c.WellFormed() && Ok(c, s) && AdmittedFrom(c, arrivals, k, s.h.admitted) && InTime(c, arrivals)
    requires v in s.waiting && w in s.waiting && c.schedule.Deadline?
    ensures Known(c, v) && Known(c, w)
    ensures Before(c, v, w) <==>
              v.query.deadline - c.apps[v.query.appId].info[v.macrotaskId].predictedLaunchedToDeadline <
                w.query.deadline - c.apps[w.query.appId].info[w.macrotaskId].predictedLaunchedToDeadline
  {
    hide Ok, AdmittedFrom, Config.WellFormed, InTime;
    WaitingIsInTime(c, arrivals, k, s, v);
    WaitingIsInTime(c, arrivals, k, s, w);
  }
}

/** What clients get does not depend on how the server is run. */
module Determinism {
  import opened Operands
  import opened Tasks
  import opened Machine
  import opened Results
  import opened Delivery
  import opened Serving

  /** Scheme and constants belong to the client.  Two servers with the same
      applications, whatever their schedule and allocate methods, their width, their
      limit on jobs and the other queries they serve, give the same operands for the
      same inputs of one client, or of two with the same scheme and constants, if
      macrotasks that the graph does not order do not touch each other's operands. */
  lemma SameQuerySameOperands(c: Config, d: Config, a: Arrival, i: nat, b: Arrival, j: nat,
                              r: map<ResultKey, JobState>, s: map<ResultKey, JobState>)
    requires c.WellFormed() && d.WellFormed() && c.apps == d.apps
    requires a.appId == b.appId && a.pt == b.pt && a.ct == b.ct
    requires Served(c, a, i, r) && Served(d, b, j, s)
    requires c.SchemeFor(a.appId, a.clientId) == d.SchemeFor(b.appId, b.clientId)
    requires c.apps[a.appId].constants.For(a.clientId) == c.apps[a.appId].constants.For(b.clientId)
    requires Independent(c.apps[a.appId].constants.For(a.clientId), c.apps[a.appId].graph, c.apps[a.appId].operations)
    ensures r[ResultKeyOf(a, i)].memory == s[ResultKeyOf(b, j)].memory
  {
    hide Config.WellFormed, Independent, LogDelivered;
    var x, y := r[ResultKeyOf(a, i)], s[ResultKeyOf(b, j)];
    OwnOrderIsSerial(c, d, x, y);
    var m := InitialMemory(App(d, y.query), y.query);
    LaidOut(m, App(d, y.query), y.query);
    DeliveredIsSerial(d, y, x.order, m);
    OutcomeOfInputs(c, x.query, x.order, m);
  }

  lemma OwnOrderIsSerial(c: Config, d: Config, x: JobState, y: JobState)
    requires c.WellFormed() && d.WellFormed() && c.apps == d.apps && OperandsDelivered(c, x)
    requires AppKnown(d, y.query) && x.query.appId == y.query.appId
    ensures SerialOrder(d, y.query, x.order)
  {
    DependenciesFirstRespects(c, x.query, x.order) by { assert App(c, x.query).WellFormed(); }
  }
}
