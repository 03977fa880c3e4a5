/** Everything together: from the lists and measured times of the applications to the
    results of a simulated run. */
module Simulation {
  import opened Sequences
  import opened Graphs
  import opened ExecTimeInfo
  import opened Prediction
  import opened ExecTimeManager
  import opened Operands
  import opened Tasks
  import opened Machine
  import opened Serving
  import opened Clients
  import opened Servers
  import Search
  import opened Applications

  /** The files of an application, parsed. */
  datatype AppData = AppData(
    dependency: seq<seq<nat>>,
    group: seq<nat>,
    times: map<nat, seq<nat>>,
    lowerBound: real,
    operations: seq<seq<Operation>>,
    constants: ConstantData,
    numVarPt: nat,
    numVarCt: nat)

  /** The dependency lists are those of a well-formed graph, if they are of any. */
  ghost predicate GraphLists(dependency: seq<seq<nat>>) {
    forall g: Graph :: g.next == dependency && g.Consistent() ==> g.WellFormed()
  }

  /** Some thread count of the group is efficient enough. */
  ghost predicate SomeEfficient(t: seq<nat>, lowerBound: real)
    requires Measured(t)
  {
    exists n :: 1 <= n < |t| && Efficiency(t, n) >= lowerBound
  }

  /** What the source takes for granted of these files. */
  ghost predicate Sane(d: AppData) {
    && GraphLists(d.dependency) && |d.group| == |d.operations| == |d.dependency| > 1 && GroupsOk(d.group)
    && (forall id :: id in d.times ==> Measured(d.times[id]) && SomeEfficient(d.times[id], d.lowerBound))
    && (forall i :: 1 <= i < |d.group| ==> d.group[i] in d.times)
  }

  /** The files can be loaded: every successor and every table belongs to a macrotask. */
  predicate Complete(d: AppData) {
    && (forall u, i :: 0 <= u < |d.dependency| && 0 <= i < |d.dependency[u]| ==> d.dependency[u][i] < |d.dependency|)
    && forall id :: id in d.times ==> id < |d.group|
  }

  /** What has become of the files: tables are what was measured, predictions what the
      tables give, and everything else as it was read; and so the application is one
      that the executor, bits2020 and the deadline schedules can work with. */
  ghost predicate MadeFrom(a: Application, d: AppData, useMaxThreads: bool, useCriticalPath: bool)
    requires Sane(d)
  {
    && a.graph.next == d.dependency && a.group == d.group && a.operations == d.operations
    && a.constants == d.constants && a.numVarPt == d.numVarPt && a.numVarCt == d.numVarCt
    && (forall i :: 1 <= i < |a.info| && i < |d.group| ==>
          TableFrom(a.info[i], d.times[d.group[i]], d.lowerBound))
    && a.WellFormed() && a.Resizable() && Timely(a)
    && (a.Elastic() <==> Sublinear(d))
    && exists t, last :: PredictedAs(a, useMaxThreads, useCriticalPath, t, last)
  }

  /** More threads always cost more thread time, and one thread is efficient enough. */
  ghost predicate Sublinear(d: AppData)
    requires Sane(d)
  {
    d.lowerBound <= 1.0 && forall i :: 1 <= i < |d.group| ==> CostsMore(d.times[d.group[i]])
  }

  /** The tables of a macrotask, as the executor reads them. */
  method ReadInfos(info: seq<MacrotaskExecTimeInfo?>) returns (r: seq<Info>)
    ensures r == Infos(info)
  {
    r := [];
    for k := 0 to |info|
      invariant r == Infos(info[..k])
    {
      var x := info[k];
      if x == null {
        r := r + [Info([0], [], 0)];
      } else {
        r := r + [Info(x.execTime, x.sortedCandidates, x.predictedLaunchedToDeadline)];
      }
      assert info[..k + 1][..k] == info[..k];
    }
    assert info[..|info|] == info;
  }

  /** The tables. */
  method LoadManager(g: Graph, d: AppData, useMaxThreads: bool) returns (m: MacrotaskExecTimeInfoManager?)
    requires Sane(d) && g.WellFormed() && g.next == d.dependency
    ensures m != null <==> forall id :: id in d.times ==> id < |d.group|
    ensures m != null ==> m.graph == g && m.group == d.group && m.Valid()
    ensures m != null ==> fresh(m) && forall i :: 0 <= i < |m.info| && m.info[i] != null ==> fresh(m.info[i])
    ensures m != null ==> Loaded(m, d.times, d.lowerBound, useMaxThreads)
  {
    hide Graph.WellFormed, TablesOf, GraphLists, Loadable;
    AllLoadable(d, useMaxThreads);
    var info := LoadTables(d.group, d.times, d.lowerBound, useMaxThreads);
    if info == None {
      return null;
    }
    m := new MacrotaskExecTimeInfoManager(g, d.group, info.value);
  }

  /** Predictions leave the tables alone. */
  method PredictLoaded(m: MacrotaskExecTimeInfoManager, ghost d: AppData, useMaxThreads: bool, useCriticalPath: bool)
    returns (ghost last: map<nat, nat>)
    requires Sane(d) && m.Valid() && m.graph.WellFormed() && Loaded(m, d.times, d.lowerBound, useMaxThreads)
    modifies m, m.info`deadline, m.info`predictedLaunchedToDeadline
    ensures Loaded(m, d.times, d.lowerBound, useMaxThreads) && PredictedBy(m, useCriticalPath, last)
  {
    hide Graph.WellFormed, Loaded, Sane;
    last := m.Predict(useCriticalPath);
  }

  lemma AllLoadable(d: AppData, useMaxThreads: bool)
    requires Sane(d)
    ensures forall id :: id in d.times ==> Usable(d.times[id])
    ensures forall id :: id in d.times && id < |d.group| ==> Loadable(d.times[id], d.lowerBound, useMaxThreads)
  {
  }

  /** One application, from its files.  None where `at` throws. */
  method LoadApplication(d: AppData, useMaxThreads: bool, useCriticalPath: bool) returns (r: Option<Application>)
    requires Sane(d)
    ensures r.Some? <==> Complete(d)
    ensures r.Some? ==> MadeFrom(r.value, d, useMaxThreads, useCriticalPath)
  {
    hide GraphLists, MadeFrom, Loaded, PredictedBy, Graph.WellFormed, Graph.Consistent;
    var g := Build(d.dependency);
    if g == None {
      return None;
    }
    ListsMakeGraph(d, g.value);
    var m := LoadManager(g.value, d, useMaxThreads);
    if m == null {
      return None;
    }
    ghost var last := PredictLoaded(m, d, useMaxThreads, useCriticalPath);
    var info := ReadInfos(m.info);
    var a := Application(m.graph, m.group, info, m.totalExecTimeForPrediction, d.operations, d.constants,
                         d.numVarPt, d.numVarCt);
    ManagerMakes(m, d, useMaxThreads, useCriticalPath, last);
    r := Some(a);
  }

  lemma ListsMakeGraph(d: AppData, g: Graph)
    requires Sane(d) && g.next == d.dependency && g.Consistent()
    ensures g.WellFormed()
  {
  }

  lemma ManagerMakes(m: MacrotaskExecTimeInfoManager, d: AppData, useMaxThreads: bool, useCriticalPath: bool,
                     last: map<nat, nat>)
    requires Sane(d) && m.Valid() && m.graph.WellFormed() && m.graph.next == d.dependency && m.group == d.group
    requires Loaded(m, d.times, d.lowerBound, useMaxThreads) && PredictedBy(m, useCriticalPath, last)
    ensures MadeFrom(ApplicationOf(m, d.operations, d.constants, d.numVarPt, d.numVarCt), d, useMaxThreads,
                     useCriticalPath)
  {
    hide Loaded, PredictedBy, Application.WellFormed, Application.Resizable, Application.Elastic, Timely, TableFrom;
    hide Graph.WellFormed, PredictedAs, Search.Genuine, CostsMore, Graph.Consistent;
    var a := ApplicationOf(m, d.operations, d.constants, d.numVarPt, d.numVarCt);
    forall i | 1 <= i < |a.info| && i < |d.group| ensures TableFrom(a.info[i], d.times[d.group[i]], d.lowerBound) {
      LoadedIsMeasured(m, d.times, d.lowerBound, useMaxThreads, d.operations, d.constants, d.numVarPt, d.numVarCt, i);
    }
    LoadedIsResizable(m, d.times, d.lowerBound, useMaxThreads, d.operations, d.constants, d.numVarPt, d.numVarCt);
    LoadedIsElastic(m, d.times, d.lowerBound, useMaxThreads, d.operations, d.constants, d.numVarPt, d.numVarCt);
    PredictedIsTimely(m, useCriticalPath, last, d.operations, d.constants, d.numVarPt, d.numVarCt);
    PredictedIsOfTables(m, d.times, d.lowerBound, useMaxThreads, useCriticalPath, last, d.operations, d.constants,
                        d.numVarPt, d.numVarCt);
  }

  /** All applications. */
  method LoadAll(data: map<nat, AppData>, useMaxThreads: bool, useCriticalPath: bool)
    returns (r: Option<map<nat, Application>>)
    requires forall a :: a in data ==> Sane(data[a])
    ensures r.Some? <==> forall a :: a in data ==> Complete(data[a])
    ensures r.Some? ==> r.value.Keys == data.Keys
    ensures r.Some? ==> forall a :: a in data ==> MadeFrom(r.value[a], data[a], useMaxThreads, useCriticalPath)
  {
    hide Sane, Complete, MadeFrom;
    var apps: map<nat, Application> := map[];
    var todo := data.Keys;
    while todo != {}
      invariant todo <= data.Keys && apps.Keys == data.Keys - todo
      invariant forall a :: a in apps ==> Complete(data[a])
      invariant forall a :: a in apps ==> MadeFrom(apps[a], data[a], useMaxThreads, useCriticalPath)
    {
      var a :| a in todo;
      var app := LoadApplication(data[a], useMaxThreads, useCriticalPath);
      if app == None {
        return None;
      }
      apps := apps[a := app.value];
      todo := todo - {a};
    }
    r := Some(apps);
  }

  /** What the options say. */
  datatype Options = Options(
    maxThreads: nat,
    maxNumExecutingJobs: nat,
    schedule: Schedule,
    allocation: Allocation,
    useMaxThreads: bool,
    useCriticalPath: bool,
    clients: map<nat, seq<nat>>)

  /** No thread count that is efficient enough is more than the machine has. */
  ghost predicate Narrow(d: AppData, maxThreads: nat)
    requires Sane(d)
  {
    forall i, n :: 1 <= i < |d.group| && 1 <= n < |d.times[d.group[i]]| ==>
      Efficiency(d.times[d.group[i]], n) >= d.lowerBound ==> n <= maxThreads
  }

  /** What must be so of options and files for the queries announced to be served. */
  ghost predicate CanSimulate(data: map<nat, AppData>, o: Options, received: seq<Announcement>) {
    && (forall a :: a in data ==> Sane(data[a]))
    && o.maxThreads > 0 && o.maxNumExecutingJobs > 0
    && (o.allocation.MaxParallel? ==> forall a :: a in data ==> Narrow(data[a], o.maxThreads))
    && (o.allocation.Bits2020? ==> forall a :: a in data ==> Sublinear(data[a]))
    && (forall i :: 0 <= i < |received| ==> received[i].appId in data)
    && (forall a :: a in o.clients ==> o.clients[a] != [])
    && forall a :: Count(received, a) <= |IdsOf(FirstIds(o.clients, o.maxNumExecutingJobs), a)|
  }

  function ConfigOf(apps: map<nat, Application>, o: Options, schemes: map<(nat, nat), Scheme>): Config {
    Config(apps, o.maxThreads, o.maxNumExecutingJobs, o.schedule, o.allocation, schemes)
  }

  lemma LoadedMayStart(data: map<nat, AppData>, o: Options, received: seq<Announcement>,
                       apps: map<nat, Application>, schemes: map<(nat, nat), Scheme>)
    requires CanSimulate(data, o, received)
    requires apps.Keys == data.Keys
    requires forall a :: a in data ==> MadeFrom(apps[a], data[a], o.useMaxThreads, o.useCriticalPath)
    ensures CanStart(ConfigOf(apps, o, schemes), o.clients, received)
  {
    hide Application.WellFormed, Application.Resizable, Application.Elastic, Sane, Timely, Sublinear, Narrow, Count;
    var c := ConfigOf(apps, o, schemes);
    forall a | a in c.apps
      ensures c.apps[a].WellFormed() && c.apps[a].Resizable() && (o.allocation.Bits2020? ==> c.apps[a].Elastic())
      ensures o.allocation.MaxParallel? ==> c.apps[a].Fits(o.maxThreads)
    {
      assert MadeFrom(apps[a], data[a], o.useMaxThreads, o.useCriticalPath);
      if o.allocation.MaxParallel? { NarrowFits(apps[a], data[a], o.useMaxThreads, o.useCriticalPath, o.maxThreads); }
    }
    assert c.allocation.Bits2020? ==> c.CanShare();
    assert c.WellFormed();
    forall i | 0 <= i < |received| ensures FitsMachine(c, received[i].appId) {}
  }

  lemma NarrowFits(a: Application, d: AppData, useMaxThreads: bool, useCriticalPath: bool, maxThreads: nat)
    requires Sane(d) && MadeFrom(a, d, useMaxThreads, useCriticalPath) && Narrow(d, maxThreads)
    ensures a.Fits(maxThreads)
  {
    hide Application.Resizable, Application.Elastic, Timely, Sublinear, GraphLists, Graph.WellFormed;
    forall i | 1 <= i < |a.info| ensures |a.info[i].execTime| - 1 <= maxThreads {
      assert TableFrom(a.info[i], d.times[d.group[i]], d.lowerBound);
    }
  }

  /** From files, options and announced queries to the results: None exactly where
      loading throws, and otherwise every query has its result, complete. */
  method Simulate(data: map<nat, AppData>, o: Options, schemes: map<(nat, nat), Scheme>, inputs: Inputs,
                  received: seq<Announcement>)
    returns (r: Option<map<ResultKey, JobState>>, c: Config, ghost arrivals: seq<Arrival>)
    requires CanSimulate(data, o, received)
    ensures r.Some? <==> forall a :: a in data ==> Complete(data[a])
    ensures r.Some? ==> c.maxThreads == o.maxThreads && c.maxNumExecutingJobs == o.maxNumExecutingJobs
    ensures r.Some? ==> c.schedule == o.schedule && c.allocation == o.allocation && c.schemes == schemes
    ensures r.Some? ==> c.apps.Keys == data.Keys
    ensures r.Some? ==> forall a :: a in data ==> MadeFrom(c.apps[a], data[a], o.useMaxThreads, o.useCriticalPath)
    ensures Enough(SortBy(AnnouncedBefore(), received), FirstIds(o.clients, o.maxNumExecutingJobs))
    ensures arrivals ==
              Assign(SortBy(AnnouncedBefore(), received), FirstIds(o.clients, o.maxNumExecutingJobs), inputs)
    ensures Deals(received, o.clients, inputs, arrivals)
    ensures r.Some? ==> AllServed(c, arrivals, r.value)
  {
    hide MadeFrom, Sane, Complete, AllServed, Config.WellFormed, Sublinear, Narrow, FitsMachine, Enough, Deals;
    EnoughForAll(data, o, received);
    AssignedDeals(o.clients, o.maxNumExecutingJobs, inputs, received);
    arrivals := Assign(SortBy(AnnouncedBefore(), received), FirstIds(o.clients, o.maxNumExecutingJobs), inputs);
    var apps := LoadAll(data, o.useMaxThreads, o.useCriticalPath);
    if apps == None {
      return None, ConfigOf(map[], o, schemes), arrivals;
    }
    c := ConfigOf(apps.value, o, schemes);
    LoadedMayStart(data, o, received, apps.value, schemes);
    var server := new OfflineServer(c, o.clients, inputs);
    ghost var passes := server.Start(received);
    r := Some(server.resultSender.results);
  }

  lemma EnoughForAll(data: map<nat, AppData>, o: Options, received: seq<Announcement>)
    requires CanSimulate(data, o, received)
    ensures forall a :: a in o.clients ==> o.clients[a] != []
    ensures Enough(SortBy(AnnouncedBefore(), received), FirstIds(o.clients, o.maxNumExecutingJobs))
  {
    hide Sane, Sublinear, Narrow, Count, SortBy;
    OrderIsEnough(o.clients, o.maxNumExecutingJobs, received);
  }
}
