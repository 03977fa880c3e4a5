/** Execution-time tables of a whole application and the prediction of its
    deadlines (MacrotaskExecTimeInfoManager). */
module ExecTimeManager {
  import opened Sequences
  import opened Graphs
  import opened ExecTimeInfo
  import opened Prediction

  /** Every macrotask 1..n belongs to a group, named by one of its members. */
  ghost predicate GroupsOk(group: seq<nat>) {
    forall i :: 1 <= i < |group| ==> 1 <= group[i] < |group| && group[group[i]] == group[i]
  }

  /** `last` names the largest member below `k` of each group. */
  ghost predicate LastMembers(group: seq<nat>, last: map<nat, nat>, k: nat)
    requires k <= |group|
  {
    && (forall g :: g in last ==> 1 <= last[g] < k && group[last[g]] == g)
    && (forall i :: 1 <= i < k ==> group[i] in last && last[group[i]] >= i)
  }

  /** The measured times can be turned into tables without an exception. */
  ghost predicate Loadable(t: seq<nat>, lowerBound: real, useMaxThreads: bool) {
    |t| > 1 ==> Measured(t) && (useMaxThreads || exists i :: 1 <= i < |t| && Efficiency(t, i) >= lowerBound)
  }

  ghost predicate Usable(t: seq<nat>) { |t| > 1 ==> Measured(t) }

  /** The tables in `x` are those of the measured times `t`. */
  ghost predicate TablesOf(x: MacrotaskExecTimeInfo, t: seq<nat>, lowerBound: real, useMaxThreads: bool)
    requires Usable(t)
    reads x`execTime, x`sortedCandidates, x`execTimeForPrediction
  {
    if |t| <= 1 then x.execTime == t && x.sortedCandidates == [] && x.execTimeForPrediction == 0
    else
      && CandidatesOf(x.sortedCandidates, t, lowerBound)
      && x.execTime != [] && x.execTime <= t
      && IsWidest(t, lowerBound, |x.execTime| - 1)
      && (useMaxThreads || |x.execTime| > 1)
      && x.execTimeForPrediction == x.execTime[if useMaxThreads then |x.execTime| - 1 else 1]
  }

  class MacrotaskExecTimeInfoManager {
    const graph: Graph
    const group: seq<nat>
    const info: seq<MacrotaskExecTimeInfo?>
    var totalExecTimeSeqForPrediction: nat
    var totalExecTimeForPrediction: nat

    ghost predicate Valid() {
      |graph.next| == |group| > 1 && Shared(group, info)
    }

    /** Predicted time of each macrotask; the virtual source takes none. */
    ghost function Times(): (t: seq<nat>)
      requires Valid()
      reads info`execTimeForPrediction
      ensures |t| == |info| && t[0] == 0 && forall i :: 1 <= i < |t| ==> t[i] == info[i].execTimeForPrediction
    {
      TimesBelow(|info|)
    }

    ghost function TimesBelow(k: nat): (t: seq<nat>)
      requires Valid() && k <= |info|
      reads info`execTimeForPrediction
      ensures |t| == k && forall i :: 0 <= i < k ==> t[i] == if i == 0 then 0 else info[i].execTimeForPrediction
    {
      if k == 0 then [] else TimesBelow(k - 1) + [if k == 1 then 0 else info[k - 1].execTimeForPrediction]
    }

    constructor (graph: Graph, group: seq<nat>, info: seq<MacrotaskExecTimeInfo?>)
      ensures this.graph == graph && this.group == group && this.info == info
      ensures totalExecTimeSeqForPrediction == totalExecTimeForPrediction == 0
    {
      this.graph, this.group, this.info := graph, group, info;
      totalExecTimeSeqForPrediction, totalExecTimeForPrediction := 0, 0;
    }

    /** Sums the predicted times, then predicts how long each macrotask is before
        the end of its job, along the critical path or for everything behind it.
        A group keeps what its last member was given. */
    method Predict(useCriticalPath: bool) returns (ghost last: map<nat, nat>)
      requires Valid() && graph.WellFormed()
      modifies this, info`deadline, info`predictedLaunchedToDeadline
      ensures totalExecTimeSeqForPrediction == SumOver(Times(), graph.All())
      ensures PredictedTotal(graph, Times(), useCriticalPath, totalExecTimeForPrediction)
      ensures LastMembers(group, last, |group|)
      ensures forall i :: 1 <= i < |info| ==>
                && Predicted(graph, Times(), useCriticalPath, last[group[i]], info[i].deadline)
                && info[i].predictedLaunchedToDeadline == Times()[i] + info[i].deadline
    {
      var times := PredictedTimes();
      totalExecTimeSeqForPrediction := SumTimes(graph, times);
      var cost;
      cost, totalExecTimeForPrediction := Costs(graph, times, useCriticalPath, totalExecTimeSeqForPrediction);
      last := SetDeadlines(times, cost);
    }

    method PredictedTimes() returns (times: seq<nat>)
      requires Valid()
      ensures times == Times()
    {
      times := [0];
      for i := 1 to |info|
        invariant |times| == i
        invariant forall k :: 0 <= k < i ==> times[k] == Times()[k]
      {
        times := times + [info[i].execTimeForPrediction];
      }
    }

    method SetDeadlines(times: seq<nat>, cost: map<nat, nat>) returns (ghost last: map<nat, nat>)
      requires Valid() && times == Times() && forall v: nat :: 1 <= v < |info| ==> v in cost
      modifies info`deadline, info`predictedLaunchedToDeadline
      ensures LastMembers(group, last, |group|)
      ensures forall i :: 1 <= i < |info| ==>
                && info[i].deadline == cost[last[group[i]]]
                && info[i].predictedLaunchedToDeadline == times[i] + info[i].deadline
    {
      last := map[];
      for i := 1 to |info|
        invariant LastMembers(group, last, i)
        invariant forall k :: 1 <= k < |info| && group[k] in last ==>
                    && info[k].deadline == cost[last[group[k]]]
                    && info[k].predictedLaunchedToDeadline == times[k] + info[k].deadline
      {
        info[i].SetDeadline(cost[i]);
        last := last[group[i] := i];
      }
    }
  }

  method SumTimes(g: Graph, times: seq<nat>) returns (total: nat)
    requires |times| == |g.next| && times != [] && times[0] == 0
    ensures total == SumOver(times, g.All())
  {
    total := 0;
    assert SumBelow(times, g.All(), 0) == 0;
    for i := 1 to |times|
      invariant total == SumBelow(times, g.All(), i)
    {
      assert i in g.All();
      total := total + times[i];
    }
  }

  /** The longest or the total predicted time of all macrotasks. */
  ghost predicate PredictedTotal(g: Graph, t: seq<nat>, useCriticalPath: bool, total: nat)
    requires |t| == |g.next|
  {
    if useCriticalPath then Longest(g, t, 0, total) else total == SumOver(t, g.All())
  }

  method Costs(g: Graph, times: seq<nat>, useCriticalPath: bool, totalSeq: nat)
    returns (cost: map<nat, nat>, total: nat)
    requires g.WellFormed() && |times| == |g.next| && totalSeq == SumOver(times, g.All())
    ensures forall v: nat :: 1 <= v < |times| ==> v in cost && Predicted(g, times, useCriticalPath, v, cost[v])
    ensures PredictedTotal(g, times, useCriticalPath, total)
  {
    if useCriticalPath {
      cost := CriticalPath(g, times);
      total := cost[0];
    } else {
      cost := DescendantSums(g, times);
      total := totalSeq;
    }
  }

  method DescendantSums(g: Graph, times: seq<nat>) returns (cost: map<nat, nat>)
    requires g.Consistent() && |times| == |g.next| && times != []
    ensures forall v: nat :: 1 <= v < |times| ==> v in cost && cost[v] == SumOver(times, Descendants(g, v))
  {
    cost := map[];
    for i := 1 to |times|
      invariant forall v: nat :: 1 <= v < i ==> v in cost && cost[v] == SumOver(times, Descendants(g, v))
    {
      var c := DescendantSum(g, times, i);
      cost := cost[i := c];
    }
  }

  /** `d` is the predicted time behind macrotask `v`. */
  ghost predicate Predicted(g: Graph, t: seq<nat>, useCriticalPath: bool, v: nat, d: nat)
    requires |t| == |g.next|
  {
    if useCriticalPath then Longest(g, t, v, d) else d == SumOver(t, Descendants(g, v))
  }

  /** A macrotask and what is predicted behind it fit into the job's prediction. */
  lemma PredictionFits(g: Graph, t: seq<nat>, useCriticalPath: bool, v: nat, d: nat, total: nat)
    requires g.WellFormed() && |t| == |g.next| && 0 < v && g.Has(v)
    requires Predicted(g, t, useCriticalPath, v, d)
    requires PredictedTotal(g, t, useCriticalPath, total)
    ensures t[v] + d <= total
  {
    var rank :| g.Ranked(rank);
    if useCriticalPath {
      SourceReachesAll(g, rank, v);
      var p :| |p| > 1 && g.PathBetween(p, 0, v);
      var q :| FinalPath(g, v, q) && PathCost(t, q) == d;
      PathsJoin(g, p, q);
      assert FinalPath(g, 0, p + q[1..]);
      CostOfJoin(g, t, p, q);
      CostCoversLast(g, t, p);
    } else {
      NoCycle(g, v);
      SumOverAdd(t, v, Descendants(g, v));
      SumOverMonotone(t, {v} + Descendants(g, v), g.All());
    }
  }

  lemma {:induction false} CostOfJoin(g: Graph, t: seq<nat>, p: seq<nat>, q: seq<nat>)
    requires g.Path(p) && g.Path(q) && p[|p| - 1] == q[0] && |t| == |g.next|
    requires g.Path(p + q[1..])
    ensures PathCost(t, p + q[1..]) == PathCost(t, p) + PathCost(t, q)
    decreases |p|
  {
    if |p| == 1 {
      assert p + q[1..] == q;
    } else {
      TailIsPath(g, p);
      TailIsPath(g, p + q[1..]);
      assert (p + q[1..])[1..] == p[1..] + q[1..];
      CostOfJoin(g, t, p[1..], q);
    }
  }

  lemma {:induction false} CostCoversLast(g: Graph, t: seq<nat>, p: seq<nat>)
    requires g.Path(p) && |p| > 1 && |t| == |g.next|
    ensures PathCost(t, p) >= t[p[|p| - 1]]
    decreases |p|
  {
    if |p| > 2 {
      TailIsPath(g, p);
      CostCoversLast(g, t, p[1..]);
    }
  }

  /** No macrotask's latest start is before the job was received, even where a
      group's tables hold the prediction of another member. */
  lemma LatestStartFits(m: MacrotaskExecTimeInfoManager, useCriticalPath: bool, last: map<nat, nat>, i: nat)
    requires m.Valid() && m.graph.WellFormed() && LastMembers(m.group, last, |m.group|) && 1 <= i < |m.info|
    requires PredictedTotal(m.graph, m.Times(), useCriticalPath, m.totalExecTimeForPrediction)
    requires Predicted(m.graph, m.Times(), useCriticalPath, last[m.group[i]], m.info[i].deadline)
    requires m.info[i].predictedLaunchedToDeadline == m.Times()[i] + m.info[i].deadline
    ensures m.info[i].predictedLaunchedToDeadline <= m.totalExecTimeForPrediction
  {
    var j := last[m.group[i]];
    assert m.info[j] == m.info[i];
    PredictionFits(m.graph, m.Times(), useCriticalPath, j, m.info[i].deadline, m.totalExecTimeForPrediction);
  }

  /** The table of one group, or None where it cannot be computed. */
  method LoadTable(t: seq<nat>, lowerBound: real, useMaxThreads: bool) returns (x: MacrotaskExecTimeInfo?)
    requires Usable(t)
    ensures x != null <==> Loadable(t, lowerBound, useMaxThreads)
    ensures x != null ==> fresh(x) && TablesOf(x, t, lowerBound, useMaxThreads)
  {
    var y := new MacrotaskExecTimeInfo(t, lowerBound, useMaxThreads);
    if |t| > 1 {
      var ok := y.Init();
      WidestExists(t, lowerBound, |y.execTime| - 1);
      if !ok {
        return null;
      }
    }
    x := y;
  }

  /** Reads the tables of all groups and shares them among the members.  None
      where a macrotask does not exist or its table cannot be computed. */
  method LoadTables(group: seq<nat>, times: map<nat, seq<nat>>, lowerBound: real, useMaxThreads: bool)
    returns (r: Option<seq<MacrotaskExecTimeInfo?>>)
    requires |group| > 1 && GroupsOk(group)
    requires forall id :: id in times ==> Usable(times[id])
    requires forall i :: 1 <= i < |group| ==> group[i] in times
    ensures r.Some? <==> forall id :: id in times ==> id < |group| && Loadable(times[id], lowerBound, useMaxThreads)
    ensures r.Some? ==> Shared(group, r.value)
    ensures r.Some? ==> forall i :: 0 <= i < |group| && r.value[i] != null ==> fresh(r.value[i])
    ensures r.Some? ==> forall i :: 1 <= i < |group| ==>
              fresh(r.value[i]) && TablesOf(r.value[i], times[group[i]], lowerBound, useMaxThreads)
  {
    hide TablesOf, Loadable, Usable;
    if id :| id in times && id >= |group| {
      return None;
    }
    var raw: seq<MacrotaskExecTimeInfo?> := seq(|group|, _ => null);
    for id := 0 to |group|
      invariant |raw| == |group| && forall k :: 0 <= k < |raw| && raw[k] != null ==> fresh(raw[k])
      invariant forall k :: 0 <= k < id && k in times ==>
                  && raw[k] != null && fresh(raw[k])
                  && TablesOf(raw[k], times[k], lowerBound, useMaxThreads)
                  && Loadable(times[k], lowerBound, useMaxThreads)
      invariant forall j, k :: 0 <= j < k < id && j in times && k in times ==> raw[j] != raw[k]
    {
      if id in times {
        var x := LoadTable(times[id], lowerBound, useMaxThreads);
        if x == null {
          return None;
        }
        raw := raw[id := x];
      }
    }
    var info := raw;
    for i := 1 to |group|
      invariant |info| == |group| && forall k :: 0 <= k < |info| && info[k] != null ==> fresh(info[k])
      invariant forall k :: 1 <= k < |group| ==> info[k] == if k < i then raw[group[k]] else raw[k]
    {
      if group[i] != i {
        info := info[i := info[group[i]]];
      }
    }
    r := Some(info);
  }

  /** Members of a group share one table; different groups have different ones. */
  ghost predicate Shared(group: seq<nat>, info: seq<MacrotaskExecTimeInfo?>) {
    && |group| == |info|
    && (forall i :: 1 <= i < |info| ==> info[i] != null)
    && (forall i, j :: 1 <= i < |info| && 1 <= j < |info| ==> (info[i] == info[j] <==> group[i] == group[j]))
  }

  lemma WidestExists(t: seq<nat>, lowerBound: real, w: nat)
    requires Measured(t) && IsWidest(t, lowerBound, w)
    ensures w > 0 <==> exists i :: 1 <= i < |t| && Efficiency(t, i) >= lowerBound
  {
  }
}
