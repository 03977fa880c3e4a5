/** A job in execution (Job). */
module Jobs {
  import opened Sequences
  import opened Operands
  import opened Tasks
  import opened Machine

  class Job {
    const c: Config
    var query: Query
    /** For each macrotask the predecessors it still waits for. */
    var inputDependency: seq<set<nat>>
    /** The macrotasks without successors that are not finished. */
    var finalMacrotaskId: set<nat>
    /** Start and finish time of each macrotask. */
    var macrotaskExecLog: seq<(nat, nat)>
    /** The operands, or None once an operation has thrown. */
    var memory: Option<Memory>
    /** The macrotasks executed so far, in that order: a record for the proofs only,
        which no decision depends on. */
    var order: seq<nat>

    function State(): JobState
      reads this
    {
      JobState(query, inputDependency, finalMacrotaskId, macrotaskExecLog, memory, order)
    }

    ghost predicate Valid()
      reads this
    {
      && AppKnown(c, query)
      && |inputDependency| == |macrotaskExecLog| == |App(c, query).graph.next| == |App(c, query).operations|
    }

    /** A copy of the graph's dependencies, and a deadline if the query has none. */
    constructor (c: Config, q: Query)
      requires AppKnown(c, q) && App(c, q).WellFormed()
      ensures this.c == c && Valid() && State() == NewJob(c, q)
      ensures memory.Some? && Laid(memory.value, c.apps[q.appId], q)
    {
      var a := App(c, q);
      this.c := c;
      query := q;
      memory := Some(InitialMemory(a, q));
      macrotaskExecLog := seq(|a.graph.next|, _ => (0, 0));
      finalMacrotaskId := a.graph.finals;
      order := [];
      inputDependency := [];
      new;
      for v := 0 to |a.graph.previous|
        invariant this.c == c && query == q && memory == Some(InitialMemory(a, q)) && order == []
        invariant macrotaskExecLog == seq(|a.graph.next|, _ => (0, 0)) && finalMacrotaskId == a.graph.finals
        invariant inputDependency == a.graph.previous[..v]
      {
        inputDependency := inputDependency + [a.graph.previous[v]];
      }
      SetDeadline();
      LaidOut(InitialMemory(a, q), a, q);
    }

    method SetDeadline()
      requires AppKnown(c, query)
      modifies `query
      ensures query == WithDeadline(c, old(query))
      ensures query == old(query).(deadline :=
                if old(query.deadline) != 0 then old(query.deadline)
                else old(query.receivedTime) + c.apps[old(query.appId)].totalExecTimeForPrediction)
    {
      if query.deadline == 0 {
        query := query.(deadline := query.receivedTime + App(c, query).totalExecTimeForPrediction);
      }
    }

    method FinishTime(t: nat)
      modifies `query
      ensures query == old(query).(finishTime := t)
    {
      query := query.(finishTime := t);
    }

    /** Executes the operations of macrotask `v` in their order. */
    method Execute(v: nat, now: nat)
      requires Valid() && v < |macrotaskExecLog|
      modifies `macrotaskExecLog, `memory, `order
      ensures Valid() && State() == Start(c, old(State()), v, now)
    {
      var a := App(c, query);
      macrotaskExecLog := macrotaskExecLog[v := (now, macrotaskExecLog[v].1)];
      var ops := a.operations[v];
      for i := 0 to |ops|
        invariant macrotaskExecLog == old(macrotaskExecLog)[v := (now, old(macrotaskExecLog[v]).1)]
        invariant order == old(order)
        invariant ExecuteAll(SchemeOf(c, query), ConstantsOf(c, query), memory, ops[i..]) ==
                  ExecuteAll(SchemeOf(c, query), ConstantsOf(c, query), old(memory), ops)
      {
        if memory.Some? {
          memory := Operands.Execute(SchemeOf(c, query), ConstantsOf(c, query), memory.value, ops[i]);
        }
      }
      order := order + [v];
    }

    /** Resolves the dependencies on `v`, edge by edge. */
    method FinishTask(v: nat, time: nat) returns (isEnd: bool, solved: seq<nat>)
      requires Valid() && v < |macrotaskExecLog| && App(c, query).graph.Consistent()
      modifies `inputDependency, `finalMacrotaskId, `macrotaskExecLog
      ensures Valid() && State() == LogFinish(Finish(App(c, query).graph.next[v], old(State()), v), v, time)
      ensures solved == Solved(old(inputDependency), App(c, query).graph.next[v], v)
      ensures isEnd <==> old(finalMacrotaskId) - {v} == {}
    {
      var next := App(c, query).graph.next[v];
      solved := [];
      for i := 0 to |next|
        invariant macrotaskExecLog == old(macrotaskExecLog) && finalMacrotaskId == old(finalMacrotaskId)
        invariant inputDependency == ErasedDependency(old(inputDependency), next[..i], v)
        invariant solved == Solved(old(inputDependency), next[..i], v)
      {
        var dst := next[i];
        assert App(c, query).graph.Edge(v, dst);
        ghost var before := inputDependency;
        inputDependency := inputDependency[dst := inputDependency[dst] - {v}];
        EraseOne(old(inputDependency), next, v, i, before, inputDependency);
        if inputDependency[dst] == {} {
          solved := solved + [dst];
        }
      }
      assert next[..|next|] == next;
      finalMacrotaskId := finalMacrotaskId - {v};
      isEnd := finalMacrotaskId == {};
      macrotaskExecLog := macrotaskExecLog[v := (macrotaskExecLog[v].0, time)];
    }
  }

  /** One more edge. */
  lemma EraseOne(dep: seq<set<nat>>, next: seq<nat>, v: nat, i: nat, before: seq<set<nat>>, after: seq<set<nat>>)
    requires i < |next| && next[i] < |dep| && before == ErasedDependency(dep, next[..i], v)
    requires after == before[next[i] := before[next[i]] - {v}]
    ensures after == ErasedDependency(dep, next[..i + 1], v)
    ensures after[next[i]] == dep[next[i]] - {v}
    ensures Solved(dep, next[..i + 1], v) ==
              Solved(dep, next[..i], v) + if dep[next[i]] - {v} == {} then [next[i]] else []
  {
    assert next[..i + 1][..i] == next[..i];
    assert next[..i + 1] == next[..i] + [next[i]];
    forall d | 0 <= d < |dep| ensures after[d] == ErasedDependency(dep, next[..i + 1], v)[d] {
      assert d in next[..i + 1] <==> d in next[..i] || d == next[i];
    }
  }
}
