/** A call of finish_task that nothing interrupts: its atomic steps together do what
    the whole method does. */
module Alone {
  import opened Graphs
  import opened Interleaving
  import opened Machine
  import opened Jobs

  /** `n` edges of the call for `v`, one after the other. */
  ghost function Resolved(g: Graph, s: JobRun, v: nat, n: nat): JobRun {
    if n == 0 then s else Next(g, Resolved(g, s, v, n - 1), Resolve(v))
  }

  lemma {:induction false} ResolvedEdges(g: Graph, s: JobRun, v: nat, n: nat)
    requires g.Consistent() && |s.dep| == |g.next| && v < |g.next| && n <= |g.next[v]|
    requires v in s.calls && s.calls[v] == Call(0, [], false, false)
    ensures var t := Resolved(g, s, v, n);
            && t.dep == ErasedDependency(s.dep, g.next[v][..n], v) && t.finals == s.finals
            && t.calls == s.calls[v := Call(n, Solved(s.dep, g.next[v][..n], v), false, false)]
  {
    hide Next, Graph.Consistent, Solved, ErasedDependency;
    if n == 0 {
      NoEdges(s, g.next[v], v);
    } else {
      ResolvedEdges(g, s, v, n - 1);
      var before := Resolved(g, s, v, n - 1);
      var d := g.next[v][n - 1];
      EdgeEnds(g, v, n - 1);
      OneEdge(g, before, v, d);
      EraseOne(s.dep, g.next[v], v, n - 1, before.dep, before.dep[d := before.dep[d] - {v}]);
    }
  }

  lemma NoEdges(s: JobRun, next: seq<nat>, v: nat)
    ensures s.dep == ErasedDependency(s.dep, next[..0], v) && Solved(s.dep, next[..0], v) == []
    ensures v in s.calls ==> s.calls == s.calls[v := s.calls[v]]
  {
  }

  lemma EdgeEnds(g: Graph, v: nat, k: nat)
    requires g.Consistent() && v < |g.next| && k < |g.next[v]|
    ensures g.next[v][k] < |g.next|
  {
    assert g.Edge(v, g.next[v][k]);
  }

  lemma OneEdge(g: Graph, s: JobRun, v: nat, d: nat)
    requires v in s.calls && v < |g.next| && s.calls[v].position < |g.next[v]|
    requires d == g.next[v][s.calls[v].position] && d < |s.dep|
    ensures var rest, c := s.dep[d] - {v}, s.calls[v];
            Next(g, s, Resolve(v)) ==
            JobRun(s.dep[d := rest], s.finals,
                   s.calls[v := Call(c.position + 1, c.solved + if rest == {} then [d] else [], c.returned, c.isEnd)])
  {
  }

  /** From the beginning of the call to its return. */
  lemma CallIsFinishTask(g: Graph, s: JobRun, v: nat, js: JobState)
    requires g.Consistent() && |s.dep| == |g.next| && v < |g.next| && v !in s.calls
    requires js.inputDependency == s.dep && js.finalMacrotaskId == s.finals
    ensures var t := Next(g, Resolved(g, Next(g, s, Begin(v)), v, |g.next[v]|), Conclude(v));
            && t.dep == Finish(g.next[v], js, v).inputDependency
            && t.finals == Finish(g.next[v], js, v).finalMacrotaskId
            && v in t.calls && t.calls[v].returned
            && t.calls[v].solved == Solved(js.inputDependency, g.next[v], v)
            && (t.calls[v].isEnd <==> js.finalMacrotaskId - {v} == {})
            && forall u :: u != v ==> (u in t.calls <==> u in s.calls) && (u in s.calls ==> t.calls[u] == s.calls[u])
  {
    ResolvedEdges(g, Next(g, s, Begin(v)), v, |g.next[v]|);
    assert g.next[v][..|g.next[v]|] == g.next[v];
  }
}
