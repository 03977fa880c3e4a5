/** The dependency graph of an application's macrotasks (MacrotaskGraph). */
module Graphs {
  import opened Sequences

  /** Macrotasks are 0..Last(); macrotask 0 is the virtual source that every job
      finishes at the moment it is admitted. */
  datatype Graph = Graph(next: seq<seq<nat>>, previous: seq<set<nat>>, finals: set<nat>) {
    ghost predicate Has(v: nat) { v < |next| }

    ghost function All(): set<nat> { set v: nat | v < |next| && Has(v) }

    ghost predicate Edge(u: nat, v: nat) { u < |next| && v in next[u] }

    /** `previous` and `finals` say the same as `next`. */
    ghost predicate Consistent() {
      && |next| == |previous|
      && (forall u: nat, v: nat :: Edge(u, v) ==> v < |next|)
      && (forall u: nat, v: nat :: v < |next| ==> (u in previous[v] <==> Edge(u, v)))
      && (forall u: nat :: u in finals <==> u < |next| && next[u] == [])
    }

    ghost predicate Ranked(rank: seq<nat>) {
      && |rank| == |next|
      && (forall u: nat, v: nat :: Edge(u, v) && v < |next| ==> rank[u] < rank[v])
    }

    /** A topological numbering exists. */
    ghost predicate Acyclic() { exists rank: seq<nat> :: Ranked(rank) }

    /** What the rest of the system takes for granted of a graph: 0 is the only
        macrotask without predecessors, no successor is listed twice. */
    ghost predicate WellFormed() {
      && Consistent()
      && Acyclic()
      && |next| > 1
      && previous[0] == {}
      && (forall v: nat :: 0 < v < |next| ==> previous[v] != {})
      && (forall u, i, j :: 0 <= u < |next| && 0 <= i < j < |next[u]| ==> next[u][i] != next[u][j])
    }

    ghost predicate Path(p: seq<nat>) {
      && p != []
      && (forall i :: 0 <= i < |p| ==> Has(p[i]))
      && (forall i, j :: 0 <= i < j < |p| && j == i + 1 ==> Edge(p[i], p[j]))
    }

    ghost predicate PathBetween(p: seq<nat>, u: nat, v: nat) {
      Path(p) && p[0] == u && p[|p| - 1] == v
    }

    /** `v` can be reached from `u` over one or more edges. */
    ghost predicate Before(u: nat, v: nat) {
      exists p: seq<nat> :: |p| > 1 && PathBetween(p, u, v)
    }

    /** With every macrotask of `d` come all its predecessors. */
    ghost predicate DownwardClosed(d: set<nat>)
      requires Consistent()
    {
      forall v: nat :: v in d && v < |next| ==> previous[v] <= d
    }
  }

  /** The constructor of MacrotaskGraph on the parsed dependency lists.  A
      successor that is no macrotask makes `at` throw: no graph. */
  method Build(dependency: seq<seq<nat>>) returns (r: Option<Graph>)
    ensures r.Some? <==>
              forall u, i :: 0 <= u < |dependency| && 0 <= i < |dependency[u]| ==> dependency[u][i] < |dependency|
    ensures r.Some? ==> r.value.next == dependency && r.value.Consistent()
  {
    var n := |dependency|;
    var previous: seq<set<nat>> := seq(n, _ => {});
    var finals: set<nat> := {};
    for src := 0 to n
      invariant |previous| == n
      invariant forall u, i :: 0 <= u < src && 0 <= i < |dependency[u]| ==> dependency[u][i] < n
      invariant forall v: nat, u: nat :: 0 <= v < n ==> (u in previous[v] <==> u < src && v in dependency[u])
      invariant forall u: nat :: u in finals <==> u < src && dependency[u] == []
    {
      if dependency[src] == [] {
        finals := finals + {src};
      } else {
        for k := 0 to |dependency[src]|
          invariant |previous| == n
          invariant forall i :: 0 <= i < k ==> dependency[src][i] < n
          invariant forall v: nat, u: nat :: 0 <= v < n ==>
            (u in previous[v] <==> (u < src && v in dependency[u]) || (u == src && v in dependency[src][..k]))
        {
          var dst := dependency[src][k];
          assert dependency[src][..k + 1] == dependency[src][..k] + [dst];
          if dst >= n {
            return None;
          }
          previous := previous[dst := previous[dst] + {src}];
        }
        assert dependency[src][..|dependency[src]|] == dependency[src];
      }
    }
    r := Some(Graph(dependency, previous, finals));
  }

  lemma {:induction false} RankGrowsAlongPath(g: Graph, rank: seq<nat>, p: seq<nat>)
    requires g.Ranked(rank) && g.Path(p) && |p| > 1
    ensures rank[p[0]] < rank[p[|p| - 1]]
  {
    assert g.Edge(p[0], p[1]);
    if |p| > 2 {
      assert g.Path(p[1..]) by {
        forall i | 0 <= i < |p[1..]| - 1 ensures g.Edge(p[1..][i], p[1..][i + 1]) {
          assert g.Edge(p[i + 1], p[i + 2]);
        }
      }
      RankGrowsAlongPath(g, rank, p[1..]);
    }
  }

  /** A graph with a topological numbering has no cycle. */
  lemma NoCycle(g: Graph, v: nat)
    requires g.Acyclic()
    ensures !g.Before(v, v)
  {
    var rank :| g.Ranked(rank);
    if g.Before(v, v) {
      var p :| |p| > 1 && g.PathBetween(p, v, v);
      RankGrowsAlongPath(g, rank, p);
    }
  }

  lemma PathExtends(g: Graph, u: nat, p: seq<nat>)
    requires g.Path(p) && g.Edge(u, p[0])
    ensures g.Path([u] + p)
  {
    var q := [u] + p;
    forall i | 0 <= i < |q| - 1 ensures g.Edge(q[i], q[i + 1]) {
      if i > 0 { assert g.Edge(p[i - 1], p[i]); }
    }
  }

  lemma PathsJoin(g: Graph, p: seq<nat>, q: seq<nat>)
    requires g.Path(p) && g.Path(q) && p[|p| - 1] == q[0]
    ensures g.Path(p + q[1..])
  {
    var r := p + q[1..];
    forall i | 0 <= i < |r| - 1 ensures g.Edge(r[i], r[i + 1]) {
      if i < |p| - 1 { assert g.Edge(p[i], p[i + 1]); }
      else { assert g.Edge(q[i - (|p| - 1)], q[i - (|p| - 1) + 1]); }
    }
  }

  lemma BeforeTransitive(g: Graph, u: nat, v: nat, w: nat)
    requires g.Before(u, v) && g.Before(v, w)
    ensures g.Before(u, w)
  {
    var p :| |p| > 1 && g.PathBetween(p, u, v);
    var q :| |q| > 1 && g.PathBetween(q, v, w);
    PathsJoin(g, p, q);
    assert g.PathBetween(p + q[1..], u, w);
  }

  lemma EdgeIsBefore(g: Graph, u: nat, v: nat)
    requires g.Edge(u, v) && g.Has(v)
    ensures g.Before(u, v)
  {
    assert g.PathBetween([u, v], u, v);
  }

  /** Every macrotask other than 0 lies behind macrotask 0. */
  lemma {:induction false} SourceReachesAll(g: Graph, rank: seq<nat>, v: nat)
    requires g.WellFormed() && g.Ranked(rank) && 0 < v && g.Has(v)
    ensures g.Before(0, v)
    decreases rank[v]
  {
    var u :| u in g.previous[v];
    assert g.Edge(u, v);
    EdgeIsBefore(g, u, v);
    if u != 0 {
      SourceReachesAll(g, rank, u);
      BeforeTransitive(g, 0, u, v);
    }
  }

  /** Macrotask 0 has a successor, so it is not final. */
  lemma SourceIsNotFinal(g: Graph)
    requires g.WellFormed()
    ensures 0 !in g.finals && g.next[0] != []
  {
    var rank :| g.Ranked(rank);
    SourceReachesAll(g, rank, 1);
    var p :| |p| > 1 && g.PathBetween(p, 0, 1);
    assert g.Edge(p[0], p[1]);
  }

  /** From every macrotask some path leads to a final one. */
  lemma {:induction false} FinalReachable(g: Graph, rank: seq<nat>, v: nat) returns (p: seq<nat>)
    requires g.WellFormed() && g.Ranked(rank) && g.Has(v)
    ensures g.Path(p) && p[0] == v && p[|p| - 1] in g.finals
    decreases RankBound(rank) - rank[v]
  {
    RankBounded(rank, v);
    if g.next[v] == [] {
      p := [v];
    } else {
      var w := g.next[v][0];
      assert g.Edge(v, w);
      RankBounded(rank, w);
      p := FinalReachable(g, rank, w);
      PathExtends(g, v, p);
      p := [v] + p;
    }
  }

  ghost function RankBound(rank: seq<nat>): nat { Sum(rank) + 1 }

  lemma {:induction false} RankBounded(rank: seq<nat>, v: nat)
    requires v < |rank|
    ensures rank[v] < RankBound(rank)
  {
    SumRemoveAt(rank, v);
  }

  /** A set that is closed under predecessors and holds every final macrotask
      holds them all. */
  lemma {:induction false} FinalsImplyAll(g: Graph, d: set<nat>, v: nat)
    requires g.WellFormed() && g.DownwardClosed(d) && g.finals <= d && g.Has(v)
    ensures v in d
  {
    var rank :| g.Ranked(rank);
    var p := FinalReachable(g, rank, v);
    PathBackward(g, d, p, 0);
  }

  lemma {:induction false} PathBackward(g: Graph, d: set<nat>, p: seq<nat>, i: nat)
    requires g.Consistent() && g.DownwardClosed(d) && g.Path(p) && p[|p| - 1] in d && i < |p|
    ensures p[i] in d
    decreases |p| - i
  {
    if i < |p| - 1 {
      PathBackward(g, d, p, i + 1);
      assert g.Edge(p[i], p[i + 1]);
    }
  }

  /** Some macrotask outside a downward-closed set has all its predecessors in it. */
  lemma {:induction false} ReadyExists(g: Graph, rank: seq<nat>, d: set<nat>, v: nat) returns (w: nat)
    requires g.Consistent() && g.Ranked(rank) && g.Has(v) && v !in d
    ensures g.Has(w) && w !in d && g.previous[w] <= d
    decreases rank[v]
  {
    if g.previous[v] <= d {
      w := v;
    } else {
      var u :| u in g.previous[v] && u !in d;
      assert g.Edge(u, v);
      w := ReadyExists(g, rank, d, u);
    }
  }
}
