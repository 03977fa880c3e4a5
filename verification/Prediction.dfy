/** Predicted time from each macrotask to the end of its job: the critical path
    or everything behind it (MacrotaskExecTimeInfoManager). */
module Prediction {
  import opened Graphs

  /** Predicted time of a path, without its first macrotask. */
  function PathCost(t: seq<nat>, p: seq<nat>): nat
    requires forall i :: 0 <= i < |p| ==> p[i] < |t|
  {
    if |p| <= 1 then 0 else t[p[1]] + PathCost(t, p[1..])
  }

  /** A path from `v` to the end of the job. */
  ghost predicate FinalPath(g: Graph, v: nat, p: seq<nat>) {
    g.Path(p) && p[0] == v && p[|p| - 1] in g.finals
  }

  ghost predicate Reaches(g: Graph, t: seq<nat>, v: nat, c: nat)
    requires |t| == |g.next|
  {
    exists p :: FinalPath(g, v, p) && PathCost(t, p) == c
  }

  /** `c` is the largest predicted time over all paths from `v` to a final macrotask. */
  ghost predicate Longest(g: Graph, t: seq<nat>, v: nat, c: nat)
    requires |t| == |g.next|
  {
    && Reaches(g, t, v, c)
    && forall p :: FinalPath(g, v, p) ==> PathCost(t, p) <= c
  }

  /** `best` is an upper bound that no relaxation can exceed. */
  ghost predicate Potential(g: Graph, t: seq<nat>, best: seq<nat>)
    requires |t| == |g.next|
  {
    && |best| == |g.next|
    && forall p: nat, m: nat :: g.Edge(p, m) && m < |t| ==> best[p] >= best[m] + t[m]
  }

  ghost predicate Sound(cost: map<nat, nat>, best: seq<nat>) {
    forall v :: v in cost ==> v < |best| && cost[v] <= best[v]
  }

  /** The edges into `x` are relaxed. */
  ghost predicate Stable(g: Graph, t: seq<nat>, cost: map<nat, nat>, x: nat)
    requires |t| == |g.next| == |g.previous|
  {
    x in cost && x < |t| ==> forall p :: p in g.previous[x] ==> p in cost && cost[p] >= cost[x] + t[x]
  }

  /** Only costs above macrotask `m` have changed, and none has shrunk. */
  ghost predicate Raised(rank: seq<nat>, m: nat, old_: map<nat, nat>, cost: map<nat, nat>)
    requires m < |rank|
  {
    && (forall v :: v in old_ ==> v in cost && cost[v] >= old_[v])
    && (forall v: nat :: v < |rank| && v != m && rank[v] >= rank[m] ==>
          (v in cost <==> v in old_) && (v in old_ ==> cost[v] == old_[v]))
  }

  /** Whoever was stable, `m` aside, still is. */
  ghost predicate KeepsStable(g: Graph, t: seq<nat>, m: nat, old_: map<nat, nat>, cost: map<nat, nat>)
    requires |t| == |g.next| == |g.previous|
  {
    forall x :: x != m && Stable(g, t, old_, x) ==> Stable(g, t, cost, x)
  }

  /** Half-way through the predecessors of `m`: all but `todo` are relaxed. */
  ghost predicate Relaxing(g: Graph, t: seq<nat>, rank: seq<nat>, m: nat, todo: set<nat>, cost0: map<nat, nat>,
                           cost: map<nat, nat>)
    requires |t| == |g.next| == |g.previous| == |rank| && m < |rank|
  {
    && Raised(rank, m, cost0, cost)
    && KeepsStable(g, t, m, cost0, cost)
    && (g.previous[m] != {} || m in cost0 ==> m in cost && cost[m] == if m in cost0 then cost0[m] else 0)
    && (m in cost ==> forall p :: p in g.previous[m] && p !in todo ==> p in cost && cost[p] >= cost[m] + t[m])
  }

  /** The recursive relaxation from macrotask `m` upwards. */
  method Relax(g: Graph, t: seq<nat>, ghost rank: seq<nat>, ghost best: seq<nat>, m: nat, cost0: map<nat, nat>)
    returns (cost: map<nat, nat>)
    requires g.Consistent() && g.Ranked(rank) && |t| == |g.next| && g.Has(m) && Potential(g, t, best)
    requires Sound(cost0, best)
    ensures Sound(cost, best) && Relaxing(g, t, rank, m, {}, cost0, cost)
    decreases rank[m], 1
  {
    hide Graph.Consistent, Graph.Ranked, Potential, Sound, Relaxing;
    cost := cost0;
    SizesAgree(g, t, rank, best);
    var todo := g.previous[m];
    if todo != {} && m !in cost {
      cost := cost[m := 0];
    }
    StartRelaxing(g, t, rank, best, m, cost0, cost);
    while todo != {}
      invariant todo <= g.previous[m]
      invariant Sound(cost, best) && Relaxing(g, t, rank, m, todo, cost0, cost)
    {
      var p :| p in todo;
      cost := RelaxEdge(g, t, rank, best, m, p, todo, cost0, cost);
      todo := todo - {p};
    }
  }

  /** What is done for one predecessor `p`. */
  method RelaxEdge(g: Graph, t: seq<nat>, ghost rank: seq<nat>, ghost best: seq<nat>, m: nat, p: nat,
                   ghost todo: set<nat>, ghost cost0: map<nat, nat>, cost: map<nat, nat>)
    returns (relaxed: map<nat, nat>)
    requires g.Consistent() && g.Ranked(rank) && |t| == |g.next| && g.Has(m) && Potential(g, t, best)
    requires Sound(cost, best) && Relaxing(g, t, rank, m, todo, cost0, cost) && p in g.previous[m]
    ensures Sound(relaxed, best) && Relaxing(g, t, rank, m, todo - {p}, cost0, relaxed)
    decreases rank[m], 0
  {
    hide Graph.Consistent, Graph.Ranked, Potential, Sound, Relaxing;
    SizesAgree(g, t, rank, best);
    EdgeBehind(g, t, rank, best, m, p, todo, cost0, cost);
    var nc := cost[m] + t[m];
    if p in cost && cost[p] > nc {
      SkipEdge(g, t, rank, m, p, todo, cost0, cost);
      relaxed := cost;
    } else {
      relaxed := Relax(g, t, rank, best, p, cost[p := nc]);
      RaiseTwice(g, t, rank, m, p, todo, cost0, cost, cost[p := nc], relaxed);
    }
  }

  lemma SizesAgree(g: Graph, t: seq<nat>, rank: seq<nat>, best: seq<nat>)
    requires g.Consistent() && g.Ranked(rank) && |t| == |g.next| && Potential(g, t, best)
    ensures |t| == |g.previous| == |rank| == |best|
  {
  }

  /** What one relaxation needs to know of its edge. */
  lemma EdgeBehind(g: Graph, t: seq<nat>, rank: seq<nat>, best: seq<nat>, m: nat, p: nat, todo: set<nat>,
                   cost0: map<nat, nat>, cost: map<nat, nat>)
    requires g.Consistent() && g.Ranked(rank) && |t| == |g.next| && g.Has(m) && Potential(g, t, best)
    requires Sound(cost, best) && Relaxing(g, t, rank, m, todo, cost0, cost) && p in g.previous[m]
    ensures g.Has(p) && rank[p] < rank[m] && m in cost
    ensures Sound(cost[p := cost[m] + t[m]], best)
  {
    assert g.Edge(p, m);
  }

  lemma StartRelaxing(g: Graph, t: seq<nat>, rank: seq<nat>, best: seq<nat>, m: nat, cost0: map<nat, nat>,
                      cost: map<nat, nat>)
    requires |t| == |g.next| == |g.previous| == |rank| == |best| && m < |rank| && Sound(cost0, best)
    requires cost == if g.previous[m] != {} && m !in cost0 then cost0[m := 0] else cost0
    ensures Sound(cost, best) && Relaxing(g, t, rank, m, g.previous[m], cost0, cost)
  {
    if m !in cost0 {
      RaiseOne(g, t, rank, m, cost0, 0);
    }
  }

  lemma SkipEdge(g: Graph, t: seq<nat>, rank: seq<nat>, m: nat, p: nat, todo: set<nat>, cost0: map<nat, nat>,
                 cost: map<nat, nat>)
    requires |t| == |g.next| == |g.previous| == |rank| && m < |rank|
    requires Relaxing(g, t, rank, m, todo, cost0, cost) && m in cost
    requires p in cost && cost[p] > cost[m] + t[m]
    ensures Relaxing(g, t, rank, m, todo - {p}, cost0, cost)
  {
  }

  lemma RaiseOne(g: Graph, t: seq<nat>, rank: seq<nat>, p: nat, cost: map<nat, nat>, c: nat)
    requires |t| == |g.next| == |g.previous| == |rank| && p < |rank|
    requires p !in cost || cost[p] <= c
    ensures Raised(rank, p, cost, cost[p := c])
    ensures KeepsStable(g, t, p, cost, cost[p := c])
  {
    var d := cost[p := c];
    forall x: nat | x != p && Stable(g, t, cost, x) ensures Stable(g, t, d, x) {
      if x in d && x < |t| {
        forall q | q in g.previous[x] ensures q in d && d[q] >= d[x] + t[x] {}
      }
    }
  }

  lemma RaiseTwice(g: Graph, t: seq<nat>, rank: seq<nat>, m: nat, p: nat, todo: set<nat>,
                   cost0: map<nat, nat>, cost: map<nat, nat>, raised: map<nat, nat>, relaxed: map<nat, nat>)
    requires |t| == |g.next| == |g.previous| == |rank| && m < |rank| && p < |rank| && rank[p] < rank[m]
    requires Relaxing(g, t, rank, m, todo, cost0, cost) && m in cost
    requires p !in cost || cost[p] <= cost[m] + t[m]
    requires raised == cost[p := cost[m] + t[m]]
    requires Relaxing(g, t, rank, p, {}, raised, relaxed)
    ensures Relaxing(g, t, rank, m, todo - {p}, cost0, relaxed)
  {
    assert Raised(rank, m, cost0, relaxed);
    StableChain(g, t, m, p, cost0, cost, raised, relaxed);
  }

  lemma StableChain(g: Graph, t: seq<nat>, m: nat, p: nat, a: map<nat, nat>, b: map<nat, nat>, c: map<nat, nat>,
                    d: map<nat, nat>)
    requires |t| == |g.next| == |g.previous|
    requires KeepsStable(g, t, m, a, b) && KeepsStable(g, t, p, c, d) && Stable(g, t, d, p)
    requires p in c && c == b[p := c[p]] && (p in b ==> b[p] <= c[p])
    ensures KeepsStable(g, t, m, a, d)
  {
    forall x: nat | x != m && Stable(g, t, a, x) ensures Stable(g, t, d, x) {
      if x != p {
        assert Stable(g, t, b, x);
        assert Stable(g, t, c, x);
      }
    }
  }

  lemma EdgeExtends(g: Graph, t: seq<nat>, p: nat, m: nat, c: nat)
    requires |t| == |g.next| && g.Edge(p, m) && g.Has(m) && Reaches(g, t, m, c)
    ensures Reaches(g, t, p, c + t[m])
  {
    var q :| FinalPath(g, m, q) && PathCost(t, q) == c;
    PathExtends(g, p, q);
    assert ([p] + q)[1..] == q;
    assert FinalPath(g, p, [p] + q);
  }

  /** There is a longest path, to be found among the successors' longest paths. */
  lemma {:induction false} LongestExists(g: Graph, t: seq<nat>, rank: seq<nat>, v: nat) returns (c: nat)
    requires g.Consistent() && g.Ranked(rank) && |t| == |g.next| && g.Has(v)
    ensures Longest(g, t, v, c)
    decreases RankBound(rank) - rank[v], 1
  {
    RankBounded(rank, v);
    if g.next[v] == [] {
      c := 0;
      assert FinalPath(g, v, [v]);
      forall p | FinalPath(g, v, p) ensures PathCost(t, p) <= 0 {
        assert |p| > 1 ==> g.Edge(p[0], p[1]);
      }
    } else {
      c := LongestAmong(g, t, rank, v, |g.next[v]|);
      forall p | FinalPath(g, v, p) ensures PathCost(t, p) <= c {
        assert |p| > 1 ==> g.Edge(p[0], p[1]);
      }
    }
  }

  ghost predicate FirstStep(g: Graph, v: nat, k: nat, p: seq<nat>) {
    v < |g.next| && k <= |g.next[v]| && |p| > 1 && p[1] in g.next[v][..k]
  }

  lemma {:induction false} LongestAmong(g: Graph, t: seq<nat>, rank: seq<nat>, v: nat, k: nat) returns (c: nat)
    requires g.Consistent() && g.Ranked(rank) && |t| == |g.next| && g.Has(v) && 0 < k <= |g.next[v]|
    ensures Reaches(g, t, v, c)
    ensures forall p :: FinalPath(g, v, p) && FirstStep(g, v, k, p) ==> PathCost(t, p) <= c
    decreases RankBound(rank) - rank[v], 0, k
  {
    RankBounded(rank, v);
    var w := g.next[v][k - 1];
    assert g.Edge(v, w);
    RankBounded(rank, w);
    var cw := LongestExists(g, t, rank, w);
    EdgeExtends(g, t, v, w, cw);
    c := cw + t[w];
    forall p | FinalPath(g, v, p) && FirstStep(g, v, k, p) && p[1] == w ensures PathCost(t, p) <= cw + t[w] {
      TailIsPath(g, p);
      assert FinalPath(g, w, p[1..]);
    }
    if k > 1 {
      var d := LongestAmong(g, t, rank, v, k - 1);
      if d > c { c := d; }
    }
    forall p | FinalPath(g, v, p) && FirstStep(g, v, k, p) ensures PathCost(t, p) <= c {
      assert p[1] == w || (k > 1 && FirstStep(g, v, k - 1, p));
    }
  }

  lemma TailIsPath(g: Graph, p: seq<nat>)
    requires g.Path(p) && |p| > 1
    ensures g.Path(p[1..])
  {
    var q := p[1..];
    forall i, j | 0 <= i < j < |q| && j == i + 1 ensures g.Edge(q[i], q[j]) { assert g.Edge(p[i + 1], p[j + 1]); }
  }

  /** The longest predicted times as a potential. */
  lemma BestPotential(g: Graph, t: seq<nat>, rank: seq<nat>, k: nat) returns (best: seq<nat>)
    requires g.Consistent() && g.Ranked(rank) && |t| == |g.next| && k <= |g.next|
    ensures |best| == k && forall v: nat :: v < k ==> Longest(g, t, v, best[v])
    ensures k == |g.next| ==> Potential(g, t, best)
  {
    best := [];
    while |best| < k
      invariant |best| <= k && forall v: nat :: v < |best| ==> Longest(g, t, v, best[v])
    {
      var c := LongestExists(g, t, rank, |best|);
      best := best + [c];
    }
    if k == |g.next| {
      forall p: nat, m: nat | g.Edge(p, m) && m < |t| ensures best[p] >= best[m] + t[m] {
        EdgeExtends(g, t, p, m, best[m]);
      }
    }
  }

  /** Costs of all macrotasks along the critical path. */
  method CriticalPath(g: Graph, t: seq<nat>) returns (cost: map<nat, nat>)
    requires g.WellFormed() && |t| == |g.next|
    ensures forall v: nat :: g.Has(v) ==> v in cost && Longest(g, t, v, cost[v])
  {
    ghost var rank :| g.Ranked(rank);
    ghost var best := BestPotential(g, t, rank, |g.next|);
    SourceIsNotFinal(g);
    cost := map[];
    var todo := g.finals;
    while todo != {}
      invariant todo <= g.finals
      invariant Sound(cost, best)
      invariant forall f :: f in g.finals && f !in todo ==> f in cost
      invariant forall x :: Stable(g, t, cost, x)
    {
      var f :| f in todo;
      todo := todo - {f};
      ghost var before := cost;
      cost := Relax(g, t, rank, best, f, cost);
      assert KeepsStable(g, t, f, before, cost) && Stable(g, t, cost, f);
    }
    forall v: nat | g.Has(v) ensures v in cost && Longest(g, t, v, cost[v]) {
      StableIsLongest(g, t, cost, rank, best, v);
    }
  }

  lemma StableIsLongest(g: Graph, t: seq<nat>, cost: map<nat, nat>, rank: seq<nat>, best: seq<nat>, v: nat)
    requires g.WellFormed() && g.Ranked(rank) && |t| == |g.next| == |best| && g.Has(v)
    requires Sound(cost, best) && Longest(g, t, v, best[v])
    requires forall f :: f in g.finals ==> f in cost
    requires forall x :: Stable(g, t, cost, x)
    ensures v in cost && Longest(g, t, v, cost[v])
  {
    var p :| FinalPath(g, v, p) && PathCost(t, p) == best[v];
    StableBoundsPath(g, t, cost, p);
  }

  lemma {:induction false} StableBoundsPath(g: Graph, t: seq<nat>, cost: map<nat, nat>, p: seq<nat>)
    requires g.Consistent() && |t| == |g.next| && g.Path(p) && p[|p| - 1] in g.finals
    requires forall f :: f in g.finals ==> f in cost
    requires forall x :: Stable(g, t, cost, x)
    ensures p[0] in cost && PathCost(t, p) <= cost[p[0]]
    decreases |p|
  {
    if |p| > 1 {
      var q := p[1..];
      assert g.Edge(p[0], p[1]);
      TailIsPath(g, p);
      StableBoundsPath(g, t, cost, q);
      assert Stable(g, t, cost, p[1]);
    }
  }

  /** Predicted time of the macrotasks of `s` below `k`. */
  ghost function SumBelow(t: seq<nat>, s: set<nat>, k: nat): nat
    requires k <= |t|
  {
    if k == 0 then 0 else SumBelow(t, s, k - 1) + if k - 1 in s then t[k - 1] else 0
  }

  ghost function SumOver(t: seq<nat>, s: set<nat>): nat {
    SumBelow(t, s, |t|)
  }

  lemma {:induction false} SumBelowUnion(t: seq<nat>, a: set<nat>, b: set<nat>, k: nat)
    requires k <= |t| && a !! b
    ensures SumBelow(t, a + b, k) == SumBelow(t, a, k) + SumBelow(t, b, k)
  {
    if k > 0 { SumBelowUnion(t, a, b, k - 1); }
  }

  lemma {:induction false} SumBelowSingle(t: seq<nat>, x: nat, k: nat)
    requires k <= |t|
    ensures SumBelow(t, {x}, k) == if x < k then t[x] else 0
  {
    if k > 0 { SumBelowSingle(t, x, k - 1); }
  }

  lemma SumOverAdd(t: seq<nat>, x: nat, s: set<nat>)
    requires x < |t| && x !in s
    ensures SumOver(t, {x} + s) == t[x] + SumOver(t, s)
  {
    SumBelowUnion(t, {x}, s, |t|);
    SumBelowSingle(t, x, |t|);
  }

  lemma SumOverMonotone(t: seq<nat>, a: set<nat>, b: set<nat>)
    requires a <= b
    ensures SumOver(t, a) <= SumOver(t, b)
  {
    SumBelowUnion(t, a, b - a, |t|);
    assert a + (b - a) == b;
  }

  lemma {:induction false} SumBelowEmpty(t: seq<nat>, k: nat)
    requires k <= |t|
    ensures SumBelow(t, {}, k) == 0
  {
    if k > 0 { SumBelowEmpty(t, k - 1); }
  }

  ghost predicate InList(next: seq<nat>, x: nat) { x in next }

  /** `x` is in the list or behind one of its members. */
  ghost predicate Behind(g: Graph, next: seq<nat>, x: nat) {
    exists p :: InList(next, p) && (p == x || g.Before(p, x))
  }

  /** The depth-first search with a visited set.  Terminates on cyclic graphs, too. */
  method SumBehind(g: Graph, t: seq<nat>, next: seq<nat>, visited0: set<nat>) returns (cost: nat, visited: set<nat>)
    requires g.Consistent() && |t| == |g.next|
    requires forall i :: 0 <= i < |next| ==> g.Has(next[i])
    requires forall x :: x in visited0 ==> g.Has(x)
    ensures visited0 <= visited && forall x :: x in visited ==> g.Has(x)
    ensures forall p :: InList(next, p) ==> p in visited
    ensures forall x: nat, y: nat :: x in visited - visited0 && g.Edge(x, y) ==> y in visited
    ensures forall x :: x in visited - visited0 ==> Behind(g, next, x)
    ensures cost == SumOver(t, visited - visited0)
    decreases g.All() - visited0
  {
    cost, visited := 0, visited0;
    SumBelowEmpty(t, |t|);
    assert visited - visited0 == {};
    for i := 0 to |next|
      invariant visited0 <= visited && forall x :: x in visited ==> g.Has(x)
      invariant forall k :: 0 <= k < i ==> next[k] in visited
      invariant forall x: nat, y: nat :: x in visited - visited0 && g.Edge(x, y) ==> y in visited
      invariant forall x :: x in visited - visited0 ==> Behind(g, next, x)
      invariant cost == SumOver(t, visited - visited0)
    {
      var p := next[i];
      if p in visited {
        continue;
      }
      ghost var before := visited;
      visited := visited + {p};
      assert forall k :: 0 <= k < |g.next[p]| ==> g.Edge(p, g.next[p][k]);
      var c;
      ghost var mid := visited;
      c, visited := SumBehind(g, t, g.next[p], visited);
      cost := cost + c + t[p];

      assert visited - visited0 == (before - visited0) + ({p} + (visited - mid));
      SumBelowUnion(t, before - visited0, {p} + (visited - mid), |t|);
      SumOverAdd(t, p, visited - mid);
      forall x | x in visited - mid ensures Behind(g, next, x) {
        BehindSuccessor(g, next, p, x);
      }
      assert InList(next, p);
      forall x: nat, y: nat | x in visited - visited0 && g.Edge(x, y) ensures y in visited {
        if x == p { assert InList(g.next[p], y); }
      }
    }
  }

  lemma BehindSuccessor(g: Graph, next: seq<nat>, p: nat, x: nat)
    requires g.Consistent() && g.Has(p) && InList(next, p) && Behind(g, g.next[p], x)
    ensures Behind(g, next, x) && g.Before(p, x)
  {
    var q :| InList(g.next[p], q) && (q == x || g.Before(q, x));
    assert g.Edge(p, q);
    EdgeIsBefore(g, p, q);
    if q != x { BeforeTransitive(g, p, q, x); }
  }

  /** Everything that has to wait for macrotask `v`. */
  ghost function Descendants(g: Graph, v: nat): set<nat> {
    set x: nat | x < |g.next| && g.Before(v, x)
  }

  lemma {:induction false} ClosedHoldsPath(g: Graph, s: set<nat>, p: seq<nat>, i: nat)
    requires g.Path(p) && i < |p| - 1 && p[1] in s
    requires forall x: nat, y: nat :: x in s && g.Edge(x, y) ==> y in s
    ensures p[i + 1] in s
  {
    if i > 0 {
      ClosedHoldsPath(g, s, p, i - 1);
      assert g.Edge(p[i], p[i + 1]);
    }
  }

  /** The predicted time of everything behind macrotask `v`, each counted once. */
  method DescendantSum(g: Graph, t: seq<nat>, v: nat) returns (cost: nat)
    requires g.Consistent() && |t| == |g.next| && g.Has(v)
    ensures cost == SumOver(t, Descendants(g, v))
  {
    assert forall k :: 0 <= k < |g.next[v]| ==> g.Edge(v, g.next[v][k]);
    var visited;
    cost, visited := SumBehind(g, t, g.next[v], {});
    assert visited - {} == visited;
    forall x: nat ensures x in visited <==> x in Descendants(g, v) {
      if x in visited {
        BehindSuccessor(g, [v], v, x);
      }
      if x in Descendants(g, v) {
        var p :| |p| > 1 && g.PathBetween(p, v, x);
        assert g.Edge(p[0], p[1]);
        assert InList(g.next[v], p[1]);
        ClosedHoldsPath(g, visited, p, |p| - 2);
      }
    }
    assert visited == Descendants(g, v);
  }

  /** On an acyclic graph the sum behind a macrotask bounds the critical path. */
  lemma {:induction false} DescendantsBoundPath(g: Graph, t: seq<nat>, p: seq<nat>)
    requires g.Acyclic() && |t| == |g.next| && g.Path(p)
    ensures PathCost(t, p) <= SumOver(t, Descendants(g, p[0]))
    decreases |p|
  {
    if |p| > 1 {
      var q := p[1..];
      assert g.Edge(p[0], p[1]);
      TailIsPath(g, p);
      DescendantsBoundPath(g, t, q);
      EdgeIsBefore(g, p[0], p[1]);
      NoCycle(g, p[1]);
      forall x | x in Descendants(g, p[1]) ensures x in Descendants(g, p[0]) {
        BeforeTransitive(g, p[0], p[1], x);
      }
      SumOverAdd(t, p[1], Descendants(g, p[1]));
      SumOverMonotone(t, {p[1]} + Descendants(g, p[1]), Descendants(g, p[0]));
    }
  }
}
