/** Job::finish_task called from several threads at once: each edge is resolved
    under the lock of its destination, the final macrotasks under a lock of their
    own, and between two locks anything may happen. */
module Interleaving {
  import opened Graphs

  /** A call of finish_task: how many edges are resolved, what it has found ready,
      whether it has returned, and the end of job it has returned. */
  datatype Call = Call(position: nat, solved: seq<nat>, returned: bool, isEnd: bool)

  /** A job and all calls made on it, by macrotask. */
  datatype JobRun = JobRun(dep: seq<set<nat>>, finals: set<nat>, calls: map<nat, Call>)

  /** A call begins, resolves its next edge, or checks for the end and returns. */
  datatype Step = Begin(v: nat) | Resolve(v: nat) | Conclude(v: nat)

  function Initial(g: Graph): JobRun { JobRun(g.previous, g.finals, map[]) }

  /** `d` was found ready by the call for `u`. */
  predicate EmittedBy(s: JobRun, u: nat, d: nat) { u in s.calls && d in s.calls[u].solved }

  /** A macrotask is started only after the call that found it ready has returned. */
  ghost predicate MayBegin(s: JobRun, v: nat) {
    v == 0 || exists u :: EmittedBy(s, u, v) && s.calls[u].returned
  }

  ghost predicate Enabled(g: Graph, s: JobRun, e: Step) {
    match e
    case Begin(v) => g.Has(v) && v !in s.calls && MayBegin(s, v)
    case Resolve(v) => v in s.calls && !s.calls[v].returned && v < |g.next| && s.calls[v].position < |g.next[v]|
    case Conclude(v) => v in s.calls && !s.calls[v].returned && v < |g.next| && s.calls[v].position == |g.next[v]|
  }

  function Next(g: Graph, s: JobRun, e: Step): JobRun {
    match e
    case Begin(v) => s.(calls := s.calls[v := Call(0, [], false, false)])
    case Resolve(v) =>
      if
        && v in s.calls && v < |g.next| && s.calls[v].position < |g.next[v]|
        && g.next[v][s.calls[v].position] < |s.dep|
      then
        var k := s.calls[v];
        var d := g.next[v][k.position];
        var rest := s.dep[d] - {v};
        s.(dep := s.dep[d := rest],
           calls := s.calls[v := k.(position := k.position + 1, solved := k.solved + if rest == {} then [d] else [])])
      else s
    case Conclude(v) =>
      if v in s.calls then
        var rest := s.finals - {v};
        s.(finals := rest, calls := s.calls[v := s.calls[v].(returned := true, isEnd := rest == {})])
      else s
  }

  /** The call for `u` has erased itself from the dependencies of `d`. */
  predicate Erased(g: Graph, s: JobRun, u: nat, d: nat) {
    u in s.calls && u < |g.next| && s.calls[u].position <= |g.next[u]| && d in g.next[u][..s.calls[u].position]
  }

  ghost predicate CallsOk(g: Graph, s: JobRun) {
    && (forall v :: v in s.calls ==>
          && v < |g.next| && s.calls[v].position <= |g.next[v]|
          && (s.calls[v].returned ==> s.calls[v].position == |g.next[v]|)
          && (s.calls[v].isEnd ==> s.calls[v].returned))
    && (forall v :: v in s.calls && v > 0 ==> v < |s.dep| && s.dep[v] == {})
  }

  /** Dependencies are what has not been erased; final macrotasks are those whose
      call has not returned. */
  ghost predicate SharedOk(g: Graph, s: JobRun) {
    && |s.dep| == |g.previous|
    && (forall d: nat, u: nat :: d < |s.dep| ==> (u in s.dep[d] <==> u in g.previous[d] && !Erased(g, s, u, d)))
    && (forall f: nat :: f in s.finals <==> f in g.finals && !(f in s.calls && s.calls[f].returned))
  }

  /** Every macrotask without dependencies left has been found ready by exactly one
      call, and by that one once; no other has been found ready. */
  ghost predicate ExactlyOnce(g: Graph, s: JobRun) {
    && (forall u: nat, d: nat :: EmittedBy(s, u, d) ==> d < |s.dep| && s.dep[d] == {} && Erased(g, s, u, d))
    && (forall u, w, d :: EmittedBy(s, u, d) && EmittedBy(s, w, d) ==> u == w)
    && (forall u, i, j :: u in s.calls && 0 <= i < j < |s.calls[u].solved| ==>
          s.calls[u].solved[i] != s.calls[u].solved[j])
    && (forall d: nat :: 0 < d < |s.dep| && s.dep[d] == {} ==> exists u :: EmittedBy(s, u, d))
  }

  /** Nobody has been told that the job has ended while a final macrotask is left. */
  ghost predicate EndOk(s: JobRun) {
    s.finals != {} ==> forall v :: v in s.calls ==> !s.calls[v].isEnd
  }

  ghost predicate Inv(g: Graph, s: JobRun) {
    CallsOk(g, s) && SharedOk(g, s) && ExactlyOnce(g, s) && EndOk(s)
  }

  lemma InitialInv(g: Graph)
    requires g.WellFormed()
    ensures Inv(g, Initial(g))
  {
  }

  // ---- every step keeps the invariant ----

  /** The two steps that resolve no edge find nothing ready. */
  ghost predicate SameEdges(g: Graph, s: JobRun, t: JobRun) {
    && t.dep == s.dep
    && (forall u: nat, d: nat :: Erased(g, t, u, d) <==> Erased(g, s, u, d))
    && (forall u: nat, d: nat :: EmittedBy(t, u, d) <==> EmittedBy(s, u, d))
    && (forall u: nat :: u in t.calls ==> t.calls[u].solved == if u in s.calls then s.calls[u].solved else [])
  }

  lemma SameEdgesKeepOnce(g: Graph, s: JobRun, t: JobRun)
    requires ExactlyOnce(g, s) && SameEdges(g, s, t)
    ensures ExactlyOnce(g, t)
  {
    hide Erased, EmittedBy;
    forall d: nat | 0 < d < |t.dep| && t.dep[d] == {} ensures exists u :: EmittedBy(t, u, d) {
      var u :| EmittedBy(s, u, d);
      assert EmittedBy(t, u, d);
    }
  }

  lemma BeginKeeps(g: Graph, s: JobRun, v: nat)
    requires g.WellFormed() && Inv(g, s) && Enabled(g, s, Begin(v))
    ensures Inv(g, Next(g, s, Begin(v)))
  {
    hide ExactlyOnce, SharedOk, CallsOk, Graph.WellFormed, SameEdges;
    var t := Next(g, s, Begin(v));
    BeginSameEdges(g, s, v);
    SameEdgesKeepOnce(g, s, t);
    SameEdgesKeepShared(g, s, t);
    BegunIsReady(g, s, v);
    BeginKeepsCalls(g, s, v);
  }

  lemma BeginSameEdges(g: Graph, s: JobRun, v: nat)
    requires v !in s.calls
    ensures SameEdges(g, s, Next(g, s, Begin(v)))
  {
  }

  lemma SameEdgesKeepShared(g: Graph, s: JobRun, t: JobRun)
    requires SharedOk(g, s) && SameEdges(g, s, t) && t.finals == s.finals
    requires forall f: nat :: f in t.calls && t.calls[f].returned <==> f in s.calls && s.calls[f].returned
    ensures SharedOk(g, t)
  {
    hide Erased, EmittedBy;
  }

  lemma BegunIsReady(g: Graph, s: JobRun, v: nat)
    requires CallsOk(g, s) && ExactlyOnce(g, s) && Enabled(g, s, Begin(v))
    ensures v < |g.next| && (v > 0 ==> v < |s.dep| && s.dep[v] == {})
  {
    hide Erased;
  }

  lemma BeginKeepsCalls(g: Graph, s: JobRun, v: nat)
    requires CallsOk(g, s) && v < |g.next| && (v > 0 ==> v < |s.dep| && s.dep[v] == {})
    ensures CallsOk(g, Next(g, s, Begin(v)))
  {
  }

  /** Resolving the edge from `v` to `d` erases exactly that dependency. */
  lemma ResolveErases(g: Graph, s: JobRun, v: nat, t: JobRun, d: nat)
    requires g.WellFormed() && CallsOk(g, s) && SharedOk(g, s) && Enabled(g, s, Resolve(v))
    requires t == Next(g, s, Resolve(v)) && d == g.next[v][s.calls[v].position]
    ensures d < |s.dep| && v in s.dep[d] && !Erased(g, s, v, d) && d > 0
    ensures forall u: nat, x: nat :: Erased(g, t, u, x) <==> Erased(g, s, u, x) || (u == v && x == d)
    ensures t.dep == s.dep[d := s.dep[d] - {v}] && t.finals == s.finals
  {
    assert g.Edge(v, d);
    assert v in g.previous[d] && v !in g.previous[0];
    forall u: nat, x: nat ensures Erased(g, t, u, x) <==> Erased(g, s, u, x) || (u == v && x == d) {
      OneMoreErased(g, s, v, t, u, x);
    }
  }

  lemma OneMoreErased(g: Graph, s: JobRun, v: nat, t: JobRun, u: nat, x: nat)
    requires v in s.calls && v < |g.next| && s.calls[v].position < |g.next[v]|
    requires v in t.calls && t.calls[v].position == s.calls[v].position + 1 && t.calls == s.calls[v := t.calls[v]]
    ensures Erased(g, t, u, x) <==> Erased(g, s, u, x) || (u == v && x == g.next[v][s.calls[v].position])
  {
    var k := s.calls[v].position;
    assert g.next[v][..k + 1] == g.next[v][..k] + [g.next[v][k]];
  }
  lemma ResolveKeepsShared(g: Graph, s: JobRun, v: nat)
    requires g.WellFormed() && CallsOk(g, s) && SharedOk(g, s) && Enabled(g, s, Resolve(v))
    ensures CallsOk(g, Next(g, s, Resolve(v))) && SharedOk(g, Next(g, s, Resolve(v)))
  {
    var t := Next(g, s, Resolve(v));
    ResolveErases(g, s, v, t, g.next[v][s.calls[v].position]);
  }

  lemma ResolveKeepsEnd(g: Graph, s: JobRun, v: nat)
    requires EndOk(s)
    ensures EndOk(Next(g, s, Resolve(v)))
  {
  }

  lemma ResolveKeepsOnce(g: Graph, s: JobRun, v: nat)
    requires g.WellFormed() && CallsOk(g, s) && SharedOk(g, s) && ExactlyOnce(g, s) && Enabled(g, s, Resolve(v))
    ensures ExactlyOnce(g, Next(g, s, Resolve(v)))
  {
    hide Erased, Graph.WellFormed, CallsOk;
    var t := Next(g, s, Resolve(v));
    var d := g.next[v][s.calls[v].position];
    ResolveErases(g, s, v, t, d);
    forall u, x ensures EmittedBy(t, u, x) <==> EmittedBy(s, u, x) || (u == v && x == d && t.dep[d] == {}) {}
    forall x: nat | 0 < x < |t.dep| && t.dep[x] == {} ensures exists u :: EmittedBy(t, u, x) {
      if x == d {
        assert EmittedBy(t, v, d);
      } else {
        var u :| EmittedBy(s, u, x);
        assert EmittedBy(t, u, x);
      }
    }
    forall x | x in s.calls[v].solved ensures x != d { assert EmittedBy(s, v, x); }
    var before, after := s.calls[v].solved, t.calls[v].solved;
    forall i, j | 0 <= i < j < |after| ensures after[i] != after[j] {
      if j == |before| { assert after[i] in before; }
    }
  }

  lemma ConcludeKeeps(g: Graph, s: JobRun, v: nat)
    requires g.WellFormed() && Inv(g, s) && Enabled(g, s, Conclude(v))
    ensures Inv(g, Next(g, s, Conclude(v)))
  {
    hide ExactlyOnce, Graph.WellFormed;
    var t := Next(g, s, Conclude(v));
    assert SameEdges(g, s, t);
    SameEdgesKeepOnce(g, s, t);
  }

  /** Whatever the interleaving. */
  lemma StepKeeps(g: Graph, s: JobRun, e: Step)
    requires g.WellFormed() && Inv(g, s) && Enabled(g, s, e)
    ensures Inv(g, Next(g, s, e))
  {
    hide CallsOk, SharedOk, ExactlyOnce, Graph.WellFormed;
    match e
    case Begin(v) => BeginKeeps(g, s, v);
    case Resolve(v) =>
      ResolveKeepsShared(g, s, v);
      ResolveKeepsOnce(g, s, v);
      ResolveKeepsEnd(g, s, v);
    case Conclude(v) => ConcludeKeeps(g, s, v);
  }

  // ---- whole runs ----

  ghost function After(g: Graph, steps: seq<Step>): JobRun {
    if steps == [] then Initial(g) else Next(g, After(g, steps[..|steps| - 1]), steps[|steps| - 1])
  }

  ghost predicate ValidRun(g: Graph, steps: seq<Step>) {
    forall i :: 0 <= i < |steps| ==> Enabled(g, After(g, steps[..i]), steps[i])
  }

  lemma PrefixIsValid(g: Graph, steps: seq<Step>, i: nat)
    requires ValidRun(g, steps) && i <= |steps|
    ensures ValidRun(g, steps[..i])
  {
    forall k | 0 <= k < i ensures Enabled(g, After(g, steps[..i][..k]), steps[..i][k]) {
      assert steps[..i][..k] == steps[..k];
      assert Enabled(g, After(g, steps[..k]), steps[k]);
    }
  }

  /** The last step of a run. */
  lemma LastStep(g: Graph, steps: seq<Step>)
    requires ValidRun(g, steps) && steps != []
    ensures ValidRun(g, steps[..|steps| - 1])
    ensures Enabled(g, After(g, steps[..|steps| - 1]), steps[|steps| - 1])
    ensures After(g, steps) == Next(g, After(g, steps[..|steps| - 1]), steps[|steps| - 1])
  {
    hide Enabled, Next;
    PrefixIsValid(g, steps, |steps| - 1);
  }

  /** A run goes on with any step that can be taken. */
  lemma OneMoreStep(g: Graph, steps: seq<Step>, e: Step)
    requires ValidRun(g, steps) && Enabled(g, After(g, steps), e)
    ensures ValidRun(g, steps + [e]) && After(g, steps + [e]) == Next(g, After(g, steps), e)
  {
    hide Enabled, Next;
    var all := steps + [e];
    assert all[..|steps|] == steps;
    forall i | 0 <= i < |all| ensures Enabled(g, After(g, all[..i]), all[i]) {
      if i < |steps| { assert all[..i] == steps[..i]; }
    }
  }

  lemma {:induction false} RunKeeps(g: Graph, steps: seq<Step>)
    requires g.WellFormed() && ValidRun(g, steps)
    ensures Inv(g, After(g, steps))
  {
    hide Inv, Graph.WellFormed;
    if steps == [] {
      InitialInv(g);
    } else {
      var k := |steps| - 1;
      PrefixIsValid(g, steps, k);
      RunKeeps(g, steps[..k]);
      StepKeeps(g, After(g, steps[..k]), steps[k]);
    }
  }

  /** Nothing is found ready before all its predecessors have erased themselves. */
  lemma EmittedAfterPredecessors(g: Graph, steps: seq<Step>, u: nat, d: nat)
    requires g.WellFormed() && ValidRun(g, steps) && EmittedBy(After(g, steps), u, d)
    ensures d < |g.previous| && u in g.previous[d]
    ensures forall p :: p in g.previous[d] ==> Erased(g, After(g, steps), p, d)
  {
    RunKeeps(g, steps);
    var s := After(g, steps);
    hide After, ValidRun;
    assert Erased(g, s, u, d);
    assert g.Edge(u, d);
    forall p | p in g.previous[d] ensures Erased(g, s, p, d) { assert p !in s.dep[d]; }
  }

  /** The job has begun and there is nothing left to do on it. */
  ghost predicate Quiet(g: Graph, s: JobRun) {
    0 in s.calls && forall e: Step :: !Enabled(g, s, e)
  }

  /** The call has resolved all its edges; whatever it has found ready may begin. */
  ghost predicate OutOfTheWay(g: Graph, s: JobRun, u: nat) {
    && u in s.calls && u < |g.next| && s.calls[u].position == |g.next[u]|
    && (s.calls[u].returned || s.calls[u].solved == [])
  }

  lemma QuietHasReturned(g: Graph, s: JobRun)
    requires CallsOk(g, s) && Quiet(g, s)
    ensures forall v :: v in s.calls ==> s.calls[v].returned && OutOfTheWay(g, s, v)
  {
    forall v | v in s.calls ensures s.calls[v].returned && OutOfTheWay(g, s, v) {
      assert !Enabled(g, s, Resolve(v)) && !Enabled(g, s, Conclude(v));
    }
  }

  /** The calls that have begun include the predecessors of every one of them. */
  lemma BegunIsClosed(g: Graph, s: JobRun)
    requires g.WellFormed() && CallsOk(g, s) && SharedOk(g, s)
    ensures g.DownwardClosed(s.calls.Keys)
  {
    forall v: nat | v in s.calls && v < |g.next| ensures g.previous[v] <= s.calls.Keys {
      forall p | p in g.previous[v] ensures p in s.calls {
        if v > 0 {
          assert p !in s.dep[v];
          assert Erased(g, s, p, v);
        }
      }
    }
  }

  /** A run that cannot go on is complete: every macrotask has been finished, was
      found ready by exactly one call, and no final macrotask is left. */
  lemma QuietIsComplete(g: Graph, steps: seq<Step>)
    requires g.WellFormed() && ValidRun(g, steps) && Quiet(g, After(g, steps))
    ensures var s := After(g, steps);
            && s.finals == {}
            && (forall v: nat :: g.Has(v) ==> v in s.calls && s.calls[v].returned)
            && (forall d: nat :: g.Has(d) && d > 0 ==>
                  exists u :: EmittedBy(s, u, d) && forall w :: EmittedBy(s, w, d) ==> w == u)
  {
    RunKeeps(g, steps);
    var s := After(g, steps);
    hide After, ValidRun, Erased;
    QuietHasReturned(g, s);
    BegunIsClosed(g, s);
    forall v: nat | g.Has(v) ensures v in s.calls { QuietHasBegunAll(g, s, v); }
    forall d: nat | g.Has(d) && d > 0
      ensures exists u :: EmittedBy(s, u, d) && forall w :: EmittedBy(s, w, d) ==> w == u
    {
      var u :| EmittedBy(s, u, d);
      assert forall w :: EmittedBy(s, w, d) ==> w == u;
    }
  }

  lemma QuietHasBegunAll(g: Graph, s: JobRun, v: nat)
    requires g.WellFormed() && Inv(g, s) && Quiet(g, s) && g.Has(v)
    ensures v in s.calls
  {
    hide SharedOk, ExactlyOnce, EndOk;
    if v !in s.calls {
      QuietHasReturned(g, s);
      var w := NextToBegin(g, s, g.All(), v);
    }
  }

  /** Among macrotasks that come with their predecessors, if one has not begun and
      no call is in the way, then one may begin. */
  lemma NextToBegin(g: Graph, s: JobRun, a: set<nat>, v: nat) returns (w: nat)
    requires g.WellFormed() && Inv(g, s) && g.DownwardClosed(a) && v in a && v !in s.calls && g.Has(v)
    requires forall u :: u in s.calls && u in a ==> OutOfTheWay(g, s, u)
    ensures w in a && Enabled(g, s, Begin(w))
  {
    hide Inv, ExactlyOnce, EndOk, Erased;
    var rank :| g.Ranked(rank);
    var d := set u: nat | u < |g.next| && (u in s.calls || u !in a);
    w := ReadyExists(g, rank, d, v);
    assert g.previous[w] <= a;
    if w > 0 {
      AllErased(g, s, w);
      var u := FoundByOne(g, s, w);
      assert OutOfTheWay(g, s, u);
    }
  }

  lemma FoundByOne(g: Graph, s: JobRun, w: nat) returns (u: nat)
    requires g.WellFormed() && Inv(g, s) && 0 < w < |s.dep| && s.dep[w] == {}
    ensures EmittedBy(s, u, w) && w < |g.previous| && u in g.previous[w]
  {
    u :| EmittedBy(s, u, w);
    assert Erased(g, s, u, w);
    assert g.Edge(u, w);
  }

  lemma AllErased(g: Graph, s: JobRun, w: nat)
    requires g.WellFormed() && Inv(g, s) && g.Has(w)
    requires forall p :: p in g.previous[w] ==> OutOfTheWay(g, s, p)
    ensures w < |s.dep| && s.dep[w] == {}
  {
    forall p: nat ensures p !in s.dep[w] {
      if p in g.previous[w] {
        assert g.Edge(p, w);
        assert OutOfTheWay(g, s, p);
        assert g.next[p][..s.calls[p].position] == g.next[p];
        assert Erased(g, s, p, w);
      }
    }
  }

  // ---- how often the end of the job is reported ----

  ghost function Trues(s: JobRun): set<nat> { set v | v in s.calls && s.calls[v].isEnd }

  ghost function InFlight(s: JobRun): set<nat> { set v | v in s.calls && !s.calls[v].returned }

  /** Once no final macrotask is left, every macrotask has at least begun. */
  lemma AllBegunAtEnd(g: Graph, s: JobRun, v: nat)
    requires g.WellFormed() && Inv(g, s) && s.finals == {} && g.Has(v)
    ensures v in s.calls
  {
    BegunIsClosed(g, s);
    FinalsImplyAll(g, s.calls.Keys, v);
  }

  /** From then on, every call that returns reports the end. */
  lemma AfterEndEachReports(g: Graph, s: JobRun, e: Step)
    requires g.WellFormed() && Inv(g, s) && s.finals == {} && Enabled(g, s, e)
    ensures Next(g, s, e).finals == {}
    ensures |Trues(Next(g, s, e))| + |InFlight(Next(g, s, e))| == |Trues(s)| + |InFlight(s)|
  {
    hide CallsOk, SharedOk, ExactlyOnce, Graph.WellFormed, Trues, InFlight, Next;
    match e
    case Begin(v) => AllBegunAtEnd(g, s, v);
    case Resolve(v) => ResolveReportsNothing(g, s, v);
    case Conclude(v) => ConcludeReports(g, s, v);
  }

  lemma ResolveReportsNothing(g: Graph, s: JobRun, v: nat)
    requires v in s.calls
    ensures Next(g, s, Resolve(v)).finals == s.finals
    ensures Trues(Next(g, s, Resolve(v))) == Trues(s) && InFlight(Next(g, s, Resolve(v))) == InFlight(s)
  {
  }

  lemma ConcludeReports(g: Graph, s: JobRun, v: nat)
    requires v in s.calls && !s.calls[v].returned && CallsOk(g, s) && s.finals == {}
    ensures Next(g, s, Conclude(v)).finals == {}
    ensures |Trues(Next(g, s, Conclude(v)))| == |Trues(s)| + 1
    ensures |InFlight(Next(g, s, Conclude(v)))| == |InFlight(s)| - 1
  {
    var t := Next(g, s, Conclude(v));
    assert s.finals - {v} == {};
    assert Trues(t) == Trues(s) + {v} && v !in Trues(s);
    assert InFlight(t) == InFlight(s) - {v} && v in InFlight(s);
  }

  lemma {:induction false} ReportsAfterEnd(g: Graph, steps: seq<Step>, i: nat)
    requires g.WellFormed() && ValidRun(g, steps) && i <= |steps| && After(g, steps[..i]).finals == {}
    ensures After(g, steps).finals == {}
    ensures |Trues(After(g, steps))| + |InFlight(After(g, steps))| ==
              |Trues(After(g, steps[..i]))| + |InFlight(After(g, steps[..i]))|
  {
    hide Inv, Graph.WellFormed, Trues, InFlight, After, ValidRun, Enabled, Next;
    if i < |steps| {
      var k := |steps| - 1;
      LastStep(g, steps);
      assert steps[..k][..i] == steps[..i];
      ReportsAfterEnd(g, steps[..k], i);
      RunKeeps(g, steps[..k]);
      AfterEndEachReports(g, After(g, steps[..k]), steps[k]);
    } else {
      assert steps[..i] == steps;
    }
  }

  /** The call that takes the last final macrotask is the first to report the end. */
  lemma FirstReport(g: Graph, s: JobRun, e: Step)
    requires g.WellFormed() && Inv(g, s) && Enabled(g, s, e) && s.finals != {} && Next(g, s, e).finals == {}
    ensures e.Conclude? && Trues(Next(g, s, e)) == {e.v}
  {
  }

  /** When a run is complete, the end has been reported once by the call that took
      the last final macrotask, the `i`-th step, and once more by every call that
      was still in flight then.  So it has been reported exactly once if and only
      if no call was. */
  lemma ReportsOfRun(g: Graph, steps: seq<Step>, i: nat)
    requires g.WellFormed() && ValidRun(g, steps) && Quiet(g, After(g, steps)) && i < |steps|
    requires After(g, steps[..i]).finals != {} && After(g, steps[..i + 1]).finals == {}
    ensures |Trues(After(g, steps))| == 1 + |InFlight(After(g, steps[..i + 1]))|
    ensures |Trues(After(g, steps))| == 1 <==> InFlight(After(g, steps[..i + 1])) == {}
  {
    PrefixIsValid(g, steps, i);
    RunKeeps(g, steps[..i]);
    assert steps[..i + 1][..i] == steps[..i];
    FirstReport(g, After(g, steps[..i]), steps[i]);
    ReportsAfterEnd(g, steps, i + 1);
    QuietIsComplete(g, steps);
    RunKeeps(g, steps);
    assert InFlight(After(g, steps)) == {};
  }

  lemma SomeFinal(g: Graph)
    requires g.WellFormed()
    ensures After(g, []).finals != {}
  {
    var rank :| g.Ranked(rank);
    var p := FinalReachable(g, rank, 0);
  }

  /** Every complete run has such a step. */
  lemma {:induction false} EndHappens(g: Graph, steps: seq<Step>) returns (i: nat)
    requires g.WellFormed() && ValidRun(g, steps) && After(g, steps).finals == {}
    ensures i < |steps| && After(g, steps[..i]).finals != {} && After(g, steps[..i + 1]).finals == {}
  {
    hide Graph.WellFormed, Next, After, ValidRun;
    i := 0;
    if steps == [] {
      SomeFinal(g);
    } else {
      var k := |steps| - 1;
      PrefixIsValid(g, steps, k);
      if After(g, steps[..k]).finals == {} {
        i := EndHappens(g, steps[..k]);
        assert steps[..k][..i] == steps[..i] && steps[..k][..i + 1] == steps[..i + 1];
      } else {
        i := k;
        assert steps[..k + 1] == steps;
      }
    }
  }

  // ---- the end can be reported twice ----

  /** 0 before 1 and 2, both before 3. */
  function Diamond(): Graph { Graph([[1, 2], [3], [3], []], [{}, {0}, {0}, {1, 2}], {3}) }

  lemma DiamondIsWellFormed()
    ensures Diamond().WellFormed()
  {
    assert Diamond().Ranked([0, 1, 1, 2]);
  }

  /** The run `steps` on the diamond leads to the state `s`. */
  ghost predicate LeadsTo(steps: seq<Step>, s: JobRun) {
    ValidRun(Diamond(), steps) && After(Diamond(), steps) == s
  }

  lemma Extend(steps: seq<Step>, s: JobRun, e: Step, t: JobRun)
    requires LeadsTo(steps, s) && Enabled(Diamond(), s, e) && Next(Diamond(), s, e) == t
    ensures LeadsTo(steps + [e], t)
  {
    hide Enabled, Next, Diamond;
    OneMoreStep(Diamond(), steps, e);
  }

  lemma ExtendResolve(steps: seq<Step>, s: JobRun, v: nat, d: nat, solved: seq<nat>, t: JobRun)
    requires LeadsTo(steps, s) && v in s.calls && v < 4 && !s.calls[v].returned && !s.calls[v].isEnd
    requires s.calls[v].position < |Diamond().next[v]| && d == Diamond().next[v][s.calls[v].position] && d < |s.dep|
    requires solved == s.calls[v].solved + if s.dep[d] - {v} == {} then [d] else []
    requires t.dep == s.dep[d := s.dep[d] - {v}] && t.finals == s.finals
    requires t.calls == s.calls[v := Working(s.calls[v].position + 1, solved)]
    ensures LeadsTo(steps + [Resolve(v)], t)
  {
    hide LeadsTo;
    Extend(steps, s, Resolve(v), t);
  }

  lemma ExtendBegin(steps: seq<Step>, s: JobRun, v: nat, u: nat, t: JobRun)
    requires LeadsTo(steps, s) && v !in s.calls && v < 4
    requires v == 0 || (EmittedBy(s, u, v) && s.calls[u].returned)
    requires t.dep == s.dep && t.finals == s.finals && t.calls == s.calls[v := Working(0, [])]
    ensures LeadsTo(steps + [Begin(v)], t)
  {
    hide LeadsTo;
    Extend(steps, s, Begin(v), t);
  }

  lemma ExtendConclude(steps: seq<Step>, s: JobRun, v: nat, t: JobRun)
    requires LeadsTo(steps, s) && v in s.calls && v < 4 && !s.calls[v].returned
    requires s.calls[v].position == |Diamond().next[v]|
    requires t.dep == s.dep && t.finals == s.finals - {v}
    requires t.calls == s.calls[v := s.calls[v].(returned := true, isEnd := t.finals == {})]
    ensures LeadsTo(steps + [Conclude(v)], t)
  {
    hide LeadsTo;
    Extend(steps, s, Conclude(v), t);
  }

  function Working(position: nat, solved: seq<nat>): Call { Call(position, solved, false, false) }

  function Silent(position: nat, solved: seq<nat>): Call { Call(position, solved, true, false) }

  function Reporting(position: nat, solved: seq<nat>): Call { Call(position, solved, true, true) }

  /** The virtual source is finished: 1 and 2 are ready. */
  lemma SourceFinished() returns (steps: seq<Step>)
    ensures LeadsTo(steps, JobRun([{}, {}, {}, {1, 2}], {3}, map[0 := Silent(2, [1, 2])]))
  {
    hide LeadsTo;
    var s0 := Initial(Diamond());
    var s1 := JobRun([{}, {0}, {0}, {1, 2}], {3}, map[0 := Working(0, [])]);
    var s2 := JobRun([{}, {}, {0}, {1, 2}], {3}, map[0 := Working(1, [1])]);
    var s3 := JobRun([{}, {}, {}, {1, 2}], {3}, map[0 := Working(2, [1, 2])]);
    NoSteps();
    ExtendBegin([], s0, 0, 0, s1);
    ExtendResolve([] + [Begin(0)], s1, 0, 1, [1], s2);
    ExtendResolve([] + [Begin(0)] + [Resolve(0)], s2, 0, 2, [1, 2], s3);
    steps := [] + [Begin(0)] + [Resolve(0)] + [Resolve(0)];
    ExtendConclude(steps, s3, 0, JobRun([{}, {}, {}, {1, 2}], {3}, map[0 := Silent(2, [1, 2])]));
    steps := steps + [Conclude(0)];
  }

  lemma NoSteps()
    ensures LeadsTo([], Initial(Diamond()))
  {
  }

  /** 2 overtakes 1 between the two locks of 1, and finds 3 ready. */
  lemma Overtaken() returns (steps: seq<Step>)
    ensures var calls := map[0 := Silent(2, [1, 2]), 1 := Working(1, []), 2 := Silent(1, [3])];
            LeadsTo(steps, JobRun([{}, {}, {}, {}], {3}, calls))
  {
    hide LeadsTo;
    var s := SourceFinished();
    var s0 := JobRun([{}, {}, {}, {1, 2}], {3}, map[0 := Silent(2, [1, 2])]);
    var s1 := JobRun([{}, {}, {}, {1, 2}], {3}, map[0 := Silent(2, [1, 2]), 1 := Working(0, [])]);
    var s2 := JobRun([{}, {}, {}, {1, 2}], {3}, map[0 := Silent(2, [1, 2]), 1 := Working(0, []), 2 := Working(0, [])]);
    var s3 := JobRun([{}, {}, {}, {2}], {3}, map[0 := Silent(2, [1, 2]), 1 := Working(1, []), 2 := Working(0, [])]);
    var s4 := JobRun([{}, {}, {}, {}], {3}, map[0 := Silent(2, [1, 2]), 1 := Working(1, []), 2 := Working(1, [3])]);
    assert {1, 2} - {1} == {2};
    ExtendBegin(s, s0, 1, 0, s1);
    ExtendBegin(s + [Begin(1)], s1, 2, 0, s2);
    ExtendResolve(s + [Begin(1)] + [Begin(2)], s2, 1, 3, [], s3);
    ExtendResolve(s + [Begin(1)] + [Begin(2)] + [Resolve(1)], s3, 2, 3, [3], s4);
    steps := s + [Begin(1)] + [Begin(2)] + [Resolve(1)] + [Resolve(2)];
    ExtendConclude(steps, s4, 2, JobRun([{}, {}, {}, {}], {3}, map[0 := Silent(2, [1, 2]), 1 := Working(1, []),
                   2 := Silent(1, [3])]));
    steps := steps + [Conclude(2)];
  }

  /** Then 3 ends the job while 1 has not returned, and 1 ends it again. */
  lemma EndReportedTwice() returns (steps: seq<Step>)
    ensures Diamond().WellFormed() && ValidRun(Diamond(), steps) && Quiet(Diamond(), After(Diamond(), steps))
    ensures Trues(After(Diamond(), steps)) == {1, 3}
  {
    DiamondIsWellFormed();
    steps := EndsTwice();
    BothReport();
  }

  function Ended(): JobRun {
    JobRun([{}, {}, {}, {}], {}, map[0 := Silent(2, [1, 2]), 1 := Reporting(1, []), 2 := Silent(1, [3]),
           3 := Reporting(0, [])])
  }

  lemma EndsTwice() returns (steps: seq<Step>)
    ensures LeadsTo(steps, Ended())
  {
    hide LeadsTo;
    var s := Overtaken();
    var s0 := JobRun([{}, {}, {}, {}], {3}, map[0 := Silent(2, [1, 2]), 1 := Working(1, []), 2 := Silent(1, [3])]);
    var s1 := JobRun([{}, {}, {}, {}], {3}, map[0 := Silent(2, [1, 2]), 1 := Working(1, []), 2 := Silent(1, [3]),
                     3 := Working(0, [])]);
    var s2 := JobRun([{}, {}, {}, {}], {}, map[0 := Silent(2, [1, 2]), 1 := Working(1, []), 2 := Silent(1, [3]),
                     3 := Reporting(0, [])]);
    ExtendBegin(s, s0, 3, 2, s1);
    ExtendConclude(s + [Begin(3)], s1, 3, s2);
    steps := s + [Begin(3)] + [Conclude(3)];
    ExtendConclude(steps, s2, 1, Ended());
    steps := steps + [Conclude(1)];
  }

  lemma BothReport()
    ensures Quiet(Diamond(), Ended()) && Trues(Ended()) == {1, 3}
  {
  }
}
