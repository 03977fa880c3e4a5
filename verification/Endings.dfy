/** Interleaved calls of finish_task come to rest, and which graphs make them report
    the end of the job exactly once. */
module Endings {
  import opened Sequences
  import opened Graphs
  import opened Interleaving

  // ---- every interleaving comes to rest ----

  /** How much of the call for `v` has been done. */
  ghost function DoneOf(s: JobRun, v: nat): nat {
    if v in s.calls then 1 + s.calls[v].position + (if s.calls[v].returned then 1 else 0) else 0
  }

  ghost function DoneUpto(s: JobRun, n: nat): nat {
    if n == 0 then 0 else DoneUpto(s, n - 1) + DoneOf(s, n - 1)
  }

  /** Every call begins, resolves its edges and returns. */
  ghost function StepsUpto(g: Graph, n: nat): nat
    requires n <= |g.next|
  {
    if n == 0 then 0 else StepsUpto(g, n - 1) + 2 + |g.next[n - 1]|
  }

  lemma {:induction false} StepCounts(g: Graph, s: JobRun, e: Step, n: nat)
    requires g.WellFormed() && Inv(g, s) && Enabled(g, s, e)
    ensures DoneUpto(Next(g, s, e), n) == DoneUpto(s, n) + if e.v < n then 1 else 0
  {
    hide DoneOf, Next, Enabled, Inv, Graph.WellFormed;
    if n > 0 {
      StepCounts(g, s, e, n - 1);
      if e.Resolve? { DestinationKnown(g, s, e.v); }
      StepCountsOne(g, s, e, n - 1);
    }
  }

  lemma StepCountsOne(g: Graph, s: JobRun, e: Step, v: nat)
    requires Enabled(g, s, e) && (e.Resolve? ==> g.next[e.v][s.calls[e.v].position] < |s.dep|)
    ensures DoneOf(Next(g, s, e), v) == DoneOf(s, v) + if e.v == v then 1 else 0
  {
  }

  lemma DestinationKnown(g: Graph, s: JobRun, u: nat)
    requires g.WellFormed() && Inv(g, s) && Enabled(g, s, Resolve(u))
    ensures u in s.calls && u < |g.next| && s.calls[u].position < |g.next[u]|
    ensures g.next[u][s.calls[u].position] < |s.dep|
  {
    assert g.Edge(u, g.next[u][s.calls[u].position]);
  }

  lemma {:induction false} DoneIsBounded(g: Graph, s: JobRun, n: nat)
    requires CallsOk(g, s) && n <= |g.next|
    ensures DoneUpto(s, n) <= StepsUpto(g, n)
  {
    if n > 0 { DoneIsBounded(g, s, n - 1); }
  }

  lemma {:induction false} NothingDone(g: Graph, n: nat)
    ensures DoneUpto(Initial(g), n) == 0
  {
    if n > 0 { NothingDone(g, n - 1); }
  }

  /** A run makes progress with every step, and there is only so much to do. */
  lemma {:induction false} RunIsBounded(g: Graph, steps: seq<Step>)
    requires g.WellFormed() && ValidRun(g, steps)
    ensures |steps| == DoneUpto(After(g, steps), |g.next|) <= StepsUpto(g, |g.next|)
  {
    hide Graph.WellFormed, CallsOk, SharedOk, ExactlyOnce, EndOk, Next;
    RunKeeps(g, steps);
    DoneIsBounded(g, After(g, steps), |g.next|);
    if steps == [] {
      NothingDone(g, |g.next|);
    } else {
      LastStep(g, steps);
      var before, e := steps[..|steps| - 1], steps[|steps| - 1];
      RunIsBounded(g, before);
      RunKeeps(g, before);
      StepCounts(g, After(g, before), e, |g.next|);
      StepOfMacrotask(g, After(g, before), e);
    }
  }

  lemma StepOfMacrotask(g: Graph, s: JobRun, e: Step)
    requires Enabled(g, s, e)
    ensures e.v < |g.next|
  {
  }

  /** The step belongs to one of the macrotasks `a`, and does not let the call for
      `held` return. */
  predicate Allowed(a: set<nat>, held: Option<nat>, e: Step) {
    e.v in a && (held.Some? ==> e != Conclude(held.value))
  }

  /** From `from` on only such steps are taken. */
  ghost predicate Only(steps: seq<Step>, from: nat, a: set<nat>, held: Option<nat>) {
    forall i :: from <= i < |steps| ==> Allowed(a, held, steps[i])
  }

  /** A run can be taken so far that none of these steps is left to take. */
  lemma {:induction false} TakeFar(g: Graph, steps: seq<Step>, a: set<nat>, held: Option<nat>)
    returns (all: seq<Step>)
    requires g.WellFormed() && ValidRun(g, steps)
    ensures steps <= all && ValidRun(g, all) && Only(all, |steps|, a, held)
    ensures forall e :: Allowed(a, held, e) ==> !Enabled(g, After(g, all), e)
    decreases StepsUpto(g, |g.next|) - |steps|
  {
    hide Graph.WellFormed, After, ValidRun, Enabled, Allowed;
    all := steps;
    if e :| Allowed(a, held, e) && Enabled(g, After(g, steps), e) {
      OneMoreStep(g, steps, e);
      RunIsBounded(g, steps + [e]);
      all := TakeFar(g, steps + [e], a, held);
      assert all[|steps|] == e;
    }
  }

  /** Every interleaving comes to rest, by whatever steps it goes on. */
  lemma ComesToRest(g: Graph, steps: seq<Step>) returns (all: seq<Step>)
    requires g.WellFormed() && ValidRun(g, steps)
    ensures steps <= all && ValidRun(g, all) && Quiet(g, After(g, all))
    ensures |all| <= StepsUpto(g, |g.next|)
  {
    all := TakeFar(g, steps, g.All(), None);
    RunIsBounded(g, all);
    var s := After(g, all);
    hide After, ValidRun;
    forall e: Step | Enabled(g, s, e) ensures Allowed(g.All(), None, e) {
      StepOfMacrotask(g, s, e);
    }
    assert !Enabled(g, s, Begin(0));
  }

  // ---- reported once ----

  /** Some successor of `v` waits for nobody else. */
  ghost predicate Owns(g: Graph, v: nat) {
    v < |g.next| && exists d :: d in g.next[v] && d < |g.previous| && g.previous[d] == {v}
  }

  lemma MayBeginStays(g: Graph, s: JobRun, e: Step, w: nat)
    requires Enabled(g, s, e) && MayBegin(s, w)
    ensures MayBegin(Next(g, s, e), w)
  {
    if w > 0 {
      var u :| EmittedBy(s, u, w) && s.calls[u].returned;
      assert EmittedBy(Next(g, s, e), u, w);
    }
  }

  /** Whoever has begun was found ready by a call that has returned. */
  lemma {:induction false} BegunWasFound(g: Graph, steps: seq<Step>, w: nat)
    requires ValidRun(g, steps) && w in After(g, steps).calls
    ensures MayBegin(After(g, steps), w)
  {
    hide ValidRun, MayBegin;
    if steps != [] {
      LastStep(g, steps);
      var before, e := steps[..|steps| - 1], steps[|steps| - 1];
      if w in After(g, before).calls {
        BegunWasFound(g, before, w);
      }
      MayBeginStays(g, After(g, before), e, w);
    }
  }

  /** `w` has to begin before `v` may, if it is not `v`. */
  ghost predicate NoLater(g: Graph, w: nat, v: nat) { g.Has(w) && (w == v || g.Before(w, v)) }

  /** The call for `p` resolves `d` before `w`. */
  ghost predicate InOrder(g: Graph, p: nat, d: nat, w: nat) {
    p < |g.next| && exists i, j :: 0 <= i < j < |g.next[p]| && g.next[p][i] == d && g.next[p][j] == w
  }

  /** `w` cannot begin before the call for `p` has resolved `d`: it waits for `p` alone,
      or `p` resolves it later. */
  ghost predicate Keeps(g: Graph, p: nat, d: nat, w: nat) {
    (w < |g.previous| && g.previous[w] == {p}) || InOrder(g, p, d, w)
  }

  /** The call for `p` has resolved `d` before `v` begins. */
  ghost predicate Leads(g: Graph, p: nat, d: nat, v: nat) { exists w :: NoLater(g, w, v) && Keeps(g, p, d, w) }

  /** Some successor of `v` waits for nobody else but macrotasks that have resolved it
      before `v` begins. */
  ghost predicate Finds(g: Graph, v: nat) {
    v < |g.next| && exists d :: d in g.next[v] && OnlyAfter(g, v, d)
  }

  ghost predicate OnlyAfter(g: Graph, v: nat, d: nat) {
    d < |g.previous| && forall p :: p in g.previous[d] ==> p == v || Leads(g, p, d, v)
  }

  lemma OwnerFinds(g: Graph, v: nat)
    requires Owns(g, v)
    ensures Finds(g, v)
  {
    var d :| d in g.next[v] && d < |g.previous| && g.previous[d] == {v};
    assert OnlyAfter(g, v, d);
  }

  /** Whoever has begun has all those behind it that must. */
  lemma BegunBefore(g: Graph, s: JobRun, w: nat, v: nat)
    requires g.WellFormed() && CallsOk(g, s) && SharedOk(g, s) && v in s.calls && NoLater(g, w, v)
    ensures w in s.calls
  {
    BegunIsClosed(g, s);
    if w != v {
      var p: seq<nat> :| |p| > 1 && g.PathBetween(p, w, v);
      PathBackward(g, s.calls.Keys, p, 0);
    }
  }

  /** So that call does not resolve `d` once `v` has begun. */
  lemma ResolvedAlready(g: Graph, steps: seq<Step>, p: nat, d: nat, v: nat)
    requires g.WellFormed() && ValidRun(g, steps) && Leads(g, p, d, v) && v in After(g, steps).calls
    ensures !Resolves(g, After(g, steps), p, d)
  {
    hide ValidRun, After, Inv, Graph.WellFormed, Resolves, NoLater, InOrder;
    RunKeeps(g, steps);
    var s := After(g, steps);
    InvOfCalls(g, s);
    var w :| NoLater(g, w, v) && Keeps(g, p, d, w);
    BegunBefore(g, s, w, v);
    if InOrder(g, p, d, w) { OrderKept(g, s, p, d, w); } else { ReturnedAlready(g, steps, p, d, w); }
  }

  lemma ReturnedAlready(g: Graph, steps: seq<Step>, p: nat, d: nat, w: nat)
    requires g.WellFormed() && ValidRun(g, steps) && w in After(g, steps).calls
    requires w < |g.previous| && g.previous[w] == {p}
    ensures !Resolves(g, After(g, steps), p, d)
  {
    var s := After(g, steps);
    BegunWasFound(g, steps, w);
    hide After, ValidRun;
    assert w > 0;
    var u :| EmittedBy(s, u, w) && s.calls[u].returned;
    EmittedAfterPredecessors(g, steps, u, w);
  }

  /** The call for `p` is about to resolve `d`. */
  ghost predicate Resolves(g: Graph, s: JobRun, p: nat, d: nat) {
    && p in s.calls && !s.calls[p].returned
    && p < |g.next| && s.calls[p].position < |g.next[p]| && g.next[p][s.calls[p].position] == d
  }

  lemma OrderKept(g: Graph, s: JobRun, p: nat, d: nat, w: nat)
    requires g.WellFormed() && CallsOk(g, s) && SharedOk(g, s) && w in s.calls && InOrder(g, p, d, w)
    ensures !Resolves(g, s, p, d)
  {
    var i, j :| 0 <= i < j < |g.next[p]| && g.next[p][i] == d && g.next[p][j] == w;
    assert g.Edge(p, w);
    assert w > 0 && p in g.previous[w] && p !in s.dep[w];
    assert Erased(g, s, p, w);
  }

  /** Nobody but `v` finds that successor. */
  lemma {:induction false} NobodyElseFinds(g: Graph, steps: seq<Step>, v: nat, d: nat, p: nat)
    requires g.WellFormed() && ValidRun(g, steps) && g.Edge(v, d) && Leads(g, p, d, v) && p != v
    ensures !EmittedBy(After(g, steps), p, d)
  {
    hide Graph.WellFormed, Graph.Consistent, ValidRun, Leads, After, Inv, Enabled, Next, Resolves, SharedOk, CallsOk;
    if steps == [] {
      NobodyHasBegun(g);
    } else {
      LastStep(g, steps);
      var before, e := steps[..|steps| - 1], steps[|steps| - 1];
      NobodyElseFinds(g, before, v, d, p);
      RunKeeps(g, before);
      if EmittedBy(After(g, steps), p, d) {
        FoundByResolving(g, After(g, before), e, d, p);
        InvOfCalls(g, After(g, before));
        EdgesConsistent(g);
        ErasedBefore(g, After(g, before), v, d, p);
        ResolvedAlready(g, before, p, d, v);
      }
    }
  }

  lemma NobodyHasBegun(g: Graph)
    ensures After(g, []).calls == map[]
  {
  }

  /** Whoever finds `d` does so after `v` has erased itself. */
  lemma ErasedBefore(g: Graph, s: JobRun, v: nat, d: nat, p: nat)
    requires g.Consistent() && SharedOk(g, s) && g.Edge(v, d) && p != v && d < |s.dep| && s.dep[d] - {p} == {}
    ensures v in s.calls
  {
    hide SharedOk;
    assert v in g.previous[d] && v !in s.dep[d] - {p};
    WaitsFor(g, s, v, d);
  }

  lemma EdgesConsistent(g: Graph)
    requires g.WellFormed()
    ensures g.Consistent()
  {
  }

  lemma FoundByResolving(g: Graph, s: JobRun, e: Step, d: nat, p: nat)
    requires Enabled(g, s, e) && !EmittedBy(s, p, d) && EmittedBy(Next(g, s, e), p, d)
    ensures Resolves(g, s, p, d) && d < |s.dep| && s.dep[d] - {p} == {}
  {
  }

  /** If every macrotask that is not final has such a successor, nobody is still in
      flight when the last final macrotask is taken. */
  lemma NobodyInFlight(g: Graph, steps: seq<Step>)
    requires g.WellFormed() && ValidRun(g, steps) && After(g, steps).finals == {}
    requires forall v: nat :: g.Has(v) && g.next[v] != [] ==> Finds(g, v)
    ensures InFlight(After(g, steps)) == {}
  {
    RunKeeps(g, steps);
    var s := After(g, steps);
    hide After, ValidRun, Erased;
    forall v | v in s.calls ensures s.calls[v].returned {
      if g.next[v] != [] {
        assert g.Has(v) && Finds(g, v);
        var d :| d in g.next[v] && OnlyAfter(g, v, d);
        ReturnedFinder(g, steps, v, d);
      } else {
        assert v in g.finals;
      }
    }
  }

  lemma ReturnedFinder(g: Graph, steps: seq<Step>, v: nat, d: nat)
    requires g.WellFormed() && ValidRun(g, steps) && After(g, steps).finals == {}
    requires g.Edge(v, d) && OnlyAfter(g, v, d)
    ensures v in After(g, steps).calls && After(g, steps).calls[v].returned
  {
    RunKeeps(g, steps);
    var s := After(g, steps);
    AllBegunAtEnd(g, s, d);
    BegunWasFound(g, steps, d);
    hide After, ValidRun, Inv;
    assert v in g.previous[d];
    var u :| EmittedBy(s, u, d) && s.calls[u].returned;
    EmittedAfterPredecessors(g, steps, u, d);
    assert u == v || Leads(g, u, d, v);
    if u != v { NobodyElseFinds(g, steps, v, d, u); }
  }

  /** In every complete interleaving the end of the job is reported exactly once. */
  ghost predicate ReportsOnce(g: Graph) {
    forall steps :: ValidRun(g, steps) && Quiet(g, After(g, steps)) ==> |Trues(After(g, steps))| == 1
  }

  lemma FindersReportOnce(g: Graph)
    requires g.WellFormed() && forall v: nat :: g.Has(v) && g.next[v] != [] ==> Finds(g, v)
    ensures ReportsOnce(g)
  {
    hide Graph.WellFormed, ValidRun, Quiet, Trues, Finds;
    forall steps | ValidRun(g, steps) && Quiet(g, After(g, steps)) ensures |Trues(After(g, steps))| == 1 {
      QuietIsComplete(g, steps);
      var i := EndHappens(g, steps);
      ReportsOfRun(g, steps, i);
      PrefixIsValid(g, steps, i + 1);
      NobodyInFlight(g, steps[..i + 1]);
    }
  }

  // ---- reported twice ----

  /** No edge spans another way between the same macrotasks. */
  ghost predicate NoShortcuts(g: Graph) {
    forall u: nat, w: nat, d: nat :: g.Edge(u, d) && g.Edge(w, d) ==> !g.Before(u, w)
  }

  /** Only macrotasks of `a` have begun, and the call for `v` has not returned. */
  ghost predicate Held(s: JobRun, a: set<nat>, v: nat) {
    s.calls.Keys <= a && (v in s.calls ==> !s.calls[v].returned)
  }

  lemma {:induction false} OnlyHeld(g: Graph, steps: seq<Step>, a: set<nat>, v: nat)
    requires ValidRun(g, steps) && Only(steps, 0, a, Some(v))
    ensures Held(After(g, steps), a, v)
  {
    hide ValidRun;
    if steps != [] {
      LastStep(g, steps);
      var before := steps[..|steps| - 1];
      OnlyHeld(g, before, a, v);
      assert Allowed(a, Some(v), steps[|steps| - 1]);
    }
  }

  /** Nothing is left to do for the macrotasks of `a`, but that the call for `v`
      may return: everybody else has returned. */
  ghost predicate Settled(g: Graph, s: JobRun, a: set<nat>, v: nat) {
    Held(s, a, v) && forall e :: Allowed(a, Some(v), e) ==> !Enabled(g, s, e)
  }

  lemma OthersReturned(g: Graph, s: JobRun, a: set<nat>, v: nat, u: nat)
    requires CallsOk(g, s) && Settled(g, s, a, v) && u in s.calls
    ensures u < |g.next| && s.calls[u].position == |g.next[u]| && (s.calls[u].returned <==> u != v)
  {
    assert Allowed(a, Some(v), Resolve(u));
    assert u != v ==> Allowed(a, Some(v), Conclude(u));
  }

  /** Then, if `v` has found nobody, every macrotask of `a` has begun. */
  lemma AllOfThemBegun(g: Graph, s: JobRun, a: set<nat>, v: nat)
    requires g.WellFormed() && Inv(g, s) && Settled(g, s, a, v) && g.DownwardClosed(a)
    requires v in s.calls ==> s.calls[v].solved == []
    ensures forall w :: w in a && g.Has(w) ==> w in s.calls
  {
    hide Graph.WellFormed, SharedOk, ExactlyOnce, EndOk, Enabled;
    forall u | u in s.calls ensures OutOfTheWay(g, s, u) { OthersReturned(g, s, a, v, u); }
    BeginsAllowed(a, v);
    forall w | w in a && g.Has(w) ensures w in s.calls {
      if w !in s.calls {
        var x := NextToBegin(g, s, a, w);
      }
    }
  }

  lemma BeginsAllowed(a: set<nat>, v: nat)
    ensures forall x :: x in a ==> Allowed(a, Some(v), Begin(x))
  {
  }

  /** `v` and what comes before it. */
  ghost function UpTo(g: Graph, v: nat): set<nat> {
    set u: nat | u < |g.next| && (u == v || g.Before(u, v))
  }

  lemma UpToIsClosed(g: Graph, v: nat)
    requires g.WellFormed() && g.Has(v)
    ensures g.DownwardClosed(UpTo(g, v)) && v in UpTo(g, v)
  {
    forall x: nat, p: nat | x in UpTo(g, v) && x < |g.next| && p in g.previous[x] ensures p in UpTo(g, v) {
      assert g.Edge(p, x);
      EdgeIsBefore(g, p, x);
      if x != v { BeforeTransitive(g, p, x, v); }
    }
  }

  /** Every successor of `v` waits for somebody else, too, who may begin after `v`. */
  ghost predicate MayBeOvertaken(g: Graph, v: nat) {
    g.Has(v) && g.next[v] != [] && forall d :: d in g.next[v] ==> HasOther(g, v, d)
  }

  ghost predicate HasOther(g: Graph, v: nat, d: nat) {
    exists w: nat :: g.Edge(w, d) && w != v && !g.Before(w, v)
  }

  /** Without shortcuts everybody else may begin after `v`. */
  lemma OwnsNobody(g: Graph, v: nat)
    requires g.WellFormed() && NoShortcuts(g) && g.Has(v) && g.next[v] != [] && !Owns(g, v)
    ensures MayBeOvertaken(g, v)
  {
    forall d | d in g.next[v] ensures HasOther(g, v, d) {
      assert g.Edge(v, d);
      var w := Another(g, v, d);
    }
  }

  /** Such a successor is not found by `v` as long as only what comes before `v` has
      begun. */
  lemma FindsNobody(g: Graph, s: JobRun, v: nat)
    requires g.WellFormed() && Inv(g, s) && MayBeOvertaken(g, v)
    requires v in s.calls && s.calls.Keys <= UpTo(g, v)
    ensures s.calls[v].solved == []
  {
    hide Graph.WellFormed, SharedOk, CallsOk, EndOk, HasOther;
    if s.calls[v].solved != [] {
      var d := s.calls[v].solved[0];
      assert EmittedBy(s, v, d);
      FoundIsReady(g, s, v, d);
      assert HasOther(g, v, d);
      OtherHasBegun(g, s, v, d);
    }
  }

  lemma FoundIsReady(g: Graph, s: JobRun, v: nat, d: nat)
    requires ExactlyOnce(g, s) && EmittedBy(s, v, d)
    ensures v < |g.next| && d in g.next[v] && d < |s.dep| && s.dep[d] == {}
  {
    assert Erased(g, s, v, d);
  }

  lemma OtherHasBegun(g: Graph, s: JobRun, v: nat, d: nat)
    requires g.WellFormed() && SharedOk(g, s) && HasOther(g, v, d) && d < |s.dep| && s.dep[d] == {}
    ensures !(s.calls.Keys <= UpTo(g, v))
  {
    var w: nat :| g.Edge(w, d) && w != v && !g.Before(w, v);
    WaitsFor(g, s, w, d);
  }

  lemma Another(g: Graph, v: nat, d: nat) returns (w: nat)
    requires g.Consistent() && g.Edge(v, d) && !Owns(g, v)
    ensures w != v && g.Edge(w, d) && d < |g.previous| && w in g.previous[d]
  {
    assert v in g.previous[d];
    w :| w in g.previous[d] && w != v;
  }

  lemma WaitsFor(g: Graph, s: JobRun, w: nat, d: nat)
    requires SharedOk(g, s) && d < |s.dep| && w in g.previous[d] && w !in s.dep[d]
    ensures w in s.calls
  {
    assert Erased(g, s, w, d);
  }

  /** A call that has resolved its edges and may not return stays as it is. */
  lemma {:induction false} HeldStays(g: Graph, steps: seq<Step>, all: seq<Step>, a: set<nat>, v: nat)
    requires steps <= all && ValidRun(g, all) && Only(all, |steps|, a, Some(v)) && v < |g.next|
    requires v in After(g, steps).calls && After(g, steps).calls[v].position == |g.next[v]|
    ensures v in After(g, all).calls && After(g, all).calls[v] == After(g, steps).calls[v]
    decreases |all|
  {
    hide ValidRun;
    if |all| > |steps| {
      LastStep(g, all);
      HeldStays(g, steps, all[..|all| - 1], a, v);
      assert Allowed(a, Some(v), all[|all| - 1]);
    } else {
      assert all == steps;
    }
  }

  lemma Together(g: Graph, first: seq<Step>, steps: seq<Step>, a: set<nat>, v: nat)
    requires first <= steps && a <= g.All() && Only(first, 0, a, Some(v)) && Only(steps, |first|, g.All(), Some(v))
    ensures Only(steps, 0, g.All(), Some(v))
  {
    forall i | 0 <= i < |steps| ensures Allowed(g.All(), Some(v), steps[i]) {
      if i < |first| { assert steps[i] == first[i] && Allowed(a, Some(v), first[i]); }
    }
  }

  lemma EmptyRun(g: Graph)
    ensures ValidRun(g, [])
  {
  }

  /** First only what comes before `v` goes on, then `v` resolves its edges. */
  lemma ResolvesAlone(g: Graph, v: nat) returns (steps: seq<Step>)
    requires g.WellFormed() && MayBeOvertaken(g, v)
    ensures ValidRun(g, steps) && Only(steps, 0, UpTo(g, v), Some(v)) && v in After(g, steps).calls
    ensures After(g, steps).calls[v].position == |g.next[v]| && After(g, steps).calls[v].solved == []
  {
    hide Graph.WellFormed, ValidRun, After, Enabled, HasOther, Allowed;
    var a := UpTo(g, v);
    UpToIsClosed(g, v);
    EmptyRun(g);
    steps := TakeFar(g, [], a, Some(v));
    OnlyHeld(g, steps, a, v);
    RunKeeps(g, steps);
    var s := After(g, steps);
    assert Settled(g, s, a, v);
    hide Inv, Settled;
    if v in s.calls { FindsNobody(g, s, v); }
    AllOfThemBegun(g, s, a, v);
    InvOfCalls(g, s);
    OthersReturned(g, s, a, v, v);
  }

  lemma InvOfCalls(g: Graph, s: JobRun)
    requires Inv(g, s)
    ensures CallsOk(g, s) && SharedOk(g, s)
  {
  }

  /** A run in which everybody has returned but `v`, which has found nobody. */
  lemma Overtaking(g: Graph, v: nat) returns (steps: seq<Step>)
    requires g.WellFormed() && MayBeOvertaken(g, v)
    ensures ValidRun(g, steps) && Only(steps, 0, g.All(), Some(v)) && Settled(g, After(g, steps), g.All(), v)
    ensures v in After(g, steps).calls && forall w :: g.Has(w) ==> w in After(g, steps).calls
  {
    hide Graph.WellFormed, ValidRun, After, Enabled, HasOther, Allowed;
    var first := ResolvesAlone(g, v);
    steps := TakeFar(g, first, g.All(), Some(v));
    HeldStays(g, first, steps, g.All(), v);
    Together(g, first, steps, UpTo(g, v), v);
    OnlyHeld(g, steps, g.All(), v);
    RunKeeps(g, steps);
    hide Inv, Only;
    EverybodyBegun(g, After(g, steps), v);
  }

  lemma EverybodyBegun(g: Graph, s: JobRun, v: nat)
    requires g.WellFormed() && Inv(g, s) && Settled(g, s, g.All(), v)
    requires v in s.calls && s.calls[v].solved == []
    ensures forall w :: g.Has(w) ==> w in s.calls
  {
    hide Inv, Settled;
    assert g.DownwardClosed(g.All()) by {
      forall x: nat, p: nat | g.Has(x) && p in g.previous[x] ensures g.Has(p) { assert g.Edge(p, x); }
    }
    AllOfThemBegun(g, s, g.All(), v);
  }

  /** Once `v` returns too, the run is complete. */
  lemma LastReturns(g: Graph, s: JobRun, v: nat)
    requires g.WellFormed() && CallsOk(g, s) && SharedOk(g, s) && Settled(g, s, g.All(), v)
    requires g.Has(v) && g.next[v] != [] && forall w :: g.Has(w) ==> w in s.calls
    ensures s.finals == {} && Enabled(g, s, Conclude(v)) && Quiet(g, Next(g, s, Conclude(v)))
  {
    forall u | u in s.calls
      ensures u < |g.next| && s.calls[u].position == |g.next[u]| && (s.calls[u].returned <==> u != v)
    {
      OthersReturned(g, s, g.All(), v, u);
    }
    forall f: nat ensures f !in s.finals {
      if f in g.finals { assert g.Has(f) && f != v; }
    }
    assert g.Has(0);
  }

  /** If that is so for some macrotask, the end is reported twice at least in some
      complete interleaving. */
  lemma ReportedTwice(g: Graph, v: nat) returns (all: seq<Step>)
    requires g.WellFormed() && MayBeOvertaken(g, v)
    ensures ValidRun(g, all) && Quiet(g, After(g, all)) && |Trues(After(g, all))| >= 2
  {
    hide Graph.WellFormed, ValidRun, Enabled, Allowed, Settled, Quiet, Trues, Next;
    var steps := Overtaking(g, v);
    RunKeeps(g, steps);
    LastReturns(g, After(g, steps), v);
    all := steps + [Conclude(v)];
    OneMoreStep(g, steps, Conclude(v));
    var i := EndHappens(g, steps);
    assert all[..i] == steps[..i] && all[..i + 1] == steps[..i + 1];
    ReportsOfRun(g, all, i);
    StillInFlight(g, steps, i + 1, v);
  }

  lemma StillInFlight(g: Graph, steps: seq<Step>, i: nat, v: nat)
    requires g.WellFormed() && ValidRun(g, steps) && Only(steps, 0, g.All(), Some(v)) && g.Has(v) && i <= |steps|
    requires After(g, steps[..i]).finals == {}
    ensures |InFlight(After(g, steps[..i]))| >= 1
  {
    PrefixIsValid(g, steps, i);
    var s := After(g, steps[..i]);
    RunKeeps(g, steps[..i]);
    AllBegunAtEnd(g, s, v);
    assert Only(steps[..i], 0, g.All(), Some(v)) by {
      assert forall k :: 0 <= k < i ==> steps[..i][k] == steps[k];
    }
    OnlyHeld(g, steps[..i], g.All(), v);
    assert v in InFlight(s);
  }

  /** On a graph without shortcuts the end of a job is reported exactly once in every
      complete interleaving, if and only if every macrotask that is not final has a
      successor that waits for nobody else. */
  lemma ReportsOnceIff(g: Graph)
    requires g.WellFormed() && NoShortcuts(g)
    ensures ReportsOnce(g) <==> forall v: nat :: g.Has(v) && g.next[v] != [] ==> Owns(g, v)
  {
    hide Graph.WellFormed, Owns, NoShortcuts;
    if forall v: nat :: g.Has(v) && g.next[v] != [] ==> Owns(g, v) {
      forall v: nat | g.Has(v) && g.next[v] != [] ensures Finds(g, v) { OwnerFinds(g, v); }
      FindersReportOnce(g);
    }
    if v: nat :| g.Has(v) && g.next[v] != [] && !Owns(g, v) {
      OwnsNobody(g, v);
      var all := ReportedTwice(g, v);
    }
  }

  /** 0 before 1 and 2, 1 before 2: the edge from 0 to 2 is a shortcut. */
  function Triangle(): Graph { Graph([[1, 2], [2], []], [{}, {0}, {0, 1}], {2}) }

  lemma TriangleIsWellFormed()
    ensures Triangle().WellFormed()
  {
    assert Triangle().Ranked([0, 1, 2]);
  }

  lemma TriangleHasShortcut()
    ensures !NoShortcuts(Triangle()) && !Owns(Triangle(), 1)
  {
    var g := Triangle();
    assert g.Edge(0, 2) && g.Edge(1, 2);
    assert g.PathBetween([0, 1], 0, 1);
  }

  lemma TriangleFinds()
    ensures Finds(Triangle(), 0) && Finds(Triangle(), 1)
  {
    var g := Triangle();
    assert NoLater(g, 1, 1) && Keeps(g, 0, 2, 1);
    assert OnlyAfter(g, 0, 1) && OnlyAfter(g, 1, 2);
  }

  /** With shortcuts the condition is not necessary: 1 has no successor to itself, and
      the end is reported exactly once all the same. */
  lemma TriangleReportsOnce()
    ensures Triangle().WellFormed() && !NoShortcuts(Triangle()) && !Owns(Triangle(), 1) && ReportsOnce(Triangle())
  {
    hide Graph.WellFormed, NoShortcuts, Owns, Finds, ReportsOnce;
    TriangleIsWellFormed();
    TriangleHasShortcut();
    TriangleFinds();
    FindersReportOnce(Triangle());
  }
}
