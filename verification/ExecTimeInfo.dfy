/** Execution times of a macrotask per thread count, and the thread counts worth
    choosing from (MacrotaskExecTimeInfo). */
module ExecTimeInfo {
  import opened Sequences

  /** An efficiency and the number of threads that reaches it. */
  type Candidate = (real, nat)

  /** Measured times: entry i is for i threads, entry 0 is not used. */
  ghost predicate Measured(t: seq<nat>) {
    |t| > 1 && forall i :: 1 <= i < |t| ==> t[i] > 0
  }

  /** Speed-up per thread against one thread. */
  function Efficiency(t: seq<nat>, i: nat): real
    requires Measured(t) && 1 <= i < |t|
  {
    t[1] as real / (t[i] * i) as real
  }

  function Less(a: Candidate, b: Candidate): bool {
    a.0 < b.0 || (a.0 == b.0 && a.1 < b.1)
  }

  function Greater(a: Candidate, b: Candidate): bool {
    Less(b, a)
  }

  /** `i` threads are efficient enough and no larger count is at least as efficient. */
  ghost predicate OnFrontier(t: seq<nat>, lowerBound: real, i: nat)
    requires Measured(t)
  {
    && 1 <= i < |t|
    && Efficiency(t, i) >= lowerBound
    && forall j :: i < j < |t| ==> Efficiency(t, j) < Efficiency(t, i)
  }

  /** `w` is the largest thread count that is efficient enough, 0 if there is none. */
  ghost predicate IsWidest(t: seq<nat>, lowerBound: real, w: nat)
    requires Measured(t)
  {
    && w < |t|
    && (w > 0 ==> Efficiency(t, w) >= lowerBound)
    && forall j :: w < j < |t| ==> Efficiency(t, j) < lowerBound
  }

  /** Ascending in efficiency, descending in threads. */
  ghost predicate Frontier(c: seq<Candidate>) {
    forall i, j :: 0 <= i < j < |c| ==> c[i].0 < c[j].0 && c[i].1 > c[j].1
  }

  ghost predicate CandidatesOf(c: seq<Candidate>, t: seq<nat>, lowerBound: real)
    requires Measured(t)
  {
    && Frontier(c)
    && forall x: Candidate :: x in c <==> OnFrontier(t, lowerBound, x.1) && x.0 == Efficiency(t, x.1)
  }

  class MacrotaskExecTimeInfo {
    const lowerBound: real
    const useMaxThreads: bool
    var execTime: seq<nat>
    var efficiency: seq<real>
    var sortedCandidates: seq<Candidate>
    var execTimeForPrediction: nat
    var deadline: nat
    var predictedLaunchedToDeadline: nat

    constructor (times: seq<nat>, lowerBound: real, useMaxThreads: bool)
      ensures execTime == times && this.lowerBound == lowerBound && this.useMaxThreads == useMaxThreads
      ensures efficiency == [] && sortedCandidates == []
      ensures execTimeForPrediction == deadline == predictedLaunchedToDeadline == 0
    {
      this.lowerBound := lowerBound;
      this.useMaxThreads := useMaxThreads;
      execTime := times;
      efficiency, sortedCandidates := [], [];
      execTimeForPrediction, deadline, predictedLaunchedToDeadline := 0, 0, 0;
    }

    /** Computes the candidates and cuts the tables behind the widest one.  `ok`
        is false where reading the time of one thread throws. */
    method Init() returns (ok: bool)
      requires Measured(execTime) && efficiency == [] && sortedCandidates == []
      modifies this
      ensures CandidatesOf(sortedCandidates, old(execTime), lowerBound)
      ensures execTime != [] && execTime <= old(execTime) && |efficiency| == |execTime|
      ensures IsWidest(old(execTime), lowerBound, |execTime| - 1)
      ensures forall i :: 1 <= i < |efficiency| ==> efficiency[i] == Efficiency(old(execTime), i)
      ensures ok <==> useMaxThreads || |execTime| > 1
      ensures ok ==> execTimeForPrediction == execTime[if useMaxThreads then |execTime| - 1 else 1]
      ensures ok ==> predictedLaunchedToDeadline == execTimeForPrediction + deadline
      ensures deadline == old(deadline)
    {
      ghost var t := execTime;
      efficiency := [0.0];
      for i := 1 to |execTime|
        invariant execTime == t && deadline == old(deadline)
        invariant |efficiency| == i && |sortedCandidates| == i - 1
        invariant forall k :: 1 <= k < i ==> efficiency[k] == Efficiency(t, k)
        invariant forall k :: 0 <= k < i - 1 ==> sortedCandidates[k] == (Efficiency(t, k + 1), k + 1)
      {
        efficiency := efficiency + [Efficiency(execTime, i)];
        sortedCandidates := sortedCandidates + [(efficiency[i], i)];
      }
      var maxNt;
      sortedCandidates, maxNt := MakeCandidates(t, lowerBound, sortedCandidates);
      execTime := execTime[..maxNt + 1];
      efficiency := efficiency[..maxNt + 1];
      if !useMaxThreads && |execTime| <= 1 {
        return false;
      }
      execTimeForPrediction := PredictMacrotaskExecTime(execTime, useMaxThreads);
      predictedLaunchedToDeadline := execTimeForPrediction + deadline;
      ok := true;
    }

    method SetDeadline(v: nat)
      modifies `deadline, `predictedLaunchedToDeadline
      ensures deadline == v && predictedLaunchedToDeadline == execTimeForPrediction + v
    {
      deadline := v;
      predictedLaunchedToDeadline := execTimeForPrediction + deadline;
    }
  }

  function PredictMacrotaskExecTime(t: seq<nat>, useMaxThreads: bool): nat
    requires if useMaxThreads then t != [] else |t| > 1
  {
    if useMaxThreads then t[|t| - 1] else t[1]
  }

  /** Sorts, cuts at the lower bound, drops the dominated, sorts again. */
  method MakeCandidates(ghost t: seq<nat>, lowerBound: real, all: seq<Candidate>)
    returns (c: seq<Candidate>, maxNt: nat)
    requires Measured(t) && |all| == |t| - 1
    requires forall k :: 0 <= k < |all| ==> all[k] == (Efficiency(t, k + 1), k + 1)
    ensures CandidatesOf(c, t, lowerBound)
    ensures IsWidest(t, lowerBound, maxNt)
  {
    var sorted := SortBy(Greater, all);
    AllMembers(t, all, sorted);
    SortBySorted(Greater, all);
    var cut := PartitionPoint(sorted, lowerBound);
    var efficient := sorted[..cut];
    EfficientMembers(t, lowerBound, sorted, cut);
    var kept;
    kept, maxNt := RemoveDominated(efficient);
    WidestIsLast(t, lowerBound, efficient, maxNt);
    SurvivorsAreFrontier(t, lowerBound, efficient, kept);
    c := SortBy(Less, kept);
    AscendingFrontier(kept, c);
  }

  lemma WidestIsLast(t: seq<nat>, lowerBound: real, efficient: seq<Candidate>, maxNt: nat)
    requires Measured(t)
    requires forall x: Candidate :: x in efficient <==> 1 <= x.1 < |t| && x.0 == Efficiency(t, x.1) && x.0 >= lowerBound
    requires forall x :: x in efficient ==> x.1 <= maxNt
    requires maxNt > 0 ==> exists x :: x in efficient && x.1 == maxNt
    ensures IsWidest(t, lowerBound, maxNt)
  {
    forall j | maxNt < j < |t| ensures Efficiency(t, j) < lowerBound {
      assert (Efficiency(t, j), j) !in efficient;
    }
  }

  /** Descending in efficiency, ascending in threads: a frontier read backwards. */
  ghost predicate Reversed(kept: seq<Candidate>) {
    forall i, j :: 0 <= i < j < |kept| ==> kept[i].0 > kept[j].0 && kept[i].1 < kept[j].1
  }

  lemma ReversedPair(kept: seq<Candidate>, x: Candidate, y: Candidate)
    requires Reversed(kept) && x in kept && y in kept && x != y && !Less(y, x)
    ensures x.0 < y.0 && x.1 > y.1
  {
    var i :| 0 <= i < |kept| && kept[i] == x;
    var j :| 0 <= j < |kept| && kept[j] == y;
  }

  lemma AscendingFrontier(kept: seq<Candidate>, c: seq<Candidate>)
    requires Reversed(kept)
    requires c == SortBy(Less, kept)
    ensures Frontier(c) && forall x :: x in c <==> x in kept
  {
    SortBySorted(Less, kept);
    SameMembers(kept, c);
    DistinctPermutation(kept, c);
    forall i, j | 0 <= i < j < |c| ensures c[i].0 < c[j].0 && c[i].1 > c[j].1 {
      ReversedPair(kept, c[i], c[j]);
    }
  }

  lemma AllMembers(t: seq<nat>, all: seq<Candidate>, sorted: seq<Candidate>)
    requires Measured(t) && |all| == |t| - 1
    requires forall k :: 0 <= k < |all| ==> all[k] == (Efficiency(t, k + 1), k + 1)
    requires multiset(sorted) == multiset(all)
    ensures forall x: Candidate :: x in sorted <==> 1 <= x.1 < |t| && x.0 == Efficiency(t, x.1)
    ensures DistinctThreads(sorted)
  {
    SameMembers(all, sorted);
    DistinctPermutation(all, sorted);
    forall x: Candidate | 1 <= x.1 < |t| && x.0 == Efficiency(t, x.1) ensures x in sorted {
      assert all[x.1 - 1] == x;
    }
    forall i, j | 0 <= i < j < |sorted| ensures sorted[i].1 != sorted[j].1 {
      assert sorted[i] in all && sorted[j] in all;
    }
  }

  /** std::partition_point: how many leading candidates meet the lower bound. */
  method PartitionPoint(s: seq<Candidate>, lowerBound: real) returns (k: nat)
    ensures k <= |s|
    ensures forall i :: 0 <= i < k ==> s[i].0 >= lowerBound
    ensures k < |s| ==> s[k].0 < lowerBound
  {
    k := 0;
    while k < |s| && s[k].0 >= lowerBound
      invariant k <= |s|
      invariant forall i :: 0 <= i < k ==> s[i].0 >= lowerBound
    {
      k := k + 1;
    }
  }

  /** No earlier entry of `s` has more threads than entry `i`. */
  ghost predicate Undominated(s: seq<Candidate>, i: nat)
    requires i < |s|
  {
    forall j :: 0 <= j < i ==> s[j].1 <= s[i].1
  }

  /** `kept` is what is left of the first `k` entries, `maxNt` their largest count. */
  ghost predicate KeptOf(s: seq<Candidate>, k: nat, kept: seq<Candidate>, maxNt: nat)
    requires k <= |s|
  {
    && (forall x :: x in kept ==> x in s[..k])
    && (forall i :: 0 <= i < k ==> (s[i] in kept <==> Undominated(s, i)))
    && Reversed(kept)
    && (forall i :: 0 <= i < k ==> s[i].1 <= maxNt)
    && (maxNt > 0 ==> exists i :: 0 <= i < k && s[i].1 == maxNt)
  }

  lemma KeepOne(s: seq<Candidate>, k: nat, kept: seq<Candidate>, maxNt: nat)
    requires SortedBy(Greater, s) && DistinctThreads(s) && k < |s| && KeptOf(s, k, kept, maxNt)
    requires s[k].1 >= maxNt
    ensures KeptOf(s, k + 1, kept + [s[k]], s[k].1)
  {
    var x := s[k];
    assert s[..k + 1] == s[..k] + [x];
    forall i | 0 <= i < |kept| ensures kept[i].0 > x.0 && kept[i].1 < x.1 {
      assert kept[i] in kept;
      var j :| 0 <= j < k && s[j] == kept[i];
      assert !Greater(x, s[j]) && s[j].1 != x.1;
    }
    forall i | 0 <= i < k + 1 ensures s[i] in kept + [x] <==> Undominated(s, i) {
      if i < k { assert s[i] != x; }
    }
  }

  lemma DropOne(s: seq<Candidate>, k: nat, kept: seq<Candidate>, maxNt: nat)
    requires SortedBy(Greater, s) && DistinctThreads(s) && k < |s| && KeptOf(s, k, kept, maxNt)
    requires s[k].1 < maxNt
    ensures KeptOf(s, k + 1, kept, maxNt)
  {
    assert s[..k + 1] == s[..k] + [s[k]];
    assert s[k] !in s[..k];
    assert !Undominated(s, k);
  }

  /** std::remove_if with the predicate that remembers the largest thread count so far. */
  method RemoveDominated(s: seq<Candidate>) returns (kept: seq<Candidate>, maxNt: nat)
    requires SortedBy(Greater, s) && DistinctThreads(s)
    ensures forall x :: x in kept <==> Survives(s, x)
    ensures Reversed(kept)
    ensures forall x :: x in s ==> x.1 <= maxNt
    ensures maxNt > 0 ==> exists x :: x in s && x.1 == maxNt
  {
    kept, maxNt := [], 0;
    for k := 0 to |s|
      invariant KeptOf(s, k, kept, maxNt)
    {
      if s[k].1 < maxNt {
        DropOne(s, k, kept, maxNt);
      } else {
        KeepOne(s, k, kept, maxNt);
        maxNt := s[k].1;
        kept := kept + [s[k]];
      }
    }
    KeptSurvive(s, kept, maxNt);
  }

  lemma KeptSurvive(s: seq<Candidate>, kept: seq<Candidate>, maxNt: nat)
    requires SortedBy(Greater, s) && DistinctThreads(s) && KeptOf(s, |s|, kept, maxNt)
    ensures forall x :: x in kept <==> Survives(s, x)
  {
    assert s[..|s|] == s;
    forall x ensures x in kept <==> Survives(s, x) {
      if x in s {
        var i :| 0 <= i < |s| && s[i] == x;
        UndominatedSurvives(s, i);
      }
    }
  }

  lemma SameMembers<T>(a: seq<T>, b: seq<T>)
    requires multiset(a) == multiset(b)
    ensures forall x :: x in a <==> x in b
    ensures |a| == |b|
  {
    forall x ensures x in a <==> x in b {
      assert x in a <==> x in multiset(a);
      assert x in b <==> x in multiset(b);
    }
    assert |multiset(a)| == |multiset(b)|;
  }

  lemma DistinctPermutation<T>(a: seq<T>, b: seq<T>)
    requires multiset(a) == multiset(b)
    requires forall i, j :: 0 <= i < j < |a| ==> a[i] != a[j]
    ensures forall i, j :: 0 <= i < j < |b| ==> b[i] != b[j]
  {
    forall i, j | 0 <= i < j < |b| ensures b[i] != b[j] {
      if b[i] == b[j] {
        var x := b[i];
        assert b == b[..i] + [x] + b[i + 1..j] + [x] + b[j + 1..];
        assert multiset(a)[x] >= 2;
        OccursOnce(a, x);
      }
    }
  }

  lemma {:induction false} OccursOnce<T>(a: seq<T>, x: T)
    requires forall i, j :: 0 <= i < j < |a| ==> a[i] != a[j]
    ensures multiset(a)[x] <= 1
  {
    if a != [] {
      var k := |a| - 1;
      OccursOnce(a[..k], x);
      assert a == a[..k] + [a[k]];
      if a[k] == x { assert x !in a[..k]; }
    }
  }

  /** `x` survives the removal: whoever has more threads comes after it. */
  ghost predicate Survives(s: seq<Candidate>, x: Candidate) {
    x in s && forall y :: y in s && y.1 > x.1 ==> Less(y, x)
  }

  ghost predicate DistinctThreads(s: seq<Candidate>) {
    forall i, j :: 0 <= i < j < |s| ==> s[i].1 != s[j].1
  }

  lemma UndominatedSurvives(s: seq<Candidate>, i: nat)
    requires SortedBy(Greater, s) && DistinctThreads(s) && i < |s|
    ensures Undominated(s, i) <==> Survives(s, s[i])
  {
    if Undominated(s, i) {
      forall y | y in s && y.1 > s[i].1 ensures Less(y, s[i]) {
        var j :| 0 <= j < |s| && s[j] == y;
        assert j > i;
      }
    }
    if Survives(s, s[i]) {
      forall j | 0 <= j < i ensures s[j].1 <= s[i].1 {
        assert !Less(s[i], s[j]) || !Less(s[j], s[i]);
      }
    }
  }

  /** The cut keeps exactly the efficient entries. */
  lemma EfficientMembers(t: seq<nat>, lowerBound: real, sorted: seq<Candidate>, cut: nat)
    requires Measured(t)
    requires forall x: Candidate :: x in sorted <==> 1 <= x.1 < |t| && x.0 == Efficiency(t, x.1)
    requires SortedBy(Greater, sorted) && DistinctThreads(sorted) && cut <= |sorted|
    requires forall i :: 0 <= i < cut ==> sorted[i].0 >= lowerBound
    requires cut < |sorted| ==> sorted[cut].0 < lowerBound
    ensures forall x: Candidate :: x in sorted[..cut] <==>
              1 <= x.1 < |t| && x.0 == Efficiency(t, x.1) && x.0 >= lowerBound
    ensures SortedBy(Greater, sorted[..cut]) && DistinctThreads(sorted[..cut])
  {
    forall x: Candidate ensures x in sorted[..cut] <==> x in sorted && x.0 >= lowerBound {
      if x in sorted && x.0 >= lowerBound {
        var i :| 0 <= i < |sorted| && sorted[i] == x;
        assert cut < i ==> !Greater(sorted[i], sorted[cut]);
        assert sorted[..cut][i] == x;
      }
    }
  }

  /** What survives the cut and the removal is the frontier. */
  lemma SurvivorsAreFrontier(t: seq<nat>, lowerBound: real, s: seq<Candidate>, kept: seq<Candidate>)
    requires Measured(t)
    requires forall y: Candidate :: y in s <==> 1 <= y.1 < |t| && y.0 == Efficiency(t, y.1) && y.0 >= lowerBound
    requires forall x :: x in kept <==> Survives(s, x)
    ensures forall x: Candidate :: x in kept <==> OnFrontier(t, lowerBound, x.1) && x.0 == Efficiency(t, x.1)
  {
    forall x: Candidate ensures Survives(s, x) <==> OnFrontier(t, lowerBound, x.1) && x.0 == Efficiency(t, x.1) {
      if Survives(s, x) {
        forall j | x.1 < j < |t| ensures Efficiency(t, j) < Efficiency(t, x.1) {
          var y := (Efficiency(t, j), j);
          assert y in s ==> Less(y, x);
        }
      }
    }
  }

  /** lower_bound_of_sorted_candidates: the index of the first candidate whose
      efficiency is not below `e`, |c| for the end. */
  function LowerBound(c: seq<Candidate>, e: real): (k: nat)
    ensures k <= |c|
    ensures forall j :: 0 <= j < k ==> c[j].0 < e
    ensures k < |c| ==> c[k].0 >= e
  {
    if c == [] || c[0].0 >= e then 0 else 1 + LowerBound(c[1..], e)
  }

  /** The candidate found has the largest thread count that is as efficient as asked. */
  lemma ChosenIsWidest(t: seq<nat>, lowerBound: real, c: seq<Candidate>, e: real)
    requires Measured(t) && CandidatesOf(c, t, lowerBound) && e >= lowerBound
    ensures LowerBound(c, e) < |c| <==> exists i :: 1 <= i < |t| && Efficiency(t, i) >= e
    ensures LowerBound(c, e) < |c| ==>
              var w := c[LowerBound(c, e)].1;
              && 1 <= w < |t|
              && Efficiency(t, w) >= e
              && forall i :: w < i < |t| ==> Efficiency(t, i) < e
  {
    var k := LowerBound(c, e);
    if k < |c| {
      assert c[k] in c;
    }
    forall i | 1 <= i < |t| && Efficiency(t, i) >= e ensures k < |c| && i <= c[k].1 {
      var j := Dominator(t, lowerBound, i);
      assert (Efficiency(t, j), j) in c;
      var p :| 0 <= p < |c| && c[p] == (Efficiency(t, j), j);
      assert p >= k;
    }
  }

  /** Every efficient count is outdone by one on the frontier, or is on it. */
  lemma {:induction false} Dominator(t: seq<nat>, lowerBound: real, i: nat) returns (j: nat)
    requires Measured(t) && 1 <= i < |t| && Efficiency(t, i) >= lowerBound
    ensures i <= j < |t| && OnFrontier(t, lowerBound, j) && Efficiency(t, j) >= Efficiency(t, i)
    decreases |t| - i
  {
    if OnFrontier(t, lowerBound, i) {
      j := i;
    } else {
      var k :| i < k < |t| && Efficiency(t, k) >= Efficiency(t, i);
      j := Dominator(t, lowerBound, k);
    }
  }

  /** The last resort of the allocators: one thread, at efficiency one. */
  predicate OneThreadTop(c: seq<Candidate>) {
    c != [] && c[|c| - 1] == (1.0, 1)
  }

  lemma EfficiencyBelow(t: seq<nat>, i: nat, n: nat)
    requires Measured(t) && 1 <= i < |t|
    ensures Efficiency(t, i) < n as real <==> t[1] < n * (t[i] * i)
  {
    var product := t[i] * i;
    assert product > 0;
    QuotientBelow(t[1] as real, product as real, n as real);
    assert (n * product) as real == n as real * product as real;
  }

  lemma EfficiencyBelowOne(t: seq<nat>, i: nat)
    requires Measured(t) && 1 <= i < |t|
    ensures Efficiency(t, i) < 1.0 <==> t[i] * i > t[1]
    ensures Efficiency(t, 1) == 1.0
  {
    EfficiencyBelow(t, i, 1);
    assert t[1] * 1 == t[1];
    QuotientBelow(t[1] as real, t[1] as real, 1.0);
  }

  lemma QuotientBelow(a: real, d: real, n: real)
    requires d > 0.0
    ensures a / d < n <==> a < n * d
    ensures a == d ==> a / d == 1.0
  {
    var q := a / d;
    assert q * d == a;
    if q < n { assert (n - q) * d > 0.0; } else { assert (q - n) * d >= 0.0; }
  }

  /** One thread is the most efficient candidate exactly for data where more
      threads always cost more thread time. */
  lemma OneThreadTopIff(t: seq<nat>, lowerBound: real, c: seq<Candidate>)
    requires Measured(t) && CandidatesOf(c, t, lowerBound)
    ensures OneThreadTop(c) <==> lowerBound <= 1.0 && forall i :: 2 <= i < |t| ==> t[i] * i > t[1]
  {
    forall i | 1 <= i < |t| { EfficiencyBelowOne(t, i); }
    if OneThreadTop(c) {
      assert c[|c| - 1] in c;
    }
    if lowerBound <= 1.0 && forall i :: 2 <= i < |t| ==> t[i] * i > t[1] {
      assert OnFrontier(t, lowerBound, 1);
      assert (1.0, 1) in c;
      var k :| 0 <= k < |c| && c[k] == (1.0, 1);
      assert c[|c| - 1] in c;
    }
  }
}
