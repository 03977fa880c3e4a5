/** The binary search of bits2020 over the thresholds, on tables of any kind: what it
    looks up, where it ends, and when it fails. */
module Search {
  import opened Sequences
  import opened ExecTimeInfo
  import opened Tasks
  import opened Thresholds

  /** The totals at the thresholds; None where a lookup reaches the end of a table. */
  type Totals = seq<Option<nat>>

  ghost function TotalsAt(c: Config, q: seq<WMT>, t: seq<real>): (n: Totals)
    requires AllGrouped(c, q)
    ensures |n| == |t|
    ensures forall i :: 0 <= i < |n| ==>
              n[i] == if AllDefined(c, q, t[i]) then Some(TotalThreads(c, q, t[i])) else None
  {
    seq(|t|, i requires 0 <= i < |t| => if AllDefined(c, q, t[i]) then Some(TotalThreads(c, q, t[i])) else None)
  }

  /** Totals grow strictly from the first one on. */
  ghost predicate Rising(n: Totals) {
    forall i, j :: 0 <= i < j < |n| && n[i].Some? ==> n[j].Some? && n[i].value < n[j].value
  }

  lemma TotalsRise(c: Config, q: seq<WMT>, t: seq<real>)
    requires AllGrouped(c, q) && ThresholdsOf(c, q, t)
    ensures Rising(TotalsAt(c, q, t))
  {
    hide Grouped, ThresholdsOf, AllDefined, TotalThreads;
    var n := TotalsAt(c, q, t);
    forall i, j | 0 <= i < j < |n| && n[i].Some? ensures n[j].Some? && n[i].value < n[j].value {
      TotalStrictlyIncreases(c, q, t, i, j);
    }
  }

  /** The indices that are looked up from `l`, `m` and `r` on, in this order; the
      search cannot go on after one without a total. */
  ghost function Probes(n: Totals, available: nat, l: nat, m: nat, r: nat): (p: seq<nat>)
    requires l < r <= |n| || l == m == r == 0
    ensures forall i :: i in p ==> i < |n|
    decreases r - l
  {
    if l + 1 >= r then (if l != m then [l] else []) else
      var k := (l + r) / 2;
      if n[k].None? || n[k].value == available then [k]
      else if n[k].value < available then [k] + Probes(n, available, k, k, r)
      else [k] + Probes(n, available, l, k, k)
  }

  /** From there on no lookup reaches the end of a table. */
  ghost predicate Clear(n: Totals, available: nat, l: nat, m: nat, r: nat)
    requires l < r <= |n| || l == m == r == 0
  {
    forall i :: i in Probes(n, available, l, m, r) ==> n[i].Some?
  }

  /** No lookup of the whole search reaches the end of a table. */
  ghost predicate InTables(n: Totals, available: nat) {
    Clear(n, available, 0, 0, |n|)
  }

  lemma ClearStep(n: Totals, available: nat, l: nat, m: nat, r: nat)
    requires l + 1 < r <= |n|
    ensures var k := (l + r) / 2;
            Clear(n, available, l, m, r) <==>
              && n[k].Some?
              && (n[k].value < available ==> Clear(n, available, k, k, r))
              && (n[k].value > available ==> Clear(n, available, l, k, k))
  {
    var k := (l + r) / 2;
    var p := Probes(n, available, l, m, r);
    assert p[0] == k;
    if n[k].Some? && n[k].value < available {
      assert p == [k] + Probes(n, available, k, k, r);
    } else if n[k].Some? && n[k].value > available {
      assert p == [k] + Probes(n, available, l, k, k);
    } else {
      assert p == [k];
    }
  }

  /** Where the search ends that has come to `l` and `r`. */
  ghost function EndOf(n: Totals, available: nat, l: nat, r: nat): (i: nat)
    requires l < r <= |n|
    ensures i < |n|
    decreases r - l
  {
    if l + 1 == r then l else
      var k := (l + r) / 2;
      if n[k].None? || n[k].value == available then k
      else if n[k].value < available then EndOf(n, available, k, r)
      else EndOf(n, available, l, k)
  }

  /** The search ends at the last total that fits, or at the first of all. */
  lemma {:induction false} EndIsLast(n: Totals, available: nat, l: nat, m: nat, r: nat)
    requires Rising(n) && l < r <= |n|
    requires Clear(n, available, l, m, r)
    requires l > 0 ==> n[l].Some? && n[l].value <= available
    requires r < |n| ==> n[r].Some? && n[r].value > available
    ensures var x := EndOf(n, available, l, r);
            && (x > 0 ==> n[x].Some? && n[x].value <= available)
            && forall k :: x < k < |n| ==> n[k].Some? && n[k].value > available
    decreases r - l
  {
    hide Clear;
    if l + 1 < r {
      var k := (l + r) / 2;
      ClearStep(n, available, l, m, r);
      if n[k].value < available {
        EndIsLast(n, available, k, k, r);
      } else if n[k].value > available {
        EndIsLast(n, available, l, k, k);
      }
    }
  }

  /** Where the search stands: everything looked up so far has a total, and what
      is still to come decides. */
  ghost predicate Underway(n: Totals, available: nat, l: nat, m: nat, r: nat) {
    && (l < r <= |n| || l == m == r == |n| == 0)
    && m <= r
    && (InTables(n, available) <==> Clear(n, available, l, m, r))
    && (|n| > 0 ==> EndOf(n, available, 0, |n|) == EndOf(n, available, l, r))
  }

  lemma GoesOn(n: Totals, available: nat, l: nat, m: nat, r: nat)
    requires Underway(n, available, l, m, r) && l + 1 < r
    ensures var k := (l + r) / 2;
            && (n[k].None? ==> !InTables(n, available))
            && (n[k].Some? && n[k].value == available ==>
                  InTables(n, available) && EndOf(n, available, 0, |n|) == k)
            && (n[k].Some? && n[k].value < available ==> Underway(n, available, k, k, r))
            && (n[k].Some? && n[k].value > available ==> Underway(n, available, l, k, k))
  {
    ClearStep(n, available, l, m, r);
  }

  lemma ComesToEnd(n: Totals, available: nat, l: nat, m: nat, r: nat)
    requires Underway(n, available, l, m, r) && l + 1 >= r
    ensures |n| > 0 ==> l == EndOf(n, available, 0, |n|)
    ensures InTables(n, available) <==> l == m || n[l].Some?
  {
  }

  /** The binary search over the thresholds, with its early exit and its recount.
      `ok` is false where a lookup reaches the end of a table.  Otherwise the widths
      and the total are those of the threshold where the search ends; with less than
      two thresholds nothing is computed. */
  method SearchThreshold(c: Config, ghost q: seq<WMT>, info0: MacrotaskInfo, t: seq<real>, available: nat)
    returns (ok: bool, info: MacrotaskInfo, total: nat)
    requires AllGrouped(c, q) && HistogramOf(c, q, info0)
    ensures ok <==> InTables(TotalsAt(c, q, t), available)
    ensures info.Keys == info0.Keys
    ensures ok && |t| <= 1 ==> info == info0 && total == 0
    ensures ok && |t| > 1 ==>
              var l := EndOf(TotalsAt(c, q, t), available, 0, |t|);
              TotalsAt(c, q, t)[l] == Some(total) && ChosenAt(c, info, t[l])
  {
    hide Grouped, TotalThreads, HistogramOf, Underway, InTables, EndOf;
    ok, info, total := true, info0, 0;
    var l: nat, m: nat, r: nat := 0, 0, |t|;
    ghost var n := TotalsAt(c, q, t);
    ghost var met := false;
    SetsOut(n, available);
    while l + 1 < r
      invariant Underway(n, available, l, m, r) && l <= r <= |t| && (l < r || |t| == 0) && m <= |t|
      invariant ok && !met && info.Keys == info0.Keys && HistogramOf(c, q, info)
      invariant m == 0 ==> l == 0 && r == |t| && info == info0 && total == 0
      invariant m > 0 ==> m < |t| && ChosenAt(c, info, t[m]) && n[m] == Some(total)
    {
      GoesOn(n, available, l, m, r);
      m := (l + r) / 2;
      ok, info, total := CountTotalNumThreads(c, q, info, t[m]);
      if !ok {
        return;
      }
      if total <= available { l := m; } else { r := m; }
      if total == available {
        met := true;
        break;
      }
    }
    if !met { ComesToEnd(n, available, l, m, r); }
    if l != m {
      ok, info, total := CountTotalNumThreads(c, q, info, t[l]);
    }
  }

  lemma SetsOut(n: Totals, available: nat)
    ensures Underway(n, available, 0, 0, |n|)
  {
  }

  /** Besides, the total that is left when the search is over fits, and so do the
      widths: both asserts of bits2020 hold. */
  ghost predicate Sound(n: Totals, available: nat) {
    && InTables(n, available)
    && (|n| > 1 ==>
          n[EndOf(n, available, 0, |n|)].Some? && n[EndOf(n, available, 0, |n|)].value <= available)
  }

  lemma SoundIsBest(c: Config, q: seq<WMT>, t: seq<real>, available: nat)
    requires AllGrouped(c, q) && ThresholdsOf(c, q, t) && |t| > 1 && Sound(TotalsAt(c, q, t), available)
    ensures Best(c, q, t, available, EndOf(TotalsAt(c, q, t), available, 0, |t|))
  {
    hide Grouped, AllDefined, TotalThreads, EndOf, Rising, ThresholdsOf;
    TotalsRise(c, q, t);
    EndIsLast(TotalsAt(c, q, t), available, 0, 0, |t|);
  }

  /** Where one thread is the most efficient count everywhere, nothing fails. */
  lemma ElasticIsSound(c: Config, q: seq<WMT>, t: seq<real>, available: nat)
    requires AllElastic(c, q) && ThresholdsOf(c, q, t) && |q| <= available
    ensures Sound(TotalsAt(c, q, t), available)
    ensures q != [] ==> t != [] && t[0] == 1.0 && TotalThreads(c, q, t[0]) == |q|
  {
    var n := TotalsAt(c, q, t);
    if q != [] {
      FirstThresholdIsOne(c, q, t);
      hide Grouped, Elastic, AllDefined, TotalThreads, EndOf, Rising, Probes;
      forall i | 0 <= i < |n| ensures n[i].Some? { ElasticIsDefined(c, q, t[i]); }
      TotalAtOne(c, q);
      TotalsRise(c, q, t);
      EndIsLast(n, available, 0, 0, |t|);
    } else {
      NothingListed(c, t);
    }
  }

  lemma NothingListed(c: Config, t: seq<real>)
    requires Lists(c, [], t)
    ensures t == []
  {
    HeadIsMember(t);
    forall e ensures e !in t { assert !Occurs(c, [], e); }
  }

  lemma HeadIsMember(t: seq<real>)
    ensures |t| > 0 ==> t[0] in t
  {
  }

  // ---- which tables bits2020 can work with ----

  /** What every table made of measured times is like: one thread has efficiency one,
      and some count is no less efficient. */
  ghost predicate Genuine(s: seq<Candidate>) {
    && s != [] && Frontier(s) && Top(s) >= 1.0
    && forall x :: x in s ==> x.1 >= 1 && (x.1 == 1 ==> x.0 == 1.0)
  }

  lemma CandidatesAreGenuine(t: seq<nat>, lowerBound: real, s: seq<Candidate>)
    requires Measured(t) && CandidatesOf(s, t, lowerBound) && s != []
    ensures Genuine(s)
  {
    EfficiencyBelowOne(t, 1);
    assert s[|s| - 1] in s;
    if lowerBound <= 1.0 {
      var j := Dominator(t, lowerBound, 1);
      assert (Efficiency(t, j), j) in s;
      BelowTop(s, (Efficiency(t, j), j));
    }
  }

  ghost predicate AllGenuine(c: Config) {
    forall w :: Grouped(c, w) ==> Genuine(CandidatesFor(c, w))
  }

  /** A queue that bits2020 may have to search for, with its thresholds. */
  ghost predicate Offered(c: Config, q: seq<WMT>, t: seq<real>, free: nat, maxThreads: nat) {
    AllGrouped(c, q) && ThresholdsOf(c, q, t) && |q| < free <= maxThreads
  }

  ghost predicate AlwaysInTables(c: Config, maxThreads: nat) {
    forall q, t, free :: Offered(c, q, t, free, maxThreads) ==> InTables(TotalsAt(c, q, t), free)
  }

  ghost predicate AlwaysSound(c: Config, maxThreads: nat) {
    forall q, t, free :: Offered(c, q, t, free, maxThreads) ==> Sound(TotalsAt(c, q, t), free)
  }

  ghost predicate SameTops(c: Config) {
    forall v, w :: Grouped(c, v) && Grouped(c, w) ==> Top(CandidatesFor(c, v)) == Top(CandidatesFor(c, w))
  }

  /** One candidate in every table, everywhere of the same efficiency. */
  ghost predicate Uniform(c: Config) {
    SameTops(c) && forall w :: Grouped(c, w) ==> |CandidatesFor(c, w)| == 1
  }

  /** One thread is the most efficient count of every table, or there is nothing to
      choose. */
  ghost predicate Workable(c: Config) {
    (forall w :: Grouped(c, w) ==> OneThreadTop(CandidatesFor(c, w))) || Uniform(c)
  }

  /** Well-formed configurations are like that. */
  lemma SharingWorks(c: Config)
    requires c.WellFormed() && c.allocation.Bits2020?
    ensures Workable(c)
  {
    assert c.CanShare();
    if e :| c.AllFlat(e) {
      forall w | Grouped(c, w) ensures |CandidatesFor(c, w)| == 1 && Top(CandidatesFor(c, w)) == e {
        assert c.apps[w.query.appId].Flat(e);
      }
    } else {
      forall w | Grouped(c, w) ensures OneThreadTop(CandidatesFor(c, w)) {
        assert c.apps[w.query.appId].Elastic();
      }
    }
  }

  /** For every queue and every number of free threads the search stays within the
      tables, if and only if all tables have the same greatest efficiency. */
  lemma InTablesIff(c: Config, maxThreads: nat)
    requires AllGenuine(c) && maxThreads >= 4
    ensures AlwaysInTables(c, maxThreads) <==> SameTops(c)
  {
    hide Grouped, ThresholdsOf, InTables, Genuine;
    if AlwaysInTables(c, maxThreads) {
      forall v, w | Grouped(c, v) && Grouped(c, w)
        ensures Top(CandidatesFor(c, v)) <= Top(CandidatesFor(c, w))
      {
        if Top(CandidatesFor(c, v)) > Top(CandidatesFor(c, w)) {
          var t := TwoAndOne(c, v, w);
          assert Offered(c, [v, v, w], t, 4, maxThreads);
          PastTheEnd(c, v, w, t);
        }
      }
    }
    if SameTops(c) {
      forall q, t, free | Offered(c, q, t, free, maxThreads) ensures InTables(TotalsAt(c, q, t), free) {
        SameTopsStay(c, q, t, free);
      }
    }
  }

  /** For every queue and every number of free threads both asserts hold besides, if
      and only if one thread is the most efficient count of every table, or all tables
      have just one candidate and the same efficiency. */
  lemma SoundIff(c: Config, maxThreads: nat)
    requires AllGenuine(c) && maxThreads >= 4
    ensures AlwaysSound(c, maxThreads) <==> Workable(c)
  {
    hide Grouped, ThresholdsOf, Sound, Genuine;
    if AlwaysSound(c, maxThreads) && exists v :: Grouped(c, v) && !OneThreadTop(CandidatesFor(c, v)) {
      var v :| Grouped(c, v) && !OneThreadTop(CandidatesFor(c, v));
      forall w | Grouped(c, w)
        ensures |CandidatesFor(c, w)| == 1 && Top(CandidatesFor(c, w)) == Top(CandidatesFor(c, v))
      {
        var t := TwoAndOne(c, v, w);
        assert Offered(c, [v, v, w], t, 4, maxThreads);
        TooMany(c, v, w, t);
        OneListed(c, v, w, t);
      }
    }
    if Workable(c) {
      forall q, t, free | Offered(c, q, t, free, maxThreads) ensures Sound(TotalsAt(c, q, t), free) {
        WorkableIsSound(c, q, t, free);
      }
    }
  }

  lemma WorkableIsSound(c: Config, q: seq<WMT>, t: seq<real>, free: nat)
    requires Workable(c) && AllGrouped(c, q) && ThresholdsOf(c, q, t) && |q| <= free
    ensures Sound(TotalsAt(c, q, t), free)
  {
    hide Grouped, ThresholdsOf, Sound;
    if Uniform(c) { UniformIsSound(c, q, t, free); } else { ElasticIsSound(c, q, t, free); }
  }

  /** The queue on which the search fails: two macrotasks of one kind and one of
      another, and one thread to spare. */
  lemma TwoAndOne(c: Config, v: WMT, w: WMT) returns (t: seq<real>)
    requires Grouped(c, v) && Grouped(c, w)
    ensures AllGrouped(c, [v, v, w]) && ThresholdsOf(c, [v, v, w], t)
  {
    t := ThresholdsExist(c, [v, v, w]);
  }

  lemma AtLeastTwo(s: seq<Candidate>, e: real)
    requires Genuine(s) && !OneThreadTop(s) && Defined(s, e)
    ensures Chosen(s, e) >= 2
  {
    assert s[|s| - 1] in s;
  }

  lemma AtLeastFive(c: Config, v: WMT, w: WMT, e: real)
    requires Grouped(c, v) && Grouped(c, w) && AllGenuine(c) && !OneThreadTop(CandidatesFor(c, v))
    requires AllGrouped(c, [v, v, w]) && AllDefined(c, [v, v, w], e)
    ensures TotalThreads(c, [v, v, w], e) >= 5
  {
    hide Grouped;
    var q := [v, v, w];
    assert q[0] == v && q[2] == w;
    AtLeastTwo(CandidatesFor(c, v), e);
    assert q[..2] == [v, v] && [v, v][..1] == [v] && [v][..0] == [];
    assert TotalThreads(c, [v], e) == ChosenFor(c, v, e);
    assert TotalThreads(c, [v, v], e) == ChosenFor(c, v, e) + ChosenFor(c, v, e);
    assert ChosenFor(c, w, e) >= 1;
  }

  /** If no total fits, the search ends at the first threshold, which is looked up
      last. */
  lemma {:induction false} EndsAtFirst(n: Totals, available: nat, m: nat, r: nat)
    requires 0 < r <= |n| && (m > 0 || r > 1) && n[0].None?
    requires forall i :: 0 <= i < |n| && n[i].Some? ==> n[i].value > available
    ensures !Clear(n, available, 0, m, r)
    decreases r
  {
    if r == 1 {
      assert Probes(n, available, 0, m, r) == [0];
    } else {
      ClearStep(n, available, 0, m, r);
      if n[r / 2].Some? { EndsAtFirst(n, available, r / 2, r / 2); }
    }
  }

  lemma PastTheEnd(c: Config, v: WMT, w: WMT, t: seq<real>)
    requires Grouped(c, v) && Grouped(c, w) && AllGenuine(c)
    requires Top(CandidatesFor(c, v)) > Top(CandidatesFor(c, w))
    requires AllGrouped(c, [v, v, w]) && ThresholdsOf(c, [v, v, w], t)
    ensures !InTables(TotalsAt(c, [v, v, w], t), 4)
  {
    hide Grouped, TotalThreads;
    var q := [v, v, w];
    var n := TotalsAt(c, q, t);
    TableOfGroup(c, w);
    assert Genuine(CandidatesFor(c, w));
    TopIsListed(c, q, t, 0);
    TopIsListed(c, q, t, 2);
    FirstIsGreatest(t, Top(CandidatesFor(c, v)));
    DefinedUpToTop(CandidatesFor(c, w), t[0]);
    assert !Defined(CandidatesFor(c, q[2]), t[0]);
    forall i | 0 <= i < |n| && n[i].Some? ensures n[i].value > 4 { AtLeastFive(c, v, w, t[i]); }
    TwoListed(t, Top(CandidatesFor(c, v)), Top(CandidatesFor(c, w)));
    EndsAtFirst(n, 4, 0, |n|);
  }

  lemma FirstIsGreatest(t: seq<real>, e: real)
    requires Descending(t) && e in t
    ensures t[0] >= e
  {
    var i :| 0 <= i < |t| && t[i] == e;
  }

  lemma TwoListed(t: seq<real>, e: real, f: real)
    requires e in t && f in t && e != f
    ensures |t| > 1
  {
  }

  lemma TooMany(c: Config, v: WMT, w: WMT, t: seq<real>)
    requires Grouped(c, v) && Grouped(c, w) && AllGenuine(c) && !OneThreadTop(CandidatesFor(c, v))
    requires AllGrouped(c, [v, v, w]) && Sound(TotalsAt(c, [v, v, w], t), 4)
    ensures |t| <= 1
  {
    hide Grouped, TotalThreads, EndOf, InTables;
    if |t| > 1 {
      AtLeastFive(c, v, w, t[EndOf(TotalsAt(c, [v, v, w], t), 4, 0, |t|)]);
    }
  }

  lemma OneListed(c: Config, v: WMT, w: WMT, t: seq<real>)
    requires Grouped(c, v) && Grouped(c, w) && AllGrouped(c, [v, v, w]) && Lists(c, [v, v, w], t) && |t| <= 1
    ensures |CandidatesFor(c, w)| == 1 && Top(CandidatesFor(c, w)) == Top(CandidatesFor(c, v))
  {
    hide Grouped, Lists, Occurs, LowerBound;
    var q := [v, v, w];
    var s := CandidatesFor(c, w);
    TopIsListed(c, q, t, 0);
    TopIsListed(c, q, t, 2);
    IsListed(c, q, t, 2, s[0]);
  }

  lemma SameTopsStay(c: Config, q: seq<WMT>, t: seq<real>, free: nat)
    requires AllGrouped(c, q) && ThresholdsOf(c, q, t)
    requires forall i, j :: 0 <= i < |q| && 0 <= j < |q| ==> Top(CandidatesFor(c, q[i])) == Top(CandidatesFor(c, q[j]))
    ensures InTables(TotalsAt(c, q, t), free) && forall k :: 0 <= k < |t| ==> AllDefined(c, q, t[k])
  {
    hide Grouped, TotalThreads, Probes;
    forall k | 0 <= k < |t| ensures AllDefined(c, q, t[k]) {
      assert t[k] in t;
      assert Occurs(c, q, t[k]);
      var i, x :| 0 <= i < |q| && x in CandidatesFor(c, q[i]) && x.0 == t[k];
      TableOfGroup(c, q[i]);
      BelowTop(CandidatesFor(c, q[i]), x);
      forall j | 0 <= j < |q| ensures Defined(CandidatesFor(c, q[j]), t[k]) {
        TableOfGroup(c, q[j]);
        DefinedUpToTop(CandidatesFor(c, q[j]), t[k]);
      }
    }
  }

  lemma UniformIsSound(c: Config, q: seq<WMT>, t: seq<real>, free: nat)
    requires Uniform(c) && AllGrouped(c, q) && ThresholdsOf(c, q, t)
    ensures Sound(TotalsAt(c, q, t), free)
  {
    SameTopsStay(c, q, t, free);
    if |t| > 1 {
      OneEfficiency(c, q, t, 0);
      OneEfficiency(c, q, t, 1);
      assert false;
    }
  }

  lemma OneEfficiency(c: Config, q: seq<WMT>, t: seq<real>, k: nat)
    requires Uniform(c) && AllGrouped(c, q) && Lists(c, q, t) && k < |t|
    ensures q != [] && t[k] == Top(CandidatesFor(c, q[0]))
  {
    assert t[k] in t;
    assert Occurs(c, q, t[k]);
    var i, x :| 0 <= i < |q| && x in CandidatesFor(c, q[i]) && x.0 == t[k];
    assert Grouped(c, q[i]) && Grouped(c, q[0]);
  }

  // ---- the data shipped with application 1 ----

  /** Application 1's dummy data for macrotasks 1 and 3. */
  const DUMMY_1: seq<nat> := [0, 9404, 4207, 4034, 2595]
  const DUMMY_3: seq<nat> := [0, 5434, 1225, 941, 707]

  /** Their efficiencies, downwards: of macrotask 3 on 2, 3 and 4 threads, of
      macrotask 1 on 2 and 4. */
  const DUMMY_THRESHOLDS: seq<real> :=
    [5434.0 / 2450.0, 5434.0 / 2823.0, 5434.0 / 2828.0, 9404.0 / 8414.0, 9404.0 / 10380.0]

  lemma DummyCandidates(lowerBound: real, c1: seq<Candidate>, c3: seq<Candidate>)
    requires Measured(DUMMY_1) && Measured(DUMMY_3) && lowerBound <= 0.9
    requires CandidatesOf(c1, DUMMY_1, lowerBound) && CandidatesOf(c3, DUMMY_3, lowerBound)
    ensures forall x: Candidate :: x in c1 <==> x == (9404.0 / 8414.0, 2) || x == (9404.0 / 10380.0, 4)
    ensures forall x: Candidate :: x in c3 <==>
              x == (5434.0 / 2450.0, 2) || x == (5434.0 / 2823.0, 3) || x == (5434.0 / 2828.0, 4)
  {
    assert Efficiency(DUMMY_1, 1) == 1.0 && Efficiency(DUMMY_1, 2) == 9404.0 / 8414.0;
    assert Efficiency(DUMMY_1, 3) == 9404.0 / 12102.0 && Efficiency(DUMMY_1, 4) == 9404.0 / 10380.0;
    assert Efficiency(DUMMY_3, 1) == 1.0 && Efficiency(DUMMY_3, 2) == 5434.0 / 2450.0;
    assert Efficiency(DUMMY_3, 3) == 5434.0 / 2823.0 && Efficiency(DUMMY_3, 4) == 5434.0 / 2828.0;
    forall i ensures OnFrontier(DUMMY_1, lowerBound, i) <==> i == 2 || i == 4 {}
    forall i ensures OnFrontier(DUMMY_3, lowerBound, i) <==> i == 2 || i == 3 || i == 4 {}
  }

  lemma {:induction false} SameDescending(s: seq<real>, t: seq<real>)
    requires Descending(s) && Descending(t) && forall e :: e in s <==> e in t
    ensures s == t
    decreases |s|
  {
    HeadIsMember(s);
    HeadIsMember(t);
    if |s| > 0 {
      assert s[0] in t && |t| > 0 && t[0] in s;
      FirstIsGreatest(s, t[0]);
      FirstIsGreatest(t, s[0]);
      assert s == [s[0]] + s[1..] && t == [t[0]] + t[1..];
      forall e ensures e in s[1..] <==> e in t[1..] {
        assert e in s[1..] <==> e in s && e != s[0];
        assert e in t[1..] <==> e in t && e != t[0];
      }
      SameDescending(s[1..], t[1..]);
    }
  }

  /** One of the two kinds of macrotasks. */
  ghost predicate IsDummy(c: Config, w: WMT, times: seq<nat>, lowerBound: real) {
    Measured(times) && Grouped(c, w) && CandidatesOf(CandidatesFor(c, w), times, lowerBound)
  }

  /** With macrotasks of these two kinds in the queue, at least one of each, whatever
      the number of free threads, the first lookup of the search reaches the end of
      the table of macrotask 1. */
  lemma DummyPastEnd(c: Config, q: seq<WMT>, t: seq<real>, lowerBound: real, i: nat, j: nat, free: nat)
    requires lowerBound <= 0.9 && AllGrouped(c, q) && ThresholdsOf(c, q, t) && i < |q| && j < |q|
    requires IsDummy(c, q[i], DUMMY_1, lowerBound) && IsDummy(c, q[j], DUMMY_3, lowerBound)
    requires forall k :: 0 <= k < |q| ==>
               IsDummy(c, q[k], DUMMY_1, lowerBound) || IsDummy(c, q[k], DUMMY_3, lowerBound)
    ensures t == DUMMY_THRESHOLDS && !Defined(CandidatesFor(c, q[i]), t[2])
    ensures Probes(TotalsAt(c, q, t), free, 0, 0, |t|) == [2] && !InTables(TotalsAt(c, q, t), free)
  {
    hide Grouped, Measured;
    forall e ensures e in t <==> e in DUMMY_THRESHOLDS { DummyOccurs(c, q, lowerBound, i, j, e); }
    SameDescending(t, DUMMY_THRESHOLDS);
    DummyCandidates(lowerBound, CandidatesFor(c, q[i]), CandidatesFor(c, q[j]));
    var s := CandidatesFor(c, q[i]);
    assert s[|s| - 1] in s;
    DefinedUpToTop(s, t[2]);
    assert !AllDefined(c, q, t[2]);
  }

  lemma DummyOccurs(c: Config, q: seq<WMT>, lowerBound: real, i: nat, j: nat, e: real)
    requires lowerBound <= 0.9 && AllGrouped(c, q) && i < |q| && j < |q|
    requires IsDummy(c, q[i], DUMMY_1, lowerBound) && IsDummy(c, q[j], DUMMY_3, lowerBound)
    requires forall k :: 0 <= k < |q| ==>
               IsDummy(c, q[k], DUMMY_1, lowerBound) || IsDummy(c, q[k], DUMMY_3, lowerBound)
    ensures Occurs(c, q, e) <==> e in DUMMY_THRESHOLDS
  {
    hide Grouped, IsDummy;
    if Occurs(c, q, e) {
      var k, x :| 0 <= k < |q| && x in CandidatesFor(c, q[k]) && x.0 == e;
      if IsDummy(c, q[k], DUMMY_1, lowerBound) {
        DummyTables(c, q[k], q[j], lowerBound);
      } else {
        DummyTables(c, q[i], q[k], lowerBound);
      }
    }
    if e in DUMMY_THRESHOLDS {
      DummyTables(c, q[i], q[j], lowerBound);
    }
  }

  lemma DummyTables(c: Config, v: WMT, w: WMT, lowerBound: real)
    requires lowerBound <= 0.9 && IsDummy(c, v, DUMMY_1, lowerBound) && IsDummy(c, w, DUMMY_3, lowerBound)
    ensures Grouped(c, v) && Grouped(c, w)
    ensures forall x :: x in CandidatesFor(c, v) ==> x.0 in DUMMY_THRESHOLDS
    ensures forall x :: x in CandidatesFor(c, w) ==> x.0 in DUMMY_THRESHOLDS
    ensures forall e :: e in DUMMY_THRESHOLDS ==>
              exists x :: (x in CandidatesFor(c, v) || x in CandidatesFor(c, w)) && x.0 == e
  {
    hide Grouped, Measured, Efficiency;
    var c1, c3 := CandidatesFor(c, v), CandidatesFor(c, w);
    DummyCandidates(lowerBound, c1, c3);
    assert (5434.0 / 2450.0, 2) in c3 && (5434.0 / 2823.0, 3) in c3 && (5434.0 / 2828.0, 4) in c3;
    assert (9404.0 / 8414.0, 2) in c1 && (9404.0 / 10380.0, 4) in c1;
  }
}
