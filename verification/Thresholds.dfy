/** What bits2020 reckons with: a histogram of the queue, the efficiency thresholds
    in it, and the threads that each threshold means. */
module Thresholds {
  import opened Sequences
  import opened ExecTimeInfo
  import opened Tasks

  /** A group of macrotasks that share one table: application and group id. */
  type GroupKey = (nat, nat)

  /** A macrotask whose table, shared with its group, has candidates. */
  ghost predicate Grouped(c: Config, w: WMT) {
    && w.query.appId in c.apps
    && (var a := c.apps[w.query.appId];
        && 0 < w.macrotaskId < |a.info| == |a.group|
        && a.group[w.macrotaskId] < |a.info|
        && a.info[w.macrotaskId] == a.info[a.group[w.macrotaskId]]
        && a.info[w.macrotaskId].candidates != []
        && Frontier(a.info[w.macrotaskId].candidates)
        && forall x :: x in a.info[w.macrotaskId].candidates ==> x.1 >= 1)
  }

  /** Its candidates. */
  function CandidatesFor(c: Config, w: WMT): (s: seq<Candidate>)
    requires Grouped(c, w)
    ensures s != [] && Frontier(s) && forall x :: x in s ==> x.1 >= 1
  {
    c.apps[w.query.appId].info[w.macrotaskId].candidates
  }

  ghost predicate AllGrouped(c: Config, q: seq<WMT>) {
    forall i :: 0 <= i < |q| ==> Grouped(c, q[i])
  }

  /** Besides, one thread is its most efficient count. */
  ghost predicate Elastic(c: Config, w: WMT) {
    Grouped(c, w) && OneThreadTop(CandidatesFor(c, w))
  }

  ghost predicate AllElastic(c: Config, q: seq<WMT>) {
    AllGrouped(c, q) && forall i :: 0 <= i < |q| ==> Elastic(c, q[i])
  }

  function GroupOf(c: Config, w: WMT): GroupKey
    requires Grouped(c, w)
  {
    (w.query.appId, c.apps[w.query.appId].group[w.macrotaskId])
  }

  /** Macrotasks are counted together exactly if they are of one group of one application. */
  lemma CountedTogether(c: Config, v: WMT, w: WMT)
    requires Grouped(c, v) && Grouped(c, w)
    ensures GroupOf(c, v) == GroupOf(c, w) <==>
              && v.query.appId == w.query.appId
              && c.apps[v.query.appId].group[v.macrotaskId] == c.apps[w.query.appId].group[w.macrotaskId]
  {
  }

  predicate IsGroup(c: Config, g: GroupKey) {
    g.0 in c.apps && g.1 < |c.apps[g.0].info|
  }

  function Candidates(c: Config, g: GroupKey): seq<Candidate>
    requires IsGroup(c, g)
  {
    c.apps[g.0].info[g.1].candidates
  }

  /** lower_bound finds a candidate. */
  predicate Defined(s: seq<Candidate>, e: real) { LowerBound(s, e) < |s| }

  /** Threads of the candidate that lower_bound finds; 0 stands for the end,
      which must not be dereferenced. */
  function Chosen(s: seq<Candidate>, e: real): nat {
    if Defined(s, e) then s[LowerBound(s, e)].1 else 0
  }

  function ChosenFor(c: Config, w: WMT, e: real): nat
    requires Grouped(c, w)
  {
    Chosen(CandidatesFor(c, w), e)
  }

  /** No lookup for the queue at the threshold `e` reaches the end of a table. */
  ghost predicate AllDefined(c: Config, q: seq<WMT>, e: real)
    requires AllGrouped(c, q)
  {
    forall i :: 0 <= i < |q| ==> Defined(CandidatesFor(c, q[i]), e)
  }

  /** Threads of the whole queue at the threshold `e`. */
  ghost function TotalThreads(c: Config, q: seq<WMT>, e: real): nat
    requires AllGrouped(c, q)
  {
    if q == [] then 0 else TotalThreads(c, q[..|q| - 1], e) + ChosenFor(c, q[|q| - 1], e)
  }

  lemma TableOfGroup(c: Config, w: WMT)
    requires Grouped(c, w)
    ensures IsGroup(c, GroupOf(c, w)) && Candidates(c, GroupOf(c, w)) == CandidatesFor(c, w)
  {
  }

  function Top(s: seq<Candidate>): real
    requires s != []
  {
    s[|s| - 1].0
  }

  lemma BelowTop(s: seq<Candidate>, x: Candidate)
    requires Frontier(s) && x in s
    ensures x.0 <= Top(s)
  {
    var k :| 0 <= k < |s| && s[k] == x;
    if k < |s| - 1 { assert s[k].0 < s[|s| - 1].0; }
  }

  lemma DefinedUpToTop(s: seq<Candidate>, e: real)
    requires s != [] && Frontier(s)
    ensures Defined(s, e) <==> e <= Top(s)
  {
    var k := LowerBound(s, e);
    if k < |s| - 1 { assert s[k].0 < s[|s| - 1].0; }
  }

  lemma ElasticIsDefined(c: Config, q: seq<WMT>, e: real)
    requires AllElastic(c, q) && e <= 1.0
    ensures AllDefined(c, q, e)
  {
    forall i | 0 <= i < |q| ensures Defined(CandidatesFor(c, q[i]), e) {
      DefinedUpToTop(CandidatesFor(c, q[i]), e);
    }
  }

  /** A lower threshold never means fewer threads, and more where it is met exactly. */
  lemma ChosenGrows(s: seq<Candidate>, high: real, low: real)
    requires Frontier(s) && Defined(s, high) && low < high
    ensures Defined(s, low) && Chosen(s, high) <= Chosen(s, low)
    ensures (exists x :: x in s && x.0 == low) ==> Chosen(s, high) < Chosen(s, low)
  {
    var h, l := LowerBound(s, high), LowerBound(s, low);
    assert l <= h;
    if x :| x in s && x.0 == low {
      var i :| 0 <= i < |s| && s[i] == x;
      assert i <= l;
    }
  }

  lemma {:induction false} TotalGrows(c: Config, q: seq<WMT>, high: real, low: real)
    requires AllGrouped(c, q) && AllDefined(c, q, high) && low < high
    ensures AllDefined(c, q, low) && TotalThreads(c, q, high) <= TotalThreads(c, q, low)
  {
    if q != [] {
      var k := |q| - 1;
      TotalGrows(c, q[..k], high, low);
      TableOfGroup(c, q[k]);
      ChosenGrows(CandidatesFor(c, q[k]), high, low);
    }
  }

  /** The total is more if the lower threshold is met exactly somewhere. */
  lemma {:induction false} TotalGrowsStrictly(c: Config, q: seq<WMT>, high: real, low: real, i: nat)
    requires AllGrouped(c, q) && AllDefined(c, q, high) && low < high
    requires i < |q| && exists x :: x in CandidatesFor(c, q[i]) && x.0 == low
    ensures TotalThreads(c, q, high) < TotalThreads(c, q, low)
  {
    hide Grouped, Defined, Chosen;
    var k := |q| - 1;
    assert forall n :: 0 <= n < k ==> q[..k][n] == q[n];
    TotalGrows(c, q[..k], high, low);
    ChosenGrows(CandidatesFor(c, q[k]), high, low);
    if i < k {
      assert q[..k][i] == q[i];
      TotalGrowsStrictly(c, q[..k], high, low, i);
    }
  }

  lemma {:induction false} TotalAtOne(c: Config, q: seq<WMT>)
    requires AllElastic(c, q)
    ensures TotalThreads(c, q, 1.0) == |q|
  {
    if q != [] {
      ChosenAtOne(c, q[|q| - 1]);
      TotalAtOne(c, q[..|q| - 1]);
    }
  }

  /** At efficiency one the candidate is one thread. */
  lemma ChosenAtOne(c: Config, w: WMT)
    requires Elastic(c, w)
    ensures ChosenFor(c, w, 1.0) == 1
  {
    var s := CandidatesFor(c, w);
    DefinedUpToTop(s, 1.0);
    assert LowerBound(s, 1.0) == |s| - 1;
  }

  ghost predicate Descending(t: seq<real>) {
    forall i, j :: 0 <= i < j < |t| ==> t[i] > t[j]
  }

  ghost predicate Occurs(c: Config, q: seq<WMT>, e: real)
    requires AllGrouped(c, q)
  {
    exists i, x :: 0 <= i < |q| && x in CandidatesFor(c, q[i]) && x.0 == e
  }

  /** Exactly the efficiencies that occur in the queue. */
  ghost predicate Lists(c: Config, q: seq<WMT>, list: seq<real>)
    requires AllGrouped(c, q)
  {
    forall e :: e in list <==> Occurs(c, q, e)
  }

  /** The thresholds worth trying: every efficiency in the queue, once, downwards. */
  ghost predicate ThresholdsOf(c: Config, q: seq<WMT>, t: seq<real>)
    requires AllGrouped(c, q)
  {
    Descending(t) && Lists(c, q, t)
  }

  lemma FirstThresholdIsOne(c: Config, q: seq<WMT>, t: seq<real>)
    requires AllElastic(c, q) && ThresholdsOf(c, q, t) && q != []
    ensures t != [] && t[0] == 1.0
    ensures forall k :: 0 <= k < |t| ==> t[k] <= 1.0
  {
    TopIsListed(c, q, t, 0);
    assert t[0] in t;
    var i, x :| 0 <= i < |q| && x in CandidatesFor(c, q[i]) && x.0 == t[0];
    TableOfGroup(c, q[i]);
    BelowTop(CandidatesFor(c, q[i]), x);
  }

  lemma TopIsListed(c: Config, q: seq<WMT>, t: seq<real>, i: nat)
    requires AllGrouped(c, q) && Lists(c, q, t) && i < |q|
    ensures Top(CandidatesFor(c, q[i])) in t
  {
    var s := CandidatesFor(c, q[i]);
    IsListed(c, q, t, i, s[|s| - 1]);
  }

  lemma IsListed(c: Config, q: seq<WMT>, t: seq<real>, i: nat, x: Candidate)
    requires AllGrouped(c, q) && Lists(c, q, t) && i < |q| && x in CandidatesFor(c, q[i])
    ensures x.0 in t
  {
    assert Occurs(c, q, x.0);
  }

  /** The total is strictly increasing in the index of the threshold, from the first
      one on at which no lookup reaches the end of a table. */
  lemma TotalStrictlyIncreases(c: Config, q: seq<WMT>, t: seq<real>, a: nat, b: nat)
    requires AllGrouped(c, q) && ThresholdsOf(c, q, t) && a < b < |t| && AllDefined(c, q, t[a])
    ensures AllDefined(c, q, t[b]) && TotalThreads(c, q, t[a]) < TotalThreads(c, q, t[b])
  {
    assert t[b] in t;
    assert Occurs(c, q, t[b]);
    var i, x :| 0 <= i < |q| && x in CandidatesFor(c, q[i]) && x.0 == t[b];
    TotalGrows(c, q, t[a], t[b]);
    TotalGrowsStrictly(c, q, t[a], t[b], i);
  }

  /** `l` is the last threshold whose total fits into the free threads. */
  ghost predicate Best(c: Config, q: seq<WMT>, t: seq<real>, available: nat, l: nat)
    requires AllGrouped(c, q)
  {
    && l < |t|
    && AllDefined(c, q, t[l])
    && TotalThreads(c, q, t[l]) <= available
    && forall k :: l < k < |t| ==> TotalThreads(c, q, t[k]) > available
  }

  /** No threshold at all, listed or not, that fits gives any macrotask more threads. */
  lemma BestIsOptimal(c: Config, q: seq<WMT>, t: seq<real>, available: nat, l: nat, e: real, i: nat)
    requires AllGrouped(c, q) && ThresholdsOf(c, q, t) && Best(c, q, t, available, l)
    requires AllDefined(c, q, e) && TotalThreads(c, q, e) <= available && i < |q|
    ensures ChosenFor(c, q[i], e) <= ChosenFor(c, q[i], t[l])
  {
    hide TotalThreads, Lists, Grouped;
    TableOfGroup(c, q[i]);
    var k := RoundingExists(c, q, t, e, i);
    SameTotal(c, q, q, t, e, k);
    SameChoice(c, q, t, e, k, i);
    if k < l { ChosenGrows(CandidatesFor(c, q[i]), t[k], t[l]); }
  }

  lemma RoundingExists(c: Config, q: seq<WMT>, t: seq<real>, e: real, i: nat) returns (k: nat)
    requires AllGrouped(c, q) && ThresholdsOf(c, q, t) && AllDefined(c, q, e) && i < |q|
    ensures k < |t| && t[k] >= e && (k + 1 < |t| ==> t[k + 1] < e)
    ensures AllDefined(c, q, t[k])
  {
    TableOfGroup(c, q[i]);
    DefinedUpToTop(CandidatesFor(c, q[i]), e);
    TopIsListed(c, q, t, i);
    var n :| 0 <= n < |t| && t[n] == Top(CandidatesFor(c, q[i]));
    k := Rounding(t, e, n);
    forall j | 0 <= j < |q| ensures Defined(CandidatesFor(c, q[j]), t[k]) {
      SameChoice(c, q, t, e, k, j);
    }
  }

  /** The last listed threshold that is not below `e`. */
  lemma {:induction false} Rounding(t: seq<real>, e: real, i: nat) returns (k: nat)
    requires Descending(t) && i < |t| && t[i] >= e
    ensures k < |t| && t[k] >= e && (k + 1 < |t| ==> t[k + 1] < e)
    decreases |t|
  {
    var n := |t| - 1;
    if t[n] >= e { k := n; } else { k := Rounding(t[..n], e, i); }
  }

  lemma SameChoice(c: Config, q: seq<WMT>, t: seq<real>, e: real, k: nat, i: nat)
    requires AllGrouped(c, q) && ThresholdsOf(c, q, t) && i < |q|
    requires k < |t| && t[k] >= e && (k + 1 < |t| ==> t[k + 1] < e)
    ensures ChosenFor(c, q[i], e) == ChosenFor(c, q[i], t[k])
  {
    var s := CandidatesFor(c, q[i]);
    TableOfGroup(c, q[i]);
    var a, b := LowerBound(s, e), LowerBound(s, t[k]);
    assert a <= b;
    if a < b {
      assert s[a] in s;
      assert Occurs(c, q, s[a].0);
    }
  }

  lemma {:induction false} SameTotal(c: Config, q: seq<WMT>, p: seq<WMT>, t: seq<real>, e: real, k: nat)
    requires AllGrouped(c, q) && ThresholdsOf(c, q, t) && p <= q
    requires k < |t| && t[k] >= e && (k + 1 < |t| ==> t[k + 1] < e)
    ensures AllGrouped(c, p) && TotalThreads(c, p, e) == TotalThreads(c, p, t[k])
  {
    if p != [] {
      var n := |p| - 1;
      SameTotal(c, q, p[..n], t, e, k);
      SameChoice(c, q, t, e, k, n);
    }
  }

  /** How many entries of the queue belong to group `g`. */
  ghost function CountOf(c: Config, q: seq<WMT>, g: GroupKey): nat
    requires AllGrouped(c, q)
  {
    if q == [] then 0 else CountOf(c, q[..|q| - 1], g) + if GroupOf(c, q[|q| - 1]) == g then 1 else 0
  }

  /** Threads of those entries whose group is in `d`. */
  ghost function PartialThreads(c: Config, q: seq<WMT>, d: set<GroupKey>, e: real): nat
    requires AllGrouped(c, q)
  {
    if q == [] then 0 else
      PartialThreads(c, q[..|q| - 1], d, e) + if GroupOf(c, q[|q| - 1]) in d then ChosenFor(c, q[|q| - 1], e) else 0
  }

  /** A group adds its count times its threads. */
  lemma {:induction false} PartialThreadsAdd(c: Config, q: seq<WMT>, d: set<GroupKey>, g: GroupKey, e: real)
    requires AllGrouped(c, q) && g !in d && IsGroup(c, g)
    ensures PartialThreads(c, q, d + {g}, e) ==
              PartialThreads(c, q, d, e) + CountOf(c, q, g) * Chosen(Candidates(c, g), e)
  {
    if q != [] {
      var k := |q| - 1;
      TableOfGroup(c, q[k]);
      PartialThreadsAdd(c, q[..k], d, g, e);
      OneMore(CountOf(c, q[..k], g), Chosen(Candidates(c, g), e));
    }
  }

  lemma OneMore(n: nat, x: nat)
    ensures (n + 1) * x == n * x + x
  {
  }

  lemma {:induction false} PartialThreadsNone(c: Config, q: seq<WMT>, e: real)
    requires AllGrouped(c, q)
    ensures PartialThreads(c, q, {}, e) == 0
  {
    if q != [] { PartialThreadsNone(c, q[..|q| - 1], e); }
  }

  lemma {:induction false} PartialThreadsAll(c: Config, q: seq<WMT>, d: set<GroupKey>, e: real)
    requires AllGrouped(c, q) && forall i :: 0 <= i < |q| ==> GroupOf(c, q[i]) in d
    ensures PartialThreads(c, q, d, e) == TotalThreads(c, q, e)
  {
    if q != [] { PartialThreadsAll(c, q[..|q| - 1], d, e); }
  }

  /** macrotask_info: per group how many entries wait and how many threads each is to get. */
  type MacrotaskInfo = map<GroupKey, (nat, nat)>

  /** The first components are the histogram of the queue by group. */
  ghost predicate HistogramOf(c: Config, q: seq<WMT>, info: MacrotaskInfo)
    requires AllGrouped(c, q)
  {
    && (forall i :: 0 <= i < |q| ==> GroupOf(c, q[i]) in info)
    && (forall g :: g in info ==> IsGroup(c, g) && info[g].0 == CountOf(c, q, g) > 0)
  }

  /** The second components are the choices at the threshold `e`. */
  ghost predicate ChosenAt(c: Config, info: MacrotaskInfo, e: real) {
    forall g :: g in info ==> IsGroup(c, g) && info[g].1 == Chosen(Candidates(c, g), e)
  }

  /** One thread for everybody. */
  ghost predicate OnesIn(info: MacrotaskInfo) {
    forall g :: g in info ==> info[g].1 == 1
  }

  /** count_total_num_threads: the choices at a threshold and their total.  `ok` is
      false where a lookup yields the end of a table. */
  method CountTotalNumThreads(c: Config, ghost q: seq<WMT>, info0: MacrotaskInfo, e: real)
    returns (ok: bool, info: MacrotaskInfo, tnt: nat)
    requires AllGrouped(c, q) && HistogramOf(c, q, info0)
    ensures ok <==> AllDefined(c, q, e)
    ensures info.Keys == info0.Keys && HistogramOf(c, q, info)
    ensures ok ==> ChosenAt(c, info, e) && tnt == TotalThreads(c, q, e)
  {
    hide TotalThreads, PartialThreads, CountOf, Grouped;
    ok, info, tnt := true, info0, 0;
    var todo := info0.Keys;
    PartialThreadsNone(c, q, e);
    assert info0.Keys - todo == {};
    while todo != {}
      invariant todo <= info0.Keys == info.Keys
      invariant forall g :: g in info ==> info[g].0 == info0[g].0
      invariant forall g :: g in info && g !in todo ==>
                  Defined(Candidates(c, g), e) && info[g].1 == Chosen(Candidates(c, g), e)
      invariant tnt == PartialThreads(c, q, info0.Keys - todo, e)
    {
      var g :| g in todo;
      if LowerBound(Candidates(c, g), e) == |Candidates(c, g)| {
        UndefinedFor(c, q, info0, g, e);
        return false, info, tnt;
      }
      PartialThreadsAdd(c, q, info0.Keys - todo, g, e);
      assert info0.Keys - (todo - {g}) == (info0.Keys - todo) + {g};
      info := info[g := (info[g].0, Candidates(c, g)[LowerBound(Candidates(c, g), e)].1)];
      tnt := tnt + info[g].0 * info[g].1;
      todo := todo - {g};
    }
    assert info0.Keys - {} == info0.Keys;
    PartialThreadsAll(c, q, info0.Keys, e);
    DefinedForAll(c, q, info0, e);
  }

  lemma UndefinedFor(c: Config, q: seq<WMT>, info: MacrotaskInfo, g: GroupKey, e: real)
    requires AllGrouped(c, q) && HistogramOf(c, q, info) && g in info && !Defined(Candidates(c, g), e)
    ensures !AllDefined(c, q, e)
  {
    CountAbsent(c, q, g);
    var k :| 0 <= k < |q| && GroupOf(c, q[k]) == g;
    TableOfGroup(c, q[k]);
  }

  lemma DefinedForAll(c: Config, q: seq<WMT>, info: MacrotaskInfo, e: real)
    requires AllGrouped(c, q) && HistogramOf(c, q, info) && forall g :: g in info ==> Defined(Candidates(c, g), e)
    ensures AllDefined(c, q, e)
  {
    forall i | 0 <= i < |q| ensures Defined(CandidatesFor(c, q[i]), e) {
      TableOfGroup(c, q[i]);
    }
  }

  /** std::sort with std::greater, then std::unique up to its new end. */
  function Unique(s: seq<real>): seq<real> {
    if |s| <= 1 then s
    else if s[0] == s[1] then Unique(s[1..])
    else [s[0]] + Unique(s[1..])
  }

  function Larger(a: real, b: real): bool { a > b }

  lemma {:induction false} UniqueDescends(s: seq<real>)
    requires SortedBy(Larger, s)
    ensures Descending(Unique(s)) && forall e :: e in Unique(s) <==> e in s
    ensures s != [] ==> Unique(s) != [] && Unique(s)[0] == s[0]
    decreases |s|
  {
    if |s| > 1 {
      UniqueDescends(s[1..]);
      assert s == [s[0]] + s[1..];
      var u := Unique(s[1..]);
      if s[0] != s[1] {
        assert !Larger(s[1], s[0]);
        forall j | 0 <= j < |u| ensures s[0] > u[j] {
          assert j > 0 ==> u[0] > u[j];
        }
      }
    }
  }

  /** What the thresholds are made of. */
  lemma UniqueLists(list: seq<real>)
    ensures Descending(Unique(SortBy(Larger, list)))
    ensures forall e :: e in Unique(SortBy(Larger, list)) <==> e in list
  {
    SortBySorted(Larger, list);
    SameMembers(list, SortBy(Larger, list));
    UniqueDescends(SortBy(Larger, list));
  }

  /** The histogram and the efficiencies of the entries seen so far. */
  ghost predicate Collected(c: Config, q: seq<WMT>, info: MacrotaskInfo, list: seq<real>)
    requires AllGrouped(c, q)
  {
    HistogramOf(c, q, info) && OnesIn(info) && Lists(c, q, list)
  }

  /** The histogram and all efficiencies of the queue. */
  method Collect(c: Config, q: seq<WMT>) returns (info: MacrotaskInfo, priorities: seq<real>)
    requires AllGrouped(c, q)
    ensures Collected(c, q, info, priorities) && ThresholdsOf(c, q, priorities)
  {
    hide Grouped, HistogramOf, Occurs, OnesIn;
    info := map[];
    var list: seq<real> := [];
    CollectNone(c);
    for i := 0 to |q|
      invariant AllGrouped(c, q[..i]) && Collected(c, q[..i], info, list)
    {
      var w := q[i];
      TableOfGroup(c, w);
      var g := GroupOf(c, w);
      assert q[..i + 1] == q[..i] + [w];
      if g !in info {
        CollectNew(c, q[..i], w, info, list);
        assert info[g := (0, 1)][g := (1, 1)] == info[g := (1, 1)];
        info := info[g := (0, 1)];
        list := list + Efficiencies(Candidates(c, g));
      } else {
        CollectSeen(c, q[..i], w, info, list);
      }
      info := info[g := (info[g].0 + 1, info[g].1)];
    }
    assert q[..|q|] == q;
    UniqueLists(list);
    priorities := Unique(SortBy(Larger, list));
  }

  lemma CollectNone(c: Config)
    ensures Collected(c, [], map[], [])
  {
  }

  lemma CollectNew(c: Config, q: seq<WMT>, w: WMT, info: MacrotaskInfo, list: seq<real>)
    requires AllGrouped(c, q) && Grouped(c, w) && Collected(c, q, info, list) && GroupOf(c, w) !in info
    ensures IsGroup(c, GroupOf(c, w)) && AllGrouped(c, q + [w])
    ensures Collected(c, q + [w], info[GroupOf(c, w) := (1, 1)], list + Efficiencies(Candidates(c, GroupOf(c, w))))
  {
    hide Grouped, CountOf, Occurs;
    TableOfGroup(c, w);
    GroupedStep(c, q, w);
    CountAbsent(c, q, GroupOf(c, w));
    HistogramStep(c, q, w, info, info[GroupOf(c, w) := (1, 1)]);
    OccursStep(c, q, w);
  }

  lemma CollectSeen(c: Config, q: seq<WMT>, w: WMT, info: MacrotaskInfo, list: seq<real>)
    requires AllGrouped(c, q) && Grouped(c, w) && Collected(c, q, info, list) && GroupOf(c, w) in info
    ensures AllGrouped(c, q + [w])
    ensures Collected(c, q + [w], info[GroupOf(c, w) := (info[GroupOf(c, w)].0 + 1, info[GroupOf(c, w)].1)], list)
  {
    hide Grouped, CountOf, Occurs, Lists;
    var g := GroupOf(c, w);
    GroupedStep(c, q, w);
    HistogramStep(c, q, w, info, info[g := (info[g].0 + 1, info[g].1)]);
    SeenLists(c, q, w, info, list);
  }

  lemma GroupedStep(c: Config, q: seq<WMT>, w: WMT)
    requires AllGrouped(c, q) && Grouped(c, w)
    ensures AllGrouped(c, q + [w])
  {
  }

  /** A group seen before brings no new efficiencies. */
  lemma SeenLists(c: Config, q: seq<WMT>, w: WMT, info: MacrotaskInfo, list: seq<real>)
    requires AllGrouped(c, q) && Grouped(c, w) && AllGrouped(c, q + [w])
    requires HistogramOf(c, q, info) && Lists(c, q, list) && GroupOf(c, w) in info
    ensures Lists(c, q + [w], list)
  {
    CountAbsent(c, q, GroupOf(c, w));
    hide HistogramOf, CountOf, Occurs;
    var k :| 0 <= k < |q| && GroupOf(c, q[k]) == GroupOf(c, w);
    SeenOccurs(c, q, w, k);
    OccursStep(c, q, w);
  }

  lemma SeenOccurs(c: Config, q: seq<WMT>, w: WMT, k: nat)
    requires AllGrouped(c, q) && Grouped(c, w) && k < |q| && GroupOf(c, q[k]) == GroupOf(c, w)
    ensures forall x :: x in CandidatesFor(c, w) ==> Occurs(c, q, x.0)
  {
    forall x | x in CandidatesFor(c, w) ensures Occurs(c, q, x.0) {
      assert x in CandidatesFor(c, q[k]);
    }
  }

  lemma HistogramStep(c: Config, q: seq<WMT>, w: WMT, info: MacrotaskInfo, info2: MacrotaskInfo)
    requires AllGrouped(c, q) && Grouped(c, w) && AllGrouped(c, q + [w]) && HistogramOf(c, q, info)
    requires info2 == info[GroupOf(c, w) := (CountOf(c, q, GroupOf(c, w)) + 1, 1)]
    ensures HistogramOf(c, q + [w], info2)
  {
    hide Grouped, CountOf;
    TableOfGroup(c, w);
    var p := q + [w];
    forall i | 0 <= i < |p| ensures GroupOf(c, p[i]) in info2 {
      if i < |q| { assert p[i] == q[i]; }
    }
    forall g | g in info2 ensures IsGroup(c, g) && info2[g].0 == CountOf(c, p, g) > 0 {
      CountStep(c, q, w, g);
    }
  }

  lemma CountStep(c: Config, q: seq<WMT>, w: WMT, g: GroupKey)
    requires AllGrouped(c, q) && Grouped(c, w) && AllGrouped(c, q + [w])
    ensures CountOf(c, q + [w], g) == CountOf(c, q, g) + if GroupOf(c, w) == g then 1 else 0
  {
    var p := q + [w];
    assert p[..|p| - 1] == q && p[|p| - 1] == w;
  }

  function Efficiencies(s: seq<Candidate>): (r: seq<real>)
    ensures forall e :: e in r <==> exists x :: x in s && x.0 == e
  {
    if s == [] then [] else
      assert s == s[..|s| - 1] + [s[|s| - 1]];
      Efficiencies(s[..|s| - 1]) + [s[|s| - 1].0]
  }

  lemma OccursStep(c: Config, q: seq<WMT>, w: WMT)
    requires AllGrouped(c, q) && Grouped(c, w) && AllGrouped(c, q + [w])
    ensures forall e :: Occurs(c, q + [w], e) <==>
              (Occurs(c, q, e) || exists x :: x in CandidatesFor(c, w) && x.0 == e)
  {
    var p := q + [w];
    forall e ensures Occurs(c, p, e) <==> (Occurs(c, q, e) || exists x :: x in CandidatesFor(c, w) && x.0 == e) {
      if Occurs(c, q, e) {
        var k, x :| 0 <= k < |q| && x in CandidatesFor(c, q[k]) && x.0 == e;
        assert p[k] == q[k];
      }
      if x :| x in CandidatesFor(c, w) && x.0 == e {
        assert p[|q|] == w;
      }
    }
  }

  /** Every queue has its thresholds. */
  lemma ThresholdsExist(c: Config, q: seq<WMT>) returns (t: seq<real>)
    requires AllGrouped(c, q)
    ensures ThresholdsOf(c, q, t)
  {
    var list := ListExists(c, q);
    UniqueLists(list);
    t := Unique(SortBy(Larger, list));
  }

  lemma {:induction false} ListExists(c: Config, q: seq<WMT>) returns (list: seq<real>)
    requires AllGrouped(c, q)
    ensures Lists(c, q, list)
  {
    list := [];
    if q != [] {
      var p, w := q[..|q| - 1], q[|q| - 1];
      list := ListExists(c, p);
      list := list + Efficiencies(CandidatesFor(c, w));
      assert q == p + [w];
      OccursStep(c, p, w);
    }
  }

  lemma {:induction false} CountAbsent(c: Config, q: seq<WMT>, g: GroupKey)
    requires AllGrouped(c, q)
    ensures (forall k :: 0 <= k < |q| ==> GroupOf(c, q[k]) != g) ==> CountOf(c, q, g) == 0
  {
    if q != [] { CountAbsent(c, q[..|q| - 1], g); }
  }
}
