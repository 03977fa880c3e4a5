/** Which tables bits2020 can work with on a machine with less than four threads. */
module SmallMachines {
  import opened Sequences
  import opened ExecTimeInfo
  import opened Tasks
  import opened Thresholds
  import opened Search

  /** Threads of the most efficient candidate. */
  function Fewest(s: seq<Candidate>): nat
    requires s != []
  {
    s[|s| - 1].1
  }

  lemma FewestAtTop(s: seq<Candidate>)
    requires s != [] && Frontier(s)
    ensures Defined(s, Top(s)) && Chosen(s, Top(s)) == Fewest(s)
  {
    DefinedUpToTop(s, Top(s));
    assert LowerBound(s, Top(s)) == |s| - 1;
  }

  /** If the first threshold is within all tables, its total decides. */
  lemma FirstDecides(n: Totals, available: nat)
    requires Rising(n) && |n| > 1 && n[0].Some?
    ensures Sound(n, available) <==> n[0].value <= available
  {
    hide Probes, EndOf;
    forall i | 0 <= i < |n| ensures n[i].Some? && (i > 0 ==> n[0].value < n[i].value) {}
    EndIsLast(n, available, 0, 0, |n|);
  }

  // ---- two threads ----

  /** With two threads at most the search always stays within the tables. */
  lemma InTablesOnTwo(c: Config, maxThreads: nat)
    requires maxThreads <= 2
    ensures AlwaysInTables(c, maxThreads)
  {
    hide Grouped, ThresholdsOf, InTables;
    forall q, t, free | Offered(c, q, t, free, maxThreads) ensures InTables(TotalsAt(c, q, t), free) {
      SameTopsStay(c, q, t, free);
    }
  }

  lemma SoundOnOne(c: Config, maxThreads: nat)
    requires maxThreads <= 1
    ensures AlwaysSound(c, maxThreads)
  {
    hide Grouped, Sound;
    forall q, t, free | Offered(c, q, t, free, maxThreads) ensures Sound(TotalsAt(c, q, t), free) {
      assert q == [];
      NobodyIsSound(c, t, free);
    }
  }

  lemma NobodyIsSound(c: Config, t: seq<real>, free: nat)
    requires ThresholdsOf(c, [], t)
    ensures Sound(TotalsAt(c, [], t), free)
  {
    NothingListed(c, t);
    NothingToSearch(TotalsAt(c, [], t), free);
  }

  lemma NothingToSearch(n: Totals, available: nat)
    requires |n| <= 1
    ensures Sound(n, available)
  {
  }

  /** A single macrotask: its first threshold is its top, and there are as many as it
      has candidates. */
  lemma Alone(c: Config, w: WMT, t: seq<real>)
    requires Grouped(c, w) && AllGrouped(c, [w]) && ThresholdsOf(c, [w], t)
    ensures t != [] && t[0] == Top(CandidatesFor(c, w)) && AllDefined(c, [w], t[0])
    ensures TotalThreads(c, [w], t[0]) == Fewest(CandidatesFor(c, w))
    ensures |t| == 1 <==> |CandidatesFor(c, w)| == 1
  {
    hide Grouped;
    var s := CandidatesFor(c, w);
    var q := [w];
    TopIsListed(c, q, t, 0);
    FirstIsGreatest(t, Top(s));
    ListedIsBelow(c, w, t, 0);
    FewestAtTop(s);
    assert q[..0] == [];
    assert TotalThreads(c, q, t[0]) == ChosenFor(c, w, t[0]);
    if |s| > 1 {
      IsListed(c, q, t, 0, s[0]);
      TwoListed(t, s[0].0, Top(s));
    }
    if |t| > 1 { ListedIsBelow(c, w, t, 1); }
  }

  lemma ListedIsBelow(c: Config, w: WMT, t: seq<real>, k: nat)
    requires Grouped(c, w) && AllGrouped(c, [w]) && Lists(c, [w], t) && k < |t|
    ensures t[k] <= Top(CandidatesFor(c, w))
    ensures |CandidatesFor(c, w)| == 1 ==> t[k] == Top(CandidatesFor(c, w))
  {
    assert t[k] in t;
    assert Occurs(c, [w], t[k]);
    var x :| x in CandidatesFor(c, w) && x.0 == t[k];
    BelowTop(CandidatesFor(c, w), x);
  }

  lemma AloneIsSound(c: Config, w: WMT, t: seq<real>, free: nat)
    requires Grouped(c, w) && AllGrouped(c, [w]) && ThresholdsOf(c, [w], t)
    ensures Sound(TotalsAt(c, [w], t), free) <==> |CandidatesFor(c, w)| == 1 || Fewest(CandidatesFor(c, w)) <= free
  {
    hide Grouped, ThresholdsOf, AllDefined, TotalThreads, Sound, Rising;
    Alone(c, w, t);
    var n := TotalsAt(c, [w], t);
    if |t| > 1 {
      TotalsRise(c, [w], t);
      FirstDecides(n, free);
    } else {
      NothingToSearch(n, free);
    }
  }

  /** With two threads both asserts hold always, if and only if no table with a choice
      asks for more than two threads at its most efficient. */
  lemma SoundOnTwoIff(c: Config)
    ensures AlwaysSound(c, 2) <==>
              forall w :: Grouped(c, w) ==> |CandidatesFor(c, w)| == 1 || Fewest(CandidatesFor(c, w)) <= 2
  {
    hide Grouped, ThresholdsOf, Sound;
    if AlwaysSound(c, 2) {
      forall w | Grouped(c, w) ensures |CandidatesFor(c, w)| == 1 || Fewest(CandidatesFor(c, w)) <= 2 {
        assert AllGrouped(c, [w]);
        var t := ThresholdsExist(c, [w]);
        assert Offered(c, [w], t, 2, 2);
        AloneIsSound(c, w, t, 2);
      }
    }
    if forall w :: Grouped(c, w) ==> |CandidatesFor(c, w)| == 1 || Fewest(CandidatesFor(c, w)) <= 2 {
      forall q, t, free | Offered(c, q, t, free, 2) ensures Sound(TotalsAt(c, q, t), free) {
        if q == [] {
          NobodyIsSound(c, t, free);
        } else {
          assert q == [q[0]];
          AloneIsSound(c, q[0], t, free);
        }
      }
    }
  }

  // ---- three threads ----

  /** The total of two macrotasks. */
  lemma TotalOfTwo(c: Config, v: WMT, w: WMT, e: real)
    requires Grouped(c, v) && Grouped(c, w) && AllGrouped(c, [v, w])
    ensures TotalThreads(c, [v, w], e) == ChosenFor(c, v, e) + ChosenFor(c, w, e)
    ensures AllDefined(c, [v, w], e) <==> Defined(CandidatesFor(c, v), e) && Defined(CandidatesFor(c, w), e)
  {
    hide Grouped;
    var q := [v, w];
    assert q[0] == v && q[1] == w;
    assert q[..1] == [v] && [v][..0] == [];
    assert TotalThreads(c, [v], e) == ChosenFor(c, v, e);
  }

  /** Whichever of the two comes first. */
  lemma EitherOrder(c: Config, v: WMT, w: WMT, t: seq<real>)
    requires Grouped(c, v) && Grouped(c, w) && AllGrouped(c, [v, w]) && AllGrouped(c, [w, v])
    ensures TotalsAt(c, [v, w], t) == TotalsAt(c, [w, v], t)
    ensures ThresholdsOf(c, [v, w], t) <==> ThresholdsOf(c, [w, v], t)
  {
    hide Grouped, TotalThreads, AllDefined, Defined;
    forall e
      ensures TotalThreads(c, [v, w], e) == TotalThreads(c, [w, v], e)
      ensures AllDefined(c, [v, w], e) <==> AllDefined(c, [w, v], e)
    {
      TotalOfTwo(c, v, w, e);
      TotalOfTwo(c, w, v, e);
    }
    assert TotalsAt(c, [v, w], t) == TotalsAt(c, [w, v], t);
    forall e ensures Occurs(c, [v, w], e) <==> Occurs(c, [w, v], e) {
      OccursInTwo(c, v, w, e);
      OccursInTwo(c, w, v, e);
    }
  }

  lemma OccursInTwo(c: Config, v: WMT, w: WMT, e: real)
    requires Grouped(c, v) && Grouped(c, w) && AllGrouped(c, [v, w])
    ensures Occurs(c, [v, w], e) <==>
              exists x :: (x in CandidatesFor(c, v) || x in CandidatesFor(c, w)) && x.0 == e
  {
    hide Grouped;
    var q := [v, w];
    if x :| (x in CandidatesFor(c, v) || x in CandidatesFor(c, w)) && x.0 == e {
      assert x in CandidatesFor(c, q[0]) || x in CandidatesFor(c, q[1]);
    }
  }

  /** Halving comes from `r` to `d`. */
  ghost predicate Halves(r: nat, d: nat) {
    r > 1 && (r / 2 == d || Halves(r / 2, d))
  }

  /** If the first total there is uses all free threads, the search stays within the
      tables if and only if halving comes to it. */
  lemma {:induction false} FoundByHalving(n: Totals, available: nat, d: nat, m: nat, r: nat)
    requires Rising(n) && 0 < d < r <= |n| && n[d] == Some(available)
    requires forall i :: 0 <= i < d ==> n[i].None?
    ensures Clear(n, available, 0, m, r) <==> Halves(r, d)
    ensures Halves(r, d) ==> EndOf(n, available, 0, r) == d
    decreases r
  {
    ClearStep(n, available, 0, m, r);
    var k := r / 2;
    if k > d {
      FoundByHalving(n, available, d, k, k);
    } else if k < d {
      NotBelow(k, d);
    }
  }

  lemma {:induction false} NotBelow(r: nat, d: nat)
    requires r <= d
    ensures !Halves(r, d)
  {
    if r > 1 { NotBelow(r / 2, d); }
  }

  lemma {:induction false} HalvesToOne(r: nat)
    requires r > 1
    ensures Halves(r, 1)
  {
    if r / 2 > 1 { HalvesToOne(r / 2); }
  }

  /** If `v` has the greater top, lookups reach the end of the table of `w` before the
      top of `w`, and none does there. */
  lemma FirstShared(c: Config, v: WMT, w: WMT, t: seq<real>) returns (d: nat)
    requires Grouped(c, v) && Grouped(c, w) && AllGrouped(c, [v, w]) && ThresholdsOf(c, [v, w], t)
    requires Top(CandidatesFor(c, v)) > Top(CandidatesFor(c, w))
    ensures 0 < d < |t| && t[d] == Top(CandidatesFor(c, w))
    ensures forall i :: 0 <= i < d ==> TotalsAt(c, [v, w], t)[i].None?
    ensures TotalsAt(c, [v, w], t)[d] == Some(ChosenFor(c, v, t[d]) + Fewest(CandidatesFor(c, w)))
  {
    hide Grouped, TotalThreads, AllDefined;
    var q := [v, w];
    var s, u := CandidatesFor(c, v), CandidatesFor(c, w);
    TopIsListed(c, q, t, 0);
    TopIsListed(c, q, t, 1);
    d :| 0 <= d < |t| && t[d] == Top(u);
    FirstIsGreatest(t, Top(s));
    forall i | 0 <= i < d ensures TotalsAt(c, q, t)[i].None? {
      TotalOfTwo(c, v, w, t[i]);
      DefinedUpToTop(u, t[i]);
    }
    TotalOfTwo(c, v, w, t[d]);
    DefinedUpToTop(s, t[d]);
    FewestAtTop(u);
  }

  /** Two macrotasks with different tops on three threads. */
  ghost predicate OnThree(c: Config, v: WMT, w: WMT, t: seq<real>)
    requires Grouped(c, v) && Grouped(c, w)
  {
    forall d :: 0 <= d < |t| && t[d] == Top(CandidatesFor(c, w)) ==>
      ChosenFor(c, v, t[d]) + Fewest(CandidatesFor(c, w)) == 3 && Halves(|t|, d)
  }

  lemma OnlyThere(t: seq<real>, d: nat, e: real)
    requires Descending(t) && d < |t| && t[d] == e
    ensures forall i :: 0 <= i < |t| && t[i] == e ==> i == d
  {
  }

  lemma PairOnThree(c: Config, v: WMT, w: WMT, t: seq<real>)
    requires Grouped(c, v) && Grouped(c, w) && AllGrouped(c, [v, w]) && ThresholdsOf(c, [v, w], t) && AllGenuine(c)
    requires Top(CandidatesFor(c, v)) > Top(CandidatesFor(c, w))
    ensures InTables(TotalsAt(c, [v, w], t), 3) <==> OnThree(c, v, w, t)
  {
    hide Grouped, TotalThreads, AllDefined, Clear, EndOf, Halves;
    var n := TotalsAt(c, [v, w], t);
    var d := FirstShared(c, v, w, t);
    OnlyThere(t, d, Top(CandidatesFor(c, w)));
    AtLeastThree(c, v, w, t[d]);
    TotalsRise(c, [v, w], t);
    hide ThresholdsOf, CandidatesFor, ChosenFor, Fewest, AllGenuine;
    if n[d].value == 3 {
      FoundByHalving(n, 3, d, 0, |n|);
    } else {
      EndsAtFirst(n, 3, 0, |n|);
    }
  }

  lemma AtLeastThree(c: Config, v: WMT, w: WMT, e: real)
    requires Grouped(c, v) && Grouped(c, w) && AllGenuine(c) && e == Top(CandidatesFor(c, w))
    requires Top(CandidatesFor(c, v)) > Top(CandidatesFor(c, w))
    ensures ChosenFor(c, v, e) + Fewest(CandidatesFor(c, w)) >= 3
  {
    hide Grouped;
    var s, u := CandidatesFor(c, v), CandidatesFor(c, w);
    assert Genuine(s) && Genuine(u);
    DefinedUpToTop(s, e);
    AtLeastTwo(s, e);
    assert u[|u| - 1] in u;
  }

  ghost predicate StaysOnThree(c: Config, v: WMT, w: WMT)
    requires Grouped(c, v) && Grouped(c, w)
  {
    forall t :: AllGrouped(c, [v, w]) && ThresholdsOf(c, [v, w], t) ==> OnThree(c, v, w, t)
  }

  /** With three threads the search always stays within the tables, if and only if for
      any two with different tops the total at the lower top is 3 and halving comes to
      its index. */
  lemma InTablesOnThreeIff(c: Config)
    requires AllGenuine(c)
    ensures AlwaysInTables(c, 3) <==>
              forall v, w :: Grouped(c, v) && Grouped(c, w) && Top(CandidatesFor(c, v)) > Top(CandidatesFor(c, w)) ==>
                StaysOnThree(c, v, w)
  {
    hide Grouped, ThresholdsOf, InTables, AllGenuine, OnThree;
    if AlwaysInTables(c, 3) {
      forall v, w | Grouped(c, v) && Grouped(c, w) && Top(CandidatesFor(c, v)) > Top(CandidatesFor(c, w))
        ensures StaysOnThree(c, v, w)
      {
        forall t | AllGrouped(c, [v, w]) && ThresholdsOf(c, [v, w], t) ensures OnThree(c, v, w, t) {
          assert Offered(c, [v, w], t, 3, 3);
          PairOnThree(c, v, w, t);
        }
      }
    }
    if forall v, w :: Grouped(c, v) && Grouped(c, w) && Top(CandidatesFor(c, v)) > Top(CandidatesFor(c, w)) ==>
         StaysOnThree(c, v, w)
    {
      forall q, t, free | Offered(c, q, t, free, 3) ensures InTables(TotalsAt(c, q, t), free) {
        AtMostTwo(c, q, t, free);
      }
    }
  }

  lemma AtMostTwo(c: Config, q: seq<WMT>, t: seq<real>, free: nat)
    requires AllGenuine(c) && Offered(c, q, t, free, 3)
    requires forall v, w :: Grouped(c, v) && Grouped(c, w) && Top(CandidatesFor(c, v)) > Top(CandidatesFor(c, w)) ==>
               StaysOnThree(c, v, w)
    ensures InTables(TotalsAt(c, q, t), free)
  {
    hide Grouped, ThresholdsOf, InTables, AllGenuine, OnThree;
    if |q| == 2 && Top(CandidatesFor(c, q[0])) > Top(CandidatesFor(c, q[1])) {
      assert q == [q[0], q[1]];
      PairOnThree(c, q[0], q[1], t);
    } else if |q| == 2 && Top(CandidatesFor(c, q[0])) < Top(CandidatesFor(c, q[1])) {
      assert q == [q[0], q[1]] && AllGrouped(c, [q[1], q[0]]);
      EitherOrder(c, q[0], q[1], t);
      PairOnThree(c, q[1], q[0], t);
    } else {
      SameTopsStay(c, q, t, free);
    }
  }

  /** Two tables that bits2020 can serve together with three threads: with equal tops
      there is no choice or the most efficient counts fit; with different ones the
      greater is all there is to choose, and the two counts are just three. */
  predicate FitTogether(s: seq<Candidate>, u: seq<Candidate>)
    requires s != [] && u != []
  {
    if Top(s) == Top(u) then (|s| == 1 && |u| == 1) || Fewest(s) + Fewest(u) <= 3
    else if Top(s) > Top(u) then |s| == 1 && Fewest(s) + Fewest(u) == 3
    else |u| == 1 && Fewest(s) + Fewest(u) == 3
  }

  lemma EqualTops(c: Config, v: WMT, w: WMT, t: seq<real>)
    requires Grouped(c, v) && Grouped(c, w) && AllGrouped(c, [v, w]) && ThresholdsOf(c, [v, w], t)
    requires Top(CandidatesFor(c, v)) == Top(CandidatesFor(c, w))
    ensures Sound(TotalsAt(c, [v, w], t), 3) <==> FitTogether(CandidatesFor(c, v), CandidatesFor(c, w))
  {
    hide Grouped, TotalThreads, AllDefined, Sound, Rising;
    var s, u := CandidatesFor(c, v), CandidatesFor(c, w);
    var n := TotalsAt(c, [v, w], t);
    FirstOfTwo(c, v, w, t);
    if |t| > 1 {
      TotalsRise(c, [v, w], t);
      FirstDecides(n, 3);
    } else {
      NothingToSearch(n, 3);
    }
  }

  lemma FirstOfTwo(c: Config, v: WMT, w: WMT, t: seq<real>)
    requires Grouped(c, v) && Grouped(c, w) && AllGrouped(c, [v, w]) && ThresholdsOf(c, [v, w], t)
    requires Top(CandidatesFor(c, v)) == Top(CandidatesFor(c, w))
    ensures t != [] && TotalsAt(c, [v, w], t)[0] == Some(Fewest(CandidatesFor(c, v)) + Fewest(CandidatesFor(c, w)))
    ensures |t| == 1 <==> |CandidatesFor(c, v)| == 1 && |CandidatesFor(c, w)| == 1
  {
    hide Grouped, TotalThreads, AllDefined;
    var s, u := CandidatesFor(c, v), CandidatesFor(c, w);
    var q := [v, w];
    TopIsListed(c, q, t, 0);
    FirstIsGreatest(t, Top(s));
    ListedInTwo(c, v, w, t, 0);
    TotalOfTwo(c, v, w, t[0]);
    FewestAtTop(s);
    FewestAtTop(u);
    if |s| > 1 {
      IsListed(c, q, t, 0, s[0]);
      TwoListed(t, s[0].0, Top(s));
    }
    if |u| > 1 {
      IsListed(c, q, t, 1, u[0]);
      TwoListed(t, u[0].0, Top(s));
    }
    if |t| > 1 { ListedInTwo(c, v, w, t, 1); }
  }

  /** A threshold is at most the top of one of the two tables, and above the other's
      only if it is from that one. */
  lemma ListedInTwo(c: Config, v: WMT, w: WMT, t: seq<real>, k: nat)
    requires Grouped(c, v) && Grouped(c, w) && AllGrouped(c, [v, w]) && Lists(c, [v, w], t) && k < |t|
    ensures t[k] <= Top(CandidatesFor(c, v)) || t[k] <= Top(CandidatesFor(c, w))
    ensures |CandidatesFor(c, v)| == 1 ==>
              t[k] == Top(CandidatesFor(c, v)) || t[k] <= Top(CandidatesFor(c, w))
    ensures |CandidatesFor(c, v)| == 1 && |CandidatesFor(c, w)| == 1 ==>
              t[k] == Top(CandidatesFor(c, v)) || t[k] == Top(CandidatesFor(c, w))
  {
    hide Grouped;
    assert t[k] in t;
    OccursInTwo(c, v, w, t[k]);
    var x :| (x in CandidatesFor(c, v) || x in CandidatesFor(c, w)) && x.0 == t[k];
    if x in CandidatesFor(c, v) { BelowTop(CandidatesFor(c, v), x); } else { BelowTop(CandidatesFor(c, w), x); }
  }

  /** With the greater top and one candidate only. */
  lemma GreaterTop(c: Config, v: WMT, w: WMT, t: seq<real>)
    requires Grouped(c, v) && Grouped(c, w) && AllGrouped(c, [v, w]) && ThresholdsOf(c, [v, w], t) && AllGenuine(c)
    requires Top(CandidatesFor(c, v)) > Top(CandidatesFor(c, w)) && |CandidatesFor(c, v)| == 1
    ensures Sound(TotalsAt(c, [v, w], t), 3) <==> FitTogether(CandidatesFor(c, v), CandidatesFor(c, w))
  {
    hide Grouped, TotalThreads, AllDefined, Clear, EndOf, Halves;
    var n := TotalsAt(c, [v, w], t);
    var d := FirstShared(c, v, w, t);
    OnlyOneAbove(c, v, w, t, d);
    AtLeastThree(c, v, w, t[d]);
    OneChoice(c, v, t[d]);
    TotalsRise(c, [v, w], t);
    hide ThresholdsOf, CandidatesFor, ChosenFor, AllGenuine;
    if n[1].value == 3 {
      HalvesToOne(|n|);
      FoundByHalving(n, 3, 1, 0, |n|);
    } else {
      EndsAtFirst(n, 3, 0, |n|);
    }
  }

  lemma OnlyOneAbove(c: Config, v: WMT, w: WMT, t: seq<real>, d: nat)
    requires Grouped(c, v) && Grouped(c, w) && AllGrouped(c, [v, w]) && ThresholdsOf(c, [v, w], t)
    requires |CandidatesFor(c, v)| == 1 && 0 < d < |t| && t[d] == Top(CandidatesFor(c, w))
    ensures d == 1
  {
    hide Grouped;
    if d > 1 {
      ListedInTwo(c, v, w, t, 0);
      ListedInTwo(c, v, w, t, 1);
    }
  }

  lemma OneChoice(c: Config, v: WMT, e: real)
    requires Grouped(c, v) && |CandidatesFor(c, v)| == 1 && e <= Top(CandidatesFor(c, v))
    ensures ChosenFor(c, v, e) == Fewest(CandidatesFor(c, v))
  {
    hide Grouped;
    DefinedUpToTop(CandidatesFor(c, v), e);
  }

  /** With three threads both asserts hold always, if and only if any two tables, one
      and the same among them, fit together. */
  lemma SoundOnThreeIff(c: Config)
    requires AllGenuine(c)
    ensures AlwaysSound(c, 3) <==>
              forall v, w :: Grouped(c, v) && Grouped(c, w) ==> FitTogether(CandidatesFor(c, v), CandidatesFor(c, w))
  {
    hide Grouped, ThresholdsOf, Sound, AllGenuine, FitTogether;
    if AlwaysSound(c, 3) {
      forall v, w | Grouped(c, v) && Grouped(c, w) ensures FitTogether(CandidatesFor(c, v), CandidatesFor(c, w)) {
        SoundPairsFit(c, v, w);
      }
    }
    if forall v, w :: Grouped(c, v) && Grouped(c, w) ==> FitTogether(CandidatesFor(c, v), CandidatesFor(c, w)) {
      forall q, t, free | Offered(c, q, t, free, 3) ensures Sound(TotalsAt(c, q, t), free) {
        FittingIsSound(c, q, t, free);
      }
    }
  }

  lemma PairIsSound(c: Config, v: WMT, w: WMT) returns (t: seq<real>)
    requires AlwaysSound(c, 3) && Grouped(c, v) && Grouped(c, w)
    ensures AllGrouped(c, [v, w]) && ThresholdsOf(c, [v, w], t) && Sound(TotalsAt(c, [v, w], t), 3)
  {
    hide Grouped, ThresholdsOf, Sound;
    assert AllGrouped(c, [v, w]);
    t := ThresholdsExist(c, [v, w]);
    assert Offered(c, [v, w], t, 3, 3);
  }

  /** A table that bits2020 can serve twice with three threads leaves no choice above
      efficiency one. */
  lemma NoChoiceAboveOne(c: Config, v: WMT)
    requires AlwaysSound(c, 3) && AllGenuine(c) && Grouped(c, v) && Top(CandidatesFor(c, v)) > 1.0
    ensures |CandidatesFor(c, v)| == 1
  {
    hide Grouped, ThresholdsOf, Sound, AlwaysSound;
    var t := PairIsSound(c, v, v);
    EqualTops(c, v, v, t);
    FewestAtTop(CandidatesFor(c, v));
    AtLeastTwo(CandidatesFor(c, v), Top(CandidatesFor(c, v)));
  }

  lemma SoundPairsFit(c: Config, v: WMT, w: WMT)
    requires AlwaysSound(c, 3) && AllGenuine(c) && Grouped(c, v) && Grouped(c, w)
    ensures FitTogether(CandidatesFor(c, v), CandidatesFor(c, w))
  {
    var s, u := CandidatesFor(c, v), CandidatesFor(c, w);
    assert Genuine(s) && Genuine(u);
    hide Grouped, ThresholdsOf, Sound, AlwaysSound, AllGenuine;
    if Top(s) == Top(u) {
      var t := PairIsSound(c, v, w);
      EqualTops(c, v, w, t);
    } else if Top(s) > Top(u) {
      NoChoiceAboveOne(c, v);
      var t := PairIsSound(c, v, w);
      GreaterTop(c, v, w, t);
    } else {
      NoChoiceAboveOne(c, w);
      var t := PairIsSound(c, w, v);
      GreaterTop(c, w, v, t);
    }
  }

  lemma FittingIsSound(c: Config, q: seq<WMT>, t: seq<real>, free: nat)
    requires AllGenuine(c) && Offered(c, q, t, free, 3)
    requires forall v, w :: Grouped(c, v) && Grouped(c, w) ==> FitTogether(CandidatesFor(c, v), CandidatesFor(c, w))
    ensures Sound(TotalsAt(c, q, t), free)
  {
    hide Grouped, ThresholdsOf, Sound, AllGenuine;
    if q == [] {
      NobodyIsSound(c, t, free);
    } else if |q| == 1 {
      assert q == [q[0]] && FitTogether(CandidatesFor(c, q[0]), CandidatesFor(c, q[0]));
      AloneIsSound(c, q[0], t, free);
    } else {
      assert q == [q[0], q[1]] && AllGrouped(c, [q[1], q[0]]);
      assert FitTogether(CandidatesFor(c, q[0]), CandidatesFor(c, q[1]));
      if Top(CandidatesFor(c, q[0])) == Top(CandidatesFor(c, q[1])) {
        EqualTops(c, q[0], q[1], t);
      } else if Top(CandidatesFor(c, q[0])) > Top(CandidatesFor(c, q[1])) {
        GreaterTop(c, q[0], q[1], t);
      } else {
        EitherOrder(c, q[0], q[1], t);
        GreaterTop(c, q[1], q[0], t);
      }
    }
  }
}
