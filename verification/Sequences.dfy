/** Containers of the standard library that the system builds on: sorted
    vectors, binary heaps and sums over their elements. */
module Sequences {

  datatype Option<+T> = None | Some(value: T)

  /** `s` without its `i`-th element. */
  function RemoveAt<T>(s: seq<T>, i: nat): (r: seq<T>)
    requires i < |s|
    ensures |r| == |s| - 1
    ensures multiset(r) == multiset(s) - multiset{s[i]}
  {
    assert s == s[..i] + [s[i]] + s[i + 1..];
    s[..i] + s[i + 1..]
  }

  function Sum(s: seq<nat>): nat {
    if s == [] then 0 else Sum(s[..|s| - 1]) + s[|s| - 1]
  }

  lemma {:induction false} SumConcat(a: seq<nat>, b: seq<nat>)
    ensures Sum(a + b) == Sum(a) + Sum(b)
  {
    if b == [] {
      assert a + b == a;
    } else {
      SumConcat(a, b[..|b| - 1]);
      assert (a + b)[..|a + b| - 1] == a + b[..|b| - 1];
    }
  }

  lemma SumRemoveAt(s: seq<nat>, i: nat)
    requires i < |s|
    ensures Sum(RemoveAt(s, i)) + s[i] == Sum(s)
  {
    var front, back := s[..i], s[i + 1..];
    SumConcat(front, back);
    SumConcat(s[..i + 1], back);
    assert s[..i + 1][..i] == front;
    assert s == s[..i + 1] + back;
  }

  lemma {:induction false} SumOfPermutation(a: seq<nat>, b: seq<nat>)
    requires multiset(a) == multiset(b)
    ensures Sum(a) == Sum(b)
  {
    if a == [] {
      assert |multiset(a)| == |multiset(b)|;
    } else {
      var k := |a| - 1;
      assert a[k] in multiset(b);
      var i :| 0 <= i < |b| && b[i] == a[k];
      assert a == a[..k] + [a[k]];
      SumOfPermutation(a[..k], RemoveAt(b, i));
      SumRemoveAt(b, i);
    }
  }

  /** The sum of `f` over the elements of a multiset. */
  ghost function Total<A(!new)>(f: A -> nat, m: multiset<A>): nat {
    if m == multiset{} then 0 else
      var x :| x in m;
      f(x) + Total(f, m - multiset{x})
  }

  /** The element that the total takes first. */
  lemma TotalPick<A(!new)>(f: A -> nat, m: multiset<A>) returns (y: A)
    requires m != multiset{}
    ensures y in m && Total(f, m) == f(y) + Total(f, m - multiset{y})
  {
    y :| y in m && Total(f, m) == f(y) + Total(f, m - multiset{y});
  }

  lemma {:induction false} TotalRemove<A(!new)>(f: A -> nat, m: multiset<A>, x: A)
    requires x in m
    ensures Total(f, m) == f(x) + Total(f, m - multiset{x})
    decreases |m|
  {
    hide Total;
    var y := TotalPick(f, m);
    if y != x {
      TotalRemove(f, m - multiset{y}, x);
      TotalRemove(f, m - multiset{x}, y);
      assert m - multiset{y} - multiset{x} == m - multiset{x} - multiset{y};
    }
  }

  lemma TotalAdd<A(!new)>(f: A -> nat, m: multiset<A>, x: A)
    ensures Total(f, m + multiset{x}) == f(x) + Total(f, m)
  {
    TotalRemove(f, m + multiset{x}, x);
    assert m + multiset{x} - multiset{x} == m;
  }

  lemma TotalAppend<A(!new)>(f: A -> nat, s: seq<A>, x: A)
    ensures Total(f, multiset(s + [x])) == Total(f, multiset(s)) + f(x)
  {
    assert multiset(s + [x]) == multiset(s) + multiset{x};
    TotalAdd(f, multiset(s), x);
  }

  lemma {:induction false} TotalUnion<A(!new)>(f: A -> nat, a: multiset<A>, b: multiset<A>)
    ensures Total(f, a + b) == Total(f, a) + Total(f, b)
    decreases |b|
  {
    if b == multiset{} {
      assert a + b == a;
    } else {
      var x :| x in b;
      TotalRemove(f, b, x);
      TotalRemove(f, a + b, x);
      assert a + b - multiset{x} == a + (b - multiset{x});
      TotalUnion(f, a, b - multiset{x});
    }
  }

  /** A positive sum has a positive summand. */
  lemma {:induction false} TotalWitness<A(!new)>(f: A -> nat, m: multiset<A>) returns (x: A)
    requires Total(f, m) > 0
    ensures x in m && f(x) > 0
    decreases |m|
  {
    var y :| y in m && Total(f, m) == f(y) + Total(f, m - multiset{y});
    if f(y) > 0 { x := y; } else { x := TotalWitness(f, m - multiset{y}); }
  }

  /** What every comparison handed to std::sort and std::priority_queue must be. */
  ghost predicate StrictWeakOrder<T(!new)>(less: (T, T) -> bool) {
    && (forall x :: !less(x, x))
    && (forall x, y, z :: less(x, y) && less(y, z) ==> less(x, z))
    && (forall x, y, z :: less(x, y) ==> less(x, z) || less(z, y))
  }

  ghost predicate SortedBy<T>(less: (T, T) -> bool, s: seq<T>) {
    forall i, j :: 0 <= i < j < |s| ==> !less(s[j], s[i])
  }

  function InsertBy<T>(less: (T, T) -> bool, x: T, s: seq<T>): (r: seq<T>)
    ensures multiset(r) == multiset(s) + multiset{x}
  {
    if s == [] then [x]
    else if less(x, s[0]) then [x] + s
    else
      assert s == [s[0]] + s[1..];
      [s[0]] + InsertBy(less, x, s[1..])
  }

  /** std::sort with the comparison `less`. */
  function SortBy<T>(less: (T, T) -> bool, s: seq<T>): (r: seq<T>)
    ensures multiset(r) == multiset(s)
  {
    if s == [] then [] else
      assert s == [s[0]] + s[1..];
      InsertBy(less, s[0], SortBy(less, s[1..]))
  }

  lemma {:induction false} InsertBySorted<T(!new)>(less: (T, T) -> bool, x: T, s: seq<T>)
    requires StrictWeakOrder(less) && SortedBy(less, s)
    ensures SortedBy(less, InsertBy(less, x, s))
  {
    if s == [] || less(x, s[0]) {
    } else {
      InsertBySorted(less, x, s[1..]);
      var r := InsertBy(less, x, s[1..]);
      forall j | 0 <= j < |r| ensures !less(r[j], s[0]) {
        assert r[j] in multiset(r);
        if r[j] != x {
          assert r[j] in multiset(s[1..]);
        }
      }
    }
  }

  lemma {:induction false} SortBySorted<T(!new)>(less: (T, T) -> bool, s: seq<T>)
    requires StrictWeakOrder(less)
    ensures SortedBy(less, SortBy(less, s))
  {
    if s != [] {
      SortBySorted(less, s[1..]);
      InsertBySorted(less, s[0], SortBy(less, s[1..]));
    }
  }

  /** A binary heap seen from outside: its first element is one that no other
      element precedes; the rest are in some order. */
  ghost predicate HeapBy<T>(less: (T, T) -> bool, h: seq<T>) {
    forall i :: 0 <= i < |h| ==> !less(h[i], h[0])
  }

  lemma {:induction false} MinimalExists<T(!new)>(less: (T, T) -> bool, s: seq<T>) returns (i: nat)
    requires StrictWeakOrder(less) && s != []
    ensures i < |s| && forall j :: 0 <= j < |s| ==> !less(s[j], s[i])
  {
    if |s| == 1 {
      i := 0;
    } else {
      var k := |s| - 1;
      i := MinimalExists(less, s[..k]);
      if less(s[k], s[i]) {
        forall j | 0 <= j < |s| ensures !less(s[j], s[k]) {
          if j < k { assert !less(s[..k][j], s[i]); }
        }
        i := k;
      } else {
        forall j | 0 <= j < |s| ensures !less(s[j], s[i]) {
          if j < k { assert !less(s[..k][j], s[i]); }
        }
      }
    }
  }

  /** Restores the heap shape after an insertion or a removal.  Which of several
      least elements comes first is left open, as std::priority_queue leaves it. */
  method Heapify<T(!new)>(less: (T, T) -> bool, s: seq<T>) returns (h: seq<T>)
    requires StrictWeakOrder(less)
    ensures multiset(h) == multiset(s)
    ensures HeapBy(less, h)
  {
    if s == [] {
      return [];
    }
    ghost var w := MinimalExists(less, s);
    var i :| 0 <= i < |s| && forall j :: 0 <= j < |s| ==> !less(s[j], s[i]);
    h := [s[i]] + RemoveAt(s, i);
    forall j | 0 <= j < |h| ensures !less(h[j], h[0]) {
      if j > 0 {
        assert RemoveAt(s, i)[j - 1] in multiset(s);
      }
    }
  }
}
