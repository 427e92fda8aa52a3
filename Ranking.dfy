/** `.sort((a, b) => b.quantidade - a.quantidade)` and `.slice(0, n)`:
    JavaScript's sort is stable, so the result is the one stable sort by
    non-increasing quantity, modelled here by insertion. */
module Ranking {
  import opened Collections

  predicate SortedDesc<T>(s: seq<T>, q: T -> nat) {
    forall i, j :: 0 <= i < j < |s| ==> q(s[i]) >= q(s[j])
  }

  /** Places `x` after every element whose quantity is at least its own. */
  function InsertDesc<T>(t: seq<T>, x: T, q: T -> nat): (r: seq<T>)
    ensures |r| == |t| + 1
  {
    if t == [] then [x]
    else if q(t[0]) >= q(x) then [t[0]] + InsertDesc(t[1..], x, q)
    else [x] + t
  }

  /** Insertion adds `x` and loses nothing. */
  lemma {:induction false} InsertPerm<T>(t: seq<T>, x: T, q: T -> nat)
    ensures multiset(InsertDesc(t, x, q)) == multiset(t) + multiset{x}
  {
    if t != [] && q(t[0]) >= q(x) {
      InsertPerm(t[1..], x, q);
      assert t == [t[0]] + t[1..];
    }
  }

  lemma {:induction false} InsertKeepsSorted<T>(t: seq<T>, x: T, q: T -> nat)
    requires SortedDesc(t, q)
    ensures SortedDesc(InsertDesc(t, x, q), q)
  {
    if t != [] && q(t[0]) >= q(x) {
      var rest := InsertDesc(t[1..], x, q);
      InsertKeepsSorted(t[1..], x, q);
      InsertPerm(t[1..], x, q);
      assert t == [t[0]] + t[1..];
      forall j | 0 <= j < |rest| ensures q(t[0]) >= q(rest[j]) {
        assert rest[j] in multiset(rest);
        if rest[j] != x {
          assert rest[j] in multiset(t[1..]);
          var k :| 0 <= k < |t[1..]| && t[1..][k] == rest[j];
          assert t[k + 1] == rest[j];
        }
      }
      assert InsertDesc(t, x, q) == [t[0]] + rest;
    }
  }

  /** The stable sort by non-increasing quantity. */
  function SortDesc<T>(s: seq<T>, q: T -> nat): (r: seq<T>)
    ensures |r| == |s|
  {
    if s == [] then []
    else InsertDesc(SortDesc(s[..|s| - 1], q), s[|s| - 1], q)
  }

  /** The sorted list is a permutation of the input. */
  lemma {:induction false} SortPerm<T>(s: seq<T>, q: T -> nat)
    ensures multiset(SortDesc(s, q)) == multiset(s)
  {
    if s != [] {
      SortPerm(s[..|s| - 1], q);
      InsertPerm(SortDesc(s[..|s| - 1], q), s[|s| - 1], q);
      assert s == s[..|s| - 1] + [s[|s| - 1]];
    }
  }

  lemma {:induction false} SortIsSorted<T>(s: seq<T>, q: T -> nat)
    ensures SortedDesc(SortDesc(s, q), q)
  {
    if s != [] {
      SortIsSorted(s[..|s| - 1], q);
      InsertKeepsSorted(SortDesc(s[..|s| - 1], q), s[|s| - 1], q);
    }
  }

  /** The elements whose quantity is `v`, in order. */
  function WithQuantity<T>(s: seq<T>, q: T -> nat, v: nat): seq<T> {
    if s == [] then [] else (if q(s[0]) == v then [s[0]] else []) + WithQuantity(s[1..], q, v)
  }

  lemma {:induction false} WithQuantityAppend<T>(a: seq<T>, b: seq<T>, q: T -> nat, v: nat)
    ensures WithQuantity(a + b, q, v) == WithQuantity(a, q, v) + WithQuantity(b, q, v)
  {
    if a == [] {
      assert a + b == b;
    } else {
      var head := if q(a[0]) == v then [a[0]] else [];
      var ab := a + b;
      assert ab[0] == a[0];
      assert ab[1..] == a[1..] + b;
      calc {
        WithQuantity(ab, q, v);
        head + WithQuantity(a[1..] + b, q, v);
        { WithQuantityAppend(a[1..], b, q, v); }
        head + (WithQuantity(a[1..], q, v) + WithQuantity(b, q, v));
        (head + WithQuantity(a[1..], q, v)) + WithQuantity(b, q, v);
        WithQuantity(a, q, v) + WithQuantity(b, q, v);
      }
    }
  }

  lemma {:induction false} NoneAbove<T>(t: seq<T>, q: T -> nat, v: nat)
    requires forall i :: 0 <= i < |t| ==> q(t[i]) < v
    ensures WithQuantity(t, q, v) == []
  {
    if t != [] {
      NoneAbove(t[1..], q, v);
    }
  }

  lemma WithQuantityCons<T>(y: T, s: seq<T>, q: T -> nat, v: nat)
    ensures WithQuantity([y] + s, q, v) == (if q(y) == v then [y] else []) + WithQuantity(s, q, v)
  {
    assert ([y] + s)[0] == y && ([y] + s)[1..] == s;
  }

  lemma {:induction false} InsertStable<T>(t: seq<T>, x: T, q: T -> nat, v: nat)
    requires SortedDesc(t, q)
    ensures WithQuantity(InsertDesc(t, x, q), q, v) == WithQuantity(t, q, v) + (if q(x) == v then [x] else [])
  {
    var single := if q(x) == v then [x] else [];
    if t == [] {
      WithQuantityCons(x, [], q, v);
      assert [x] + [] == [x];
    } else if q(t[0]) >= q(x) {
      var head := if q(t[0]) == v then [t[0]] else [];
      var rest := InsertDesc(t[1..], x, q);
      calc {
        WithQuantity(InsertDesc(t, x, q), q, v);
        { WithQuantityCons(t[0], rest, q, v); }
        head + WithQuantity(rest, q, v);
        { assert SortedDesc(t[1..], q); InsertStable(t[1..], x, q, v); }
        head + (WithQuantity(t[1..], q, v) + single);
        (head + WithQuantity(t[1..], q, v)) + single;
        WithQuantity(t, q, v) + single;
      }
    } else {
      WithQuantityCons(x, t, q, v);
      if q(x) == v {
        NoneAbove(t, q, v);
        assert [x] + [] == [] + [x];
      }
    }
  }

  /** Stability: among equal quantities the sorted order is the input order. */
  lemma {:induction false} SortStable<T>(s: seq<T>, q: T -> nat, v: nat)
    ensures WithQuantity(SortDesc(s, q), q, v) == WithQuantity(s, q, v)
  {
    if s != [] {
      var init, last := s[..|s| - 1], s[|s| - 1];
      var sorted := SortDesc(init, q);
      var single := if q(last) == v then [last] else [];
      calc {
        WithQuantity(SortDesc(s, q), q, v);
        { SortIsSorted(init, q); InsertStable(sorted, last, q, v); }
        WithQuantity(sorted, q, v) + single;
        { SortStable(init, q, v); }
        WithQuantity(init, q, v) + single;
        { WithQuantityAppend(init, [last], q, v); assert [last][1..] == []; }
        WithQuantity(init + [last], q, v);
        { assert s == init + [last]; }
        WithQuantity(s, q, v);
      }
    }
  }

  /** Sum of the quantities. */
  function SumQ<T>(s: seq<T>, q: T -> nat): nat {
    if s == [] then 0 else q(s[0]) + SumQ(s[1..], q)
  }

  lemma {:induction false} SumQAppend<T>(a: seq<T>, b: seq<T>, q: T -> nat)
    ensures SumQ(a + b, q) == SumQ(a, q) + SumQ(b, q)
  {
    if a == [] {
      assert a + b == b;
    } else {
      assert (a + b)[0] == a[0] && (a + b)[1..] == a[1..] + b;
      SumQAppend(a[1..], b, q);
    }
  }

  lemma {:induction false} InsertSum<T>(t: seq<T>, x: T, q: T -> nat)
    ensures SumQ(InsertDesc(t, x, q), q) == SumQ(t, q) + q(x)
  {
    if t != [] && q(t[0]) >= q(x) {
      InsertSum(t[1..], x, q);
      var r := InsertDesc(t, x, q);
      assert r[0] == t[0] && r[1..] == InsertDesc(t[1..], x, q);
    }
  }

  /** Sorting moves quantities around but does not change their sum. */
  lemma {:induction false} SortSum<T>(s: seq<T>, q: T -> nat)
    ensures SumQ(SortDesc(s, q), q) == SumQ(s, q)
  {
    if s != [] {
      var init, last := s[..|s| - 1], s[|s| - 1];
      var sorted := SortDesc(init, q);
      calc {
        SumQ(SortDesc(s, q), q);
        { InsertSum(sorted, last, q); }
        SumQ(sorted, q) + q(last);
        { SortSum(init, q); }
        SumQ(init, q) + q(last);
        { SumQAppend(init, [last], q); assert [last][1..] == []; }
        SumQ(init + [last], q);
        { assert s == init + [last]; }
        SumQ(s, q);
      }
    }
  }

  /** Top-n: an element left out of the first `n` of the sorted list is out because
      `n` elements at least as large were kept. */
  lemma TopKeepsLargest<T>(s: seq<T>, q: T -> nat, n: nat, e: T)
    requires e in s
    ensures var top := Take(SortDesc(s, q), n);
      e in top || (|top| == n && forall j :: 0 <= j < |top| ==> q(top[j]) >= q(e))
  {
    var sorted := SortDesc(s, q);
    var top := Take(sorted, n);
    SortPerm(s, q);
    assert e in multiset(s);
    assert e in multiset(sorted);
    var i :| 0 <= i < |sorted| && sorted[i] == e;
    if i < n {
      assert top[i] == e;
    } else {
      SortIsSorted(s, q);
      assert |top| == n;
      forall j | 0 <= j < |top| ensures q(top[j]) >= q(e) {
        assert top[j] == sorted[j];
      }
    }
  }

  lemma {:induction false} NoDupsAtMostOnce<T>(s: seq<T>, x: T)
    requires NoDups(s)
    ensures multiset(s)[x] <= 1
  {
    if s != [] {
      assert s == [s[0]] + s[1..];
      assert NoDups(s[1..]);
      NoDupsAtMostOnce(s[1..], x);
      assert s[0] !in s[1..];
    }
  }

  /** A permutation of a duplicate-free sequence is duplicate-free. */
  lemma PermutationNoDups<T>(s: seq<T>, t: seq<T>)
    requires NoDups(s) && multiset(s) == multiset(t)
    ensures NoDups(t)
  {
    forall i, j | 0 <= i < j < |t| ensures t[i] != t[j] {
      if t[i] == t[j] {
        var x := t[i];
        assert t == t[..i] + [x] + t[i + 1..j] + [x] + t[j + 1..];
        assert multiset(t)[x] >= 2;
        NoDupsAtMostOnce(s, x);
      }
    }
  }

  /** No two elements share a label. */
  predicate DistinctBy<T>(s: seq<T>, lab: T -> string) {
    forall i, j :: 0 <= i < j < |s| ==> lab(s[i]) != lab(s[j])
  }

  /** Reordering keeps labels distinct. */
  lemma PermutationDistinctBy<T>(s: seq<T>, t: seq<T>, lab: T -> string)
    requires DistinctBy(s, lab) && multiset(s) == multiset(t)
    ensures DistinctBy(t, lab)
  {
    assert NoDups(s);
    PermutationNoDups(s, t);
    forall i, j | 0 <= i < j < |t| ensures lab(t[i]) != lab(t[j]) {
      assert t[i] in multiset(s) && t[j] in multiset(s);
      var a :| 0 <= a < |s| && s[a] == t[i];
      var b :| 0 <= b < |s| && s[b] == t[j];
      assert a != b;
    }
  }

  /** Sorting keeps every element. */
  lemma SortMember<T>(s: seq<T>, q: T -> nat, e: T)
    requires e in s
    ensures e in SortDesc(s, q)
  {
    SortPerm(s, q);
    assert e in multiset(s);
  }

  /** The top list holds only elements of the input. */
  lemma TopMember<T>(s: seq<T>, q: T -> nat, n: nat, j: nat)
    requires j < |Take(SortDesc(s, q), n)|
    ensures Take(SortDesc(s, q), n)[j] in s
  {
    var sorted := SortDesc(s, q);
    SortPerm(s, q);
    assert sorted[j] in multiset(sorted);
  }

  /** Everything `.sort(...).slice(0, n)` promises about a list of entries with distinct labels:
      the size, the order, distinct labels, nothing made up, and nothing larger left out. */
  lemma TopProperties<T>(entries: seq<T>, q: T -> nat, lab: T -> string, n: nat)
    requires DistinctBy(entries, lab)
    ensures var top := Take(SortDesc(entries, q), n);
      && |top| == Min(n, |entries|)
      && SortedDesc(top, q)
      && DistinctBy(top, lab)
      && (forall j :: 0 <= j < |top| ==> top[j] in entries)
      && (forall e :: e in entries ==> e in top || (|top| == n && forall j :: 0 <= j < |top| ==> q(top[j]) >= q(e)))
  {
    var sorted := SortDesc(entries, q);
    var top := Take(sorted, n);
    SortIsSorted(entries, q);
    SortPerm(entries, q);
    PermutationDistinctBy(entries, sorted, lab);
    forall j | 0 <= j < |top| ensures top[j] in entries {
      TopMember(entries, q, n, j);
    }
    forall e | e in entries
      ensures e in top || (|top| == n && forall j :: 0 <= j < |top| ==> q(top[j]) >= q(e))
    {
      TopKeepsLargest(entries, q, n, e);
    }
  }
}
