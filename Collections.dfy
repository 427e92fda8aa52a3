/** Sequence helpers shared by the views: de-duplication in insertion order
    (what a JavaScript `Set` or the key order of a plain object yields for
    string keys) and the facts about it the views rely on. */
module Collections {

  predicate NoDups<T(==)>(s: seq<T>) {
    forall i, j :: 0 <= i < j < |s| ==> s[i] != s[j]
  }

  /** The distinct elements of `s`, each kept at its first appearance. */
  function Distinct<T(==)>(s: seq<T>): (r: seq<T>)
    ensures |r| <= |s|
  {
    if s == [] then []
    else
      assert s == s[..|s| - 1] + [s[|s| - 1]];
      AddNew(Distinct(s[..|s| - 1]), s[|s| - 1])
  }

  /** Appends `x` unless it is already there. */
  function AddNew<T(==)>(d: seq<T>, x: T): seq<T>
  {
    if x in d then d else d + [x]
  }

  /** The distinct list has no duplicates. */
  lemma {:induction false} DistinctNoDups<T>(s: seq<T>)
    ensures NoDups(Distinct(s))
  {
    if s != [] {
      var init := s[..|s| - 1];
      assert s == init + [s[|s| - 1]];
      DistinctNoDups(init);
    }
  }

  /** The distinct list holds exactly the elements of `s`. */
  lemma {:induction false} DistinctMembers<T>(s: seq<T>)
    ensures forall x :: x in Distinct(s) <==> x in s
  {
    if s != [] {
      var init := s[..|s| - 1];
      assert s == init + [s[|s| - 1]];
      DistinctMembers(init);
    }
  }

  /** Appending one element either leaves the distinct list alone or adds that element at its end. */
  lemma DistinctSnoc<T>(s: seq<T>, x: T)
    ensures Distinct(s + [x]) == AddNew(Distinct(s), x)
  {
    assert (s + [x])[..|s|] == s;
  }

  /** The set of elements of a sequence. */
  function Elements<T(==)>(s: seq<T>): set<T> {
    set i | 0 <= i < |s| :: s[i]
  }

  /** A sequence without duplicates has as many elements as its set. */
  lemma {:induction false} NoDupsCard<T>(s: seq<T>)
    requires NoDups(s)
    ensures |Elements(s)| == |s|
  {
    if s != [] {
      var init := s[..|s| - 1];
      var last := s[|s| - 1];
      assert NoDups(init);
      NoDupsCard(init);
      assert s == init + [last];
      assert last !in init;
      assert Elements(s) == Elements(init) + {last};
    }
  }

  /** The length of the distinct list is the number of different elements. */
  lemma DistinctCard<T>(s: seq<T>)
    ensures |Distinct(s)| == |Elements(s)|
  {
    DistinctNoDups(s);
    NoDupsCard(Distinct(s));
    DistinctMembers(s);
    forall x ensures x in Elements(Distinct(s)) <==> x in Elements(s) {
      assert x in Elements(s) <==> x in s;
      assert x in Elements(Distinct(s)) <==> x in Distinct(s);
    }
    assert Elements(Distinct(s)) == Elements(s);
  }

  lemma {:induction false} SubsetCard<T>(a: set<T>, b: set<T>)
    requires a <= b
    ensures |a| <= |b|
    decreases |b|
  {
    if a != {} {
      var x :| x in a;
      SubsetCard(a - {x}, b - {x});
    }
  }

  function Min(a: nat, b: nat): nat {
    if a <= b then a else b
  }

  /** `s.slice(0, n)`. */
  function Take<T>(s: seq<T>, n: nat): seq<T>
  {
    s[..Min(n, |s|)]
  }
}
