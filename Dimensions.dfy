/** The choice lists of the filter panel (Index.tsx, `clientes`,
    `responsaveisComerciais`, `responsaveisCS`, `brindes`): for one column,
    `[...new Set(values)].filter(Boolean).sort()`. */
module Dimensions {
  import opened Records
  import opened Collections
  import opened StringOrder

  /** Ascending in code unit order with no two equal entries. */
  predicate StrictlySorted(s: seq<string>) {
    forall i, j :: 0 <= i < j < |s| ==> Less(s[i], s[j])
  }

  lemma StrictlySortedNoDups(s: seq<string>)
    requires StrictlySorted(s)
    ensures NoDups(s)
  {
    forall i, j | 0 <= i < j < |s| ensures s[i] != s[j] {
      LessIrreflexive(s[i]);
    }
  }

  /** `.filter(Boolean)` on strings: the only falsy string is "", so exactly "" is dropped. */
  function NonEmpty(s: seq<string>): (r: seq<string>)
    ensures |r| <= |s|
    ensures forall x :: x in r <==> x in s && x != ""
    ensures NoDups(s) ==> NoDups(r)
  {
    if s == [] then []
    else
      var rest := NonEmpty(s[1..]);
      assert NoDups(s) ==> NoDups(s[1..]) && s[0] !in rest;
      (if s[0] == "" then [] else [s[0]]) + rest
  }

  /** One insertion step of the sort. */
  function InsertSorted(x: string, t: seq<string>): (r: seq<string>)
    ensures |r| == |t| + 1
    ensures forall y :: y in r <==> y == x || y in t
    ensures StrictlySorted(t) && x !in t ==> StrictlySorted(r)
  {
    if t == [] then [x]
    else if Less(x, t[0]) then
      var r := [x] + t;
      assert StrictlySorted(t) ==> StrictlySorted(r) by {
        if StrictlySorted(t) {
          forall j | 1 <= j < |r| ensures Less(r[0], r[j]) {
            if j > 1 { LessTransitive(x, t[0], t[j - 1]); }
          }
        }
      }
      r
    else
      var rest := InsertSorted(x, t[1..]);
      var r := [t[0]] + rest;
      assert StrictlySorted(t) && x !in t ==> StrictlySorted(r) by {
        if StrictlySorted(t) && x !in t {
          assert StrictlySorted(t[1..]);
          LessTotal(x, t[0]);
          forall j | 0 <= j < |rest| ensures Less(t[0], rest[j]) {
            assert rest[j] in rest;
            if rest[j] != x {
              var k :| 0 <= k < |t[1..]| && t[1..][k] == rest[j];
              assert t[k + 1] == rest[j];
            }
          }
        }
      }
      r
  }

  /** A sort of strings in code unit order; on distinct input the result is strictly ascending. */
  function SortStrings(s: seq<string>): (r: seq<string>)
    ensures |r| == |s|
    ensures forall y :: y in r <==> y in s
    ensures NoDups(s) ==> StrictlySorted(r)
  {
    if s == [] then []
    else
      var rest := SortStrings(s[1..]);
      assert NoDups(s) ==> NoDups(s[1..]) && s[0] !in rest;
      InsertSorted(s[0], rest)
  }

  /** Two strictly sorted lists with the same elements are equal, so any correct sort of
      distinct strings yields the list SortStrings yields. */
  lemma {:induction false} SortedUnique(a: seq<string>, b: seq<string>)
    requires StrictlySorted(a) && StrictlySorted(b)
    requires forall y :: y in a <==> y in b
    ensures a == b
  {
    StrictlySortedNoDups(a);
    StrictlySortedNoDups(b);
    NoDupsCard(a);
    NoDupsCard(b);
    assert Elements(a) == Elements(b) by {
      forall y ensures y in Elements(a) <==> y in Elements(b) {
        if y in a {
          var i :| 0 <= i < |a| && a[i] == y;
          var j :| 0 <= j < |b| && b[j] == y;
        }
        if y in b {
          var i :| 0 <= i < |a| && a[i] == y;
          var j :| 0 <= j < |b| && b[j] == y;
        }
      }
    }
    if a != [] && b != [] {
      assert b[0] in a && a[0] in b;
      if a[0] != b[0] {
        var i :| 0 <= i < |a| && a[i] == b[0];
        var j :| 0 <= j < |b| && b[j] == a[0];
        assert Less(a[0], b[0]) && Less(b[0], a[0]);
        LessAsymmetric(a[0], b[0]);
        assert false;
      }
      forall y ensures y in a[1..] <==> y in b[1..] {
        if y in a[1..] {
          var i :| 1 <= i < |a| && a[i] == y;
          assert y != a[0] && y in b;
          var j :| 0 <= j < |b| && b[j] == y;
          assert j != 0;
        }
        if y in b[1..] {
          var j :| 1 <= j < |b| && b[j] == y;
          assert y != b[0] && y in a;
          var i :| 0 <= i < |a| && a[i] == y;
          assert i != 0;
        }
      }
      SortedUnique(a[1..], b[1..]);
      assert a == [a[0]] + a[1..] && b == [b[0]] + b[1..];
    }
  }

  /** The choice list of one column: every non-empty value that occurs, once, ascending by code units. */
  function DistinctValues(data: seq<BrindeData>, f: Field): (r: seq<string>)
    ensures StrictlySorted(r)
    ensures NoDups(r)
    ensures "" !in r
    ensures forall v :: v in r <==> v != "" && exists i :: 0 <= i < |data| && Get(data[i], f) == v
  {
    var values := Project(data, f);
    assert |values| == |data| && forall i :: 0 <= i < |data| ==> values[i] == Get(data[i], f);
    var r := SortStrings(NonEmpty(Distinct(values)));
    DistinctNoDups(values);
    StrictlySortedNoDups(r);
    assert forall v :: v in r <==> v != "" && v in values by {
      DistinctMembers(values);
    }
    r
  }
}
