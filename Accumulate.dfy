/** The `reduce` into an object keyed by a group label that every chart of the
    dashboard runs: the object is the list of its keys in insertion order (the
    order `Object.entries` returns) and a map from key to accumulator. */
module Accumulate {
  import opened Records
  import opened Collections
  import opened Ranking
  import opened Groups

  /** What one record does to the object: the keys gain its key if new, and its value grows
      by the record's weight. */
  lemma AccumulateSnoc(s: seq<BrindeData>, x: BrindeData, f: Field, fallback: string, w: Weight)
    ensures GroupKeys(s + [x], f, fallback) == AddNew(GroupKeys(s, f, fallback), Label(Get(x, f), fallback))
    ensures Accumulated(s + [x], f, fallback, w) == Bump(Accumulated(s, f, fallback, w), Label(Get(x, f), fallback), WeightOf(x, w))
  {
    KeysSnoc(s, x, f, fallback);
    assert (s + [x])[..|s|] == s;
  }

  /** `AccumulateSnoc` at position `i` of a loop over `items`. */
  lemma AccumulateStep(items: seq<BrindeData>, i: nat, f: Field, fallback: string, w: Weight)
    requires i < |items|
    ensures var key := Label(Get(items[i], f), fallback);
      && GroupKeys(items[..i + 1], f, fallback) == AddNew(GroupKeys(items[..i], f, fallback), key)
      && Accumulated(items[..i + 1], f, fallback, w) == Bump(Accumulated(items[..i], f, fallback, w), key, WeightOf(items[i], w))
  {
    assert items[..i + 1] == items[..i] + [items[i]];
    AccumulateSnoc(items[..i], items[i], f, fallback, w);
  }

  /** The keys of the object are the groups, and each holds its group's weight. */
  lemma KeysAccumulated(items: seq<BrindeData>, f: Field, fallback: string, w: Weight)
    ensures forall k :: k in GroupKeys(items, f, fallback) <==> k in Accumulated(items, f, fallback, w)
    ensures forall k :: k in Accumulated(items, f, fallback, w) ==>
      Accumulated(items, f, fallback, w)[k] == GroupWeight(items, f, fallback, w, k)
  {
    DistinctMembers(LabelsOf(items, f, fallback));
    forall k {
      AccumulatedGroups(items, f, fallback, w, k);
    }
  }

  /** The `reduce` shared by the charts that only add up a number per group. */
  method GroupTotals(items: seq<BrindeData>, f: Field, fallback: string, w: Weight)
    returns (keys: seq<string>, acc: map<string, nat>)
    ensures keys == GroupKeys(items, f, fallback)
    ensures acc == Accumulated(items, f, fallback, w)
  {
    keys, acc := [], map[];
    for i := 0 to |items|
      invariant keys == GroupKeys(items[..i], f, fallback)
      invariant acc == Accumulated(items[..i], f, fallback, w)
    {
      var key := Label(Get(items[i], f), fallback);
      AccumulateStep(items, i, f, fallback, w);
      keys := AddNew(keys, key);
      acc := Bump(acc, key, WeightOf(items[i], w));
    }
    assert items[..|items|] == items;
  }

  /** The weights of a list of entries, read against a list of keys, add up like the groups. */
  lemma {:induction false} KeyedSum<T>(r: seq<T>, q: T -> nat, keys: seq<string>, items: seq<BrindeData>,
                                       f: Field, fallback: string, w: Weight)
    requires |r| == |keys|
    requires forall i :: 0 <= i < |r| ==> q(r[i]) == GroupWeight(items, f, fallback, w, keys[i])
    ensures SumQ(r, q) == SumOverKeys(keys, items, f, fallback, w)
  {
    if r != [] {
      var n := |r| - 1;
      calc {
        SumQ(r, q);
        { assert r == r[..n] + [r[n]]; }
        SumQ(r[..n] + [r[n]], q);
        { SumQAppend(r[..n], [r[n]], q); assert [r[n]][1..] == []; }
        SumQ(r[..n], q) + q(r[n]);
        { KeyedSum(r[..n], q, keys[..n], items, f, fallback, w); }
        SumOverKeys(keys[..n], items, f, fallback, w) + GroupWeight(items, f, fallback, w, keys[n]);
        SumOverKeys(keys, items, f, fallback, w);
      }
    }
  }
}
