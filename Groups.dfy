/** What the dashboard's `reduce`-into-an-object aggregations compute. The
    accumulator object itself is `Accumulated` (and `ClientSets` for the
    per-group client sets); its keys come out in insertion order, which is
    `GroupKeys`. Independently of the object, `GroupWeight` and `ClientsOf`
    say what a group holds, and the lemmas connect the two views. */
module Groups {
  import opened Records
  import opened Collections

  /** `value || fallback` on a string: only "" is falsy, so only "" takes the fallback. */
  function Label(s: string, fallback: string): string {
    if s == "" then fallback else s
  }

  /** The fallback label of the city chart and of the three summary tables. */
  const NaoInformado := "Não informado"

  /** Each record's group label, in data order. */
  function LabelsOf(items: seq<BrindeData>, f: Field, fallback: string): seq<string>
  {
    seq(|items|, i requires 0 <= i < |items| => Label(Get(items[i], f), fallback))
  }

  /** The groups, in the order the keys of the accumulator object come out: first appearance. */
  function GroupKeys(items: seq<BrindeData>, f: Field, fallback: string): seq<string> {
    Distinct(LabelsOf(items, f, fallback))
  }

  /** What a record adds to its group: 1 (a count) or its total quantity (a sum). */
  datatype Weight = PerRecord | PerQuantity

  function WeightOf(r: BrindeData, w: Weight): nat {
    match w
    case PerRecord => 1
    case PerQuantity => Total(r)
  }

  /** The weight of all records, grouped or not. */
  function TotalWeight(items: seq<BrindeData>, w: Weight): nat {
    match w
    case PerRecord => |items|
    case PerQuantity => TotalQuantity(items)
  }

  /** The weight of the group labelled `l`. */
  function GroupWeight(items: seq<BrindeData>, f: Field, fallback: string, w: Weight, l: string): nat {
    if items == [] then 0
    else
      var x := items[|items| - 1];
      GroupWeight(items[..|items| - 1], f, fallback, w, l) + (if Label(Get(x, f), fallback) == l then WeightOf(x, w) else 0)
  }

  /** The distinct `cliente` strings of the group labelled `l` ("" included). */
  function ClientsOf(items: seq<BrindeData>, f: Field, fallback: string, l: string): set<string> {
    if items == [] then {}
    else
      var x := items[|items| - 1];
      ClientsOf(items[..|items| - 1], f, fallback, l) + (if Label(Get(x, f), fallback) == l then {x.cliente} else {})
  }

  /** `acc[key] = (acc[key] || 0) + v`: a missing key starts from 0. */
  function Bump(m: map<string, nat>, key: string, v: nat): map<string, nat>
  {
    m[key := (if key in m then m[key] else 0) + v]
  }

  /** `acc[key].clientes.add(c)`, where a missing key starts from the empty set. */
  function AddClient(m: map<string, set<string>>, key: string, c: string): map<string, set<string>>
  {
    m[key := (if key in m then m[key] else {}) + {c}]
  }

  /** The accumulator object `acc` after `acc[key] = (acc[key] || 0) + weight` for every record. */
  function Accumulated(items: seq<BrindeData>, f: Field, fallback: string, w: Weight): map<string, nat> {
    if items == [] then map[]
    else
      var x := items[|items| - 1];
      Bump(Accumulated(items[..|items| - 1], f, fallback, w), Label(Get(x, f), fallback), WeightOf(x, w))
  }

  /** The per-group `clientes` sets after `acc[key].clientes.add(item.cliente)` for every record. */
  function ClientSets(items: seq<BrindeData>, f: Field, fallback: string): map<string, set<string>> {
    if items == [] then map[]
    else
      var x := items[|items| - 1];
      AddClient(ClientSets(items[..|items| - 1], f, fallback), Label(Get(x, f), fallback), x.cliente)
  }

  /** The sum of the group weights over a list of labels. */
  function SumOverKeys(keys: seq<string>, items: seq<BrindeData>, f: Field, fallback: string, w: Weight): nat {
    if keys == [] then 0
    else SumOverKeys(keys[..|keys| - 1], items, f, fallback, w) + GroupWeight(items, f, fallback, w, keys[|keys| - 1])
  }

  /** The records with a positive total, in data order: those the top-clients `reduce` adds. */
  function Positive(items: seq<BrindeData>): (r: seq<BrindeData>)
    ensures |r| <= |items|
    ensures forall i :: 0 <= i < |r| ==> Total(r[i]) > 0
  {
    if items == [] then []
    else
      var x := items[|items| - 1];
      Positive(items[..|items| - 1]) + (if Total(x) > 0 then [x] else [])
  }

  /** The clients that have some record with a positive total, by first appearance. */
  function PositiveClients(items: seq<BrindeData>): seq<string> {
    GroupKeys(Positive(items), Cliente, "")
  }

  /** The quantity the top-clients `reduce` accumulates for one client. */
  function ClientTotal(items: seq<BrindeData>, c: string): nat {
    GroupWeight(Positive(items), Cliente, "", PerQuantity, c)
  }

  /** Some record of client `c` has a positive total. */
  predicate HasPositive(items: seq<BrindeData>, c: string) {
    exists i :: 0 <= i < |items| && Total(items[i]) > 0 && items[i].cliente == c
  }

  /** How the labels extend by one record. */
  lemma LabelsSnoc(s: seq<BrindeData>, x: BrindeData, f: Field, fallback: string)
    ensures LabelsOf(s + [x], f, fallback) == LabelsOf(s, f, fallback) + [Label(Get(x, f), fallback)]
  {
    assert LabelsOf(s + [x], f, fallback) == LabelsOf(s, f, fallback) + [Label(Get(x, f), fallback)];
  }

  /** How the keys extend by one record: a new label goes at the end. */
  lemma KeysSnoc(s: seq<BrindeData>, x: BrindeData, f: Field, fallback: string)
    ensures GroupKeys(s + [x], f, fallback) == AddNew(GroupKeys(s, f, fallback), Label(Get(x, f), fallback))
  {
    LabelsSnoc(s, x, f, fallback);
    DistinctSnoc(LabelsOf(s, f, fallback), Label(Get(x, f), fallback));
  }

  /** How the weight of one group extends by one record. */
  lemma WeightSnoc(s: seq<BrindeData>, x: BrindeData, f: Field, fallback: string, w: Weight, l: string)
    ensures GroupWeight(s + [x], f, fallback, w, l) ==
      GroupWeight(s, f, fallback, w, l) + (if Label(Get(x, f), fallback) == l then WeightOf(x, w) else 0)
  {
    assert (s + [x])[..|s|] == s;
  }

  /** How the clients of one group extend by one record. */
  lemma ClientsSnoc(s: seq<BrindeData>, x: BrindeData, f: Field, fallback: string, l: string)
    ensures ClientsOf(s + [x], f, fallback, l) ==
      ClientsOf(s, f, fallback, l) + (if Label(Get(x, f), fallback) == l then {x.cliente} else {})
  {
    assert (s + [x])[..|s|] == s;
  }

  lemma TotalWeightSnoc(s: seq<BrindeData>, x: BrindeData, w: Weight)
    ensures TotalWeight(s + [x], w) == TotalWeight(s, w) + WeightOf(x, w)
  {
    TotalQuantitySnoc(s, x);
  }

  /** A label no record carries has weight 0 and no clients. */
  lemma {:induction false} AbsentGroup(items: seq<BrindeData>, f: Field, fallback: string, w: Weight, l: string)
    requires l !in LabelsOf(items, f, fallback)
    ensures GroupWeight(items, f, fallback, w, l) == 0
    ensures ClientsOf(items, f, fallback, l) == {}
  {
    if items != [] {
      var s, x := items[..|items| - 1], items[|items| - 1];
      assert items == s + [x];
      LabelsSnoc(s, x, f, fallback);
      WeightSnoc(s, x, f, fallback, w, l);
      ClientsSnoc(s, x, f, fallback, l);
      AbsentGroup(s, f, fallback, w, l);
    }
  }

  /** What `Bump` does to one key, given what that key held before. */
  lemma BumpStep(m: map<string, nat>, key: string, v: nat, labels: seq<string>, k: string, before: nat)
    requires k in m <==> k in labels
    requires k in m ==> m[k] == before
    requires k !in labels ==> before == 0
    ensures k in Bump(m, key, v) <==> k in labels + [key]
    ensures k in Bump(m, key, v) ==> Bump(m, key, v)[k] == before + (if key == k then v else 0)
  {
  }

  /** What `AddClient` does to one key, given what that key held before. */
  lemma AddClientStep(m: map<string, set<string>>, key: string, c: string, labels: seq<string>, k: string, before: set<string>)
    requires k in m <==> k in labels
    requires k in m ==> m[k] == before
    requires k !in labels ==> before == {}
    ensures k in AddClient(m, key, c) <==> k in labels + [key]
    ensures k in AddClient(m, key, c) ==> AddClient(m, key, c)[k] == before + (if key == k then {c} else {})
  {
  }

  /** The accumulator object has a key for exactly the labels that occur, and under each
      key the weight of that group. */
  lemma {:induction false} AccumulatedGroups(items: seq<BrindeData>, f: Field, fallback: string, w: Weight, k: string)
    ensures k in Accumulated(items, f, fallback, w) <==> k in LabelsOf(items, f, fallback)
    ensures k in Accumulated(items, f, fallback, w) ==>
      Accumulated(items, f, fallback, w)[k] == GroupWeight(items, f, fallback, w, k)
  {
    if items != [] {
      var s, x := items[..|items| - 1], items[|items| - 1];
      assert items == s + [x];
      AccumulatedGroups(s, f, fallback, w, k);
      LabelsSnoc(s, x, f, fallback);
      WeightSnoc(s, x, f, fallback, w, k);
      if k !in LabelsOf(s, f, fallback) {
        AbsentGroup(s, f, fallback, w, k);
      }
      BumpStep(Accumulated(s, f, fallback, w), Label(Get(x, f), fallback), WeightOf(x, w),
               LabelsOf(s, f, fallback), k, GroupWeight(s, f, fallback, w, k));
    }
  }

  /** The client-set object has a key for exactly the labels that occur, and under each
      key the clients of that group. */
  lemma {:induction false} ClientSetsGroups(items: seq<BrindeData>, f: Field, fallback: string, k: string)
    ensures k in ClientSets(items, f, fallback) <==> k in LabelsOf(items, f, fallback)
    ensures k in ClientSets(items, f, fallback) ==> ClientSets(items, f, fallback)[k] == ClientsOf(items, f, fallback, k)
  {
    if items != [] {
      var s, x := items[..|items| - 1], items[|items| - 1];
      assert items == s + [x];
      ClientSetsGroups(s, f, fallback, k);
      LabelsSnoc(s, x, f, fallback);
      ClientsSnoc(s, x, f, fallback, k);
      if k !in LabelsOf(s, f, fallback) {
        AbsentGroup(s, f, fallback, PerRecord, k);
      }
      AddClientStep(ClientSets(s, f, fallback), Label(Get(x, f), fallback), x.cliente,
                    LabelsOf(s, f, fallback), k, ClientsOf(s, f, fallback, k));
    }
  }

  /** A group that occurs has at least one client and at most as many clients as records. */
  lemma {:induction false} ClientsBounds(items: seq<BrindeData>, f: Field, fallback: string, l: string)
    ensures |ClientsOf(items, f, fallback, l)| <= GroupWeight(items, f, fallback, PerRecord, l)
    ensures l in LabelsOf(items, f, fallback) ==> |ClientsOf(items, f, fallback, l)| >= 1
  {
    if items != [] {
      var s, x := items[..|items| - 1], items[|items| - 1];
      assert items == s + [x];
      LabelsSnoc(s, x, f, fallback);
      WeightSnoc(s, x, f, fallback, PerRecord, l);
      ClientsSnoc(s, x, f, fallback, l);
      ClientsBounds(s, f, fallback, l);
      var before := ClientsOf(s, f, fallback, l);
      if Label(Get(x, f), fallback) == l {
        assert |before + {x.cliente}| <= |before| + 1;
        assert x.cliente in ClientsOf(items, f, fallback, l);
      } else {
        assert l in LabelsOf(items, f, fallback) ==> l in LabelsOf(s, f, fallback);
      }
    }
  }

  /** Adding one record to the group weights of a duplicate-free key list. */
  lemma {:induction false} SumOverKeysSnoc(keys: seq<string>, s: seq<BrindeData>, x: BrindeData, f: Field, fallback: string, w: Weight)
    requires NoDups(keys)
    ensures SumOverKeys(keys, s + [x], f, fallback, w) ==
      SumOverKeys(keys, s, f, fallback, w) + (if Label(Get(x, f), fallback) in keys then WeightOf(x, w) else 0)
  {
    if keys != [] {
      var init := keys[..|keys| - 1];
      WeightSnoc(s, x, f, fallback, w, keys[|keys| - 1]);
      assert keys == init + [keys[|keys| - 1]];
      assert NoDups(init);
      SumOverKeysSnoc(init, s, x, f, fallback, w);
    }
  }

  /** The groups partition the records: their weights add up to the total weight. */
  lemma {:induction false} GroupsPartition(items: seq<BrindeData>, f: Field, fallback: string, w: Weight)
    ensures SumOverKeys(GroupKeys(items, f, fallback), items, f, fallback, w) == TotalWeight(items, w)
  {
    if items != [] {
      var s, x := items[..|items| - 1], items[|items| - 1];
      var keys := GroupKeys(s, f, fallback);
      var lx := Label(Get(x, f), fallback);
      assert items == s + [x];
      KeysSnoc(s, x, f, fallback);
      DistinctMembers(LabelsOf(s, f, fallback));
      DistinctNoDups(LabelsOf(s, f, fallback));
      if lx in keys {
        calc {
          SumOverKeys(GroupKeys(items, f, fallback), items, f, fallback, w);
          SumOverKeys(keys, s + [x], f, fallback, w);
          { SumOverKeysSnoc(keys, s, x, f, fallback, w); }
          SumOverKeys(keys, s, f, fallback, w) + WeightOf(x, w);
          { GroupsPartition(s, f, fallback, w); }
          TotalWeight(s, w) + WeightOf(x, w);
          { TotalWeightSnoc(s, x, w); }
          TotalWeight(items, w);
        }
      } else {
        calc {
          SumOverKeys(GroupKeys(items, f, fallback), items, f, fallback, w);
          SumOverKeys(keys + [lx], s + [x], f, fallback, w);
          { assert (keys + [lx])[..|keys|] == keys; }
          SumOverKeys(keys, s + [x], f, fallback, w) + GroupWeight(s + [x], f, fallback, w, lx);
          { SumOverKeysSnoc(keys, s, x, f, fallback, w); }
          SumOverKeys(keys, s, f, fallback, w) + GroupWeight(s + [x], f, fallback, w, lx);
          { WeightSnoc(s, x, f, fallback, w, lx); AbsentGroup(s, f, fallback, w, lx); }
          SumOverKeys(keys, s, f, fallback, w) + WeightOf(x, w);
          { GroupsPartition(s, f, fallback, w); }
          TotalWeight(s, w) + WeightOf(x, w);
          { TotalWeightSnoc(s, x, w); }
          TotalWeight(items, w);
        }
      }
    }
  }

  /** Among records with positive totals, a group's quantity is at least its record count. */
  lemma {:induction false} QuantityAtLeastCount(items: seq<BrindeData>, f: Field, fallback: string, l: string)
    requires forall i :: 0 <= i < |items| ==> Total(items[i]) > 0
    ensures GroupWeight(items, f, fallback, PerQuantity, l) >= GroupWeight(items, f, fallback, PerRecord, l)
  {
    if items != [] {
      var s, x := items[..|items| - 1], items[|items| - 1];
      assert items == s + [x];
      WeightSnoc(s, x, f, fallback, PerQuantity, l);
      WeightSnoc(s, x, f, fallback, PerRecord, l);
      QuantityAtLeastCount(s, f, fallback, l);
    }
  }

  /** The `if (total > 0)` guard only decides which clients get a key: a client's
      accumulated quantity is the sum over all of its records. */
  lemma {:induction false} ClientTotalOverAll(items: seq<BrindeData>, c: string)
    ensures ClientTotal(items, c) == GroupWeight(items, Cliente, "", PerQuantity, c)
  {
    if items != [] {
      var s, x := items[..|items| - 1], items[|items| - 1];
      assert items == s + [x];
      WeightSnoc(s, x, Cliente, "", PerQuantity, c);
      ClientTotalOverAll(s, c);
      if Total(x) > 0 {
        WeightSnoc(Positive(s), x, Cliente, "", PerQuantity, c);
      } else {
        assert Positive(items) == Positive(s) + [];
        assert Positive(s) + [] == Positive(s);
      }
    }
  }

  lemma HasPositiveSnoc(s: seq<BrindeData>, x: BrindeData, c: string)
    ensures HasPositive(s + [x], c) <==> HasPositive(s, c) || (Total(x) > 0 && x.cliente == c)
  {
    var t := s + [x];
    if HasPositive(s, c) {
      var i :| 0 <= i < |s| && Total(s[i]) > 0 && s[i].cliente == c;
      assert t[i] == s[i];
    }
    if Total(x) > 0 && x.cliente == c {
      assert t[|s|] == x;
    }
    if HasPositive(t, c) {
      var i :| 0 <= i < |t| && Total(t[i]) > 0 && t[i].cliente == c;
      if i < |s| {
        assert s[i] == t[i];
      }
    }
  }

  lemma PositiveSnocLabels(s: seq<BrindeData>, x: BrindeData, c: string)
    ensures c in LabelsOf(Positive(s + [x]), Cliente, "") <==>
      c in LabelsOf(Positive(s), Cliente, "") || (Total(x) > 0 && x.cliente == c)
  {
    var ps := Positive(s);
    assert (s + [x])[..|s|] == s;
    if Total(x) > 0 {
      assert Positive(s + [x]) == ps + [x];
      LabelsSnoc(ps, x, Cliente, "");
    } else {
      assert Positive(s + [x]) == ps + [];
      assert ps + [] == ps;
    }
  }

  /** The clients with a positive record are exactly those of some record with a positive total. */
  lemma {:induction false} PositiveLabels(items: seq<BrindeData>, c: string)
    ensures c in LabelsOf(Positive(items), Cliente, "") <==> HasPositive(items, c)
  {
    if items != [] {
      var s, x := items[..|items| - 1], items[|items| - 1];
      assert items == s + [x];
      PositiveLabels(s, c);
      PositiveSnocLabels(s, x, c);
      HasPositiveSnoc(s, x, c);
    }
  }

  /** A client is listed among the positive clients exactly when its accumulated quantity
      is positive, and exactly when some record of it has a positive total. */
  lemma PositiveClientsMembers(items: seq<BrindeData>, c: string)
    ensures c in PositiveClients(items) <==> HasPositive(items, c)
    ensures c in PositiveClients(items) <==> ClientTotal(items, c) > 0
  {
    var ps := Positive(items);
    PositiveLabels(items, c);
    DistinctMembers(LabelsOf(ps, Cliente, ""));
    if c in LabelsOf(ps, Cliente, "") {
      ClientsBounds(ps, Cliente, "", c);
      QuantityAtLeastCount(ps, Cliente, "", c);
    } else {
      AbsentGroup(ps, Cliente, "", PerQuantity, c);
    }
  }

  /** No record has a positive total exactly when the total quantity is zero. */
  lemma {:induction false} NoPositiveIffZero(items: seq<BrindeData>)
    ensures Positive(items) == [] <==> TotalQuantity(items) == 0
  {
    if items != [] {
      var s, x := items[..|items| - 1], items[|items| - 1];
      assert items == s + [x];
      TotalQuantitySnoc(s, x);
      NoPositiveIffZero(s);
    }
  }
}
