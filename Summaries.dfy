/** The three per-group detail tables of the dashboard (Index.tsx,
    `serviceData`, `respComercialData`, `respCSData`): one `reduce` into an
    object holding, per group label (`value || "Não informado"`), the summed
    quantity and the set of clients, then its entries with the set's size,
    sorted by decreasing quantity. The three differ only in the column. */
module Summaries {
  import opened Records
  import opened Collections
  import opened Ranking
  import opened Groups
  import opened Accumulate

  datatype Summary = Summary(name: string, quantidade: nat, clientes: nat)

  function SummaryQuantity(e: Summary): nat { e.quantidade }
  function SummaryName(e: Summary): string { e.name }

  /** The entries of the object, in key order. */
  function SummaryEntries(items: seq<BrindeData>, f: Field): seq<Summary> {
    var keys := GroupKeys(items, f, NaoInformado);
    seq(|keys|, j requires 0 <= j < |keys| =>
      Summary(keys[j], GroupWeight(items, f, NaoInformado, PerQuantity, keys[j]), |ClientsOf(items, f, NaoInformado, keys[j])|))
  }

  function SummariesOf(items: seq<BrindeData>, f: Field): seq<Summary> {
    SortDesc(SummaryEntries(items, f), SummaryQuantity)
  }

  /** The object the `reduce` builds, record by record: its keys in insertion order, the
      quantity and the client set under each key. */
  function SummaryState(s: seq<BrindeData>, f: Field): (seq<string>, map<string, nat>, map<string, set<string>>) {
    if s == [] then ([], map[], map[])
    else
      var st := SummaryState(s[..|s| - 1], f);
      var x := s[|s| - 1];
      var key := Label(Get(x, f), NaoInformado);
      (AddNew(st.0, key), Bump(st.1, key, x.quantidadeA + x.quantidadeB + x.quantidadeC), AddClient(st.2, key, x.cliente))
  }

  /** The object holds the groups' keys, quantities and client sets. */
  lemma {:induction false} SummaryStateGroups(s: seq<BrindeData>, f: Field)
    ensures SummaryState(s, f) ==
      (GroupKeys(s, f, NaoInformado), Accumulated(s, f, NaoInformado, PerQuantity), ClientSets(s, f, NaoInformado))
  {
    if s != [] {
      var p, x := s[..|s| - 1], s[|s| - 1];
      SummaryStateGroups(p, f);
      assert s == p + [x];
      KeysSnoc(p, x, f, NaoInformado);
      assert x.quantidadeA + x.quantidadeB + x.quantidadeC == WeightOf(x, PerQuantity);
    }
  }

  /** The `reduce`: the quantity and the client set of each group, keys in insertion order. */
  method SummaryTotals(items: seq<BrindeData>, f: Field)
    returns (keys: seq<string>, qty: map<string, nat>, clients: map<string, set<string>>)
    ensures keys == GroupKeys(items, f, NaoInformado)
    ensures qty == Accumulated(items, f, NaoInformado, PerQuantity)
    ensures clients == ClientSets(items, f, NaoInformado)
  {
    keys, qty, clients := [], map[], map[];
    for i := 0 to |items|
      invariant (keys, qty, clients) == SummaryState(items[..i], f)
    {
      var item := items[i];
      var key := Label(Get(item, f), NaoInformado);
      var total := item.quantidadeA + item.quantidadeB + item.quantidadeC;
      assert items[..i + 1][..i] == items[..i];
      keys, qty, clients := AddNew(keys, key), Bump(qty, key, total), AddClient(clients, key, item.cliente);
    }
    assert items[..|items|] == items;
    SummaryStateGroups(items, f);
  }

  method GroupSummaries(items: seq<BrindeData>, f: Field) returns (r: seq<Summary>)
    ensures r == SummariesOf(items, f)
  {
    var keys, qty, clients := SummaryTotals(items, f);
    KeysAccumulated(items, f, NaoInformado, PerQuantity);
    forall k | k in keys ensures k in clients && clients[k] == ClientsOf(items, f, NaoInformado, k) {
      DistinctMembers(LabelsOf(items, f, NaoInformado));
      ClientSetsGroups(items, f, NaoInformado, k);
    }
    var entries := seq(|keys|, j requires 0 <= j < |keys| => Summary(keys[j], qty[keys[j]], |clients[keys[j]]|));
    assert entries == SummaryEntries(items, f);
    r := SortDesc(entries, SummaryQuantity);
  }

  /** An entry is a group that occurs, with its quantity and its number of clients, which is
      at least one and at most its number of records. */
  lemma EntryFacts(items: seq<BrindeData>, f: Field, e: Summary)
    requires e in SummaryEntries(items, f)
    ensures e.name in LabelsOf(items, f, NaoInformado)
    ensures e.quantidade == GroupWeight(items, f, NaoInformado, PerQuantity, e.name)
    ensures e.clientes == |ClientsOf(items, f, NaoInformado, e.name)|
    ensures 1 <= e.clientes <= GroupWeight(items, f, NaoInformado, PerRecord, e.name)
  {
    var r := SummaryEntries(items, f);
    var j :| 0 <= j < |r| && r[j] == e;
    DistinctMembers(LabelsOf(items, f, NaoInformado));
    ClientsBounds(items, f, NaoInformado, e.name);
  }

  /** Size, order and distinct names of a table. */
  lemma SummariesShape(items: seq<BrindeData>, f: Field)
    ensures var r := SummariesOf(items, f);
      && |r| == |GroupKeys(items, f, NaoInformado)|
      && SortedDesc(r, SummaryQuantity)
      && DistinctBy(r, SummaryName)
  {
    var entries := SummaryEntries(items, f);
    DistinctNoDups(LabelsOf(items, f, NaoInformado));
    assert DistinctBy(entries, SummaryName);
    SortIsSorted(entries, SummaryQuantity);
    SortPerm(entries, SummaryQuantity);
    PermutationDistinctBy(entries, SortDesc(entries, SummaryQuantity), SummaryName);
  }

  lemma SummaryEntry(items: seq<BrindeData>, f: Field, j: nat)
    requires j < |SummariesOf(items, f)|
    ensures var e := SummariesOf(items, f)[j];
      && e.name in LabelsOf(items, f, NaoInformado)
      && e.quantidade == GroupWeight(items, f, NaoInformado, PerQuantity, e.name)
      && e.clientes == |ClientsOf(items, f, NaoInformado, e.name)|
      && 1 <= e.clientes <= GroupWeight(items, f, NaoInformado, PerRecord, e.name)
  {
    var entries := SummaryEntries(items, f);
    var sorted := SortDesc(entries, SummaryQuantity);
    SortPerm(entries, SummaryQuantity);
    assert sorted[j] in multiset(sorted);
    EntryFacts(items, f, sorted[j]);
  }

  /** Every record's group has a row. */
  lemma SummaryCovers(items: seq<BrindeData>, f: Field, i: nat)
    requires i < |items|
    ensures var r := SummariesOf(items, f);
      exists j :: 0 <= j < |r| && r[j].name == Label(Get(items[i], f), NaoInformado)
  {
    var keys := GroupKeys(items, f, NaoInformado);
    var entries := SummaryEntries(items, f);
    var c := Label(Get(items[i], f), NaoInformado);
    assert LabelsOf(items, f, NaoInformado)[i] == c;
    DistinctMembers(LabelsOf(items, f, NaoInformado));
    assert c in keys;
    var k :| 0 <= k < |keys| && keys[k] == c;
    var e := entries[k];
    SortMember(entries, SummaryQuantity, e);
    var r := SummariesOf(items, f);
    var j :| 0 <= j < |r| && r[j] == e;
  }

  /** The rows add up to the total quantity: every record is counted in exactly one row. */
  lemma SummariesSum(items: seq<BrindeData>, f: Field)
    ensures SumQ(SummariesOf(items, f), SummaryQuantity) == TotalQuantity(items)
  {
    var entries := SummaryEntries(items, f);
    SortSum(entries, SummaryQuantity);
    KeyedSum(entries, SummaryQuantity, GroupKeys(items, f, NaoInformado), items, f, NaoInformado, PerQuantity);
    GroupsPartition(items, f, NaoInformado, PerQuantity);
  }

  /** Rows with equal quantities stay in the order their groups first appear. */
  lemma SummariesStable(items: seq<BrindeData>, f: Field, v: nat)
    ensures WithQuantity(SummariesOf(items, f), SummaryQuantity, v) == WithQuantity(SummaryEntries(items, f), SummaryQuantity, v)
  {
    SortStable(SummaryEntries(items, f), SummaryQuantity, v);
  }

  /** Everything a detail table promises. */
  lemma SummariesProperties(items: seq<BrindeData>, f: Field)
    ensures var r := SummariesOf(items, f);
      && |r| == |GroupKeys(items, f, NaoInformado)|
      && SortedDesc(r, SummaryQuantity)
      && DistinctBy(r, SummaryName)
      && (forall j :: 0 <= j < |r| ==>
            && r[j].name in LabelsOf(items, f, NaoInformado)
            && r[j].quantidade == GroupWeight(items, f, NaoInformado, PerQuantity, r[j].name)
            && r[j].clientes == |ClientsOf(items, f, NaoInformado, r[j].name)|
            && 1 <= r[j].clientes <= GroupWeight(items, f, NaoInformado, PerRecord, r[j].name))
      && (forall i :: 0 <= i < |items| ==> exists j :: 0 <= j < |r| && r[j].name == Label(Get(items[i], f), NaoInformado))
      && SumQ(r, SummaryQuantity) == TotalQuantity(items)
  {
    var r := SummariesOf(items, f);
    SummariesShape(items, f);
    forall j | 0 <= j < |r|
      ensures && r[j].name in LabelsOf(items, f, NaoInformado)
              && r[j].quantidade == GroupWeight(items, f, NaoInformado, PerQuantity, r[j].name)
              && r[j].clientes == |ClientsOf(items, f, NaoInformado, r[j].name)|
              && 1 <= r[j].clientes <= GroupWeight(items, f, NaoInformado, PerRecord, r[j].name)
    {
      SummaryEntry(items, f, j);
    }
    forall i | 0 <= i < |items|
      ensures exists j :: 0 <= j < |r| && r[j].name == Label(Get(items[i], f), NaoInformado)
    {
      SummaryCovers(items, f, i);
    }
    SummariesSum(items, f);
  }
}
