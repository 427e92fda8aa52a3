/** The two ranked top-10 lists of the dashboard (Index.tsx, `topClientes` and
    `cityData`): a `reduce` into an object of quantities, its entries as
    `{ name, quantidade }`, sorted by decreasing quantity and cut to ten. */
module TopLists {
  import opened Records
  import opened Collections
  import opened Ranking
  import opened Groups
  import opened Accumulate

  /** The length of both lists. */
  const TopN: nat := 10

  datatype Ranked = Ranked(name: string, quantidade: nat)

  function RankedQuantity(e: Ranked): nat { e.quantidade }
  function RankedName(e: Ranked): string { e.name }

  /** The entries of an accumulator object over the groups `keys`, in key order. */
  function RankedEntries(keys: seq<string>, items: seq<BrindeData>, f: Field, fallback: string, w: Weight): seq<Ranked> {
    seq(|keys|, j requires 0 <= j < |keys| => Ranked(keys[j], GroupWeight(items, f, fallback, w, keys[j])))
  }

  /** An entry names one of the keys and carries that group's weight. */
  lemma EntryOf(keys: seq<string>, items: seq<BrindeData>, f: Field, fallback: string, w: Weight, e: Ranked)
    requires e in RankedEntries(keys, items, f, fallback, w)
    ensures e.name in keys && e.quantidade == GroupWeight(items, f, fallback, w, e.name)
  {
    var r := RankedEntries(keys, items, f, fallback, w);
    var j :| 0 <= j < |r| && r[j] == e;
  }

  /** Every key has its entry. */
  lemma EntryFor(keys: seq<string>, items: seq<BrindeData>, f: Field, fallback: string, w: Weight, k: string)
    requires k in keys
    ensures Ranked(k, GroupWeight(items, f, fallback, w, k)) in RankedEntries(keys, items, f, fallback, w)
  {
    var r := RankedEntries(keys, items, f, fallback, w);
    var j :| 0 <= j < |keys| && keys[j] == k;
    assert r[j] == Ranked(k, GroupWeight(items, f, fallback, w, k));
  }

  lemma EntriesDistinct(keys: seq<string>, items: seq<BrindeData>, f: Field, fallback: string, w: Weight)
    requires NoDups(keys)
    ensures DistinctBy(RankedEntries(keys, items, f, fallback, w), RankedName)
  {
  }

  // ---------------------------------------------------------------------------
  // Top clients

  /** One entry per client with a positive record, valued by its accumulated quantity. */
  function ClientEntries(items: seq<BrindeData>): seq<Ranked> {
    RankedEntries(PositiveClients(items), Positive(items), Cliente, "", PerQuantity)
  }

  function TopClientesOf(items: seq<BrindeData>): seq<Ranked> {
    Take(SortDesc(ClientEntries(items), RankedQuantity), TopN)
  }

  lemma PositiveSnoc(s: seq<BrindeData>, x: BrindeData)
    ensures Positive(s + [x]) == Positive(s) + (if Total(x) > 0 then [x] else [])
  {
    assert (s + [x])[..|s|] == s;
  }

  /** What one record does to the top-clients object: nothing unless its total is positive. */
  lemma ClienteStep(items: seq<BrindeData>, i: nat)
    requires i < |items|
    ensures var x, ps, ps' := items[i], Positive(items[..i]), Positive(items[..i + 1]);
      && GroupKeys(ps', Cliente, "") == (if Total(x) > 0 then AddNew(GroupKeys(ps, Cliente, ""), x.cliente) else GroupKeys(ps, Cliente, ""))
      && Accumulated(ps', Cliente, "", PerQuantity) ==
           (if Total(x) > 0 then Bump(Accumulated(ps, Cliente, "", PerQuantity), x.cliente, Total(x)) else Accumulated(ps, Cliente, "", PerQuantity))
  {
    var x, ps := items[i], Positive(items[..i]);
    assert items[..i + 1] == items[..i] + [x];
    PositiveSnoc(items[..i], x);
    if Total(x) > 0 {
      AccumulateSnoc(ps, x, Cliente, "", PerQuantity);
    } else {
      assert ps + [] == ps;
    }
  }

  /** The guarded `reduce`: a record adds its total to its client only when the total is positive. */
  method ClienteTotals(items: seq<BrindeData>) returns (keys: seq<string>, acc: map<string, nat>)
    ensures keys == PositiveClients(items)
    ensures acc == Accumulated(Positive(items), Cliente, "", PerQuantity)
  {
    keys, acc := [], map[];
    for i := 0 to |items|
      invariant keys == GroupKeys(Positive(items[..i]), Cliente, "")
      invariant acc == Accumulated(Positive(items[..i]), Cliente, "", PerQuantity)
    {
      var item := items[i];
      var total := item.quantidadeA + item.quantidadeB + item.quantidadeC;
      ClienteStep(items, i);
      if total > 0 {
        keys := AddNew(keys, item.cliente);
        acc := Bump(acc, item.cliente, total);
      }
    }
    assert items[..|items|] == items;
  }

  method TopClientes(items: seq<BrindeData>) returns (r: seq<Ranked>)
    ensures r == TopClientesOf(items)
  {
    var keys, acc := ClienteTotals(items);
    KeysAccumulated(Positive(items), Cliente, "", PerQuantity);
    var entries := seq(|keys|, j requires 0 <= j < |keys| => Ranked(keys[j], acc[keys[j]]));
    assert entries == ClientEntries(items);
    r := Take(SortDesc(entries, RankedQuantity), TopN);
  }

  /** Size, order and distinct names of the top-clients list. */
  lemma TopClientesShape(items: seq<BrindeData>)
    ensures var r := TopClientesOf(items);
      && |r| == Min(TopN, |PositiveClients(items)|)
      && SortedDesc(r, RankedQuantity)
      && DistinctBy(r, RankedName)
  {
    var entries := ClientEntries(items);
    var sorted := SortDesc(entries, RankedQuantity);
    DistinctNoDups(LabelsOf(Positive(items), Cliente, ""));
    EntriesDistinct(PositiveClients(items), Positive(items), Cliente, "", PerQuantity);
    SortIsSorted(entries, RankedQuantity);
    SortPerm(entries, RankedQuantity);
    PermutationDistinctBy(entries, sorted, RankedName);
  }

  /** Each listed client has a record with a positive total, and its quantity is the sum of
      the totals of all its records, which is positive. */
  lemma TopClientesEntry(items: seq<BrindeData>, j: nat)
    requires j < |TopClientesOf(items)|
    ensures var e := TopClientesOf(items)[j];
      && HasPositive(items, e.name)
      && e.quantidade == GroupWeight(items, Cliente, "", PerQuantity, e.name)
      && e.quantidade > 0
  {
    var e := TopClientesOf(items)[j];
    TopMember(ClientEntries(items), RankedQuantity, TopN, j);
    EntryOf(PositiveClients(items), Positive(items), Cliente, "", PerQuantity, e);
    PositiveClientsMembers(items, e.name);
    ClientTotalOverAll(items, e.name);
  }

  /** A client with a positive record is listed, or ten clients with at least its quantity are. */
  lemma TopClientesComplete(items: seq<BrindeData>, c: string)
    requires HasPositive(items, c)
    ensures var r := TopClientesOf(items);
      (exists j :: 0 <= j < |r| && r[j].name == c) ||
      (|r| == TopN && forall j :: 0 <= j < |r| ==> r[j].quantidade >= GroupWeight(items, Cliente, "", PerQuantity, c))
  {
    var r := TopClientesOf(items);
    var e := Ranked(c, ClientTotal(items, c));
    PositiveClientsMembers(items, c);
    DistinctMembers(LabelsOf(Positive(items), Cliente, ""));
    EntryFor(PositiveClients(items), Positive(items), Cliente, "", PerQuantity, c);
    TopKeepsLargest(ClientEntries(items), RankedQuantity, TopN, e);
    ClientTotalOverAll(items, c);
    if e in r {
      var j :| 0 <= j < |r| && r[j] == e;
    }
  }

  /** Everything the top-clients list promises. */
  lemma TopClientesProperties(items: seq<BrindeData>)
    ensures var r := TopClientesOf(items);
      && |r| == Min(TopN, |PositiveClients(items)|)
      && SortedDesc(r, RankedQuantity)
      && DistinctBy(r, RankedName)
      && (forall j :: 0 <= j < |r| ==>
            HasPositive(items, r[j].name) && r[j].quantidade > 0 &&
            r[j].quantidade == GroupWeight(items, Cliente, "", PerQuantity, r[j].name))
      && (forall c :: HasPositive(items, c) ==>
            (exists j :: 0 <= j < |r| && r[j].name == c) ||
            (|r| == TopN && forall j :: 0 <= j < |r| ==> r[j].quantidade >= GroupWeight(items, Cliente, "", PerQuantity, c)))
  {
    var r := TopClientesOf(items);
    TopClientesShape(items);
    forall j | 0 <= j < |r|
      ensures HasPositive(items, r[j].name) && r[j].quantidade > 0 &&
              r[j].quantidade == GroupWeight(items, Cliente, "", PerQuantity, r[j].name)
    {
      TopClientesEntry(items, j);
    }
    forall c | HasPositive(items, c)
      ensures (exists j :: 0 <= j < |r| && r[j].name == c) ||
              (|r| == TopN && forall j :: 0 <= j < |r| ==> r[j].quantidade >= GroupWeight(items, Cliente, "", PerQuantity, c))
    {
      TopClientesComplete(items, c);
    }
  }

  // ---------------------------------------------------------------------------
  // Top cities

  /** One entry per city label (`cidade || "Não informado"`), valued by its total quantity. */
  function CityEntries(items: seq<BrindeData>): seq<Ranked> {
    RankedEntries(GroupKeys(items, Cidade, NaoInformado), items, Cidade, NaoInformado, PerQuantity)
  }

  function CityDataOf(items: seq<BrindeData>): seq<Ranked> {
    Take(SortDesc(CityEntries(items), RankedQuantity), TopN)
  }

  method CityData(items: seq<BrindeData>) returns (r: seq<Ranked>)
    ensures r == CityDataOf(items)
  {
    var keys, acc := GroupTotals(items, Cidade, NaoInformado, PerQuantity);
    KeysAccumulated(items, Cidade, NaoInformado, PerQuantity);
    var entries := seq(|keys|, j requires 0 <= j < |keys| => Ranked(keys[j], acc[keys[j]]));
    assert entries == CityEntries(items);
    r := Take(SortDesc(entries, RankedQuantity), TopN);
  }

  /** Size, order and distinct names of the cities list. */
  lemma CityDataShape(items: seq<BrindeData>)
    ensures var r := CityDataOf(items);
      && |r| == Min(TopN, |GroupKeys(items, Cidade, NaoInformado)|)
      && SortedDesc(r, RankedQuantity)
      && DistinctBy(r, RankedName)
  {
    var entries := CityEntries(items);
    var sorted := SortDesc(entries, RankedQuantity);
    DistinctNoDups(LabelsOf(items, Cidade, NaoInformado));
    EntriesDistinct(GroupKeys(items, Cidade, NaoInformado), items, Cidade, NaoInformado, PerQuantity);
    SortIsSorted(entries, RankedQuantity);
    SortPerm(entries, RankedQuantity);
    PermutationDistinctBy(entries, sorted, RankedName);
  }

  /** Each listed city is the label of some record and carries the total of that city's records. */
  lemma CityDataEntry(items: seq<BrindeData>, j: nat)
    requires j < |CityDataOf(items)|
    ensures var e := CityDataOf(items)[j];
      && e.name in LabelsOf(items, Cidade, NaoInformado)
      && e.quantidade == GroupWeight(items, Cidade, NaoInformado, PerQuantity, e.name)
  {
    var e := CityDataOf(items)[j];
    TopMember(CityEntries(items), RankedQuantity, TopN, j);
    EntryOf(GroupKeys(items, Cidade, NaoInformado), items, Cidade, NaoInformado, PerQuantity, e);
    DistinctMembers(LabelsOf(items, Cidade, NaoInformado));
  }

  /** A record's city is listed, or ten cities with at least its quantity are. */
  lemma CityDataComplete(items: seq<BrindeData>, i: nat)
    requires i < |items|
    ensures var r := CityDataOf(items);
      var c := Label(items[i].cidade, NaoInformado);
      (exists j :: 0 <= j < |r| && r[j].name == c) ||
      (|r| == TopN && forall j :: 0 <= j < |r| ==> r[j].quantidade >= GroupWeight(items, Cidade, NaoInformado, PerQuantity, c))
  {
    var r := CityDataOf(items);
    var c := Label(items[i].cidade, NaoInformado);
    var e := Ranked(c, GroupWeight(items, Cidade, NaoInformado, PerQuantity, c));
    assert LabelsOf(items, Cidade, NaoInformado)[i] == c;
    DistinctMembers(LabelsOf(items, Cidade, NaoInformado));
    EntryFor(GroupKeys(items, Cidade, NaoInformado), items, Cidade, NaoInformado, PerQuantity, c);
    TopKeepsLargest(CityEntries(items), RankedQuantity, TopN, e);
    if e in r {
      var j :| 0 <= j < |r| && r[j] == e;
    }
  }

  /** With at most ten cities nothing is cut: the list adds up to the total quantity. */
  lemma CityDataSum(items: seq<BrindeData>)
    requires |GroupKeys(items, Cidade, NaoInformado)| <= TopN
    ensures SumQ(CityDataOf(items), RankedQuantity) == TotalQuantity(items)
  {
    var keys := GroupKeys(items, Cidade, NaoInformado);
    var entries := CityEntries(items);
    var sorted := SortDesc(entries, RankedQuantity);
    assert CityDataOf(items) == sorted;
    SortSum(entries, RankedQuantity);
    KeyedSum(entries, RankedQuantity, keys, items, Cidade, NaoInformado, PerQuantity);
    GroupsPartition(items, Cidade, NaoInformado, PerQuantity);
  }

  /** Everything the cities list promises. */
  lemma CityDataProperties(items: seq<BrindeData>)
    ensures var r := CityDataOf(items);
      && |r| == Min(TopN, |GroupKeys(items, Cidade, NaoInformado)|)
      && SortedDesc(r, RankedQuantity)
      && DistinctBy(r, RankedName)
      && (forall j :: 0 <= j < |r| ==>
            r[j].name in LabelsOf(items, Cidade, NaoInformado) &&
            r[j].quantidade == GroupWeight(items, Cidade, NaoInformado, PerQuantity, r[j].name))
      && (forall i :: 0 <= i < |items| ==>
            (exists j :: 0 <= j < |r| && r[j].name == Label(items[i].cidade, NaoInformado)) ||
            (|r| == TopN && forall j :: 0 <= j < |r| ==>
               r[j].quantidade >= GroupWeight(items, Cidade, NaoInformado, PerQuantity, Label(items[i].cidade, NaoInformado))))
      && (|GroupKeys(items, Cidade, NaoInformado)| <= TopN ==> SumQ(r, RankedQuantity) == TotalQuantity(items))
  {
    var r := CityDataOf(items);
    CityDataShape(items);
    forall j | 0 <= j < |r|
      ensures r[j].name in LabelsOf(items, Cidade, NaoInformado) &&
              r[j].quantidade == GroupWeight(items, Cidade, NaoInformado, PerQuantity, r[j].name)
    {
      CityDataEntry(items, j);
    }
    forall i | 0 <= i < |items|
      ensures (exists j :: 0 <= j < |r| && r[j].name == Label(items[i].cidade, NaoInformado)) ||
              (|r| == TopN && forall j :: 0 <= j < |r| ==>
                 r[j].quantidade >= GroupWeight(items, Cidade, NaoInformado, PerQuantity, Label(items[i].cidade, NaoInformado)))
    {
      CityDataComplete(items, i);
    }
    if |GroupKeys(items, Cidade, NaoInformado)| <= TopN {
      CityDataSum(items);
    }
  }
}
