/** The four summary cards of the dashboard (Index.tsx, `stats`). */
module Stats {
  import opened Records
  import opened Collections
  import opened Groups
  import Dimensions
  import TopLists

  datatype Stats = Stats(totalBrindes: nat, totalClientes: nat, clientesComBrindes: nat, totalCidades: nat)

  /** What the cards show: the summed quantity, the number of distinct clients, the number of
      distinct clients among the records with a positive total, and the number of distinct
      non-empty cities (each count is the size of a `Set`). */
  function StatsOf(items: seq<BrindeData>): Stats {
    Stats(
      TotalQuantity(items),
      |Elements(Project(items, Cliente))|,
      |Elements(Project(Positive(items), Cliente))|,
      |Elements(Dimensions.NonEmpty(Project(items, Cidade)))|)
  }

  method ComputeStats(items: seq<BrindeData>) returns (s: Stats)
    ensures s == StatsOf(items)
  {
    var totalBrindes := 0;
    for i := 0 to |items|
      invariant totalBrindes == TotalQuantity(items[..i])
    {
      var item := items[i];
      assert items[..i + 1] == items[..i] + [item];
      TotalQuantitySnoc(items[..i], item);
      totalBrindes := totalBrindes + item.quantidadeA + item.quantidadeB + item.quantidadeC;
    }
    assert items[..|items|] == items;
    s := Stats(
      totalBrindes,
      |Elements(Project(items, Cliente))|,
      |Elements(Project(Positive(items), Cliente))|,
      |Elements(Dimensions.NonEmpty(Project(items, Cidade)))|);
  }

  /** The records with a positive total are records of the input. */
  lemma {:induction false} PositiveSubset(items: seq<BrindeData>)
    ensures forall x :: x in Positive(items) ==> x in items
  {
    if items != [] {
      var s := items[..|items| - 1];
      PositiveSubset(s);
      assert forall x :: x in s ==> x in items;
    }
  }

  /** A set of the values of a sequence has at most as many elements as the sequence. */
  lemma ElementsAtMost(s: seq<string>)
    ensures |Elements(s)| <= |s|
  {
    DistinctCard(s);
  }

  /** A client with a positive record is a client. */
  lemma PositiveClientsCount(items: seq<BrindeData>)
    ensures |Elements(Project(Positive(items), Cliente))| <= |Elements(Project(items, Cliente))|
  {
    PositiveSubset(items);
    var ps := Positive(items);
    forall c | c in Elements(Project(ps, Cliente)) ensures c in Elements(Project(items, Cliente)) {
      var i :| 0 <= i < |ps| && Project(ps, Cliente)[i] == c;
      assert ps[i] in items;
      var k :| 0 <= k < |items| && items[k] == ps[i];
      assert Project(items, Cliente)[k] == c;
    }
    SubsetCard(Elements(Project(ps, Cliente)), Elements(Project(items, Cliente)));
  }

  /** The clients with a positive record are the top-clients object's keys. */
  lemma PositiveClientsAreKeys(items: seq<BrindeData>)
    ensures |Elements(Project(Positive(items), Cliente))| == |PositiveClients(items)|
  {
    var ps := Positive(items);
    assert LabelsOf(ps, Cliente, "") == Project(ps, Cliente);
    DistinctCard(Project(ps, Cliente));
  }

  /** `totalCidades` is the number of distinct non-empty cities among the records, which is the
      length of the sorted list of those cities. */
  lemma DistinctCities(items: seq<BrindeData>)
    ensures |Elements(Dimensions.NonEmpty(Project(items, Cidade)))| == |Dimensions.DistinctValues(items, Cidade)|
  {
    var cities := Dimensions.NonEmpty(Project(items, Cidade));
    var r := Dimensions.DistinctValues(items, Cidade);
    NoDupsCard(r);
    forall v ensures v in Elements(cities) <==> v in Elements(r) {
      assert v in Elements(cities) <==> v in cities;
      assert v in Elements(r) <==> v in r;
      if v in Project(items, Cidade) {
        var i :| 0 <= i < |items| && Project(items, Cidade)[i] == v;
      }
      if v != "" && exists i :: 0 <= i < |items| && Get(items[i], Cidade) == v {
        var i :| 0 <= i < |items| && Get(items[i], Cidade) == v;
        assert Project(items, Cidade)[i] == v;
      }
    }
    assert Elements(cities) == Elements(r);
  }

  /** What the cards promise about each other and about the rest of the dashboard. */
  lemma StatsProperties(items: seq<BrindeData>)
    ensures var s := StatsOf(items);
      && s.clientesComBrindes <= s.totalClientes <= |items|
      && s.totalCidades <= |items|
      && (s.totalBrindes == 0 <==> s.clientesComBrindes == 0)
      && s.totalClientes == |Distinct(Project(items, Cliente))|
      && s.clientesComBrindes == |PositiveClients(items)|
      && |TopLists.TopClientesOf(items)| == Min(TopLists.TopN, s.clientesComBrindes)
      && s.totalCidades == |Dimensions.DistinctValues(items, Cidade)|
  {
    var s := StatsOf(items);
    PositiveClientsCount(items);
    ElementsAtMost(Project(items, Cliente));
    ElementsAtMost(Dimensions.NonEmpty(Project(items, Cidade)));
    NoPositiveIffZero(items);
    if Positive(items) != [] {
      assert Project(Positive(items), Cliente)[0] in Elements(Project(Positive(items), Cliente));
    }
    DistinctCard(Project(items, Cliente));
    PositiveClientsAreKeys(items);
    TopLists.TopClientesShape(items);
    DistinctCities(items);
  }
}
