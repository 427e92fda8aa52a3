/** The dashboard's charts and cards, all computed from the filtered records
    (Index.tsx, the `useMemo` blocks from `brindesDistribution` to `stats`).
    Each chart is a `reduce` into an object keyed by a group label; the
    object is modelled by the list of its keys in insertion order, which is
    the order `Object.entries` returns, and a map from key to accumulator. */
module Aggregation {
  import opened Records
  import opened Collections
  import opened Ranking
  import opened Groups
  import opened Accumulate

  const Nao := "Não"

  // ---------------------------------------------------------------------------
  // Distribution of gift kinds (pie chart)

  const Colors: map<string, string> := map[
    "A" := "hsl(var(--chart-1))",
    "B" := "hsl(var(--chart-2))",
    "C" := "hsl(var(--chart-3))",
    Nao := "hsl(var(--muted))"
  ]
  const DefaultColor := "hsl(var(--chart-4))"

  /** `colors[name] || default`: the four named kinds keep their own colour, any other kind
      takes the default one. */
  function ColorOf(name: string): (c: string)
    ensures c == DefaultColor <==> name !in Colors
    ensures name in Colors ==> c == Colors[name]
  {
    if name in Colors then Colors[name] else DefaultColor
  }

  datatype Slice = Slice(name: string, value: nat, color: string)

  function SliceValue(s: Slice): nat { s.value }

  /** One slice per kind (`brindes`, "" counted as "Não"), in order of first appearance,
      valued by the number of records of that kind. */
  function Distribution(items: seq<BrindeData>): seq<Slice> {
    var keys := GroupKeys(items, Brindes, Nao);
    seq(|keys|, j requires 0 <= j < |keys| =>
      Slice(keys[j], GroupWeight(items, Brindes, Nao, PerRecord, keys[j]), ColorOf(keys[j])))
  }

  lemma DistributionNames(items: seq<BrindeData>)
    ensures var r := Distribution(items);
      && (forall j, k :: 0 <= j < k < |r| ==> r[j].name != r[k].name)
      && (forall i :: 0 <= i < |items| ==> exists j :: 0 <= j < |r| && r[j].name == Label(items[i].brindes, Nao))
      && (forall j :: 0 <= j < |r| ==> r[j].name in LabelsOf(items, Brindes, Nao))
  {
    var r := Distribution(items);
    var keys := GroupKeys(items, Brindes, Nao);
    DistinctMembers(LabelsOf(items, Brindes, Nao));
    DistinctNoDups(LabelsOf(items, Brindes, Nao));
    forall i | 0 <= i < |items| ensures exists j :: 0 <= j < |r| && r[j].name == Label(items[i].brindes, Nao) {
      assert LabelsOf(items, Brindes, Nao)[i] == Label(items[i].brindes, Nao);
      assert Label(items[i].brindes, Nao) in keys;
      var j :| 0 <= j < |keys| && keys[j] == Label(items[i].brindes, Nao);
      assert r[j].name == keys[j];
    }
  }

  lemma DistributionValues(items: seq<BrindeData>)
    ensures var r := Distribution(items);
      forall j :: 0 <= j < |r| ==> r[j].value >= 1 && r[j].color == ColorOf(r[j].name)
  {
    var r := Distribution(items);
    var keys := GroupKeys(items, Brindes, Nao);
    DistinctMembers(LabelsOf(items, Brindes, Nao));
    forall j | 0 <= j < |r| ensures r[j].value >= 1 {
      ClientsBounds(items, Brindes, Nao, keys[j]);
    }
  }

  /** The pie chart has one slice per kind present, each kind once, each slice the number
      of records of its kind (at least one), and the slices add up to all the records. */
  lemma DistributionProperties(items: seq<BrindeData>)
    ensures var r := Distribution(items);
      && (forall j, k :: 0 <= j < k < |r| ==> r[j].name != r[k].name)
      && (forall i :: 0 <= i < |items| ==> exists j :: 0 <= j < |r| && r[j].name == Label(items[i].brindes, Nao))
      && (forall j :: 0 <= j < |r| ==> r[j].name in LabelsOf(items, Brindes, Nao))
      && (forall j :: 0 <= j < |r| ==> r[j].value >= 1 && r[j].color == ColorOf(r[j].name))
      && SumQ(r, SliceValue) == |items|
  {
    DistributionNames(items);
    DistributionValues(items);
    KeyedSum(Distribution(items), SliceValue, GroupKeys(items, Brindes, Nao), items, Brindes, Nao, PerRecord);
    GroupsPartition(items, Brindes, Nao, PerRecord);
  }

  method BrindesDistribution(items: seq<BrindeData>) returns (r: seq<Slice>)
    ensures r == Distribution(items)
  {
    var keys, counts := GroupTotals(items, Brindes, Nao, PerRecord);
    KeysAccumulated(items, Brindes, Nao, PerRecord);
    r := seq(|keys|, j requires 0 <= j < |keys| => Slice(keys[j], counts[keys[j]], ColorOf(keys[j])));
  }
}
