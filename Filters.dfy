/** The filter engine of the dashboard (Index.tsx, `filteredData`): five
    selections combined with AND, each either the sentinel "todos" or one
    concrete value. */
module Filters {
  import opened Records

  const Todos := "todos"
  const Entregue := "entregue"
  const Pendente := "pendente"

  /** The five selections, as the five `selected*` state variables hold them. */
  datatype Selection = Selection(
    cliente: string,
    respComercial: string,
    respCS: string,
    brinde: string,
    entregue: string)

  /** Every selection at "todos": the initial state and what clearing the filters sets. */
  const AllSelected := Selection(Todos, Todos, Todos, Todos, Todos)

  /** The delivery dimension is not a value comparison: "entregue" keeps the
      delivered records, "pendente" the pending ones, any other value none. */
  predicate MatchesDelivery(sel: string, item: BrindeData) {
    sel == Todos || (sel == Entregue && item.entregue) || (sel == Pendente && !item.entregue)
  }

  predicate Matches(sel: Selection, item: BrindeData) {
    && (sel.cliente == Todos || item.cliente == sel.cliente)
    && (sel.respComercial == Todos || item.responsavelComercial == sel.respComercial)
    && (sel.respCS == Todos || item.responsavelCS == sel.respCS)
    && (sel.brinde == Todos || item.brindes == sel.brinde)
    && MatchesDelivery(sel.entregue, item)
  }

  /** `data.filter(...)`: the records that pass all five selections, in data order. */
  function ApplyFilters(data: seq<BrindeData>, sel: Selection): (r: seq<BrindeData>)
    ensures |r| <= |data|
    ensures forall x :: x in r <==> x in data && Matches(sel, x)
  {
    if data == [] then []
    else (if Matches(sel, data[0]) then [data[0]] else []) + ApplyFilters(data[1..], sel)
  }

  /** What the filter keeps, column by column: a record of the data is kept exactly when it
      equals every selection that is not "todos", the delivery selection is one of its three
      states, and the delivery flag is what "entregue" or "pendente" asks for. */
  lemma KeptRecords(data: seq<BrindeData>, sel: Selection, x: BrindeData)
    ensures x in ApplyFilters(data, sel) <==>
      && x in data
      && (sel.cliente != Todos ==> x.cliente == sel.cliente)
      && (sel.respComercial != Todos ==> x.responsavelComercial == sel.respComercial)
      && (sel.respCS != Todos ==> x.responsavelCS == sel.respCS)
      && (sel.brinde != Todos ==> x.brindes == sel.brinde)
      && (sel.entregue == Todos || sel.entregue == Entregue || sel.entregue == Pendente)
      && (sel.entregue == Entregue ==> x.entregue)
      && (sel.entregue == Pendente ==> !x.entregue)
  {
  }

  /** `sub` is `s` with some elements removed and the rest kept in order. */
  predicate IsSubsequence(sub: seq<BrindeData>, s: seq<BrindeData>)
    decreases |s|
  {
    if sub == [] then true
    else if s == [] then false
    else (sub[0] == s[0] && IsSubsequence(sub[1..], s[1..])) || IsSubsequence(sub, s[1..])
  }

  /** With every selection at "todos" nothing is filtered out. */
  lemma {:induction false} AllSelectedIsIdentity(data: seq<BrindeData>)
    ensures ApplyFilters(data, AllSelected) == data
  {
    if data != [] {
      AllSelectedIsIdentity(data[1..]);
      assert data == [data[0]] + data[1..];
    }
  }

  /** The filtered data keeps the order of the dataset. */
  lemma {:induction false} FilterIsSubsequence(data: seq<BrindeData>, sel: Selection)
    ensures IsSubsequence(ApplyFilters(data, sel), data)
  {
    if data != [] {
      FilterIsSubsequence(data[1..], sel);
      var r := ApplyFilters(data, sel);
      if Matches(sel, data[0]) {
        assert r[0] == data[0] && r[1..] == ApplyFilters(data[1..], sel);
      } else {
        assert r == ApplyFilters(data[1..], sel);
        if r != [] { assert IsSubsequence(r, data[1..]); }
      }
    }
  }

  /** Each record that passes is kept as often as it occurs; every other one is dropped entirely. */
  lemma {:induction false} FilterMultiplicity(data: seq<BrindeData>, sel: Selection, x: BrindeData)
    ensures multiset(ApplyFilters(data, sel))[x] == if Matches(sel, x) then multiset(data)[x] else 0
  {
    if data != [] {
      FilterMultiplicity(data[1..], sel, x);
      assert data == [data[0]] + data[1..];
    }
  }

  lemma FilterCons(x: BrindeData, s: seq<BrindeData>, sel: Selection)
    ensures ApplyFilters([x] + s, sel) == (if Matches(sel, x) then [x] else []) + ApplyFilters(s, sel)
  {
    assert ([x] + s)[0] == x && ([x] + s)[1..] == s;
  }

  /** Filtering a concatenation filters each part. */
  lemma {:induction false} FilterAppend(a: seq<BrindeData>, b: seq<BrindeData>, sel: Selection)
    ensures ApplyFilters(a + b, sel) == ApplyFilters(a, sel) + ApplyFilters(b, sel)
  {
    if a == [] {
      assert a + b == b;
    } else {
      var head := if Matches(sel, a[0]) then [a[0]] else [];
      assert a + b == [a[0]] + (a[1..] + b);
      calc {
        ApplyFilters(a + b, sel);
        { FilterCons(a[0], a[1..] + b, sel); }
        head + ApplyFilters(a[1..] + b, sel);
        { FilterAppend(a[1..], b, sel); }
        head + (ApplyFilters(a[1..], sel) + ApplyFilters(b, sel));
        (head + ApplyFilters(a[1..], sel)) + ApplyFilters(b, sel);
        ApplyFilters(a, sel) + ApplyFilters(b, sel);
      }
    }
  }

  /** The records with a given delivery status, in data order. */
  function WithStatus(data: seq<BrindeData>, delivered: bool): (r: seq<BrindeData>)
    ensures forall x :: x in r <==> x in data && x.entregue == delivered
  {
    if data == [] then []
    else (if data[0].entregue == delivered then [data[0]] else []) + WithStatus(data[1..], delivered)
  }

  /** Only the delivery selection set: "entregue" keeps exactly the delivered records,
      "pendente" exactly the pending ones, and any other value keeps nothing. */
  lemma {:induction false} DeliverySelection(data: seq<BrindeData>, v: string)
    requires v != Todos
    ensures ApplyFilters(data, AllSelected.(entregue := v)) ==
      if v == Entregue then WithStatus(data, true)
      else if v == Pendente then WithStatus(data, false)
      else []
  {
    if data != [] {
      DeliverySelection(data[1..], v);
    }
  }
}
