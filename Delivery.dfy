/** The per-client delivery update (Index.tsx, `handleToggleEntregue`): one
    call rewrites the `entregue` flag of every record of the client. */
module Delivery {
  import opened Records
  import opened Filters

  /** `prevData.map(item => item.cliente === cliente ? { ...item, entregue: !currentStatus } : item)`.
      The flag is SET to `!currentStatus`, not negated record by record. */
  function ToggleEntregue(data: seq<BrindeData>, cliente: string, currentStatus: bool): (r: seq<BrindeData>)
    ensures |r| == |data|
    ensures forall i :: 0 <= i < |data| && data[i].cliente == cliente ==>
      r[i] == data[i].(entregue := !currentStatus)
    ensures forall i :: 0 <= i < |data| && data[i].cliente != cliente ==> r[i] == data[i]
  {
    if data == [] then []
    else [Update(data[0], cliente, currentStatus)] + ToggleEntregue(data[1..], cliente, currentStatus)
  }

  /** The `map` callback. */
  function Update(item: BrindeData, cliente: string, currentStatus: bool): BrindeData {
    if item.cliente == cliente then item.(entregue := !currentStatus) else item
  }

  lemma ToggleCons(item: BrindeData, s: seq<BrindeData>, cliente: string, currentStatus: bool)
    ensures ToggleEntregue([item] + s, cliente, currentStatus) == [Update(item, cliente, currentStatus)] + ToggleEntregue(s, cliente, currentStatus)
  {
    assert ([item] + s)[0] == item && ([item] + s)[1..] == s;
  }

  /** Repeating the call with the same `currentStatus` changes nothing more. */
  lemma ToggleIdempotent(data: seq<BrindeData>, cliente: string, currentStatus: bool)
    ensures ToggleEntregue(ToggleEntregue(data, cliente, currentStatus), cliente, currentStatus)
         == ToggleEntregue(data, cliente, currentStatus)
  {
    var once := ToggleEntregue(data, cliente, currentStatus);
    var twice := ToggleEntregue(once, cliente, currentStatus);
    assert forall i :: 0 <= i < |data| ==> twice[i] == once[i];
  }

  /** When every record of the client had `currentStatus` (what the detail view shows),
      the call is a negation of those records' flags, and the opposite call undoes it. */
  lemma ToggleUndo(data: seq<BrindeData>, cliente: string, currentStatus: bool)
    requires forall i :: 0 <= i < |data| && data[i].cliente == cliente ==> data[i].entregue == currentStatus
    ensures forall i :: 0 <= i < |data| ==>
      ToggleEntregue(data, cliente, currentStatus)[i].entregue == (data[i].entregue != (data[i].cliente == cliente))
    ensures ToggleEntregue(ToggleEntregue(data, cliente, currentStatus), cliente, !currentStatus) == data
  {
    var once := ToggleEntregue(data, cliente, currentStatus);
    var back := ToggleEntregue(once, cliente, !currentStatus);
    assert forall i :: 0 <= i < |data| ==> back[i] == data[i];
  }

  /** A view restricted to another client is not affected by the call. */
  lemma {:induction false} ToggleOtherClient(data: seq<BrindeData>, cliente: string, currentStatus: bool, sel: Selection)
    requires sel.cliente != Todos && sel.cliente != cliente
    ensures ApplyFilters(ToggleEntregue(data, cliente, currentStatus), sel) == ApplyFilters(data, sel)
  {
    if data != [] {
      ToggleOtherClient(data[1..], cliente, currentStatus, sel);
    }
  }

  /** When the delivery selection is "todos", toggling before or after filtering is the same. */
  lemma {:induction false} ToggleCommutesWithFilter(data: seq<BrindeData>, cliente: string, currentStatus: bool, sel: Selection)
    requires sel.entregue == Todos
    ensures ApplyFilters(ToggleEntregue(data, cliente, currentStatus), sel)
         == ToggleEntregue(ApplyFilters(data, sel), cliente, currentStatus)
  {
    if data != [] {
      var item, tail := data[0], data[1..];
      var updated := Update(item, cliente, currentStatus);
      var rest := ApplyFilters(tail, sel);
      assert data == [item] + tail;
      assert Matches(sel, updated) == Matches(sel, item);
      FilterCons(updated, ToggleEntregue(tail, cliente, currentStatus), sel);
      ToggleCommutesWithFilter(tail, cliente, currentStatus, sel);
      if Matches(sel, item) {
        ToggleCons(item, rest, cliente, currentStatus);
      }
    }
  }
}
