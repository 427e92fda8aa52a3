/** The dashboard's mutable state (Index.tsx, the `useState` hooks of `Index`):
    the loaded records and the five filter selections, with the handlers that
    change them. Loading is reduced to its effect: the parsed records arrive as
    an argument (or through the `fetchCsv` parameter standing for the download
    and the CSV parser), and a failed load leaves the state as it was. */
module DashboardState {
  import opened Wrappers
  import opened Records
  import opened Filters
  import Delivery
  import Dimensions
  import SheetsUrl

  /** How a Google Sheets connection attempt ends. */
  datatype ConnectResult = Connected(id: string) | InvalidUrl | FetchFailed

  class Dashboard {
    var data: seq<BrindeData>
    var selectedCliente: string
    var selectedRespComercial: string
    var selectedRespCS: string
    var selectedBrinde: string
    var selectedEntregue: string

    /** The five selections as one value. */
    function CurrentSelection(): Selection
      reads this
    {
      Filters.Selection(selectedCliente, selectedRespComercial, selectedRespCS, selectedBrinde, selectedEntregue)
    }

    /** `filteredData`: what every chart and card is computed from, the records that pass the
        current selections, in data order. */
    function FilteredData(): (r: seq<BrindeData>)
      reads this
      ensures forall x :: x in r <==> x in data && Matches(CurrentSelection(), x)
      ensures IsSubsequence(r, data)
    {
      FilterIsSubsequence(data, CurrentSelection());
      ApplyFilters(data, CurrentSelection())
    }

    /** The non-empty values of any column, once each, ascending. The filter bar shows this list
        for four columns: `cliente`, `responsavelComercial`, `responsavelCS` and `brindes`. */
    function Choices(f: Field): (r: seq<string>)
      reads this
      ensures Dimensions.StrictlySorted(r) && "" !in r
      ensures forall v :: v in r <==> v != "" && exists i :: 0 <= i < |data| && Get(data[i], f) == v
    {
      Dimensions.DistinctValues(data, f)
    }

    /** The state `Index` starts in: no records, every selection "todos". */
    constructor ()
      ensures data == []
      ensures CurrentSelection() == AllSelected
    {
      data := [];
      selectedCliente, selectedRespComercial, selectedRespCS := Todos, Todos, Todos;
      selectedBrinde, selectedEntregue := Todos, Todos;
    }

    /** `setSelectedCliente`: one selection changes, nothing else. */
    method SetCliente(v: string)
      modifies this
      ensures CurrentSelection() == old(CurrentSelection()).(cliente := v)
      ensures data == old(data)
    {
      selectedCliente := v;
    }

    method SetRespComercial(v: string)
      modifies this
      ensures CurrentSelection() == old(CurrentSelection()).(respComercial := v)
      ensures data == old(data)
    {
      selectedRespComercial := v;
    }

    method SetRespCS(v: string)
      modifies this
      ensures CurrentSelection() == old(CurrentSelection()).(respCS := v)
      ensures data == old(data)
    {
      selectedRespCS := v;
    }

    method SetBrinde(v: string)
      modifies this
      ensures CurrentSelection() == old(CurrentSelection()).(brinde := v)
      ensures data == old(data)
    {
      selectedBrinde := v;
    }

    method SetEntregue(v: string)
      modifies this
      ensures CurrentSelection() == old(CurrentSelection()).(entregue := v)
      ensures data == old(data)
    {
      selectedEntregue := v;
    }

    /** `handleClearFilters`: every selection back to "todos", so the whole dataset is shown. */
    method ClearFilters()
      modifies this
      ensures data == old(data)
      ensures CurrentSelection() == AllSelected
      ensures FilteredData() == data
    {
      selectedCliente, selectedRespComercial, selectedRespCS := Todos, Todos, Todos;
      selectedBrinde, selectedEntregue := Todos, Todos;
      AllSelectedIsIdentity(data);
    }

    /** `handleToggleEntregue`: the client's records get `entregue := !currentStatus`, every
        other record and every selection stay; with the delivery selection at "todos" the
        view changes the same way as the data. */
    method ToggleEntregue(cliente: string, currentStatus: bool)
      modifies this
      ensures data == Delivery.ToggleEntregue(old(data), cliente, currentStatus)
      ensures CurrentSelection() == old(CurrentSelection())
      ensures |data| == |old(data)|
      ensures forall i :: 0 <= i < |data| ==>
        data[i] == if old(data)[i].cliente == cliente then old(data)[i].(entregue := !currentStatus) else old(data)[i]
      ensures CurrentSelection().entregue == Todos ==>
        FilteredData() == Delivery.ToggleEntregue(old(FilteredData()), cliente, currentStatus)
    {
      if selectedEntregue == Todos {
        Delivery.ToggleCommutesWithFilter(data, cliente, currentStatus, CurrentSelection());
      }
      data := Delivery.ToggleEntregue(data, cliente, currentStatus);
    }

    /** The common tail of a successful load (file upload, Google Sheets, restoring the
        default sheet): the records are replaced and every selection goes back to "todos".
        A failed load (`None`) changes nothing. */
    method FinishLoad(outcome: Option<seq<BrindeData>>)
      modifies this
      ensures outcome.None? ==> data == old(data) && CurrentSelection() == old(CurrentSelection())
      ensures outcome.Some? ==> data == outcome.value && CurrentSelection() == AllSelected
      ensures outcome.Some? ==> FilteredData() == outcome.value
    {
      if outcome.Some? {
        data := outcome.value;
        selectedCliente, selectedRespComercial, selectedRespCS := Todos, Todos, Todos;
        selectedBrinde, selectedEntregue := Todos, Todos;
        AllSelectedIsIdentity(data);
      }
    }

    /** `handleGoogleSheetsUrl`: a link without a spreadsheet ID is rejected before anything
        is fetched or changed; otherwise the CSV export of that ID is fetched and, when that
        succeeds, loaded. */
    method ConnectGoogleSheets(url: string, fetchCsv: string -> Option<seq<BrindeData>>) returns (r: ConnectResult)
      modifies this
      ensures SheetsUrl.SpreadsheetId(url).None? <==> r == InvalidUrl
      ensures r.Connected? ==> SheetsUrl.SpreadsheetId(url) == Some(r.id)
      ensures r.InvalidUrl? || r.FetchFailed? ==> data == old(data) && CurrentSelection() == old(CurrentSelection())
      ensures SheetsUrl.SpreadsheetId(url).Some? ==>
        var outcome := fetchCsv(SheetsUrl.ExportUrl(SheetsUrl.SpreadsheetId(url).value));
        && (outcome.None? <==> r == FetchFailed)
        && (outcome.Some? ==> data == outcome.value && CurrentSelection() == AllSelected)
    {
      var id := SheetsUrl.SpreadsheetId(url);
      if id.None? {
        return InvalidUrl;
      }
      var outcome := fetchCsv(SheetsUrl.ExportUrl(id.value));
      FinishLoad(outcome);
      if outcome.None? {
        r := FetchFailed;
      } else {
        r := Connected(id.value);
      }
    }
  }
}
