# Dashboard-Brindes data engine in Dafny

This project models the data engine of the gift-distribution dashboard (`Index.tsx`, the `Index`
component). It covers:

- the records, as `BrindeData`, one per distribution event;
- the filter engine: five selections, each "todos" or one concrete value, combined with AND;
  the delivery selection is "todos", "entregue" or "pendente";
- the four filter choice lists: distinct, non-empty, sorted by the default `.sort()`, which
  compares UTF-16 code units;
- the charts and cards, all computed from the filtered records:
  - the gift-kind distribution with its colour table;
  - the top-10 clients;
  - the per-service, per-commercial-owner and per-CS-owner summaries;
  - the top-10 cities;
  - the four summary statistics;
- the dashboard state as a class: the records plus the five selections. Its methods are the
  setters, clear-filters, the per-client delivery toggle, the common "load succeeded" tail and the
  Google Sheets connection.

Modules:

- `Records`: the record and its columns.
- `Filters`: the filter predicate.
- `StringOrder`: code-unit string order.
- `Dimensions`: the choice lists.
- `Collections`: first-appearance de-duplication and `slice`.
- `Groups` and `Accumulate`: the `reduce`-into-an-object pattern.
- `Ranking`: the stable sort by decreasing quantity, and the top-n cut.
- `Aggregation`, `TopLists`, `Summaries`, `Stats`: the views.
- `Delivery`: the toggle.
- `SheetsUrl`: the spreadsheet-ID regex and the export address.
- `DashboardState`: the class.

How the pieces are built:

- **Pure pipelines are functions.** The filter, the choice lists, the toggle's `map` and the ID
  extraction are functions, with lemmas about them.
- **Aggregations are methods.** Each `reduce` that fills an object is a method with a loop over
  the records that updates a key list and a `map` accumulator. Each method is proved equal to a
  specification function. The properties of that function are proved as lemmas.
- **Object key order.** An object's keys are modelled in insertion order, which is first
  appearance. That is the order `Object.entries` returns for keys that are not integer-like.
- **The sort.** JavaScript's sort is stable, so it is modelled by a stable insertion sort.

Two places where the code does less than its names suggest:

- **The toggle sets, it does not flip.** `handleToggleEntregue` sets `entregue := !currentStatus`
  on every record of the client. It does not negate each record's flag. The two coincide only when
  all those records had `currentStatus` (see `Delivery.ToggleUndo`).
- **The choice lists use code-unit order.** They are sorted by `.sort()` without a comparator, so
  the order is UTF-16 code-unit order, not locale order.

## Model

| member | source | states |
|---|---|---|
| Filters.MatchesDelivery | Index.tsx:80-82 | the delivery test: "todos" passes everything, "entregue" the delivered records, "pendente" the pending ones; what it keeps is stated by Filters.DeliverySelection |
| Filters.Matches | Index.tsx:75-84 | the `filter` callback, the AND of the five tests; what it keeps is stated column by column by Filters.KeptRecords |
| Filters.KeptRecords | Index.tsx:75-84 | a record of the data is kept exactly when it equals every selection that is not "todos", the delivery selection is one of its three states, and its flag is what "entregue" or "pendente" asks |
| Filters.ApplyFilters | Index.tsx:74-85 | the filtered records are exactly the records of the data that pass all five selections, and there are no more of them than records |
| Filters.AllSelectedIsIdentity | Index.tsx:74-85 | with every selection at "todos" the filter returns the data unchanged |
| Filters.FilterIsSubsequence | Index.tsx:74-85 | the filtered records keep the order of the data (an order-preserving subsequence) |
| Filters.FilterMultiplicity | Index.tsx:74-85 | a record that passes is kept as many times as it occurs; one that fails is dropped entirely |
| Filters.FilterAppend | Index.tsx:74-85 | filtering a concatenation is the concatenation of the filtered parts |
| Filters.WithStatus | Index.tsx:80-82 | the records with a given delivery flag, exactly |
| Filters.DeliverySelection | Index.tsx:80-82 | delivery selection alone: "entregue" keeps exactly the delivered records, "pendente" exactly the pending ones, any other non-"todos" value keeps nothing |
| Dimensions.NonEmpty | Index.tsx:89 | `.filter(Boolean)` on strings drops exactly "" and keeps the rest, without adding duplicates |
| Dimensions.InsertSorted | Index.tsx:89 | one insertion step keeps the elements and keeps a strictly ascending list strictly ascending |
| Dimensions.SortStrings | Index.tsx:89 | `.sort()`: same elements and length; on distinct input the result is strictly ascending in code-unit order |
| Dimensions.SortedUnique | Index.tsx:89 | two strictly ascending lists with the same elements are equal, so the sorted list does not depend on how it was sorted |
| Dimensions.DistinctValues | Index.tsx:88-106 | each choice list is strictly ascending, has no duplicates and no "", and holds exactly the non-empty values of the column that occur in the data |
| StringOrder.LessIrreflexive | Index.tsx:89 | the string order is irreflexive |
| StringOrder.LessTransitive | Index.tsx:89 | the string order is transitive |
| StringOrder.LessTotal | Index.tsx:89 | any two different strings are ordered one way or the other |
| StringOrder.CodeUnitOrder | Index.tsx:89 | the order used is the lexicographic order of the strings' UTF-16 code-unit sequences, including surrogate pairs |
| Collections.Distinct | Index.tsx:89 | the distinct list is no longer than its input |
| Collections.DistinctNoDups | Index.tsx:89 | `new Set(...)` listed in insertion order has no duplicates |
| Collections.DistinctMembers | Index.tsx:89 | the distinct list holds exactly the input's elements |
| Collections.DistinctCard | Index.tsx:228-232 | the distinct list is as long as the set of the input's elements (the `Set`'s `size`) |
| Groups.Label | Index.tsx:111 | a string or its fallback, as JavaScript's logical or on strings: only "" takes the fallback ("Não" at line 111, "Não informado" at lines 147, 168, 182, 203); the labels it yields are stated by Aggregation.DistributionNames, TopLists.CityDataEntry and Summaries.SummaryEntry |
| Groups.AccumulatedGroups | Index.tsx:110-114 | the accumulator object has a key for exactly the labels that occur, and each key holds that group's count or quantity |
| Groups.ClientSetsGroups | Index.tsx:146-155 | the `clientes` object has a key for exactly the labels that occur, and each key holds exactly that group's clients |
| Groups.ClientsBounds | Index.tsx:154-160 | a group that occurs has at least one client and at most as many clients as records |
| Groups.GroupsPartition | Index.tsx:110-114 | the groups partition the records: their weights add up to the weight of all records |
| Groups.QuantityAtLeastCount | Index.tsx:132-135 | among records with positive totals, a group's quantity is at least its record count |
| Groups.ClientTotalOverAll | Index.tsx:132-135 | the `total > 0` guard does not change a client's sum: it equals the sum over all of its records |
| Groups.PositiveLabels | Index.tsx:132-135 | a client appears among the keys built from positive records exactly when it has a record with a positive total |
| Groups.PositiveClientsMembers | Index.tsx:131-137 | a client gets a key exactly when it has a positive record, which is exactly when its accumulated quantity is positive |
| Groups.NoPositiveIffZero | Index.tsx:223-226 | no record has a positive total exactly when the total quantity is zero |
| Accumulate.KeysAccumulated | Index.tsx:110-114 | the key list and the accumulator map have the same keys, and each key holds its group's weight |
| Accumulate.GroupTotals | Index.tsx:110-114 | the loop computes the key list in first-appearance order and the per-key totals (a missing key starts from 0) |
| Accumulate.KeyedSum | Index.tsx:123-127 | entries read off the keys add up to the sum of the group weights |
| Ranking.SortDesc | Index.tsx:141 | `.sort((a, b) => b.quantidade - a.quantidade)`, used at lines 141, 163, 176, 198 and 219: same length; a permutation (Ranking.SortPerm), non-increasing (Ranking.SortIsSorted) and stable (Ranking.SortStable) |
| Ranking.InsertPerm | Index.tsx:141 | one insertion step adds the element and loses nothing |
| Ranking.InsertKeepsSorted | Index.tsx:141 | one insertion step keeps a non-increasing list non-increasing |
| Ranking.SortPerm | Index.tsx:141 | the sorted list is a permutation of its input |
| Ranking.SortIsSorted | Index.tsx:141 | the sorted list is non-increasing in `quantidade` |
| Ranking.SortStable | Index.tsx:141 | stability: for each quantity, the entries with that quantity keep their input order |
| Ranking.SortSum | Index.tsx:141 | sorting does not change the sum of the quantities |
| Ranking.PermutationDistinctBy | Index.tsx:139-141 | reordering keeps the entry names distinct |
| Ranking.TopKeepsLargest | Index.tsx:141-142 | an entry left out of the top n is out because n entries of at least its quantity come first |
| Ranking.TopProperties | Index.tsx:139-142 | `.sort(...).slice(0, n)` yields at most n entries, non-increasing, distinct names, only input entries; any entry left out is outranked by a full list |
| Aggregation.ColorOf | Index.tsx:116-126 | the four named kinds get their own colour, exactly the other kinds get the default one |
| Aggregation.DistributionNames | Index.tsx:109-128 | one slice per kind present (an empty `brindes` counted as "Não"), each kind once, every record's kind represented |
| Aggregation.DistributionValues | Index.tsx:109-128 | every slice counts at least one record and carries its kind's colour |
| Aggregation.DistributionProperties | Index.tsx:109-128 | the pie chart: distinct names, every kind present, values are record counts that add up to the number of filtered records, colours from the table |
| Aggregation.BrindesDistribution | Index.tsx:109-128 | the loop-built pie data equals the specification `Distribution` |
| TopLists.ClienteTotals | Index.tsx:131-137 | the loop adds only positive totals, and its keys are the clients with a positive record in first-appearance order |
| TopLists.TopClientes | Index.tsx:130-143 | the loop-built top list equals the specification `TopClientesOf` |
| TopLists.TopClientesShape | Index.tsx:139-142 | top clients: `min(10, #clients with a positive record)` entries, non-increasing, distinct names |
| TopLists.TopClientesEntry | Index.tsx:130-143 | each top client has a positive record, and its `quantidade` is positive and is the sum of A+B+C over that client's records |
| TopLists.TopClientesComplete | Index.tsx:139-142 | a client with a positive record is listed, or the list is full with quantities at least its own |
| TopLists.TopClientesProperties | Index.tsx:130-143 | all of the above for the top-clients chart |
| TopLists.CityData | Index.tsx:166-178 | the loop-built city list equals the specification `CityDataOf` |
| TopLists.CityDataShape | Index.tsx:174-177 | top cities: `min(10, #cities)` entries, non-increasing, distinct names |
| TopLists.CityDataEntry | Index.tsx:166-172 | each city entry is a label that occurs (an empty `cidade` counted as "Não informado") and holds the summed quantity of all its records |
| TopLists.CityDataComplete | Index.tsx:174-177 | every record's city is listed, or the list is full with quantities at least that city's |
| TopLists.CityDataSum | Index.tsx:166-178 | with at most 10 cities, the entries add up to the total quantity |
| TopLists.CityDataProperties | Index.tsx:166-178 | all of the above for the city chart |
| Summaries.SummaryStateGroups | Index.tsx:146-155 | the object the `reduce` builds record by record holds the group keys in first-appearance order, each group's summed quantity and each group's set of clients |
| Summaries.SummaryTotals | Index.tsx:146-155 | the loop computes, per label, the summed quantity and the set of clients, keys in first-appearance order |
| Summaries.GroupSummaries | Index.tsx:145-164 | the loop-built summary equals the specification `SummariesOf` |
| Summaries.SummariesShape | Index.tsx:157-163 | one entry per group label (not truncated), non-increasing, distinct names |
| Summaries.SummaryEntry | Index.tsx:145-164 | each entry: a label that occurs, its summed quantity, `clientes` = number of distinct clients ("" included), `1 <= clientes <= records of the group` |
| Summaries.SummaryCovers | Index.tsx:145-164 | every record's label (an empty value counted as "Não informado") has an entry |
| Summaries.SummariesSum | Index.tsx:145-164 | group quantities add up to the total quantity of the filtered records |
| Summaries.SummariesStable | Index.tsx:163 | entries of equal quantity keep their first-appearance order |
| Summaries.SummariesProperties | Index.tsx:145-220 | all of the above except the tie order of Summaries.SummariesStable, for the service, commercial-owner and CS-owner tables alike (they differ only in the column) |
| Stats.ComputeStats | Index.tsx:222-234 | the loop sums A+B+C over the filtered records, and the cards equal the specification `StatsOf` |
| Stats.PositiveClientsCount | Index.tsx:225-231 | `clientesComBrindes <= totalClientes`: a client with a positive record is a client |
| Stats.PositiveClientsAreKeys | Index.tsx:225-231 | `clientesComBrindes` equals the number of keys of the top-clients object, the clients with a positive record (Groups.PositiveClientsMembers) |
| Stats.DistinctCities | Index.tsx:232 | `totalCidades` is the number of distinct non-empty cities among the filtered records, which is the length of `Dimensions.DistinctValues(items, Cidade)` |
| Stats.StatsProperties | Index.tsx:222-234 | `clientesComBrindes <= totalClientes <= #records`, `totalCidades <= #records`, `totalBrindes == 0` exactly when `clientesComBrindes == 0`; `totalClientes` is the number of distinct clients, `clientesComBrindes` is the length of the top-clients key list (so the top-clients chart has `min(10, clientesComBrindes)` entries), and `totalCidades` is the length of `Dimensions.DistinctValues(items, Cidade)` over the filtered records |
| Delivery.ToggleEntregue | Index.tsx:244-251 | same length and order; every record of the client gets `entregue := !currentStatus`; every other record is identical |
| Delivery.ToggleIdempotent | Index.tsx:244-251 | repeating the call with the same `currentStatus` changes nothing more |
| Delivery.ToggleUndo | Index.tsx:244-251 | when all the client's records had `currentStatus`, the call negates exactly their flags, and the opposite call restores the data |
| Delivery.ToggleOtherClient | Index.tsx:244-251 | a view restricted to another client is not affected |
| Delivery.ToggleCommutesWithFilter | Index.tsx:74-85 | with the delivery selection at "todos", toggling then filtering equals filtering then toggling |
| SheetsUrl.IdRun | Index.tsx:292 | the greedy `[a-zA-Z0-9-_]+`: the longest prefix of ID characters |
| SheetsUrl.FirstMatch | Index.tsx:292 | the leftmost position where the marker and one ID character follow, or none at all |
| SheetsUrl.SpreadsheetId | Index.tsx:292-296 | no ID exactly when the pattern matches nowhere; otherwise the ID is the longest ID run after the marker at the leftmost match |
| SheetsUrl.ExportUrl | Index.tsx:299 | the CSV export address of an ID; the ID is recovered from it by SheetsUrl.ExportUrlRoundTrip, and SheetsUrl.AfterHost states that the marker and the ID follow the host |
| SheetsUrl.AfterHost | Index.tsx:299 | the export address has the pattern's match right after the host, followed by the ID and the export suffix |
| SheetsUrl.ExportUrlRoundTrip | Index.tsx:292-299 | the ID is recovered from the export address built from it |
| DashboardState.Dashboard.constructor | Index.tsx:17-23 | no records, every selection "todos" |
| DashboardState.Dashboard.FilteredData | Index.tsx:74-85 | `filteredData`: exactly the records that pass the current selections, as an order-preserving subsequence of the data |
| DashboardState.Dashboard.Choices | Index.tsx:88-106 | the distinct non-empty values of any column of the data, strictly ascending, no ""; the filter bar uses it for four columns (`cliente`, `responsavelComercial`, `responsavelCS`, `brindes`) |
| DashboardState.Dashboard.SetCliente | Index.tsx:400 | only the client selection changes |
| DashboardState.Dashboard.SetRespComercial | Index.tsx:401 | only the commercial-owner selection changes |
| DashboardState.Dashboard.SetRespCS | Index.tsx:402 | only the CS-owner selection changes |
| DashboardState.Dashboard.SetBrinde | Index.tsx:403 | only the gift-kind selection changes |
| DashboardState.Dashboard.SetEntregue | Index.tsx:404 | only the delivery selection changes |
| DashboardState.Dashboard.ClearFilters | Index.tsx:236-242 | every selection is "todos", the data is kept, and the filtered view is the whole dataset |
| DashboardState.Dashboard.ToggleEntregue | Index.tsx:244-251 | the data becomes the toggled data and the selections stay; with the delivery selection at "todos" the view changes the same way |
| DashboardState.Dashboard.FinishLoad | Index.tsx:262-271 | on success the data is replaced, every selection is "todos" and the view is the new data; on failure nothing changes |
| DashboardState.Dashboard.ConnectGoogleSheets | Index.tsx:288-316 | a link without an ID is rejected and nothing changes; otherwise the export address of the ID is fetched, and a failed fetch changes nothing while a successful one loads the data and resets the selections |

## Left out

- Parsing the CSV (`parseCSV` from `@/utils/csvParser`) is not part of this model. Its output is
  the input of every operation, with quantities as non-negative integers.
- Network and file I/O are not modelled: `fetch`, `file.text()`, `async`/`await`, and `try`/`catch`
  around them. `DashboardState.Dashboard.FinishLoad` takes the load's outcome as an argument.
  `DashboardState.Dashboard.ConnectGoogleSheets` takes the download-and-parse step as a function
  parameter `fetchCsv`.
- Toasts, `console.error` and the `loading` flag are left out. They are presentation only.
- The load on mount (the `useEffect`, Index.tsx:29-71), with its fallback to the bundled CSV, is
  left out. It only calls `setData` (Index.tsx:42, 59), while `FinishLoad` also resets the five
  selections. The two agree here: the mount load starts from the constructor's state, where every
  selection is already "todos", and the loading spinner (Index.tsx:364-370) replaces the whole
  page, filter bar included, until the load finishes, so no selection can change before it.
- The bookkeeping of `dataMode`, `googleSheetsUrl` and `uploadedFileName` is left out. These are UI
  mode fields with no logic.
- DashboardState.Dashboard.FinishLoad stands for all three successful loads: file upload
  (262-271), Google Sheets (307-316) and restoring the default sheet (341-347). It does not model
  the default sheet's failure path, where the source has already cleared the mode fields.
- Overlapping asynchronous loads, and the order in which they finish, are not modelled. They have
  no sequential meaning.
- Rendering and the chart components are left out. Colours are opaque strings looked up in a table.
- JavaScript puts integer-like object keys (such as "10") first, in numeric order. The model uses
  first-appearance order for every key. Ranking.SortStable and Summaries.SummariesStable therefore
  state tie order only relative to the modelled key order. For the two top-10 lists, when entries
  tie at the cut, which of them survive also follows the modelled key order. For example, a
  client "7" tied with a client "b" at position 10: JavaScript lists "7" first because it is
  integer-like, while the model keeps first appearance. What is proved holds in either order:
  sortedness, bounds and sums, each entry's quantity (TopLists.TopClientesEntry,
  TopLists.CityDataEntry), and that a left-out entry is outranked by a full list
  (TopLists.TopClientesComplete, TopLists.CityDataComplete).
- Keys that collide with `Object.prototype` members (for example "constructor" or "__proto__") are
  not modelled. For them, `acc[key] || 0` would read an inherited value.
- Quantities are unbounded naturals. JavaScript's double-precision arithmetic, and any `NaN` the
  parser might let through, are not modelled.
- Dimensions.SortStrings: it is a model of the default `.sort()` on distinct strings. Its result is
  proved unique (Dimensions.SortedUnique), but the engine's sort algorithm itself is not modelled.
