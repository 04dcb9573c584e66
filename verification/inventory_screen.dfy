/** The inventory list screen: the search, status and category filters, the
    add/edit/delete handlers on the list held in state, and the statistics
    cards. */
module InventoryScreen {
  import opened Results
  import opened Text
  import opened Collections
  import opened SupplierTypes
  import opened InventoryTypes
  import InventoryView

  type Row = InventoryWithSupplier

  /* ---------------------------------------------------------------------- */
  /* Filtering                                                               */
  /* ---------------------------------------------------------------------- */

  /** The status drop-down: `'all'` or one of the three statuses, whose
      option values are the lower-case status names. */
  datatype StatusFilter = AnyStatus | Only(status: InventoryStatus)

  /** The option value of the drop-down. */
  function FilterValue(f: StatusFilter): string {
    match f
    case AnyStatus => "all"
    case Only(Active) => "active"
    case Only(OutOfStock) => "out_of_stock"
    case Only(Discontinued) => "discontinued"
  }

  /** The status test: the record's status string equals the option value
      upper-cased. */
  predicate StatusMatches(row: Row, f: StatusFilter) {
    StatusName(row.item.status) == Upper(FilterValue(f))
  }

  /** Upper-casing an option value gives back the status name, so choosing
      a status shows exactly the parts with that status. */
  lemma StatusMatchesIffEqual(row: Row, s: InventoryStatus)
    ensures StatusMatches(row, Only(s)) <==> row.item.status == s
  {
    assert Upper(FilterValue(Only(s))) == StatusName(s);
    StatusNameInjective(row.item.status, s);
  }

  /** The search test: part name, part number, brand, category or the
      supplier's company name contains the term, case ignored. */
  predicate MatchesSearch(row: Row, term: string) {
    var t := Lower(term);
    || Includes(Lower(row.item.partName), t)
    || Includes(Lower(row.item.partNumber), t)
    || Includes(Lower(row.item.brand), t)
    || Includes(Lower(row.item.category), t)
    || Includes(Lower(row.supplier.companyName), t)
  }

  function SearchTest(term: string): Row -> bool {
    row => MatchesSearch(row, term)
  }

  function StatusTest(f: StatusFilter): Row -> bool {
    row => StatusMatches(row, f)
  }

  function CategoryTest(category: string): Row -> bool {
    (row: Row) => row.item.category == category
  }

  /** The filter effect: search for a non-empty term, then the status
      filter unless `'all'`, then the category filter unless `"all"`. */
  function FilterInventory(rows: seq<Row>, term: string, status: StatusFilter, category: string): (r: seq<Row>)
    ensures IsSubsequence(r, rows)
  {
    var searched := if term != "" then Filter(SearchTest(term), rows) else rows;
    var byStatus := if status != AnyStatus then Filter(StatusTest(status), searched) else searched;
    var r := if category != "all" then Filter(CategoryTest(category), byStatus) else byStatus;
    SubsequenceRefl(rows);
    SubsequenceRefl(searched);
    SubsequenceRefl(byStatus);
    SubsequenceTrans(byStatus, searched, rows);
    SubsequenceTrans(r, byStatus, rows);
    r
  }

  /** Declarative reading of the search. */
  ghost predicate Found(row: Row, term: string) {
    var t := Lower(term);
    || term == ""
    || Occurs(t, Lower(row.item.partName))
    || Occurs(t, Lower(row.item.partNumber))
    || Occurs(t, Lower(row.item.brand))
    || Occurs(t, Lower(row.item.category))
    || Occurs(t, Lower(row.supplier.companyName))
  }

  /** A part is shown when found by the search, of the chosen status and of
      the chosen category. */
  ghost predicate Shown(row: Row, term: string, status: StatusFilter, category: string) {
    && Found(row, term)
    && (status.Only? ==> row.item.status == status.status)
    && (category != "all" ==> row.item.category == category)
  }

  ghost function FoundTest(term: string): Row -> bool {
    row => Found(row, term)
  }

  ghost function FoundStatusTest(term: string, status: StatusFilter): Row -> bool {
    row => Found(row, term) && (status.Only? ==> row.item.status == status.status)
  }

  ghost function ShownTest(term: string, status: StatusFilter, category: string): Row -> bool {
    row => Shown(row, term, status, category)
  }

  lemma MatchesSearchIffFound(row: Row, term: string)
    requires term != ""
    ensures MatchesSearch(row, term) <==> Found(row, term)
  {
    var t := Lower(term);
    IncludesIffOccurs(Lower(row.item.partName), t);
    IncludesIffOccurs(Lower(row.item.partNumber), t);
    IncludesIffOccurs(Lower(row.item.brand), t);
    IncludesIffOccurs(Lower(row.item.category), t);
    IncludesIffOccurs(Lower(row.supplier.companyName), t);
  }

  /** The staged filters show exactly the parts the declarative test
      accepts, in list order. */
  lemma FilterInventoryShowsExactly(rows: seq<Row>, term: string, status: StatusFilter, category: string)
    ensures FilterInventory(rows, term, status, category) == Filter(ShownTest(term, status, category), rows)
  {
    forall row | term != "" ensures MatchesSearch(row, term) <==> Found(row, term) {
      MatchesSearchIffFound(row, term);
    }
    forall row | status.Only? ensures StatusMatches(row, status) <==> row.item.status == status.status {
      StatusMatchesIffEqual(row, status.status);
    }
    var found := FoundTest(term);
    FilterWhen(term != "", SearchTest(term), found, rows);
    var statusStage := (row: Row) => !(status != AnyStatus) || StatusMatches(row, status);
    var searched := Filter(found, rows);
    FilterWhen(status != AnyStatus, StatusTest(status), statusStage, searched);
    var foundStatus := FoundStatusTest(term, status);
    FilterFusion(found, statusStage, foundStatus, rows);
    var byStatus := Filter(foundStatus, rows);
    var categoryStage := (row: Row) => !(category != "all") || row.item.category == category;
    FilterWhen(category != "all", CategoryTest(category), categoryStage, byStatus);
    FilterFusion(foundStatus, categoryStage, ShownTest(term, status, category), rows);
  }

  /** No search and no filter shows every part. */
  lemma UnfilteredShowsAll(rows: seq<Row>)
    ensures FilterInventory(rows, "", AnyStatus, "all") == rows
  {
  }

  /* ---------------------------------------------------------------------- */
  /* Adding a part                                                           */
  /* ---------------------------------------------------------------------- */

  /** Position `k` holds the first supplier with the id. */
  predicate FoundAt(suppliers: seq<Supplier>, id: string, k: int) {
    && 0 <= k < |suppliers|
    && suppliers[k].id == id
    && forall j :: 0 <= j < k ==> suppliers[j].id != id
  }

  /** `suppliers.find(s => s.id === id)`: the first supplier with the id. */
  function FindSupplier(suppliers: seq<Supplier>, id: string): (r: Option<Supplier>)
    ensures r.None? <==> forall s :: s in suppliers ==> s.id != id
    ensures r.Some? ==> r.value.id == id && exists k :: FoundAt(suppliers, id, k) && suppliers[k] == r.value
  {
    if |suppliers| == 0 then None
    else if suppliers[0].id == id then Some(suppliers[0])
    else
      var r := FindSupplier(suppliers[1..], id);
      assert forall s :: s in suppliers <==> s == suppliers[0] || s in suppliers[1..];
      if r.Some? then
        var k :| FoundAt(suppliers[1..], id, k) && suppliers[1..][k] == r.value;
        assert FoundAt(suppliers, id, k + 1);
        r
      else
        r
  }

  /** The six supplier fields copied into a new row. */
  function Summarize(s: Supplier): (r: SupplierSummary)
    ensures r.id == s.id && r.companyName == s.companyName && r.ice == s.ice
    ensures r.contactPerson == s.contactPerson && r.phone == s.phone && r.email == s.email
  {
    SupplierSummary(s.id, s.companyName, s.ice, s.contactPerson, s.phone, s.email)
  }

  /** The record built from the add form: the form's fields, the new id,
      both timestamps set to the current time, and the margin derived from
      the two prices. */
  function NewItem(draft: InventoryDraft, id: string, now: string): (r: Inventory)
    ensures MarginConsistent(r)
    ensures r.id == id && r.createdAt == now && r.updatedAt == now
  {
    Inventory(
      id, draft.partNumber, draft.partName, draft.category, draft.brand, draft.description,
      draft.supplierId, draft.supplierLink, draft.barcode, draft.unitOfMeasure,
      draft.quantityInStock, draft.minStockLevel, draft.purchasePrice, draft.salePrice,
      draft.taxRate, draft.salePrice - draft.purchasePrice, draft.location, draft.status,
      draft.imageUrl, now, now)
  }

  /** The form fields of a stored record. */
  function DraftOf(item: Inventory): InventoryDraft {
    InventoryDraft(
      item.partNumber, item.partName, item.category, item.brand, item.description,
      item.supplierId, item.supplierLink, item.barcode, item.unitOfMeasure,
      item.quantityInStock, item.minStockLevel, item.purchasePrice, item.salePrice,
      item.taxRate, item.location, item.status, item.imageUrl)
  }

  /** The new record keeps every field the form supplied. */
  lemma NewItemKeepsDraft(draft: InventoryDraft, id: string, now: string)
    ensures DraftOf(NewItem(draft, id, now)) == draft
  {
  }

  /** `handleAddItem`: without a supplier of the chosen id nothing happens;
      otherwise the new part is appended together with the first matching
      supplier's summary. The id (`Date.now()`) and the timestamp are
      parameters. */
  function AddItem(rows: seq<Row>, draft: InventoryDraft, suppliers: seq<Supplier>, id: string, now: string): (r: seq<Row>)
    ensures (forall s :: s in suppliers ==> s.id != draft.supplierId) ==> r == rows
    ensures (exists s :: s in suppliers && s.id == draft.supplierId) ==>
      && |r| == |rows| + 1 && r[..|rows|] == rows
      && r[|rows|].item == NewItem(draft, id, now)
      && r[|rows|].supplier == Summarize(FindSupplier(suppliers, draft.supplierId).value)
  {
    match FindSupplier(suppliers, draft.supplierId)
    case None => rows
    case Some(s) => rows + [InventoryWithSupplier(NewItem(draft, id, now), Summarize(s))]
  }

  /** The two suppliers the screen looks new parts up in. */
  const MockSuppliers: seq<Supplier> := [
    Supplier(
      "1", "AutoParts Maroc SARL", "123456789012345", Some("IF123456789"), Some("RC12345"),
      "123 Avenue Mohammed V", "Casablanca", "Morocco", "Ahmed Benali", "+212 5 22 12 34 56",
      "contact@autoparts-maroc.ma", Some("https://autoparts-maroc.ma"), "Net 30", MAD, 4.5,
      "Reliable supplier for engine parts", "2024-01-15T10:00:00Z", "2024-01-15T10:00:00Z", true),
    Supplier(
      "2", "Mecanique Rabat", "987654321098765", None, None,
      "456 Rue Hassan II", "Rabat", "Morocco", "Fatima Zahra", "+212 5 37 98 76 54",
      "info@mecanique-rabat.ma", None, "Advance", MAD, 4.2,
      "Specialized in suspension systems", "2024-01-20T14:30:00Z", "2024-01-20T14:30:00Z", true)
  ]

  /** Example of `AddItem` over the two mock suppliers. A part whose supplier id is neither `"1"` nor `"2"` is silently
      dropped by the screen. */
  lemma UnknownSupplierIgnored(rows: seq<Row>, draft: InventoryDraft, id: string, now: string)
    requires draft.supplierId != "1" && draft.supplierId != "2"
    ensures AddItem(rows, draft, MockSuppliers, id, now) == rows
  {
  }

  /** Example of `AddItem` over the two mock suppliers: a part from
      supplier `"2"` carries that supplier's summary. */
  lemma KnownSupplierSummarized(rows: seq<Row>, draft: InventoryDraft, id: string, now: string)
    requires draft.supplierId == "2"
    ensures var r := AddItem(rows, draft, MockSuppliers, id, now);
      |r| == |rows| + 1 && r[|rows|].supplier.companyName == "Mecanique Rabat"
  {
  }

  /* ---------------------------------------------------------------------- */
  /* Editing and deleting                                                    */
  /* ---------------------------------------------------------------------- */

  function HasId(id: string): Row -> bool {
    (row: Row) => row.item.id == id
  }

  function OtherId(id: string): Row -> bool {
    (row: Row) => row.item.id != id
  }

  /** The edited row stamped with the time of the edit. */
  function Stamped(row: Row, now: string): Row {
    row.(item := row.item.(updatedAt := now))
  }

  /** `handleEditItem`: every row with the edited row's id becomes the
      edited row with a fresh `updatedAt`; the others keep their place and
      value, and every position keeps its id. */
  function EditItem(rows: seq<Row>, edited: Row, now: string): (r: seq<Row>)
    ensures |r| == |rows|
    ensures forall i :: 0 <= i < |rows| && rows[i].item.id != edited.item.id ==> r[i] == rows[i]
    ensures forall i :: 0 <= i < |rows| && rows[i].item.id == edited.item.id ==>
      r[i] == edited.(item := edited.item.(updatedAt := now))
    ensures forall i :: 0 <= i < |rows| ==> r[i].item.id == rows[i].item.id
  {
    ReplaceWhere(HasId(edited.item.id), Stamped(edited, now), rows)
  }

  /** Editing a row that is not in the list changes nothing. */
  lemma EditMissingIsNoop(rows: seq<Row>, edited: Row, now: string)
    requires forall row :: row in rows ==> row.item.id != edited.item.id
    ensures EditItem(rows, edited, now) == rows
  {
    ReplaceNothing(HasId(edited.item.id), Stamped(edited, now), rows);
  }

  /** `handleDeleteItem`: every row with the id is removed, the others stay
      in order. */
  function DeleteItem(rows: seq<Row>, id: string): (r: seq<Row>)
    ensures IsSubsequence(r, rows)
    ensures forall row :: row in r <==> row in rows && row.item.id != id
  {
    Filter(OtherId(id), rows)
  }

  /** A deletion removes exactly as many rows as carried the id. */
  lemma DeleteRemovesMatching(rows: seq<Row>, id: string)
    ensures |DeleteItem(rows, id)| + Count(HasId(id), rows) == |rows|
  {
    CountIsFilterLength(OtherId(id), rows);
    CountPartition(HasId(id), OtherId(id), rows);
  }

  /** Deleting after an edit gives the same list as deleting straight
      away. */
  lemma {:induction false} DeleteAfterEdit(rows: seq<Row>, edited: Row, now: string)
    ensures DeleteItem(EditItem(rows, edited, now), edited.item.id) == DeleteItem(rows, edited.item.id)
    decreases |rows|
  {
    if |rows| > 0 {
      DeleteAfterEdit(rows[1..], edited, now);
      var r := EditItem(rows, edited, now);
      assert r[1..] == EditItem(rows[1..], edited, now);
    }
  }

  /* ---------------------------------------------------------------------- */
  /* Statistics                                                              */
  /* ---------------------------------------------------------------------- */

  function IsActive(row: Row): bool {
    row.item.status == Active
  }

  function IsOutOfStock(row: Row): bool {
    row.item.status == OutOfStock
  }

  function IsLow(row: Row): bool {
    InventoryView.IsLowStock(row.item)
  }

  function Value(row: Row): real {
    InventoryView.StockValue(row.item)
  }

  function Category(row: Row): string {
    row.item.category
  }

  /** The statistics cards. */
  datatype Stats = Stats(
    totalItems: nat,
    activeItems: nat,
    outOfStockItems: nat,
    lowStockItems: nat,
    totalValue: real,
    categories: seq<string>)

  function ComputeStats(rows: seq<Row>): (r: Stats)
    ensures r.totalItems == |rows|
    ensures r.activeItems == |Filter(IsActive, rows)|
    ensures r.outOfStockItems == |Filter(IsOutOfStock, rows)|
    ensures r.lowStockItems == |Filter(IsLow, rows)|
    ensures NoDuplicates(r.categories)
    ensures forall c :: c in r.categories <==> exists row :: row in rows && row.item.category == c
    ensures forall c :: c in r.categories <==> c in Project(Category, rows)
    ensures forall i, j :: 0 <= i < j < |r.categories| ==>
      FirstIndex(Project(Category, rows), r.categories[i]) < FirstIndex(Project(Category, rows), r.categories[j])
  {
    CountIsFilterLength(IsActive, rows);
    CountIsFilterLength(IsOutOfStock, rows);
    CountIsFilterLength(IsLow, rows);
    ProjectMembers(Category, rows);
    Stats(|rows|, Count(IsActive, rows), Count(IsOutOfStock, rows), Count(IsLow, rows),
          Sum(Value, rows), Distinct(Project(Category, rows)))
  }

  /** Low-stock parts are active parts, so there are never more of them;
      active and out-of-stock parts never overlap, so together they are at
      most the total. */
  lemma StatsBounds(rows: seq<Row>)
    ensures ComputeStats(rows).lowStockItems <= ComputeStats(rows).activeItems
    ensures ComputeStats(rows).activeItems + ComputeStats(rows).outOfStockItems <= ComputeStats(rows).totalItems
  {
    CountIsFilterLength(IsActive, rows);
    CountIsFilterLength(IsOutOfStock, rows);
    CountIsFilterLength(IsLow, rows);
    CountMonotone(IsLow, IsActive, rows);
    var either := (row: Row) => IsActive(row) || IsOutOfStock(row);
    CountDisjoint(IsActive, IsOutOfStock, either, rows);
  }

  /** The empty inventory shows zero everywhere. */
  lemma EmptyStats()
    ensures ComputeStats([]) == Stats(0, 0, 0, 0, 0.0, [])
  {
  }

  /** With no negative quantity or price, the stock is worth nothing
      negative. */
  lemma TotalValueNonNegative(rows: seq<Row>)
    requires forall row :: row in rows ==> row.item.quantityInStock >= 0 && row.item.purchasePrice >= 0.0
    ensures ComputeStats(rows).totalValue >= 0.0
  {
    forall row | row in rows ensures Value(row) >= 0.0 {
      var q := row.item.quantityInStock as real;
      assert q >= 0.0;
      assert q * row.item.purchasePrice >= 0.0;
    }
    SumNonNegative(Value, rows);
  }

  /** A new part adds its own stock value to the total. */
  lemma TotalValueOfAdded(rows: seq<Row>, row: Row)
    ensures ComputeStats(rows + [row]).totalValue == ComputeStats(rows).totalValue + Value(row)
  {
    SumAppend(Value, rows, [row]);
  }
}
