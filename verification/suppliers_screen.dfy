/** The supplier list screen: the search and status filters, the local
    add/edit/delete handlers, the active/inactive counts and the average
    rating. The supplier dashboard builds on the same pieces. */
module SuppliersScreen {
  import opened Results
  import opened Text
  import opened Collections
  import opened SupplierTypes

  /* ---------------------------------------------------------------------- */
  /* Filtering                                                               */
  /* ---------------------------------------------------------------------- */

  /** The status drop-down: `'all'`, `'active'` or `'inactive'`. */
  datatype StatusFilter = AnyStatus | ActiveOnly | InactiveOnly

  /** The search test: company name, contact person and city compared
      without regard to case, the ICE compared against the term as typed. */
  predicate MatchesSearch(s: Supplier, term: string) {
    var t := Lower(term);
    || Includes(Lower(s.companyName), t)
    || Includes(Lower(s.contactPerson), t)
    || Includes(Lower(s.city), t)
    || Includes(s.ice, term)
  }

  /** The status test of a filter other than `'all'`: `'active'` keeps the
      active suppliers, anything else the inactive ones. */
  predicate StatusMatches(s: Supplier, f: StatusFilter) {
    if f == ActiveOnly then s.isActive else !s.isActive
  }

  function SearchTest(term: string): Supplier -> bool {
    s => MatchesSearch(s, term)
  }

  function StatusTest(f: StatusFilter): Supplier -> bool {
    s => StatusMatches(s, f)
  }

  /** The filter effect: the search for a non-empty term, then the status
      filter unless `'all'`. */
  function FilterSuppliers(suppliers: seq<Supplier>, term: string, status: StatusFilter): (r: seq<Supplier>)
    ensures IsSubsequence(r, suppliers)
  {
    var searched := if term != "" then Filter(SearchTest(term), suppliers) else suppliers;
    var r := if status != AnyStatus then Filter(StatusTest(status), searched) else searched;
    SubsequenceRefl(suppliers);
    SubsequenceRefl(searched);
    SubsequenceTrans(r, searched, suppliers);
    r
  }

  /** Declarative reading of the search. */
  ghost predicate Found(s: Supplier, term: string) {
    var t := Lower(term);
    || term == ""
    || Occurs(t, Lower(s.companyName))
    || Occurs(t, Lower(s.contactPerson))
    || Occurs(t, Lower(s.city))
    || Occurs(term, s.ice)
  }

  /** The activity condition a status choice puts on a supplier. */
  predicate HasStatus(s: Supplier, f: StatusFilter) {
    match f
    case AnyStatus => true
    case ActiveOnly => s.isActive
    case InactiveOnly => !s.isActive
  }

  ghost predicate Shown(s: Supplier, term: string, status: StatusFilter) {
    Found(s, term) && HasStatus(s, status)
  }

  ghost function FoundTest(term: string): Supplier -> bool {
    s => Found(s, term)
  }

  ghost function ShownTest(term: string, status: StatusFilter): Supplier -> bool {
    s => Shown(s, term, status)
  }

  lemma MatchesSearchIffFound(s: Supplier, term: string)
    requires term != ""
    ensures MatchesSearch(s, term) <==> Found(s, term)
  {
    var t := Lower(term);
    IncludesIffOccurs(Lower(s.companyName), t);
    IncludesIffOccurs(Lower(s.contactPerson), t);
    IncludesIffOccurs(Lower(s.city), t);
    IncludesIffOccurs(s.ice, term);
  }

  /** The staged filters show exactly the suppliers the declarative test
      accepts, in list order. */
  lemma FilterSuppliersShowsExactly(suppliers: seq<Supplier>, term: string, status: StatusFilter)
    ensures FilterSuppliers(suppliers, term, status) == Filter(ShownTest(term, status), suppliers)
  {
    forall s | term != "" ensures MatchesSearch(s, term) <==> Found(s, term) {
      MatchesSearchIffFound(s, term);
    }
    var found := FoundTest(term);
    FilterWhen(term != "", SearchTest(term), found, suppliers);
    var statusStage := (s: Supplier) => HasStatus(s, status);
    FilterWhen(status != AnyStatus, StatusTest(status), statusStage, Filter(found, suppliers));
    FilterFusion(found, statusStage, ShownTest(term, status), suppliers);
  }

  /** The two status choices split any result: every supplier the search
      finds is listed under exactly one of `'active'` and `'inactive'`. */
  lemma StatusPartitions(suppliers: seq<Supplier>, term: string)
    ensures |FilterSuppliers(suppliers, term, ActiveOnly)| + |FilterSuppliers(suppliers, term, InactiveOnly)|
         == |FilterSuppliers(suppliers, term, AnyStatus)|
  {
    var searched := FilterSuppliers(suppliers, term, AnyStatus);
    CountIsFilterLength(StatusTest(ActiveOnly), searched);
    CountIsFilterLength(StatusTest(InactiveOnly), searched);
    CountPartition(StatusTest(ActiveOnly), StatusTest(InactiveOnly), searched);
  }

  /** `'all'` with no search lists every supplier. */
  lemma UnfilteredShowsAll(suppliers: seq<Supplier>)
    ensures FilterSuppliers(suppliers, "", AnyStatus) == suppliers
  {
  }

  /* ---------------------------------------------------------------------- */
  /* Add, edit, delete                                                       */
  /* ---------------------------------------------------------------------- */

  /** The supplier built from the add form: the form's fields, the new id
      (`Date.now()`) and both timestamps set to the current time. */
  function NewSupplier(draft: SupplierDraft, id: string, now: string): (r: Supplier)
    ensures r.id == id && r.createdAt == now && r.updatedAt == now
  {
    Supplier(
      id, draft.companyName, draft.ice, draft.fiscalId, draft.tradeRegister, draft.address,
      draft.city, draft.country, draft.contactPerson, draft.phone, draft.email, draft.website,
      draft.paymentTerms, draft.currency, draft.rating, draft.notes, now, now, draft.isActive)
  }

  /** The form fields of a stored supplier. */
  function DraftOf(s: Supplier): SupplierDraft {
    SupplierDraft(
      s.companyName, s.ice, s.fiscalId, s.tradeRegister, s.address, s.city, s.country,
      s.contactPerson, s.phone, s.email, s.website, s.paymentTerms, s.currency, s.rating,
      s.notes, s.isActive)
  }

  /** The new supplier keeps every field the form supplied. */
  lemma NewSupplierKeepsDraft(draft: SupplierDraft, id: string, now: string)
    ensures DraftOf(NewSupplier(draft, id, now)) == draft
  {
  }

  /** `handleAddSupplier`: the new supplier is appended. */
  function AddSupplier(suppliers: seq<Supplier>, draft: SupplierDraft, id: string, now: string): (r: seq<Supplier>)
    ensures |r| == |suppliers| + 1 && r[..|suppliers|] == suppliers
    ensures r[|suppliers|] == NewSupplier(draft, id, now)
  {
    suppliers + [NewSupplier(draft, id, now)]
  }

  function HasId(id: string): Supplier -> bool {
    (s: Supplier) => s.id == id
  }

  function OtherId(id: string): Supplier -> bool {
    (s: Supplier) => s.id != id
  }

  /** `handleEditSupplier`: every supplier with the edited supplier's id
      becomes the edited supplier with a fresh `updatedAt`; the others keep
      their place and value. */
  function EditSupplier(suppliers: seq<Supplier>, edited: Supplier, now: string): (r: seq<Supplier>)
    ensures |r| == |suppliers|
    ensures forall i :: 0 <= i < |suppliers| && suppliers[i].id != edited.id ==> r[i] == suppliers[i]
    ensures forall i :: 0 <= i < |suppliers| && suppliers[i].id == edited.id ==> r[i] == edited.(updatedAt := now)
  {
    ReplaceWhere(HasId(edited.id), edited.(updatedAt := now), suppliers)
  }

  /** `handleDeleteSupplier`: every supplier with the id is removed, the
      others stay in order. */
  function DeleteSupplier(suppliers: seq<Supplier>, id: string): (r: seq<Supplier>)
    ensures IsSubsequence(r, suppliers)
    ensures forall s :: s in r <==> s in suppliers && s.id != id
  {
    Filter(OtherId(id), suppliers)
  }

  /** A deletion removes exactly as many suppliers as carried the id. */
  lemma DeleteRemovesMatching(suppliers: seq<Supplier>, id: string)
    ensures |DeleteSupplier(suppliers, id)| + Count(HasId(id), suppliers) == |suppliers|
  {
    CountIsFilterLength(OtherId(id), suppliers);
    CountPartition(HasId(id), OtherId(id), suppliers);
  }

  /** Deleting a supplier that was just added with a fresh id gives back
      the list as it was. */
  lemma DeleteUndoesAdd(suppliers: seq<Supplier>, draft: SupplierDraft, id: string, now: string)
    requires forall s :: s in suppliers ==> s.id != id
    ensures DeleteSupplier(AddSupplier(suppliers, draft, id, now), id) == suppliers
  {
    FilterAppend(OtherId(id), suppliers, [NewSupplier(draft, id, now)]);
    FilterKeepsAll(OtherId(id), suppliers);
  }

  /* ---------------------------------------------------------------------- */
  /* Counts and rating                                                       */
  /* ---------------------------------------------------------------------- */

  function IsActive(s: Supplier): bool {
    s.isActive
  }

  function IsInactive(s: Supplier): bool {
    !s.isActive
  }

  function Rating(s: Supplier): real {
    s.rating
  }

  /** The active and inactive counts: the lengths of the two filters, which
      together cover every supplier. */
  function StatusCounts(suppliers: seq<Supplier>): (r: (nat, nat))
    ensures r.0 == |Filter(IsActive, suppliers)| && r.1 == |Filter(IsInactive, suppliers)|
    ensures r.0 + r.1 == |suppliers|
  {
    CountIsFilterLength(IsActive, suppliers);
    CountIsFilterLength(IsInactive, suppliers);
    CountPartition(IsActive, IsInactive, suppliers);
    (Count(IsActive, suppliers), Count(IsInactive, suppliers))
  }

  /** The average rating, 0 for no supplier (`NaN || 0`). */
  function AverageRating(suppliers: seq<Supplier>): (r: real)
    ensures |suppliers| == 0 ==> r == 0.0
    ensures |suppliers| > 0 ==> r * |suppliers| as real == Sum(Rating, suppliers)
  {
    Mean(Rating, suppliers)
  }

  /** Ratings within the documented range 1..5 average within it. */
  lemma AverageRatingInRange(suppliers: seq<Supplier>)
    requires |suppliers| > 0
    requires forall s :: s in suppliers ==> 1.0 <= s.rating <= 5.0
    ensures 1.0 <= AverageRating(suppliers) <= 5.0
  {
    MeanBounds(Rating, suppliers, 1.0, 5.0);
  }
}
