/** The supplier dashboard: the supplier list's search and status filters
    followed by a city filter, the detail panel's selection, and the
    summary cards. */
module SuppliersDashboard {
  import opened Results
  import opened Collections
  import opened SupplierTypes
  import SuppliersScreen

  function CityTest(city: string): Supplier -> bool {
    (s: Supplier) => s.city == city
  }

  /** The filter effect: search, status, then the city unless `"all"`. */
  function FilterDashboard(suppliers: seq<Supplier>, term: string,
                           status: SuppliersScreen.StatusFilter, city: string): (r: seq<Supplier>)
    ensures IsSubsequence(r, suppliers)
  {
    var listed := SuppliersScreen.FilterSuppliers(suppliers, term, status);
    var r := if city != "all" then Filter(CityTest(city), listed) else listed;
    SubsequenceRefl(listed);
    SubsequenceTrans(r, listed, suppliers);
    r
  }

  /** A supplier is on the dashboard when the supplier list would show it
      and it is in the chosen city, `"all"` standing for every city. */
  ghost predicate Shown(s: Supplier, term: string, status: SuppliersScreen.StatusFilter, city: string) {
    SuppliersScreen.Shown(s, term, status) && (city == "all" || s.city == city)
  }

  ghost function ShownTest(term: string, status: SuppliersScreen.StatusFilter, city: string): Supplier -> bool {
    s => Shown(s, term, status, city)
  }

  /** The dashboard shows exactly the suppliers the declarative test
      accepts, in list order. */
  lemma FilterDashboardShowsExactly(suppliers: seq<Supplier>, term: string,
                                    status: SuppliersScreen.StatusFilter, city: string)
    ensures FilterDashboard(suppliers, term, status, city) == Filter(ShownTest(term, status, city), suppliers)
  {
    SuppliersScreen.FilterSuppliersShowsExactly(suppliers, term, status);
    var listed := SuppliersScreen.ShownTest(term, status);
    var cityStage := (s: Supplier) => city == "all" || s.city == city;
    FilterWhen(city != "all", CityTest(city), cityStage, Filter(listed, suppliers));
    FilterFusion(listed, cityStage, ShownTest(term, status, city), suppliers);
  }

  /** With every city selected the dashboard lists what the supplier list
      lists. */
  lemma AllCitiesIsSupplierList(suppliers: seq<Supplier>, term: string, status: SuppliersScreen.StatusFilter)
    ensures FilterDashboard(suppliers, term, status, "all") == SuppliersScreen.FilterSuppliers(suppliers, term, status)
  {
  }

  /** Example of `FilterDashboardShowsExactly`. Three suppliers in Casablanca, Rabat and Casablanca: choosing
      Casablanca lists the first and the third, in that order. */
  lemma CityScenario(a: Supplier, b: Supplier, c: Supplier)
    requires a.city == "Casablanca" && b.city == "Rabat" && c.city == "Casablanca"
    ensures FilterDashboard([a, b, c], "", SuppliersScreen.AnyStatus, "Casablanca") == [a, c]
  {
    var p := CityTest("Casablanca");
    assert [a, b, c][1..] == [b, c];
    assert [b, c][1..] == [c];
    assert Filter(p, [c]) == [c];
    assert Filter(p, [b, c]) == [c];
    assert Filter(p, [a, b, c]) == [a] + [c];
  }

  /* ---------------------------------------------------------------------- */
  /* Selection and the detail panel                                          */
  /* ---------------------------------------------------------------------- */

  /** The part of the dashboard's state the handlers change. */
  datatype Dashboard = Dashboard(
    suppliers: seq<Supplier>,
    selected: Option<Supplier>,
    panelOpen: bool)

  datatype Event =
    | View(supplier: Supplier)
    | Add(draft: SupplierDraft, id: string, now: string)
    | Edit(supplier: Supplier, now: string)
    | Delete(id: string)

  /** The handlers: viewing selects the supplier and opens the panel;
      adding appends; editing replaces by id and clears the selection;
      deleting removes by id, clears the selection and closes the panel. */
  function Step(d: Dashboard, e: Event): (r: Dashboard)
    ensures e.View? ==> r == d.(selected := Some(e.supplier), panelOpen := true)
    ensures e.Add? ==> r.suppliers == SuppliersScreen.AddSupplier(d.suppliers, e.draft, e.id, e.now)
    ensures e.Add? ==> r.selected == d.selected && r.panelOpen == d.panelOpen
    ensures e.Edit? ==> r.suppliers == SuppliersScreen.EditSupplier(d.suppliers, e.supplier, e.now)
    ensures e.Edit? ==> r.selected.None? && r.panelOpen == d.panelOpen
    ensures e.Delete? ==> r.selected.None? && !r.panelOpen
    ensures e.Delete? ==> r.suppliers == SuppliersScreen.DeleteSupplier(d.suppliers, e.id)
    ensures e.Delete? ==> forall s :: s in r.suppliers <==> s in d.suppliers && s.id != e.id
  {
    match e
    case View(s) => d.(selected := Some(s), panelOpen := true)
    case Add(draft, id, now) => d.(suppliers := SuppliersScreen.AddSupplier(d.suppliers, draft, id, now))
    case Edit(s, now) => d.(suppliers := SuppliersScreen.EditSupplier(d.suppliers, s, now), selected := None)
    case Delete(id) => Dashboard(SuppliersScreen.DeleteSupplier(d.suppliers, id), None, false)
  }

  /** After viewing a supplier and deleting it, the panel is closed and the
      supplier is gone. */
  lemma ViewThenDelete(d: Dashboard, s: Supplier)
    ensures var r := Step(Step(d, View(s)), Delete(s.id));
      !r.panelOpen && r.selected.None? && s !in r.suppliers
  {
  }

  /* ---------------------------------------------------------------------- */
  /* Summary cards                                                           */
  /* ---------------------------------------------------------------------- */

  datatype Stats = Stats(
    activeSuppliers: nat,
    inactiveSuppliers: nat,
    avgRating: real,
    cities: seq<string>)

  function City(s: Supplier): string {
    s.city
  }

  /** The city options: each supplier city once, in order of first
      appearance. */
  function Cities(suppliers: seq<Supplier>): (r: seq<string>)
    ensures NoDuplicates(r)
    ensures forall c :: c in r <==> exists s :: s in suppliers && s.city == c
    ensures forall c :: c in r <==> c in Project(City, suppliers)
    ensures forall i, j :: 0 <= i < j < |r| ==>
      FirstIndex(Project(City, suppliers), r[i]) < FirstIndex(Project(City, suppliers), r[j])
  {
    ProjectMembers(City, suppliers);
    Distinct(Project(City, suppliers))
  }

  /** The summary cards: active and inactive counts that add up to the
      number of suppliers, the mean rating (0 for none), and every city
      once, in order of first appearance. */
  function ComputeStats(suppliers: seq<Supplier>): (r: Stats)
    ensures r.activeSuppliers + r.inactiveSuppliers == |suppliers|
    ensures r.activeSuppliers == |Filter(SuppliersScreen.IsActive, suppliers)|
    ensures |suppliers| == 0 ==> r.avgRating == 0.0
    ensures |suppliers| > 0 ==> r.avgRating * |suppliers| as real == Sum(SuppliersScreen.Rating, suppliers)
    ensures NoDuplicates(r.cities)
    ensures forall c :: c in r.cities <==> exists s :: s in suppliers && s.city == c
    ensures forall c :: c in r.cities <==> c in Project(City, suppliers)
    ensures forall i, j :: 0 <= i < j < |r.cities| ==>
      FirstIndex(Project(City, suppliers), r.cities[i]) < FirstIndex(Project(City, suppliers), r.cities[j])
  {
    var counts := SuppliersScreen.StatusCounts(suppliers);
    Stats(counts.0, counts.1, SuppliersScreen.AverageRating(suppliers), Cities(suppliers))
  }

  /** Every city offered in the city filter lists at least one supplier
      when no other filter is set. */
  lemma OfferedCityNonEmpty(suppliers: seq<Supplier>, city: string)
    requires city in ComputeStats(suppliers).cities && city != "all"
    ensures |FilterDashboard(suppliers, "", SuppliersScreen.AnyStatus, city)| > 0
  {
    var s :| s in suppliers && s.city == city;
    assert s in Filter(CityTest(city), suppliers);
  }
}
