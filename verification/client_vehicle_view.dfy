/** The combined client-and-vehicle screen: every client listed with the
    vehicles it owns, the search over both, the four filter modes, the
    expand/collapse state of each row, the sorted city options and the
    statistics header. */
module ClientVehicleView {
  import opened Results
  import opened Text
  import opened Collections
  import opened Ordering
  import opened ClientTypes
  import opened VehicleTypes
  import ClientsScreen

  /** One row of the screen: a client with the vehicles whose `clientId` is
      the client's id. */
  datatype Entry = Entry(client: Client, vehicles: seq<Vehicle>)

  /** The filter drop-down: `'all'`, `'clients-only'`, `'no-vehicles'` and
      `'by-city'`. */
  datatype FilterType = All | ClientsOnly | NoVehicles | ByCity

  /* ---------------------------------------------------------------------- */
  /* Rows                                                                    */
  /* ---------------------------------------------------------------------- */

  function OwnedBy(clientId: string): Vehicle -> bool {
    (v: Vehicle) => v.clientId == clientId
  }

  /** `getClientVehicles`: the vehicles of one client, in list order. */
  function ClientVehicles(vehicles: seq<Vehicle>, clientId: string): (r: seq<Vehicle>)
    ensures IsSubsequence(r, vehicles)
    ensures forall v :: v in r <==> v in vehicles && v.clientId == clientId
  {
    Filter(OwnedBy(clientId), vehicles)
  }

  /** One row per client, in client order. */
  function Entries(clients: seq<Client>, vehicles: seq<Vehicle>): (r: seq<Entry>)
    ensures |r| == |clients|
    ensures forall i :: 0 <= i < |clients| ==>
      r[i] == Entry(clients[i], ClientVehicles(vehicles, clients[i].id))
  {
    if |clients| == 0 then []
    else [Entry(clients[0], ClientVehicles(vehicles, clients[0].id))] + Entries(clients[1..], vehicles)
  }

  /* ---------------------------------------------------------------------- */
  /* Search and filters                                                      */
  /* ---------------------------------------------------------------------- */

  /** The vehicle part of the search: make, model, plate or VIN contains the
      (already lower-cased) term, case ignored. */
  predicate VehicleMatches(v: Vehicle, term: string) {
    || Includes(Lower(v.make), term)
    || Includes(Lower(v.model), term)
    || Includes(Lower(v.licensePlate), term)
    || Includes(Lower(v.vin), term)
  }

  /** The search test for an already lower-cased term: the client's names
      and e-mail lower-cased, the phone number as stored, or any of the
      row's vehicles. */
  predicate EntryMatches(e: Entry, term: string) {
    || Includes(Lower(e.client.firstName), term)
    || Includes(Lower(e.client.lastName), term)
    || Includes(Lower(e.client.email), term)
    || Includes(e.client.phoneNumber, term)
    || (exists v :: v in e.vehicles && VehicleMatches(v, term))
  }

  function SearchTest(term: string): Entry -> bool {
    e => EntryMatches(e, term)
  }

  function WithoutVehiclesTest(): Entry -> bool {
    (e: Entry) => |e.vehicles| == 0
  }

  function CityTest(city: string): Entry -> bool {
    (e: Entry) => e.client.city == city
  }

  /** `filteredData`: the search (for a non-empty term, lower-cased once),
      then the no-vehicles filter, then the city filter when filtering by a
      city other than `"all"`. */
  function FilterEntries(clients: seq<Client>, vehicles: seq<Vehicle>, term: string,
                         filterType: FilterType, city: string): (r: seq<Entry>)
    ensures IsSubsequence(r, Entries(clients, vehicles))
  {
    var entries := Entries(clients, vehicles);
    var searched := if term != "" then Filter(SearchTest(Lower(term)), entries) else entries;
    var bare := if filterType == NoVehicles then Filter(WithoutVehiclesTest(), searched) else searched;
    var r := if filterType == ByCity && city != "all" then Filter(CityTest(city), bare) else bare;
    SubsequenceRefl(entries);
    SubsequenceRefl(searched);
    SubsequenceRefl(bare);
    SubsequenceTrans(bare, searched, entries);
    SubsequenceTrans(r, bare, entries);
    r
  }

  /** Declarative reading of the search: the lower-cased term occurs in a
      lower-cased name, in the e-mail, in the phone number, or in the make,
      model, plate or VIN of one of the row's vehicles. */
  ghost predicate Found(e: Entry, term: string) {
    var t := Lower(term);
    || term == ""
    || Occurs(t, Lower(e.client.firstName))
    || Occurs(t, Lower(e.client.lastName))
    || Occurs(t, Lower(e.client.email))
    || Occurs(t, e.client.phoneNumber)
    || (exists v :: v in e.vehicles &&
          (Occurs(t, Lower(v.make)) || Occurs(t, Lower(v.model))
           || Occurs(t, Lower(v.licensePlate)) || Occurs(t, Lower(v.vin))))
  }

  /** A row is shown when found by the search, when it has no vehicle in
      the no-vehicles mode, and when its client lives in the chosen city in
      the by-city mode (`"all"` standing for every city). */
  ghost predicate Shown(e: Entry, term: string, filterType: FilterType, city: string) {
    && Found(e, term)
    && (filterType == NoVehicles ==> |e.vehicles| == 0)
    && (filterType == ByCity && city != "all" ==> e.client.city == city)
  }

  ghost function FoundTest(term: string): Entry -> bool {
    e => Found(e, term)
  }

  ghost function FoundBareTest(term: string, filterType: FilterType): Entry -> bool {
    e => Found(e, term) && (filterType == NoVehicles ==> |e.vehicles| == 0)
  }

  ghost function ShownTest(term: string, filterType: FilterType, city: string): Entry -> bool {
    e => Shown(e, term, filterType, city)
  }

  lemma EntryMatchesIffFound(e: Entry, term: string)
    requires term != ""
    ensures EntryMatches(e, Lower(term)) <==> Found(e, term)
  {
    var t := Lower(term);
    IncludesIffOccurs(Lower(e.client.firstName), t);
    IncludesIffOccurs(Lower(e.client.lastName), t);
    IncludesIffOccurs(Lower(e.client.email), t);
    IncludesIffOccurs(e.client.phoneNumber, t);
    forall v | v in e.vehicles
      ensures VehicleMatches(v, t) <==>
        (Occurs(t, Lower(v.make)) || Occurs(t, Lower(v.model))
         || Occurs(t, Lower(v.licensePlate)) || Occurs(t, Lower(v.vin)))
    {
      IncludesIffOccurs(Lower(v.make), t);
      IncludesIffOccurs(Lower(v.model), t);
      IncludesIffOccurs(Lower(v.licensePlate), t);
      IncludesIffOccurs(Lower(v.vin), t);
    }
  }

  /** The three staged filters show exactly the rows the declarative test
      accepts, in client order. */
  lemma FilterEntriesShowsExactly(clients: seq<Client>, vehicles: seq<Vehicle>, term: string,
                                  filterType: FilterType, city: string)
    ensures FilterEntries(clients, vehicles, term, filterType, city)
         == Filter(ShownTest(term, filterType, city), Entries(clients, vehicles))
  {
    var entries := Entries(clients, vehicles);
    forall e | term != "" ensures EntryMatches(e, Lower(term)) <==> Found(e, term) {
      EntryMatchesIffFound(e, term);
    }
    var found := FoundTest(term);
    var bareCond := filterType == NoVehicles;
    var cityCond := filterType == ByCity && city != "all";
    FilterWhen(term != "", SearchTest(Lower(term)), found, entries);
    var searched := Filter(found, entries);
    var foundBareNoCond := FoundBareTest(term, filterType);
    var bareStage := (e: Entry) => !bareCond || |e.vehicles| == 0;
    FilterWhen(bareCond, WithoutVehiclesTest(), bareStage, searched);
    FilterFusion(found, bareStage, foundBareNoCond, entries);
    var bare := Filter(foundBareNoCond, entries);
    var cityStage := (e: Entry) => !cityCond || e.client.city == city;
    FilterWhen(cityCond, CityTest(city), cityStage, bare);
    FilterFusion(foundBareNoCond, cityStage, ShownTest(term, filterType, city), entries);
  }

  /** `'clients-only'` has no filter of its own: it shows what `'all'`
      shows. */
  lemma ClientsOnlyIsAll(clients: seq<Client>, vehicles: seq<Vehicle>, term: string, city: string)
    ensures FilterEntries(clients, vehicles, term, ClientsOnly, city)
         == FilterEntries(clients, vehicles, term, All, city)
  {
  }

  /** The city choice only matters in the by-city mode. */
  lemma CityIgnoredOutsideByCity(clients: seq<Client>, vehicles: seq<Vehicle>, term: string,
                                 filterType: FilterType, city: string, city': string)
    requires filterType != ByCity
    ensures FilterEntries(clients, vehicles, term, filterType, city)
         == FilterEntries(clients, vehicles, term, filterType, city')
  {
  }

  /** With an empty search and mode `'all'` every client has its row. */
  lemma UnfilteredShowsEveryClient(clients: seq<Client>, vehicles: seq<Vehicle>, city: string)
    ensures FilterEntries(clients, vehicles, "", All, city) == Entries(clients, vehicles)
  {
  }

  /** The search is lower-cased as a whole, the phone number included, so
      typing a term in any case finds the same rows. */
  lemma SearchIgnoresCase(clients: seq<Client>, vehicles: seq<Vehicle>, term: string,
                          filterType: FilterType, city: string)
    ensures FilterEntries(clients, vehicles, Lower(term), filterType, city)
         == FilterEntries(clients, vehicles, term, filterType, city)
  {
    LowerIdempotent(term);
    LowerEmpty(term);
  }

  /** In the no-vehicles mode every row shown has no vehicle, and a client
      with a vehicle is never shown. */
  lemma NoVehiclesModeShowsBareClients(clients: seq<Client>, vehicles: seq<Vehicle>,
                                      term: string, city: string, e: Entry)
    requires e in FilterEntries(clients, vehicles, term, NoVehicles, city)
    ensures |e.vehicles| == 0
    ensures forall v :: v in vehicles ==> v.clientId != e.client.id
  {
    FilterEntriesShowsExactly(clients, vehicles, term, NoVehicles, city);
    var entries := Entries(clients, vehicles);
    var i :| 0 <= i < |entries| && entries[i] == e;
    assert e.vehicles == ClientVehicles(vehicles, e.client.id);
  }

  /* ---------------------------------------------------------------------- */
  /* Every vehicle in exactly one row                                        */
  /* ---------------------------------------------------------------------- */

  ghost predicate DistinctIds(clients: seq<Client>) {
    forall i, j :: 0 <= i < j < |clients| ==> clients[i].id != clients[j].id
  }

  /** Every vehicle's `clientId` names one of the clients. */
  ghost predicate OwnersKnown(clients: seq<Client>, vehicles: seq<Vehicle>) {
    forall v :: v in vehicles ==> exists c :: c in clients && c.id == v.clientId
  }

  /** The number of vehicles listed under the clients' rows. */
  function ListedVehicles(clients: seq<Client>, vehicles: seq<Vehicle>): nat {
    if |clients| == 0 then 0
    else |ClientVehicles(vehicles, clients[0].id)| + ListedVehicles(clients[1..], vehicles)
  }

  ghost function OwnedByAny(clients: seq<Client>): Vehicle -> bool {
    (v: Vehicle) => exists c :: c in clients && c.id == v.clientId
  }

  lemma {:induction false} ListedVehiclesCount(clients: seq<Client>, vehicles: seq<Vehicle>)
    requires DistinctIds(clients)
    ensures ListedVehicles(clients, vehicles) == Count(OwnedByAny(clients), vehicles)
    decreases |clients|
  {
    if |clients| == 0 {
      assert forall v :: !OwnedByAny(clients)(v);
      CountAll(v => !OwnedByAny(clients)(v), vehicles);
      CountPartition(OwnedByAny(clients), v => !OwnedByAny(clients)(v), vehicles);
    } else {
      var rest := clients[1..];
      ListedVehiclesCount(rest, vehicles);
      CountIsFilterLength(OwnedBy(clients[0].id), vehicles);
      assert forall c :: c in clients <==> c == clients[0] || c in rest;
      forall v | v in vehicles
        ensures !(OwnedBy(clients[0].id)(v) && OwnedByAny(rest)(v))
      {
        if OwnedByAny(rest)(v) {
          var c :| c in rest && c.id == v.clientId;
          var j :| 0 <= j < |rest| && rest[j] == c;
          assert clients[j + 1] == c;
        }
      }
      CountDisjoint(OwnedBy(clients[0].id), OwnedByAny(rest), OwnedByAny(clients), vehicles);
    }
  }

  /** With distinct client ids and every vehicle owned by a listed client,
      the rows together list each vehicle exactly once: the vehicles under
      the rows add up to the vehicle total in the header. */
  lemma VehiclesPartitioned(clients: seq<Client>, vehicles: seq<Vehicle>)
    requires DistinctIds(clients)
    requires OwnersKnown(clients, vehicles)
    ensures ListedVehicles(clients, vehicles) == |vehicles|
  {
    ListedVehiclesCount(clients, vehicles);
    CountAll(OwnedByAny(clients), vehicles);
  }

  /** Deleting a client does not delete its vehicles: they stay in the
      vehicle list with an id that no longer names a client, so they drop
      out of every row. */
  lemma DeleteOrphansVehicles(clients: seq<Client>, vehicles: seq<Vehicle>, c: Client, v: Vehicle)
    requires v in vehicles && v.clientId == c.id
    ensures var remaining := ClientsScreen.DeleteClient(clients, Some(c), Success(()));
      && !OwnersKnown(remaining, vehicles)
      && forall e :: e in Entries(remaining, vehicles) ==> v !in e.vehicles
  {
    var remaining := ClientsScreen.DeleteClient(clients, Some(c), Success(()));
    forall e | e in Entries(remaining, vehicles) ensures v !in e.vehicles {
      var i :| 0 <= i < |remaining| && Entries(remaining, vehicles)[i] == e;
      assert remaining[i] in remaining;
    }
  }

  /* ---------------------------------------------------------------------- */
  /* Expanded rows                                                           */
  /* ---------------------------------------------------------------------- */

  /** A row is expanded when its client id maps to `true`; a missing key
      reads as `undefined`, i.e. collapsed. */
  predicate IsExpanded(expanded: map<string, bool>, clientId: string) {
    clientId in expanded && expanded[clientId]
  }

  /** `toggleClientExpansion`: flips one row and keeps the others. */
  function Toggle(expanded: map<string, bool>, clientId: string): (r: map<string, bool>)
    ensures IsExpanded(r, clientId) == !IsExpanded(expanded, clientId)
    ensures forall k :: k != clientId ==> IsExpanded(r, k) == IsExpanded(expanded, k)
  {
    expanded[clientId := !IsExpanded(expanded, clientId)]
  }

  /** Toggling a row twice leaves every row as it was. */
  lemma ToggleTwice(expanded: map<string, bool>, clientId: string, k: string)
    ensures IsExpanded(Toggle(Toggle(expanded, clientId), clientId), k) == IsExpanded(expanded, k)
  {
  }

  /** Toggling a row of a fresh screen (empty state) expands it. */
  lemma FirstToggleExpands(clientId: string)
    ensures IsExpanded(Toggle(map[], clientId), clientId)
  {
  }

  /* ---------------------------------------------------------------------- */
  /* City options and statistics                                             */
  /* ---------------------------------------------------------------------- */

  /** The city options: the distinct cities, sorted. */
  function UniqueCities(clients: seq<Client>): (r: seq<string>)
    ensures StrictlySorted(r)
    ensures forall city :: city in r <==> exists c :: c in clients && c.city == city
  {
    var cities := ClientsScreen.UniqueCities(clients);
    SortDistinct(cities);
    Sort(cities)
  }

  /** The statistics header. `averageVehicles` is the number rendered with
      one decimal (the rendering is not modelled). */
  datatype Stats = Stats(totalClients: nat, totalVehicles: nat, averageVehicles: real, totalRevenue: real)

  function ComputeStats(clients: seq<Client>, vehicles: seq<Vehicle>): (r: Stats)
    ensures r.totalClients == |clients| && r.totalVehicles == |vehicles|
    ensures |clients| == 0 ==> r.averageVehicles == 0.0
    ensures |clients| > 0 ==> r.averageVehicles * |clients| as real == |vehicles| as real
    ensures r.totalRevenue == ClientsScreen.TotalRevenue(clients)
  {
    Stats(
      |clients|,
      |vehicles|,
      if |clients| > 0 then |vehicles| as real / |clients| as real else 0.0,
      ClientsScreen.TotalRevenue(clients))
  }

  /** When every vehicle belongs to a listed client, the average is the
      mean number of vehicles per row. */
  lemma AverageIsRowMean(clients: seq<Client>, vehicles: seq<Vehicle>)
    requires |clients| > 0
    requires DistinctIds(clients)
    requires OwnersKnown(clients, vehicles)
    ensures ComputeStats(clients, vehicles).averageVehicles * |clients| as real
         == ListedVehicles(clients, vehicles) as real
  {
    VehiclesPartitioned(clients, vehicles);
  }
}
