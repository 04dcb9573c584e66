/** The client list screen: the search and city filters, the three CRUD
    handlers' effect on the list held in state, the revenue statistics and
    the city options. */
module ClientsScreen {
  import opened Results
  import opened Text
  import opened Collections
  import opened ClientTypes

  /* ---------------------------------------------------------------------- */
  /* Filtering                                                               */
  /* ---------------------------------------------------------------------- */

  /** The search test: first name, last name and e-mail compared without
      regard to case, the phone number compared against the term exactly as
      typed. */
  predicate MatchesSearch(c: Client, term: string) {
    var t := Lower(term);
    || Includes(Lower(c.firstName), t)
    || Includes(Lower(c.lastName), t)
    || Includes(Lower(c.email), t)
    || Includes(c.phoneNumber, term)
  }

  function SearchTest(term: string): Client -> bool {
    c => MatchesSearch(c, term)
  }

  function CityTest(city: string): Client -> bool {
    (c: Client) => c.city == city
  }

  /** The list on screen: the search filter applies only to a non-empty
      term, the city filter only to a city other than `"all"`. */
  function FilterClients(clients: seq<Client>, term: string, city: string): (r: seq<Client>)
    ensures IsSubsequence(r, clients)
  {
    var searched := if term != "" then Filter(SearchTest(term), clients) else clients;
    SubsequenceRefl(clients);
    var r := if city != "all" then Filter(CityTest(city), searched) else searched;
    SubsequenceRefl(searched);
    SubsequenceTrans(r, searched, clients);
    r
  }

  /** Example of `FilterClientsListsExactly`. Three clients in Casablanca, Rabat and Casablanca: choosing
      Casablanca lists the first and the third, in that order. */
  lemma CityScenario(a: Client, b: Client, c: Client)
    requires a.city == "Casablanca" && b.city == "Rabat" && c.city == "Casablanca"
    ensures FilterClients([a, b, c], "", "Casablanca") == [a, c]
  {
    var p := CityTest("Casablanca");
    assert [a, b, c][1..] == [b, c];
    assert [b, c][1..] == [c];
    assert Filter(p, [c]) == [c];
    assert Filter(p, [b, c]) == [c];
    assert Filter(p, [a, b, c]) == [a] + [c];
  }

  /** Declarative reading of the search: the term (lower-cased) occurs
      somewhere in a lower-cased name or e-mail, or the term occurs in the
      phone number; an empty term finds everyone. */
  ghost predicate Found(c: Client, term: string) {
    || term == ""
    || Occurs(Lower(term), Lower(c.firstName))
    || Occurs(Lower(term), Lower(c.lastName))
    || Occurs(Lower(term), Lower(c.email))
    || Occurs(term, c.phoneNumber)
  }

  /** A client is listed when found by the search and living in the chosen
      city, `"all"` standing for every city. */
  ghost predicate Listed(c: Client, term: string, city: string) {
    Found(c, term) && (city == "all" || c.city == city)
  }

  ghost function ListedTest(term: string, city: string): Client -> bool {
    c => Listed(c, term, city)
  }

  lemma MatchesSearchIffFound(c: Client, term: string)
    requires term != ""
    ensures MatchesSearch(c, term) <==> Found(c, term)
  {
    var t := Lower(term);
    IncludesIffOccurs(Lower(c.firstName), t);
    IncludesIffOccurs(Lower(c.lastName), t);
    IncludesIffOccurs(Lower(c.email), t);
    IncludesIffOccurs(c.phoneNumber, term);
  }

  /** The staged filters list exactly the listed clients, in their original
      order: the screen shows the single filter of the declarative test. */
  lemma FilterClientsListsExactly(clients: seq<Client>, term: string, city: string)
    ensures FilterClients(clients, term, city) == Filter(ListedTest(term, city), clients)
  {
    forall c | term != "" ensures MatchesSearch(c, term) <==> Found(c, term) {
      MatchesSearchIffFound(c, term);
    }
    var listed := ListedTest(term, city);
    if term != "" && city != "all" {
      FilterFusion(SearchTest(term), CityTest(city), listed, clients);
    } else if term != "" {
      FilterCongruent(SearchTest(term), listed, clients);
    } else if city != "all" {
      FilterCongruent(CityTest(city), listed, clients);
    } else {
      FilterKeepsAll(listed, clients);
    }
  }

  /** Clearing the filters (empty term, every city) shows every client. */
  lemma ClearedFiltersShowAll(clients: seq<Client>)
    ensures FilterClients(clients, "", "all") == clients
  {
  }

  /** Names and e-mail are matched without regard to case: a term and its
      lower-cased form find the same names and addresses. */
  lemma NameSearchIgnoresCase(c: Client, term: string)
    ensures Includes(Lower(c.firstName), Lower(Lower(term))) == Includes(Lower(c.firstName), Lower(term))
    ensures Includes(Lower(c.email), Lower(Lower(term))) == Includes(Lower(c.email), Lower(term))
  {
    LowerIdempotent(term);
  }

  /** The phone number is not lower-cased, but the term is not either, so a
      term that matches a phone number exactly is always found. */
  lemma PhoneFoundVerbatim(c: Client, term: string)
    requires Occurs(term, c.phoneNumber)
    ensures MatchesSearch(c, term)
  {
    IncludesIffOccurs(c.phoneNumber, term);
  }

  /* ---------------------------------------------------------------------- */
  /* Add, update, delete                                                     */
  /* ---------------------------------------------------------------------- */

  /** `handleAddClient`: the client the backend returned is appended; a
      failed request leaves the list alone. */
  function AddClient(clients: seq<Client>, response: Response<Client>): (r: seq<Client>)
    ensures response.Success? ==> |r| == |clients| + 1 && r[..|clients|] == clients && r[|clients|] == response.value
    ensures response.Failure? ==> r == clients
  {
    match response
    case Success(c) => clients + [c]
    case Failure(_) => clients
  }

  /** A new client shows up at the end of the filtered list exactly when it
      passes the filters; the clients already listed stay as they were. */
  lemma AddedClientListed(clients: seq<Client>, c: Client, term: string, city: string)
    ensures var listed := ListedTest(term, city);
      Filter(listed, AddClient(clients, Success(c)))
      == Filter(listed, clients) + (if Listed(c, term, city) then [c] else [])
  {
    FilterAppend(ListedTest(term, city), clients, [c]);
  }

  function HasId(id: string): Client -> bool {
    (c: Client) => c.id == id
  }

  function OtherId(id: string): Client -> bool {
    (c: Client) => c.id != id
  }

  /** `handleUpdateClient`: every client with the edited client's id is
      replaced by the backend's version; the others keep their place and
      value. A failed request leaves the list alone. */
  function UpdateClient(clients: seq<Client>, id: string, response: Response<Client>): (r: seq<Client>)
    ensures |r| == |clients|
    ensures forall i :: 0 <= i < |clients| && clients[i].id != id ==> r[i] == clients[i]
    ensures response.Success? ==>
      forall i :: 0 <= i < |clients| && clients[i].id == id ==> r[i] == response.value
    ensures response.Failure? ==> r == clients
  {
    match response
    case Success(c) => ReplaceWhere(HasId(id), c, clients)
    case Failure(_) => clients
  }

  /** `handleDeleteClient`: with a selected client and a successful request
      every client with the selected id is removed; without a selection or
      on failure nothing changes. */
  function DeleteClient(clients: seq<Client>, selected: Option<Client>, response: Response<()>): (r: seq<Client>)
    ensures IsSubsequence(r, clients)
    ensures selected.Some? && response.Success? ==>
      forall c :: c in r <==> c in clients && c.id != selected.value.id
    ensures selected.None? || response.Failure? ==> r == clients
  {
    SubsequenceRefl(clients);
    if selected.None? || response.Failure? then clients
    else Filter(OtherId(selected.value.id), clients)
  }

  /** A deletion removes exactly as many rows as carried the deleted id. */
  lemma DeleteRemovesMatching(clients: seq<Client>, c: Client)
    ensures |DeleteClient(clients, Some(c), Success(()))| + Count(HasId(c.id), clients) == |clients|
  {
    CountIsFilterLength(OtherId(c.id), clients);
    CountPartition(HasId(c.id), OtherId(c.id), clients);
  }

  /** Deleting a client after a successful edit of it leaves the same list
      as deleting it straight away, as long as the backend kept the id. */
  lemma {:induction false} DeleteAfterUpdate(clients: seq<Client>, c: Client)
    ensures var updated := UpdateClient(clients, c.id, Success(c));
      DeleteClient(updated, Some(c), Success(())) == DeleteClient(clients, Some(c), Success(()))
    decreases |clients|
  {
    if |clients| > 0 {
      DeleteAfterUpdate(clients[1..], c);
      var updated := UpdateClient(clients, c.id, Success(c));
      assert updated[1..] == UpdateClient(clients[1..], c.id, Success(c));
      assert updated[0].id == clients[0].id;
    }
  }

  /* ---------------------------------------------------------------------- */
  /* Statistics and city options                                             */
  /* ---------------------------------------------------------------------- */

  function Spent(c: Client): real {
    c.totalSpent
  }

  /** The sum of every client's `totalSpent`. */
  function TotalRevenue(clients: seq<Client>): real {
    Sum(Spent, clients)
  }

  /** Revenue adds up client by client: a new client adds exactly what it
      has spent. */
  lemma RevenueOfAdded(clients: seq<Client>, c: Client)
    ensures TotalRevenue(AddClient(clients, Success(c))) == TotalRevenue(clients) + c.totalSpent
  {
    SumAppend(Spent, clients, [c]);
  }

  /** The average spent, rounded as `Math.round` does, and 0 when there is
      no client. */
  function AverageSpent(clients: seq<Client>): (r: int)
    ensures |clients| == 0 ==> r == 0
    ensures |clients| > 0 ==>
      r as real - 0.5 <= TotalRevenue(clients) / |clients| as real < r as real + 0.5
  {
    if |clients| > 0 then Round(TotalRevenue(clients) / |clients| as real) else 0
  }

  /** The rounded average lies within half a unit of the range the
      individual amounts lie in. */
  lemma AverageSpentBounds(clients: seq<Client>, lo: real, hi: real)
    requires |clients| > 0
    requires forall c :: c in clients ==> lo <= c.totalSpent <= hi
    ensures lo - 0.5 <= AverageSpent(clients) as real <= hi + 0.5
  {
    MeanBounds(Spent, clients, lo, hi);
  }

  function City(c: Client): string {
    c.city
  }

  /** The city options: each city once, in order of first appearance. */
  function UniqueCities(clients: seq<Client>): (r: seq<string>)
    ensures NoDuplicates(r)
    ensures forall city :: city in r <==> exists c :: c in clients && c.city == city
    ensures forall city :: city in r <==> city in Project(City, clients)
    ensures forall i, j :: 0 <= i < j < |r| ==>
      FirstIndex(Project(City, clients), r[i]) < FirstIndex(Project(City, clients), r[j])
  {
    ProjectMembers(City, clients);
    Distinct(Project(City, clients))
  }

  /** Choosing any offered city keeps at least one client on screen when
      the search is empty. */
  lemma OfferedCityNonEmpty(clients: seq<Client>, city: string)
    requires city in UniqueCities(clients) && city != "all"
    ensures |FilterClients(clients, "", city)| > 0
  {
    var c :| c in clients && c.city == city;
    assert c in Filter(CityTest(city), clients);
  }
}
