/** The vehicle list screen's filter: a case-insensitive search over make,
    model, VIN and licence plate, and a fuel-type filter. */
module VehiclesScreen {
  import opened Text
  import opened Collections
  import opened VehicleTypes

  /** The search test. There is no guard for an empty term: the empty
      string is contained in every field, so it matches every vehicle. */
  predicate MatchesSearch(v: Vehicle, term: string) {
    var t := Lower(term);
    || Includes(Lower(v.make), t)
    || Includes(Lower(v.model), t)
    || Includes(Lower(v.vin), t)
    || Includes(Lower(v.licensePlate), t)
  }

  /** The fuel test: the option value `"all"`, or the fuel type's name. */
  predicate MatchesFuel(v: Vehicle, fuel: string) {
    fuel == "all" || FuelName(v.fuelType) == fuel
  }

  function ShownTest(term: string, fuel: string): Vehicle -> bool {
    v => MatchesSearch(v, term) && MatchesFuel(v, fuel)
  }

  /** `filteredVehicles`: one pass keeping the vehicles that pass both
      tests. */
  function FilterVehicles(vehicles: seq<Vehicle>, term: string, fuel: string): (r: seq<Vehicle>)
    ensures IsSubsequence(r, vehicles)
    ensures forall v :: v in r <==> v in vehicles && MatchesSearch(v, term) && MatchesFuel(v, fuel)
  {
    Filter(ShownTest(term, fuel), vehicles)
  }

  /** Declarative reading of the search and the fuel choice. */
  ghost predicate Wanted(v: Vehicle, term: string, fuel: string) {
    var t := Lower(term);
    && (|| Occurs(t, Lower(v.make)) || Occurs(t, Lower(v.model))
        || Occurs(t, Lower(v.vin)) || Occurs(t, Lower(v.licensePlate)))
    && (fuel == "all" || FuelName(v.fuelType) == fuel)
  }

  ghost function WantedTest(term: string, fuel: string): Vehicle -> bool {
    v => Wanted(v, term, fuel)
  }

  /** The screen lists exactly the wanted vehicles, in list order. */
  lemma FilterVehiclesShowsExactly(vehicles: seq<Vehicle>, term: string, fuel: string)
    ensures FilterVehicles(vehicles, term, fuel) == Filter(WantedTest(term, fuel), vehicles)
  {
    forall v ensures MatchesSearch(v, term) && MatchesFuel(v, fuel) <==> Wanted(v, term, fuel) {
      var t := Lower(term);
      IncludesIffOccurs(Lower(v.make), t);
      IncludesIffOccurs(Lower(v.model), t);
      IncludesIffOccurs(Lower(v.vin), t);
      IncludesIffOccurs(Lower(v.licensePlate), t);
    }
    FilterCongruent(ShownTest(term, fuel), WantedTest(term, fuel), vehicles);
  }

  /** An empty search with every fuel lists every vehicle. */
  lemma EmptySearchShowsAll(vehicles: seq<Vehicle>)
    ensures FilterVehicles(vehicles, "", "all") == vehicles
  {
    forall v ensures MatchesSearch(v, "") {
      IncludesEmpty(Lower(v.make));
    }
    FilterKeepsAll(ShownTest("", "all"), vehicles);
  }

  /** Choosing a fuel's option shows exactly the vehicles of that fuel
      type. */
  lemma FuelOptionSelects(vehicles: seq<Vehicle>, f: FuelType)
    ensures forall v :: v in FilterVehicles(vehicles, "", FuelName(f)) <==> v in vehicles && v.fuelType == f
  {
    forall v ensures MatchesSearch(v, "") && (MatchesFuel(v, FuelName(f)) <==> v.fuelType == f) {
      IncludesEmpty(Lower(v.make));
      FuelNameInjective(v.fuelType, f);
    }
  }

  /** The search ignores case: a term typed in capitals finds what its
      lower-case form finds. */
  lemma SearchIgnoresCase(vehicles: seq<Vehicle>, term: string, fuel: string)
    ensures FilterVehicles(vehicles, Upper(term), fuel) == FilterVehicles(vehicles, term, fuel)
  {
    LowerOfUpper(term);
    FilterCongruent(ShownTest(Upper(term), fuel), ShownTest(term, fuel), vehicles);
  }
}
