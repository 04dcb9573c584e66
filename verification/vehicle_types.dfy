/** The vehicle record and its two enumerations. */
module VehicleTypes {
  import opened Results

  datatype FuelType = Gasoline | Diesel | Electric | Hybrid

  datatype TransmissionType = Manual | Automatic

  /** The string the backend and the filter `<select>` use for a fuel type. */
  function FuelName(f: FuelType): string {
    match f
    case Gasoline => "GASOLINE"
    case Diesel => "DIESEL"
    case Electric => "ELECTRIC"
    case Hybrid => "HYBRID"
  }

  /** Distinct fuel types have distinct names, so comparing names compares
      fuel types. */
  lemma FuelNameInjective(f: FuelType, g: FuelType)
    ensures FuelName(f) == FuelName(g) <==> f == g
  {
  }

  /** A vehicle. `id` is absent until the backend has stored the vehicle;
      `clientId` is the id of the owning client (a foreign key that nothing
      on the client side checks). */
  datatype Vehicle = Vehicle(
    id: Option<string>,
    make: string,
    model: string,
    year: int,
    vin: string,
    licensePlate: string,
    horsePower: int,
    kilometrage: int,
    fuelType: FuelType,
    transmissionType: TransmissionType,
    clientId: string,
    lastServiceDate: string,
    nextServiceDue: string,
    notes: string
  )
}
