/** The client record the client screens load from `/clients`. */
module ClientTypes {

  /** A client of the workshop. `totalSpent` is a currency amount. */
  datatype Client = Client(
    id: string,
    firstName: string,
    lastName: string,
    email: string,
    phoneNumber: string,
    streetAddress: string,
    city: string,
    postalCode: string,
    country: string,
    registrationDate: string,
    notes: string,
    vehicleCount: int,
    totalSpent: real,
    lastVisit: string
  )
}
