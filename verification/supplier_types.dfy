/** The supplier record, its currency enumeration and the partial update
    request the edit form works on. */
module SupplierTypes {
  import opened Results

  datatype Currency = MAD | USD | EUR | GBP | CAD

  /** A supplier. `ice` is the company's common identifier (ICE),
      `fiscalId` its tax identifier (IF) and `tradeRegister` its trade
      register number (RC); the last two and the website are optional.
      `rating` is documented as lying in 1..5; `isActive` is the soft-delete
      flag. */
  datatype Supplier = Supplier(
    id: string,
    companyName: string,
    ice: string,
    fiscalId: Option<string>,
    tradeRegister: Option<string>,
    address: string,
    city: string,
    country: string,
    contactPerson: string,
    phone: string,
    email: string,
    website: Option<string>,
    paymentTerms: string,
    currency: Currency,
    rating: real,
    notes: string,
    createdAt: string,
    updatedAt: string,
    isActive: bool
  )

  /** The fields of a supplier the add form supplies: everything except the
      id and the two timestamps. */
  datatype SupplierDraft = SupplierDraft(
    companyName: string,
    ice: string,
    fiscalId: Option<string>,
    tradeRegister: Option<string>,
    address: string,
    city: string,
    country: string,
    contactPerson: string,
    phone: string,
    email: string,
    website: Option<string>,
    paymentTerms: string,
    currency: Currency,
    rating: real,
    notes: string,
    isActive: bool
  )

  /** An update request: the id is required, every other field optional. */
  datatype UpdateSupplierRequest = UpdateSupplierRequest(
    id: string,
    companyName: Option<string>,
    ice: Option<string>,
    fiscalId: Option<string>,
    tradeRegister: Option<string>,
    address: Option<string>,
    city: Option<string>,
    country: Option<string>,
    contactPerson: Option<string>,
    phone: Option<string>,
    email: Option<string>,
    website: Option<string>,
    paymentTerms: Option<string>,
    currency: Option<Currency>,
    rating: Option<real>,
    notes: Option<string>
  )
}
