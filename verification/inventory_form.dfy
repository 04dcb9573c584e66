/** The inventory edit form's validation and submit gate. */
module InventoryForm {
  import opened Results
  import opened Text
  import opened InventoryTypes

  /** The fields that can carry an error. Description, links, barcode,
      image, unit and status are never checked. */
  datatype Field =
    | PartNumber | PartName | Category | Brand | SupplierId
    | Quantity | MinStock | PurchasePrice | SalePrice | Location | TaxRate

  const PartNumberRequired := "Part number is required"
  const PartNameRequired := "Part name is required"
  const CategoryRequired := "Category is required"
  const BrandRequired := "Brand is required"
  const SupplierRequired := "Supplier is required"
  const QuantityNegative := "Quantity cannot be negative"
  const MinStockNegative := "Minimum stock level cannot be negative"
  const PurchasePositive := "Purchase price must be greater than 0"
  const SalePositive := "Sale price must be greater than 0"
  const SaleAbovePurchase := "Sale price must be greater than purchase price"
  const LocationRequired := "Location is required"
  const TaxRange := "Tax rate must be between 0 and 1"

  /** A number the form holds is truthy: present and not 0. */
  predicate TruthyInt(n: Option<int>) {
    n.Some? && n.value != 0
  }

  predicate TruthyReal(x: Option<real>) {
    x.Some? && x.value != 0.0
  }

  /** `!formData.supplierId`: the id is absent or empty; a blank id is
      not trimmed and passes. */
  predicate MissingId(id: Option<string>) {
    id.None? || id.value == ""
  }

  /** A truthy count below zero. */
  predicate NegativeCount(n: Option<int>) {
    TruthyInt(n) && n.value < 0
  }

  /** A truthy price not above zero. */
  predicate PriceNotPositive(x: Option<real>) {
    TruthyReal(x) && x.value <= 0.0
  }

  /** Both prices truthy and the sale price not above the purchase price. */
  predicate SaleNotAbovePurchase(f: UpdateInventoryRequest) {
    TruthyReal(f.salePrice) && TruthyReal(f.purchasePrice) && f.salePrice.value <= f.purchasePrice.value
  }

  /** A truthy tax rate outside 0..1. */
  predicate TaxOutOfRange(x: Option<real>) {
    TruthyReal(x) && (x.value < 0.0 || x.value > 1.0)
  }

  /** The error one field of the form ends up with. The sale price has two
      checks and the later one, against the purchase price, overwrites the
      earlier one. */
  function FieldError(f: UpdateInventoryRequest, field: Field): (r: Option<string>)
    ensures field == SupplierId ==> (r.Some? <==> f.supplierId.None? || f.supplierId.value == "")
    ensures field == Quantity ==> (r.Some? <==> f.quantityInStock.Some? && f.quantityInStock.value < 0)
    ensures field == MinStock ==> (r.Some? <==> f.minStockLevel.Some? && f.minStockLevel.value < 0)
    ensures field == PurchasePrice ==> (r.Some? <==> f.purchasePrice.Some? && f.purchasePrice.value < 0.0)
    ensures field == SalePrice ==> (r.Some? <==> (f.salePrice.Some? && f.salePrice.value < 0.0) || SaleNotAbovePurchase(f))
    ensures field == SalePrice && r.Some? ==>
      r.value == (if SaleNotAbovePurchase(f) then SaleAbovePurchase else SalePositive)
    ensures field == TaxRate ==> (r.Some? <==> f.taxRate.Some? && (f.taxRate.value < 0.0 || f.taxRate.value > 1.0))
  {
    match field
    case PartNumber => if MissingText(f.partNumber) then Some(PartNumberRequired) else None
    case PartName => if MissingText(f.partName) then Some(PartNameRequired) else None
    case Category => if MissingText(f.category) then Some(CategoryRequired) else None
    case Brand => if MissingText(f.brand) then Some(BrandRequired) else None
    case SupplierId => if MissingId(f.supplierId) then Some(SupplierRequired) else None
    case Quantity => if NegativeCount(f.quantityInStock) then Some(QuantityNegative) else None
    case MinStock => if NegativeCount(f.minStockLevel) then Some(MinStockNegative) else None
    case PurchasePrice => if PriceNotPositive(f.purchasePrice) then Some(PurchasePositive) else None
    case SalePrice =>
      if SaleNotAbovePurchase(f) then Some(SaleAbovePurchase)
      else if PriceNotPositive(f.salePrice) then Some(SalePositive)
      else None
    case Location => if MissingText(f.location) then Some(LocationRequired) else None
    case TaxRate => if TaxOutOfRange(f.taxRate) then Some(TaxRange) else None
  }

  const AllFields: set<Field> :=
    {PartNumber, PartName, Category, Brand, SupplierId, Quantity, MinStock,
     PurchasePrice, SalePrice, Location, TaxRate}

  lemma EveryField(field: Field)
    ensures field in AllFields
  {
    match field
    case PartNumber =>
    case PartName =>
    case Category =>
    case Brand =>
    case SupplierId =>
    case Quantity =>
    case MinStock =>
    case PurchasePrice =>
    case SalePrice =>
    case Location =>
    case TaxRate =>
  }

  /** `validateForm`: the error object, with a key for each field that
      has an error, holding that field's message. */
  function Validate(f: UpdateInventoryRequest): (errors: map<Field, string>)
    ensures forall field :: field in errors <==> FieldError(f, field).Some?
    ensures forall field :: field in errors ==> errors[field] == FieldError(f, field).value
  {
    forall field ensures field in AllFields {
      EveryField(field);
    }
    map field | field in AllFields && FieldError(f, field).Some? :: FieldError(f, field).value
  }

  /** What an acceptable value of one field is, stated without the checks'
      truthiness: the five text fields hold a character that is not white
      space, a supplier is chosen, counts and prices are not negative, a
      sale price above zero exceeds a purchase price above zero, and the
      tax rate is absent or a fraction between 0 and 1. */
  ghost predicate FieldAcceptable(f: UpdateInventoryRequest, field: Field) {
    match field
    case PartNumber => HasText(f.partNumber)
    case PartName => HasText(f.partName)
    case Category => HasText(f.category)
    case Brand => HasText(f.brand)
    case Location => HasText(f.location)
    case SupplierId => f.supplierId.Some? && |f.supplierId.value| > 0
    case Quantity => f.quantityInStock.None? || f.quantityInStock.value >= 0
    case MinStock => f.minStockLevel.None? || f.minStockLevel.value >= 0
    case PurchasePrice => f.purchasePrice.None? || f.purchasePrice.value >= 0.0
    case SalePrice =>
      && (f.salePrice.None? || f.salePrice.value >= 0.0)
      && (f.salePrice.Some? && f.purchasePrice.Some? && f.salePrice.value != 0.0 && f.purchasePrice.value != 0.0
          ==> f.salePrice.value > f.purchasePrice.value)
    case TaxRate => f.taxRate.None? || 0.0 <= f.taxRate.value <= 1.0
  }

  ghost predicate Acceptable(f: UpdateInventoryRequest) {
    forall field :: FieldAcceptable(f, field)
  }

  /** A field has no error exactly when its value is acceptable. */
  lemma FieldErrorIff(f: UpdateInventoryRequest, field: Field)
    ensures FieldError(f, field).None? <==> FieldAcceptable(f, field)
  {
    match field
    case PartNumber => MissingTextIff(f.partNumber);
    case PartName => MissingTextIff(f.partName);
    case Category => MissingTextIff(f.category);
    case Brand => MissingTextIff(f.brand);
    case Location => MissingTextIff(f.location);
    case SupplierId =>
    case Quantity =>
    case MinStock =>
    case PurchasePrice =>
    case SalePrice =>
    case TaxRate =>
  }

  /** The form validates (no error at all) exactly when it is acceptable. */
  lemma ValidIffAcceptable(f: UpdateInventoryRequest)
    ensures Validate(f) == map[] <==> Acceptable(f)
  {
    forall field ensures FieldError(f, field).None? <==> FieldAcceptable(f, field) {
      FieldErrorIff(f, field);
    }
    var errors := Validate(f);
    if errors != map[] {
      var field :| field in errors;
    }
  }

  /** A zero sale price is never compared with the purchase price, whatever
      that price is: both of its checks are skipped. */
  lemma ZeroSalePricePasses(f: UpdateInventoryRequest)
    requires f.salePrice == Some(0.0)
    ensures SalePrice !in Validate(f)
  {
  }

  /** A negative sale price with a positive purchase price gets the
      message about the purchase price: the second check's message
      replaces the first's. */
  lemma SaleMessageOverwritten(f: UpdateInventoryRequest)
    requires f.salePrice.Some? && f.salePrice.value < 0.0
    requires f.purchasePrice.Some? && f.purchasePrice.value > 0.0
    ensures Validate(f)[SalePrice] == SaleAbovePurchase
  {
  }

  /** `handleSubmit`: the form is handed to `onSave` only when it
      validates. */
  function Submit(f: UpdateInventoryRequest): (r: Option<UpdateInventoryRequest>)
    ensures r.Some? ==> r.value == f
    ensures r.Some? <==> Acceptable(f)
  {
    ValidIffAcceptable(f);
    if Validate(f) == map[] then Some(f) else None
  }
}
