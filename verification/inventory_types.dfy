/** The inventory record, its enumerations, the partial update request and
    the inventory-with-supplier record the inventory screen holds. */
module InventoryTypes {
  import opened Results

  datatype InventoryStatus = Active | OutOfStock | Discontinued

  datatype UnitOfMeasure = Piece | Liter | Set | Kg | Meter | Box | Pack

  /** The string stored in `status`. */
  function StatusName(s: InventoryStatus): string {
    match s
    case Active => "ACTIVE"
    case OutOfStock => "OUT_OF_STOCK"
    case Discontinued => "DISCONTINUED"
  }

  lemma StatusNameInjective(s: InventoryStatus, t: InventoryStatus)
    ensures StatusName(s) == StatusName(t) <==> s == t
  {
  }

  /** A part in stock. Prices are per unit; `taxRate` is a fraction such as
      0.20; `margin` is documented as `salePrice - purchasePrice`. */
  datatype Inventory = Inventory(
    id: string,
    partNumber: string,
    partName: string,
    category: string,
    brand: string,
    description: string,
    supplierId: string,
    supplierLink: Option<string>,
    barcode: Option<string>,
    unitOfMeasure: UnitOfMeasure,
    quantityInStock: int,
    minStockLevel: int,
    purchasePrice: real,
    salePrice: real,
    taxRate: real,
    margin: real,
    location: string,
    status: InventoryStatus,
    imageUrl: Option<string>,
    createdAt: string,
    updatedAt: string
  )

  /** The documented relation between the margin and the two prices. */
  predicate MarginConsistent(item: Inventory) {
    item.margin == item.salePrice - item.purchasePrice
  }

  /** The fields the add form supplies: everything except the id, the two
      timestamps and the derived margin. */
  datatype InventoryDraft = InventoryDraft(
    partNumber: string,
    partName: string,
    category: string,
    brand: string,
    description: string,
    supplierId: string,
    supplierLink: Option<string>,
    barcode: Option<string>,
    unitOfMeasure: UnitOfMeasure,
    quantityInStock: int,
    minStockLevel: int,
    purchasePrice: real,
    salePrice: real,
    taxRate: real,
    location: string,
    status: InventoryStatus,
    imageUrl: Option<string>
  )

  /** An update request: the id is required, every other field optional. */
  datatype UpdateInventoryRequest = UpdateInventoryRequest(
    id: string,
    partNumber: Option<string>,
    partName: Option<string>,
    category: Option<string>,
    brand: Option<string>,
    description: Option<string>,
    supplierId: Option<string>,
    supplierLink: Option<string>,
    barcode: Option<string>,
    unitOfMeasure: Option<UnitOfMeasure>,
    quantityInStock: Option<int>,
    minStockLevel: Option<int>,
    purchasePrice: Option<real>,
    salePrice: Option<real>,
    taxRate: Option<real>,
    location: Option<string>,
    status: Option<InventoryStatus>,
    imageUrl: Option<string>
  )

  /** The six supplier fields embedded in an inventory row. */
  datatype SupplierSummary = SupplierSummary(
    id: string,
    companyName: string,
    ice: string,
    contactPerson: string,
    phone: string,
    email: string
  )

  /** An inventory record together with the summary of its supplier. */
  datatype InventoryWithSupplier = InventoryWithSupplier(
    item: Inventory,
    supplier: SupplierSummary
  )
}
