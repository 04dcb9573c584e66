/** The derived values the inventory detail view shows for one part: the
    low-stock flag, the status badge and the financial summary. */
module InventoryView {
  import opened Results
  import opened InventoryTypes

  /** The part is running low: no more in stock than the minimum level, and
      still an active part. */
  predicate IsLowStock(item: Inventory) {
    item.quantityInStock <= item.minStockLevel && item.status == Active
  }

  /** Only active parts are ever flagged, whatever their stock. */
  lemma LowStockOnlyWhenActive(item: Inventory)
    ensures IsLowStock(item) ==> item.status == Active
    ensures item.status == Active && item.quantityInStock <= item.minStockLevel ==> IsLowStock(item)
  {
  }

  /** Example of `LowStockOnlyWhenActive`. A part with 5 in stock and a minimum of 15 is flagged while active and
      not once discontinued. */
  lemma LowStockScenario(item: Inventory)
    requires item.quantityInStock == 5 && item.minStockLevel == 15
    ensures IsLowStock(item.(status := Active))
    ensures !IsLowStock(item.(status := Discontinued))
  {
  }

  datatype BadgeVariant = SuccessBadge | DestructiveBadge | SecondaryBadge

  /** `getStatusColor`: the badge colour for a status string; any string
      other than the two named ones, including `"DISCONTINUED"`, gets the
      neutral badge. */
  function StatusBadge(status: string): (r: BadgeVariant)
    ensures r == SuccessBadge <==> status == "ACTIVE"
    ensures r == DestructiveBadge <==> status == "OUT_OF_STOCK"
    ensures r == SecondaryBadge <==> status != "ACTIVE" && status != "OUT_OF_STOCK"
  {
    if status == "ACTIVE" then SuccessBadge
    else if status == "OUT_OF_STOCK" then DestructiveBadge
    else SecondaryBadge
  }

  /** On the three statuses a record can hold the badge is determined by the
      status: active is green, out of stock red, discontinued neutral. */
  lemma BadgeOfStatus(s: InventoryStatus)
    ensures StatusBadge(StatusName(s)) == (match s
      case Active => SuccessBadge
      case OutOfStock => DestructiveBadge
      case Discontinued => SecondaryBadge)
  {
  }

  /** Total stock value: what the stock cost to buy. */
  function StockValue(item: Inventory): real {
    item.quantityInStock as real * item.purchasePrice
  }

  /** Potential revenue: what the stock brings in when sold. */
  function PotentialRevenue(item: Inventory): real {
    item.quantityInStock as real * item.salePrice
  }

  /** Total margin: the per-unit margin times the stock. */
  function TotalMargin(item: Inventory): real {
    item.quantityInStock as real * item.margin
  }

  /** With a margin that matches the prices, the total margin is what the
      stock brings in minus what it cost. */
  lemma TotalMarginIsProfit(item: Inventory)
    requires MarginConsistent(item)
    ensures TotalMargin(item) == PotentialRevenue(item) - StockValue(item)
  {
    var q := item.quantityInStock as real;
    assert q * (item.salePrice - item.purchasePrice) == q * item.salePrice - q * item.purchasePrice;
  }

  /** The margin as a percentage of the purchase price. There is no guard
      against a zero purchase price, where the view shows `Infinity` or
      `NaN`; those cases are `None` here. */
  function MarginPercentage(item: Inventory): (r: Option<real>)
    ensures r.Some? <==> item.purchasePrice != 0.0
    ensures r.Some? ==> r.value * item.purchasePrice == item.margin * 100.0
  {
    if item.purchasePrice == 0.0 then None
    else Some(item.margin / item.purchasePrice * 100.0)
  }

  /** For a part bought at a positive price with a consistent margin, the
      percentage is positive exactly when the part sells above its cost. */
  lemma MarginPercentageSign(item: Inventory)
    requires MarginConsistent(item) && item.purchasePrice > 0.0
    ensures MarginPercentage(item).Some?
    ensures MarginPercentage(item).value > 0.0 <==> item.salePrice > item.purchasePrice
  {
    var p := MarginPercentage(item).value;
    assert p * item.purchasePrice == item.margin * 100.0;
    assert p > 0.0 ==> p * item.purchasePrice > 0.0;
    assert p <= 0.0 ==> p * item.purchasePrice <= 0.0;
  }
}
