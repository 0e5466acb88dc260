/** The product tile: its stock badge, its Add-to-Cart button and the guard behind it. */
module ProductCard {
  import opened Types
  import opened Cart

  datatype StockBadge = SoldOut | LowStock | InStock

  /** The guard of `handleAddToCart`: the product cannot be added. */
  predicate RejectsAdd(p: Product) {
    !p.isAvailable || p.stockQuantity == 0
  }

  /** The `disabled` condition of the Add-to-Cart button. */
  predicate AddDisabled(p: Product) {
    !p.isAvailable || p.stockQuantity == 0
  }

  /** Below this stock a sellable product shows "Low Stock". */
  const LowStockBelow := 5

  /** The badge next to the product name. */
  function Badge(p: Product): (b: StockBadge)
    ensures b == SoldOut <==> RejectsAdd(p)
    ensures b == LowStock <==> !RejectsAdd(p) && p.stockQuantity < LowStockBelow
    ensures b == InStock <==> !RejectsAdd(p) && p.stockQuantity >= LowStockBelow
  {
    if p.stockQuantity == 0 || !p.isAvailable then SoldOut
    else if p.stockQuantity < LowStockBelow then LowStock
    else InStock
  }

  /** The button is disabled exactly when a click would be rejected, which is exactly when the badge says "Sold Out". */
  lemma DisabledIffRejected(p: Product)
    ensures AddDisabled(p) <==> RejectsAdd(p)
    ensures AddDisabled(p) <==> Badge(p) == SoldOut
  {
  }

  /** `handleAddToCart`: `addToCart` is called once, unless the guard rejects the product. */
  method HandleAddToCart(p: Product, store: CartStore) returns (added: bool)
    modifies store
    ensures added <==> !RejectsAdd(p)
    ensures store.calls == if added then old(store.calls) + [Add(p)] else old(store.calls)
  {
    if !p.isAvailable || p.stockQuantity == 0 {
      return false;
    }
    store.AddToCart(p);
    added := true;
  }
}
