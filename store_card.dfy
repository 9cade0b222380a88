/** The product record shared by the catalog, the cart and the add-to-cart
    modal, and the stock badge a product card shows
    (src/components/ui/storeCard.tsx). */
module StoreCard {
  import opened Common

  /** A catalog product. Prices are whole pesos; `stock` may be missing. */
  datatype Product = Product(id: int, name: string, category: string, price: int, stock: Option<int>)

  /** `product.stock || 0`: a missing stock counts as none. */
  function StockOf(p: Product): int {
    match p.stock
    case None => 0
    case Some(n) => n
  }

  predicate HasStock(p: Product) {
    StockOf(p) > 0
  }

  /** The three badges a card can carry. */
  datatype Badge = FewLeft(count: int) | InStock(count: int) | SoldOut

  /** The badge in the card's top-left corner: exactly one of the three,
      decided by the stock alone. */
  function StockBadge(p: Product): (b: Badge)
    ensures b.SoldOut? <==> StockOf(p) <= 0
    ensures b.FewLeft? <==> 0 < StockOf(p) < 10
    ensures b.InStock? <==> StockOf(p) >= 10
    ensures !b.SoldOut? ==> b.count == StockOf(p)
    ensures p.stock.None? ==> b == SoldOut
  {
    if HasStock(p) then
      if StockOf(p) < 10 then FewLeft(StockOf(p)) else InStock(StockOf(p))
    else SoldOut
  }

  /** The text of a badge. */
  function BadgeText(b: Badge): string {
    match b
    case FewLeft(n) => "¡Solo " + IntToString(n) + " disponibles!"
    case InStock(n) => "En Stock: " + IntToString(n)
    case SoldOut => "Agotado"
  }

  /** The grey overlay over the image and the central "PRODUCTO AGOTADO"
      label are both rendered under `!hasStock`. */
  function SoldOutOverlay(p: Product): (shown: bool)
    ensures shown <==> StockBadge(p) == SoldOut
    ensures shown <==> !HasStock(p)
  {
    !HasStock(p)
  }

  /** A card that has stock never shows "Agotado", and one without stock
      always does: the badge text and the overlay agree. */
  lemma BadgeAgreesWithOverlay(p: Product)
    ensures (BadgeText(StockBadge(p)) == "Agotado") <==> SoldOutOverlay(p)
  {
    var b := StockBadge(p);
    if !b.SoldOut? {
      var t := BadgeText(b);
      if b.FewLeft? {
        assert t[0] == '¡';
      } else {
        assert t[0] == 'E' && t[1] == 'n';
      }
      assert t != "Agotado";
    }
  }
}
