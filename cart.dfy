/** The shopping cart kept by the global provider
    (src/context/GlobalContext.tsx): the `setCart` updaters of `addToCart`,
    `removeFromCart` and `updateQuantity`, and the derived `cartTotal` and
    `cartCount`. Each updater is a function from the previous cart to the
    next one; the provider class applies them to its `cart` field. */
module Cart {
  import opened Common
  import opened Seqs
  import opened StoreCard

  /** A cart line: the product as it was added, and how many units. */
  datatype CartItem = CartItem(product: Product, quantity: int)

  /** The carts the provider's operations produce from an empty cart: every
      product at most once, and no line with a quantity below 1. */
  ghost predicate UniqueIds(cart: seq<CartItem>) {
    forall i, j :: 0 <= i < j < |cart| ==> cart[i].product.id != cart[j].product.id
  }

  ghost predicate PositiveQuantities(cart: seq<CartItem>) {
    forall i :: 0 <= i < |cart| ==> cart[i].quantity > 0
  }

  ghost predicate ValidCart(cart: seq<CartItem>) {
    UniqueIds(cart) && PositiveQuantities(cart)
  }

  /** `cart.find(item => item.id === id)`, as the position of the first match. */
  function FindItem(cart: seq<CartItem>, id: int): (r: Option<nat>)
    ensures r.Some? ==> r.value < |cart| && cart[r.value].product.id == id
    ensures r.Some? ==> forall j :: 0 <= j < r.value ==> cart[j].product.id != id
    ensures r.None? <==> forall i :: 0 <= i < |cart| ==> cart[i].product.id != id
  {
    if cart == [] then None
    else if cart[0].product.id == id then Some(0)
    else match FindItem(cart[1..], id)
      case None => None
      case Some(k) => Some(k + 1)
  }

  /** `find` returns the first line holding the id. */
  lemma FindItemFirst(cart: seq<CartItem>, id: int, k: nat)
    requires k < |cart| && cart[k].product.id == id
    requires forall j :: 0 <= j < k ==> cart[j].product.id != id
    ensures FindItem(cart, id) == Some(k)
  {
  }

  /** In a cart with unique ids, the line holding `id` is the only match. */
  lemma FindItemUnique(cart: seq<CartItem>, id: int, k: nat)
    requires UniqueIds(cart)
    requires k < |cart| && cart[k].product.id == id
    ensures FindItem(cart, id) == Some(k)
  {
    FindItemFirst(cart, id, k);
  }

  /** Units of `id` in the cart (0 when absent). */
  function QuantityOf(cart: seq<CartItem>, id: int): int {
    match FindItem(cart, id)
    case None => 0
    case Some(k) => cart[k].quantity
  }

  /** Unit price stored on the line holding `id` (0 when absent). */
  function PriceOf(cart: seq<CartItem>, id: int): int {
    match FindItem(cart, id)
    case None => 0
    case Some(k) => cart[k].product.price
  }

  // ---------------------------------------------------------------------------
  // Sums
  // ---------------------------------------------------------------------------

  function LineTotal(item: CartItem): int {
    item.product.price * item.quantity
  }

  function Units(item: CartItem): int {
    item.quantity
  }

  /** `cartTotal`: the sum of price times quantity over the lines. */
  function CartTotal(cart: seq<CartItem>): int {
    Sum(cart, LineTotal)
  }

  /** `cartCount`: the number of units in the cart. */
  function CartCount(cart: seq<CartItem>): int {
    Sum(cart, Units)
  }

  /** A cart whose lines all hold at least one unit counts at least one unit per line. */
  lemma {:induction false} CountAtLeastLines(cart: seq<CartItem>)
    requires PositiveQuantities(cart)
    ensures CartCount(cart) >= |cart|
  {
    if cart != [] {
      CountAtLeastLines(cart[..|cart| - 1]);
    }
  }

  // ---------------------------------------------------------------------------
  // addToCart
  // ---------------------------------------------------------------------------

  /** `prev.map(item => item.id === id ? {...item, quantity: item.quantity + 1} : item)` */
  function IncrementMatching(cart: seq<CartItem>, id: int): seq<CartItem> {
    seq(|cart|, i requires 0 <= i < |cart| =>
      if cart[i].product.id == id then cart[i].(quantity := cart[i].quantity + 1) else cart[i])
  }

  /** The cart after `addToCart(product)`: nothing happens when the product has
      no stock or when one more unit would exceed it; otherwise the existing
      line is incremented, or a new line with one unit is appended. */
  function CartAfterAdd(prev: seq<CartItem>, product: Product): seq<CartItem> {
    var available := StockOf(product);
    if available <= 0 then prev
    else match FindItem(prev, product.id)
      case Some(k) => if prev[k].quantity + 1 > available then prev else IncrementMatching(prev, product.id)
      case None => prev + [CartItem(product, 1)]
  }

  /** The toast `addToCart` raises. */
  datatype AddNotice = SoldOutNotice | StockLimitNotice(available: int) | QuantityUpdatedNotice | AddedNotice

  function AddNoticeFor(prev: seq<CartItem>, product: Product): AddNotice {
    var available := StockOf(product);
    if available <= 0 then SoldOutNotice
    else match FindItem(prev, product.id)
      case Some(k) => if prev[k].quantity + 1 > available then StockLimitNotice(available) else QuantityUpdatedNotice
      case None => AddedNotice
  }

  /** A product with missing or non-positive stock, or one whose line already
      holds all the stock, leaves the cart as it was. */
  lemma AddRefused(prev: seq<CartItem>, product: Product)
    requires StockOf(product) <= 0 || (FindItem(prev, product.id).Some? && QuantityOf(prev, product.id) + 1 > StockOf(product))
    ensures CartAfterAdd(prev, product) == prev
  {
  }

  /** Adding a product that is already in the cart increments exactly that line;
      every other line and the order stay as they were. */
  lemma AddIncrementsInPlace(prev: seq<CartItem>, product: Product, k: nat)
    requires ValidCart(prev)
    requires k < |prev| && prev[k].product.id == product.id
    requires prev[k].quantity + 1 <= StockOf(product)
    ensures CartAfterAdd(prev, product) == prev[k := prev[k].(quantity := prev[k].quantity + 1)]
  {
    FindItemUnique(prev, product.id, k);
    var r := IncrementMatching(prev, product.id);
    var s := prev[k := prev[k].(quantity := prev[k].quantity + 1)];
    forall i | 0 <= i < |r|
      ensures r[i] == s[i]
    {
      if i != k {
        assert prev[i].product.id != product.id;
      }
    }
    assert r == s;
  }


  /** Adding a product that is not in the cart appends one line with one unit. */
  lemma AddAppendsNew(prev: seq<CartItem>, product: Product)
    requires StockOf(product) > 0
    requires FindItem(prev, product.id).None?
    ensures CartAfterAdd(prev, product) == prev + [CartItem(product, 1)]
  {
  }

  // Three ways a cart changes: one line replaced, one line appended, one line dropped.

  lemma ReplacePreservesValid(prev: seq<CartItem>, k: nat, x: CartItem)
    requires ValidCart(prev) && k < |prev|
    requires x.product.id == prev[k].product.id && x.quantity > 0
    ensures ValidCart(prev[k := x])
  {
  }

  lemma AppendPreservesValid(prev: seq<CartItem>, x: CartItem)
    requires ValidCart(prev) && FindItem(prev, x.product.id).None? && x.quantity > 0
    ensures ValidCart(prev + [x])
  {
  }

  lemma DropPreservesValid(prev: seq<CartItem>, k: nat)
    requires ValidCart(prev) && k < |prev|
    ensures ValidCart(prev[..k] + prev[k + 1..])
  {
    var r := prev[..k] + prev[k + 1..];
    assert forall i :: 0 <= i < |r| ==> r[i] == if i < k then prev[i] else prev[i + 1];
  }

  lemma ReplaceKeepsOthers(prev: seq<CartItem>, k: nat, x: CartItem, other: int)
    requires UniqueIds(prev) && k < |prev|
    requires x.product.id == prev[k].product.id && other != x.product.id
    ensures QuantityOf(prev[k := x], other) == QuantityOf(prev, other)
  {
    var r := prev[k := x];
    assert UniqueIds(r);
    match FindItem(prev, other)
    case Some(j) => FindItemUnique(r, other, j);
    case None => assert forall i :: 0 <= i < |r| ==> r[i].product.id != other;
  }

  lemma AppendKeepsOthers(prev: seq<CartItem>, x: CartItem, other: int)
    requires other != x.product.id
    ensures QuantityOf(prev + [x], other) == QuantityOf(prev, other)
  {
    var r := prev + [x];
    match FindItem(prev, other)
    case Some(j) => FindItemFirst(r, other, j);
    case None => assert forall i :: 0 <= i < |r| ==> r[i].product.id != other;
  }

  lemma DropKeepsOthers(prev: seq<CartItem>, k: nat, other: int)
    requires ValidCart(prev) && k < |prev| && other != prev[k].product.id
    ensures QuantityOf(prev[..k] + prev[k + 1..], other) == QuantityOf(prev, other)
  {
    var r := prev[..k] + prev[k + 1..];
    DropPreservesValid(prev, k);
    assert forall i :: 0 <= i < |r| ==> r[i] == if i < k then prev[i] else prev[i + 1];
    match FindItem(prev, other)
    case Some(j) =>
      if j < k {
        FindItemUnique(r, other, j);
      } else {
        FindItemUnique(r, other, j - 1);
      }
    case None =>
      assert forall i :: 0 <= i < |r| ==> r[i].product.id != other;
  }

  lemma DropRemovesId(prev: seq<CartItem>, k: nat)
    requires ValidCart(prev) && k < |prev|
    ensures QuantityOf(prev[..k] + prev[k + 1..], prev[k].product.id) == 0
  {
    var r := prev[..k] + prev[k + 1..];
    assert forall i :: 0 <= i < |r| ==> r[i] == if i < k then prev[i] else prev[i + 1];
    assert forall i :: 0 <= i < |r| ==> r[i].product.id != prev[k].product.id;
  }

  /** `addToCart` keeps ids unique and quantities positive. */
  lemma AddPreservesValid(prev: seq<CartItem>, product: Product)
    requires ValidCart(prev)
    ensures ValidCart(CartAfterAdd(prev, product))
  {
    if StockOf(product) > 0 {
      match FindItem(prev, product.id)
      case Some(k) =>
        if prev[k].quantity + 1 <= StockOf(product) {
          AddIncrementsInPlace(prev, product, k);
          ReplacePreservesValid(prev, k, prev[k].(quantity := prev[k].quantity + 1));
        }
      case None =>
        AppendPreservesValid(prev, CartItem(product, 1));
    }
  }

  /** The units of the added product grow by one exactly when there is stock
      for one more, so they never grow past the stock; other products keep
      their units; the count and the total move by that one unit. */
  lemma AddEffect(prev: seq<CartItem>, product: Product)
    requires ValidCart(prev)
    ensures var r := CartAfterAdd(prev, product);
      && QuantityOf(r, product.id) ==
           (if QuantityOf(prev, product.id) + 1 <= StockOf(product)
            then QuantityOf(prev, product.id) + 1 else QuantityOf(prev, product.id))
      && (forall other :: other != product.id ==> QuantityOf(r, other) == QuantityOf(prev, other))
      && CartCount(r) == CartCount(prev) + QuantityOf(r, product.id) - QuantityOf(prev, product.id)
      && CartTotal(r) == CartTotal(prev) + (if QuantityOf(r, product.id) > QuantityOf(prev, product.id) then PriceOf(r, product.id) else 0)
  {
    var r := CartAfterAdd(prev, product);
    var id := product.id;
    match FindItem(prev, id)
    case Some(k) =>
      if prev[k].quantity + 1 <= StockOf(product) {
        var x := prev[k].(quantity := prev[k].quantity + 1);
        AddIncrementsInPlace(prev, product, k);
        ReplacePreservesValid(prev, k, x);
        FindItemUnique(r, id, k);
        SumReplace(prev, k, x, LineTotal);
        SumReplace(prev, k, x, Units);
        assert LineTotal(x) == LineTotal(prev[k]) + x.product.price;
        forall other | other != id
          ensures QuantityOf(r, other) == QuantityOf(prev, other)
        {
          ReplaceKeepsOthers(prev, k, x, other);
        }
      }
    case None =>
      if StockOf(product) > 0 {
        var x := CartItem(product, 1);
        FindItemFirst(r, id, |prev|);
        SumAppend(prev, [x], LineTotal);
        SumAppend(prev, [x], Units);
        forall other | other != id
          ensures QuantityOf(r, other) == QuantityOf(prev, other)
        {
          AppendKeepsOthers(prev, x, other);
        }
      }
  }

  /** The toast tells the cart's story: a warning or an error exactly when the
      cart did not change. */
  lemma AddNoticeMatchesCart(prev: seq<CartItem>, product: Product)
    requires ValidCart(prev)
    ensures var n := AddNoticeFor(prev, product);
      (n.SoldOutNotice? || n.StockLimitNotice?) <==> CartAfterAdd(prev, product) == prev
  {
    var r := CartAfterAdd(prev, product);
    match FindItem(prev, product.id)
    case Some(k) =>
      if StockOf(product) > 0 && prev[k].quantity + 1 <= StockOf(product) {
        AddIncrementsInPlace(prev, product, k);
        assert r[k].quantity != prev[k].quantity;
      }
    case None =>
      if StockOf(product) > 0 {
        assert |r| != |prev|;
      }
  }

  // ---------------------------------------------------------------------------
  // removeFromCart
  // ---------------------------------------------------------------------------

  function NotId(id: int): CartItem -> bool {
    (item: CartItem) => item.product.id != id
  }

  /** `prev.filter(item => item.id !== productId)` */
  function CartAfterRemove(prev: seq<CartItem>, id: int): seq<CartItem> {
    Filter(prev, NotId(id))
  }

  /** Removing an id the cart does not hold leaves the cart as it was. */
  lemma RemoveAbsent(prev: seq<CartItem>, id: int)
    requires FindItem(prev, id).None?
    ensures CartAfterRemove(prev, id) == prev
  {
    FilterAll(prev, NotId(id));
  }

  /** Removing drops the line holding the id and keeps the others in order. */
  lemma RemoveDropsLine(prev: seq<CartItem>, k: nat)
    requires UniqueIds(prev) && k < |prev|
    ensures CartAfterRemove(prev, prev[k].product.id) == prev[..k] + prev[k + 1..]
  {
    var id := prev[k].product.id;
    var a, b := prev[..k], prev[k + 1..];
    assert prev == a + [prev[k]] + b;
    forall i | 0 <= i < |a|
      ensures NotId(id)(a[i])
    {
      assert a[i] == prev[i];
    }
    forall i | 0 <= i < |b|
      ensures NotId(id)(b[i])
    {
      assert b[i] == prev[k + 1 + i];
    }
    FilterAround(a, prev[k], b, NotId(id));
  }

  /** Removing keeps the cart valid, leaves no unit of the id, keeps every
      other product's units, and takes the line's units out of the count and
      its amount out of the total. */
  lemma RemoveEffect(prev: seq<CartItem>, id: int)
    requires ValidCart(prev)
    ensures var r := CartAfterRemove(prev, id);
      && ValidCart(r)
      && QuantityOf(r, id) == 0
      && (forall other :: other != id ==> QuantityOf(r, other) == QuantityOf(prev, other))
      && CartCount(r) == CartCount(prev) - QuantityOf(prev, id)
      && CartTotal(r) == CartTotal(prev) - PriceOf(prev, id) * QuantityOf(prev, id)
  {
    var r := CartAfterRemove(prev, id);
    match FindItem(prev, id)
    case None =>
      RemoveAbsent(prev, id);
    case Some(k) =>
      RemoveDropsLine(prev, k);
      DropPreservesValid(prev, k);
      DropRemovesId(prev, k);
      SumRemove(prev, k, Units);
      SumRemove(prev, k, LineTotal);
      forall other | other != id
        ensures QuantityOf(r, other) == QuantityOf(prev, other)
      {
        DropKeepsOthers(prev, k, other);
      }
  }

  // ---------------------------------------------------------------------------
  // updateQuantity
  // ---------------------------------------------------------------------------

  /** The `map` step of `updateQuantity`: the matching lines move by `delta`,
      clamped at 0. */
  function StepQuantity(cart: seq<CartItem>, id: int, delta: int): seq<CartItem> {
    seq(|cart|, i requires 0 <= i < |cart| =>
      if cart[i].product.id == id then cart[i].(quantity := Max(0, cart[i].quantity + delta)) else cart[i])
  }

  function HasUnits(): CartItem -> bool {
    (item: CartItem) => item.quantity > 0
  }

  /** The cart after `updateQuantity(id, delta)`: step the matching line, then
      keep only lines with units left. There is no check against the stock. */
  function CartAfterUpdate(prev: seq<CartItem>, id: int, delta: int): seq<CartItem> {
    Filter(StepQuantity(prev, id, delta), HasUnits())
  }

  /** The `map` step touches only the line holding the id. */
  lemma StepQuantityAt(prev: seq<CartItem>, delta: int, k: nat)
    requires UniqueIds(prev) && k < |prev|
    ensures StepQuantity(prev, prev[k].product.id, delta) ==
      prev[..k] + [prev[k].(quantity := Max(0, prev[k].quantity + delta))] + prev[k + 1..]
  {
    var id := prev[k].product.id;
    var stepped := StepQuantity(prev, id, delta);
    var t := prev[..k] + [prev[k].(quantity := Max(0, prev[k].quantity + delta))] + prev[k + 1..];
    forall i | 0 <= i < |stepped|
      ensures stepped[i] == t[i]
    {
      if i != k {
        assert prev[i].product.id != id;
      }
    }
    assert stepped == t;
  }

  /** Updating an id the cart does not hold leaves the cart as it was. */
  lemma UpdateAbsent(prev: seq<CartItem>, id: int, delta: int)
    requires PositiveQuantities(prev)
    requires FindItem(prev, id).None?
    ensures CartAfterUpdate(prev, id, delta) == prev
  {
    assert StepQuantity(prev, id, delta) == prev;
    FilterAll(prev, HasUnits());
  }

  /** The line holding the id gets `max(0, q + delta)` units, and disappears
      when that is 0; other lines and the order are unchanged. */
  lemma UpdateSetsLine(prev: seq<CartItem>, delta: int, k: nat)
    requires ValidCart(prev) && k < |prev|
    ensures var q := Max(0, prev[k].quantity + delta);
      CartAfterUpdate(prev, prev[k].product.id, delta) ==
        if q > 0 then prev[k := prev[k].(quantity := q)] else prev[..k] + prev[k + 1..]
  {
    var x := prev[k].(quantity := Max(0, prev[k].quantity + delta));
    var a, b := prev[..k], prev[k + 1..];
    StepQuantityAt(prev, delta, k);
    forall i | 0 <= i < |a|
      ensures HasUnits()(a[i])
    {
      assert a[i] == prev[i];
    }
    forall i | 0 <= i < |b|
      ensures HasUnits()(b[i])
    {
      assert b[i] == prev[k + 1 + i];
    }
    FilterAround(a, x, b, HasUnits());
    if x.quantity > 0 {
      assert a + [x] + b == prev[k := x];
    }
  }

  /** `updateQuantity` keeps the cart valid, sets the units of the id to
      `max(0, q + delta)` when it is in the cart, keeps every other product's
      units, and moves the count by the change of that one line. */
  lemma UpdateEffect(prev: seq<CartItem>, id: int, delta: int)
    requires ValidCart(prev)
    ensures var r := CartAfterUpdate(prev, id, delta);
      && ValidCart(r)
      && QuantityOf(r, id) == (if FindItem(prev, id).Some? then Max(0, QuantityOf(prev, id) + delta) else 0)
      && (forall other :: other != id ==> QuantityOf(r, other) == QuantityOf(prev, other))
      && CartCount(r) == CartCount(prev) - QuantityOf(prev, id) + QuantityOf(r, id)
  {
    match FindItem(prev, id)
    case None =>
      UpdateAbsent(prev, id, delta);
    case Some(k) =>
      UpdateEffectAt(prev, delta, k);
  }

  /** `UpdateEffect` for the line at position `k`. */
  lemma UpdateEffectAt(prev: seq<CartItem>, delta: int, k: nat)
    requires ValidCart(prev) && k < |prev|
    ensures var id := prev[k].product.id;
      var r := CartAfterUpdate(prev, id, delta);
      && ValidCart(r)
      && QuantityOf(r, id) == Max(0, prev[k].quantity + delta)
      && (forall other :: other != id ==> QuantityOf(r, other) == QuantityOf(prev, other))
      && CartCount(r) == CartCount(prev) - prev[k].quantity + QuantityOf(r, id)
  {
    var id := prev[k].product.id;
    var r := CartAfterUpdate(prev, id, delta);
    var x := prev[k].(quantity := Max(0, prev[k].quantity + delta));
    UpdateSetsLine(prev, delta, k);
    if x.quantity > 0 {
      assert r == prev[k := x];
      ReplacePreservesValid(prev, k, x);
      FindItemUnique(r, id, k);
      SumReplace(prev, k, x, Units);
      forall other | other != id
        ensures QuantityOf(r, other) == QuantityOf(prev, other)
      {
        ReplaceKeepsOthers(prev, k, x, other);
      }
    } else {
      assert r == prev[..k] + prev[k + 1..];
      DropPreservesValid(prev, k);
      DropRemovesId(prev, k);
      SumRemove(prev, k, Units);
      forall other | other != id
        ensures QuantityOf(r, other) == QuantityOf(prev, other)
      {
        DropKeepsOthers(prev, k, other);
      }
    }
  }

  /** Unlike `addToCart`, `updateQuantity` raises the units by the full delta
      whatever the product's stock. */
  lemma UpdateIgnoresStock(prev: seq<CartItem>, id: int, delta: int)
    requires ValidCart(prev)
    requires FindItem(prev, id).Some? && delta >= 0
    ensures QuantityOf(CartAfterUpdate(prev, id, delta), id) == QuantityOf(prev, id) + delta
  {
    UpdateEffect(prev, id, delta);
  }

  /** A concrete cart where pressing "+" goes past the stock: one unit of a
      product with stock 1 becomes two units. */
  lemma UpdateCanExceedStock()
    ensures var p := Product(7, "Acetaminofen", "General", 3500, Some(1));
      var r := CartAfterUpdate([CartItem(p, 1)], 7, 1);
      r == [CartItem(p, 2)] && r[0].quantity > StockOf(p)
  {
    var p := Product(7, "Acetaminofen", "General", 3500, Some(1));
    UpdateSetsLine([CartItem(p, 1)], 1, 0);
  }
}
