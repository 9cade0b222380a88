/** The add-to-cart modal (src/components/ui/addToCartModal.tsx): a quantity
    counter bounded by the product's stock. */
module AddToCartModal {
  import opened Common
  import opened StoreCard
  import opened Cart

  /** `handleIncrement`: one more, only while below the stock. */
  function Incremented(quantity: int, stock: int): (q: int)
    ensures q == quantity || q == quantity + 1
    ensures q == quantity + 1 <==> quantity < stock
  {
    if quantity < stock then quantity + 1 else quantity
  }

  /** `handleDecrement`: one less, never below 1. */
  function Decremented(quantity: int): (q: int)
    ensures q == quantity || q == quantity - 1
    ensures q == quantity - 1 <==> quantity > 1
  {
    if quantity > 1 then quantity - 1 else quantity
  }

  /** `handleConfirm`: the quantity handed to `onConfirm`, when it is positive
      and within the stock. */
  function ConfirmedQuantity(quantity: int, stock: int): (r: Option<int>)
    ensures r.Some? <==> 0 < quantity <= stock
    ensures r.Some? ==> r.value == quantity
  {
    if quantity > 0 && quantity <= stock then Some(quantity) else None
  }

  datatype Step = Plus | Minus

  /** The quantity after pressing the buttons in order. */
  function Run(quantity: int, stock: int, steps: seq<Step>): int
    decreases |steps|
  {
    if steps == [] then quantity
    else
      var next := if steps[0] == Plus then Incremented(quantity, stock) else Decremented(quantity);
      Run(next, stock, steps[1..])
  }

  /** From a quantity in 1..max(1, stock), no sequence of presses leaves that range. */
  lemma {:induction false} RunStaysInRange(quantity: int, stock: int, steps: seq<Step>)
    requires 1 <= quantity <= Max(1, stock)
    ensures 1 <= Run(quantity, stock, steps) <= Max(1, stock)
    decreases |steps|
  {
    if steps != [] {
      var next := if steps[0] == Plus then Incremented(quantity, stock) else Decremented(quantity);
      RunStaysInRange(next, stock, steps[1..]);
    }
  }

  /** After opening (quantity 1) and any presses, confirming succeeds exactly
      when there is stock, and hands over a quantity within it. */
  lemma ConfirmAfterAnyPresses(stock: int, steps: seq<Step>)
    ensures var q := Run(1, stock, steps);
      && (ConfirmedQuantity(q, stock).Some? <==> stock >= 1)
      && (ConfirmedQuantity(q, stock).Some? ==> 1 <= ConfirmedQuantity(q, stock).value <= stock)
  {
    RunStaysInRange(1, stock, steps);
  }

  class Modal {
    var isOpen: bool
    var product: Option<Product>
    var quantity: int

    constructor()
      ensures !isOpen && product == None && quantity == 1
    {
      isOpen := false;
      product := None;
      quantity := 1;
    }

    /** `product.stock || 0` */
    function Stock(): int
      reads this
      requires product.Some?
    {
      StockOf(product.value)
    }

    ghost predicate Valid()
      reads this
    {
      isOpen && product.Some? ==> 1 <= quantity <= Max(1, Stock())
    }

    /** Opening with a product: the reset effect brings the quantity back to 1. */
    method Open(p: Product)
      modifies this
      ensures isOpen && product == Some(p) && quantity == 1
      ensures Valid()
    {
      isOpen := true;
      product := Some(p);
      quantity := 1;
    }

    method Close()
      modifies this`isOpen
      ensures !isOpen
    {
      isOpen := false;
    }

    method HandleIncrement()
      requires isOpen && product.Some?
      modifies this`quantity
      ensures quantity == Incremented(old(quantity), Stock())
      ensures old(Valid()) ==> Valid()
    {
      if quantity < Stock() {
        quantity := quantity + 1;
      }
    }

    method HandleDecrement()
      requires isOpen && product.Some?
      modifies this`quantity
      ensures quantity == Decremented(old(quantity))
      ensures old(Valid()) ==> Valid()
    {
      if quantity > 1 {
        quantity := quantity - 1;
      }
    }

    /** `handleConfirm`: hands over the quantity and closes, or does nothing. */
    method HandleConfirm() returns (confirmed: Option<int>)
      requires isOpen && product.Some?
      modifies this`isOpen
      ensures confirmed == ConfirmedQuantity(quantity, Stock())
      ensures isOpen <==> confirmed.None?
    {
      if quantity > 0 && quantity <= Stock() {
        confirmed := Some(quantity);
        isOpen := false;
      } else {
        confirmed := None;
      }
    }
  }
}
