/** The customer's order history (src/components/UserOrders.tsx): the
    orders of the signed-in customer, latest first, an accordion that opens
    one order at a time, and the colour and icon of each order's state. */
module UserOrders {
  import opened Common
  import opened Seqs
  import Types

  /** One line of an order as the history receives it. */
  datatype OrderLine = OrderLine(name: string, price: int, quantity: int)

  /** An order as the history receives it; `clienteEmail` may be missing. */
  datatype ShopOrder = ShopOrder(
    id: int,
    clienteEmail: Option<string>,
    estado: string,
    fecha: string,
    total: int,
    items: seq<OrderLine>)

  // ---------------------------------------------------------------------------
  // myOrders
  // ---------------------------------------------------------------------------

  /** `o.cliente_email === user?.email`; a missing value on both sides is equal. */
  function OwnedBy(email: Option<string>): ShopOrder -> bool {
    (o: ShopOrder) => o.clienteEmail == email
  }

  /** `myOrders`: the customer's orders in reverse fetch order, or none
      before the orders arrive. */
  function MyOrders(all: Option<seq<ShopOrder>>, email: Option<string>): seq<ShopOrder> {
    if all.None? then [] else Reverse(Filter(all.value, OwnedBy(email)))
  }

  /** The list holds exactly the orders whose email equals the customer's,
      the one fetched last first. */
  lemma MyOrdersListing(all: Option<seq<ShopOrder>>, email: Option<string>)
    ensures var r := MyOrders(all, email);
      && (forall o :: o in r <==> all.Some? && o in all.value && o.clienteEmail == email)
      && (all.Some? ==> var mine := Filter(all.value, OwnedBy(email));
            |r| == |mine| && forall i :: 0 <= i < |r| ==> r[i] == mine[|mine| - 1 - i])
  {
    if all.Some? {
      var mine := Filter(all.value, OwnedBy(email));
      forall o
        ensures o in MyOrders(all, email) <==> o in all.value && o.clienteEmail == email
      {
        FilterMember(all.value, OwnedBy(email), o);
        ReverseMember(mine, o);
      }
    }
  }

  /** Without a signed-in user the comparison is `undefined === undefined`,
      so an order whose `clienteEmail` key is absent would be listed. The
      query is disabled without a user, so only orders cached from an earlier
      session reach this case; a JSON `null` email is not `undefined` and is
      not matched (`None` here stands for the absent key only). */
  lemma NoUserListsOrdersWithoutEmail(all: seq<ShopOrder>, o: ShopOrder)
    requires o in all && o.clienteEmail.None?
    ensures o in MyOrders(Some(all), None)
  {
    MyOrdersListing(Some(all), None);
  }

  // ---------------------------------------------------------------------------
  // toggleDetails
  // ---------------------------------------------------------------------------

  /** `toggleDetails`: the open order closes, any other order opens. */
  function Toggled(expanded: Option<int>, orderId: int): (r: Option<int>)
    ensures expanded == Some(orderId) ==> r.None?
    ensures expanded != Some(orderId) ==> r == Some(orderId)
  {
    if expanded == Some(orderId) then None else Some(orderId)
  }

  /** Clicking the same order twice restores the accordion only when that
      order was the open one; otherwise everything ends up closed. */
  lemma ToggleTwice(expanded: Option<int>, orderId: int)
    ensures Toggled(Toggled(expanded, orderId), orderId) == (if expanded == Some(orderId) then expanded else None)
  {
  }

  class Accordion {
    var expandedOrderId: Option<int>

    constructor()
      ensures expandedOrderId.None?
    {
      expandedOrderId := None;
    }

    method ToggleDetails(orderId: int)
      modifies this
      ensures expandedOrderId == Toggled(old(expandedOrderId), orderId)
    {
      expandedOrderId := Toggled(expandedOrderId, orderId);
    }

    /** Whether the details of an order are shown. */
    predicate IsExpanded(o: ShopOrder)
      reads this
    {
      expandedOrderId == Some(o.id)
    }

    /** Among orders with distinct ids, at most one shows its details. */
    lemma AtMostOneExpanded(orders: seq<ShopOrder>, i: nat, j: nat)
      requires i < |orders| && j < |orders|
      requires forall a, b :: 0 <= a < b < |orders| ==> orders[a].id != orders[b].id
      requires IsExpanded(orders[i]) && IsExpanded(orders[j])
      ensures i == j
    {
    }
  }

  // ---------------------------------------------------------------------------
  // getStatusColor, getStatusIcon and the pulse
  // ---------------------------------------------------------------------------

  const GreenClasses: string := "bg-green-100 text-green-700 border-green-200"
  const RedClasses: string := "bg-red-100 text-red-700 border-red-200"
  const YellowClasses: string := "bg-yellow-100 text-yellow-800 border-yellow-200"

  datatype Icon = CheckCircle | TimesCircle | Clock

  /** `getStatusColor` */
  function StatusColor(status: string): (r: string)
    ensures r == GreenClasses <==> status == "Aceptado"
    ensures r == RedClasses <==> status == "Rechazado"
    ensures r == YellowClasses <==> status != "Aceptado" && status != "Rechazado"
  {
    if status == "Aceptado" then GreenClasses
    else if status == "Rechazado" then RedClasses
    else YellowClasses
  }

  /** `getStatusIcon` */
  function StatusIcon(status: string): (r: Icon)
    ensures r == CheckCircle <==> status == "Aceptado"
    ensures r == TimesCircle <==> status == "Rechazado"
    ensures r == Clock <==> status != "Aceptado" && status != "Rechazado"
  {
    if status == "Aceptado" then CheckCircle
    else if status == "Rechazado" then TimesCircle
    else Clock
  }

  /** The colour and the icon always tell the same story. */
  lemma ColorMatchesIcon(status: string)
    ensures StatusColor(status) == GreenClasses <==> StatusIcon(status) == CheckCircle
    ensures StatusColor(status) == RedClasses <==> StatusIcon(status) == TimesCircle
    ensures StatusColor(status) == YellowClasses <==> StatusIcon(status) == Clock
  {
  }

  /** The pulsing dot next to a pending order. */
  predicate ShowsPulse(status: string) {
    status == "Pendiente"
  }

  /** The comparisons are case-sensitive: the upper-case states the back
      office stores (ACEPTADO, PENDIENTE, ...) all show yellow with a clock
      and no pulse. */
  lemma UpperCaseStatesLookPending(status: string)
    requires status in {Types.Pendiente, Types.Aceptado, Types.Enviado, Types.Entregado, Types.Cancelado, Types.Borrado}
    ensures StatusColor(status) == YellowClasses && StatusIcon(status) == Clock && !ShowsPulse(status)
  {
  }
}
