/** The driver's panel (src/pages/Driver.tsx): the product summary of an
    order, which driver the logged-in user is, that driver's orders and
    counters, and the delivery confirmation. The summary's counting loop is
    the same code as the order editor's summary in
    src/components/admin/AdminPedidos.tsx:48-52, so both views use
    `GroupProductIds`. */
module Driver {
  import opened Common
  import opened Seqs
  import opened Types
  import opened GlobalContext

  // ---------------------------------------------------------------------------
  // groupedItems
  // ---------------------------------------------------------------------------

  /** One line of an order's product summary: a product id and how many
      times the order lists it. */
  datatype GroupedItem = GroupedItem(id: int, qty: int)

  ghost predicate StrictlyAscending(groups: seq<GroupedItem>) {
    forall i, j :: 0 <= i < j < |groups| ==> groups[i].id < groups[j].id
  }

  function Qty(): GroupedItem -> int {
    (g: GroupedItem) => g.qty
  }

  /** The place of `id` among ascending ids: after every smaller one. */
  function InsertPosition(groups: seq<GroupedItem>, id: int): (p: nat)
    ensures p <= |groups|
    ensures forall j :: 0 <= j < p ==> groups[j].id < id
    ensures p < |groups| ==> groups[p].id >= id
  {
    if groups == [] || groups[0].id >= id then 0
    else 1 + InsertPosition(groups[1..], id)
  }

  /** `groups` tallies `ids`: ascending distinct ids, one line per id that
      occurs, each with its number of occurrences, adding up to `|ids|`. */
  ghost predicate Tallies(groups: seq<GroupedItem>, ids: seq<int>) {
    && StrictlyAscending(groups)
    && (forall j :: 0 <= j < |groups| ==> groups[j].qty == multiset(ids)[groups[j].id])
    && (forall j :: 0 <= j < |groups| ==> groups[j].qty >= 1)
    && (forall x :: x in ids <==> exists j :: 0 <= j < |groups| && groups[j].id == x)
    && Sum(groups, Qty()) == |ids|
  }

  /** Counting an id that already has a line adds one to that line. */
  lemma TallyAgain(groups: seq<GroupedItem>, ids: seq<int>, p: nat)
    requires Tallies(groups, ids) && p < |groups|
    ensures Tallies(groups[p := groups[p].(qty := groups[p].qty + 1)], ids + [groups[p].id])
  {
    var id := groups[p].id;
    var g := groups[p].(qty := groups[p].qty + 1);
    var gs := groups[p := g];
    var ids' := ids + [id];
    assert multiset(ids') == multiset(ids) + multiset{id};
    SumReplace(groups, p, g, Qty());
    assert forall j :: 0 <= j < |gs| ==> gs[j].id == groups[j].id;
    forall j | 0 <= j < |gs|
      ensures gs[j].qty == multiset(ids')[gs[j].id]
    {
      if j != p {
        assert groups[j].id != id;
      }
    }
    forall x
      ensures x in ids' <==> exists j :: 0 <= j < |gs| && gs[j].id == x
    {
      assert x in ids' <==> x in ids || x == id;
      if x == id {
        assert gs[p].id == x;
      }
    }
  }

  /** Inserting an id between the smaller and the larger ids keeps the ids
      ascending. */
  lemma InsertKeepsAscending(groups: seq<GroupedItem>, p: nat, g: GroupedItem)
    requires StrictlyAscending(groups) && p <= |groups|
    requires forall j :: 0 <= j < p ==> groups[j].id < g.id
    requires p < |groups| ==> groups[p].id > g.id
    ensures StrictlyAscending(groups[..p] + [g] + groups[p..])
  {
    var gs := groups[..p] + [g] + groups[p..];
    forall i, j | 0 <= i < j < |gs|
      ensures gs[i].id < gs[j].id
    {
      if j < p {
        assert gs[i] == groups[i] && gs[j] == groups[j];
      } else if j == p {
        assert gs[i] == groups[i];
      } else if i < p {
        assert gs[i] == groups[i] && gs[j] == groups[j - 1];
      } else if i == p {
        assert gs[j] == groups[j - 1];
      } else {
        assert gs[i] == groups[i - 1] && gs[j] == groups[j - 1];
      }
    }
  }

  /** After the insertion, the ids with a line are the old ones and the new one. */
  lemma InsertAddsId(groups: seq<GroupedItem>, p: nat, g: GroupedItem, x: int)
    requires p <= |groups|
    ensures (exists j :: 0 <= j < |groups[..p] + [g] + groups[p..]| && (groups[..p] + [g] + groups[p..])[j].id == x)
      <==> (x == g.id || exists j :: 0 <= j < |groups| && groups[j].id == x)
  {
    var gs := groups[..p] + [g] + groups[p..];
    if j :| 0 <= j < |groups| && groups[j].id == x {
      if j < p {
        assert gs[j].id == x;
      } else {
        assert gs[j + 1].id == x;
      }
    }
    if j :| 0 <= j < |gs| && gs[j].id == x {
      if j < p {
        assert groups[j].id == x;
      } else if j > p {
        assert groups[j - 1].id == x;
      }
    }
    if x == g.id {
      assert gs[p].id == x;
    }
  }

  /** A new line with count 1 for an id without a line keeps every line's
      count equal to the id's occurrences. */
  lemma InsertKeepsCounts(groups: seq<GroupedItem>, ids: seq<int>, p: nat, id: int)
    requires p <= |groups|
    requires forall j :: 0 <= j < |groups| ==> groups[j].qty == multiset(ids)[groups[j].id] && groups[j].qty >= 1
    requires forall j :: 0 <= j < |groups| ==> groups[j].id != id
    requires id !in ids
    ensures var gs := groups[..p] + [GroupedItem(id, 1)] + groups[p..];
      forall j :: 0 <= j < |gs| ==> gs[j].qty == multiset(ids + [id])[gs[j].id] && gs[j].qty >= 1
  {
    var gs := groups[..p] + [GroupedItem(id, 1)] + groups[p..];
    var ids' := ids + [id];
    assert multiset(ids') == multiset(ids) + multiset{id};
    forall j | 0 <= j < |gs|
      ensures gs[j].qty == multiset(ids')[gs[j].id] && gs[j].qty >= 1
    {
      if j < p {
        assert gs[j] == groups[j];
      } else if j > p {
        assert gs[j] == groups[j - 1];
      }
    }
  }

  /** After inserting a line for `id`, the ids with a line are those of
      `ids + [id]`. */
  lemma InsertKeepsIds(groups: seq<GroupedItem>, ids: seq<int>, p: nat, id: int)
    requires p <= |groups|
    requires forall x :: x in ids <==> exists j :: 0 <= j < |groups| && groups[j].id == x
    ensures var gs := groups[..p] + [GroupedItem(id, 1)] + groups[p..];
      forall x :: x in ids + [id] <==> exists j :: 0 <= j < |gs| && gs[j].id == x
  {
    var gs := groups[..p] + [GroupedItem(id, 1)] + groups[p..];
    forall x
      ensures x in ids + [id] <==> exists j :: 0 <= j < |gs| && gs[j].id == x
    {
      assert x in ids + [id] <==> x in ids || x == id;
      InsertAddsId(groups, p, GroupedItem(id, 1), x);
    }
  }

  /** Counting an id with no line yet inserts a line with count 1 in its
      ascending place. */
  lemma TallyNew(groups: seq<GroupedItem>, ids: seq<int>, id: int)
    requires Tallies(groups, ids)
    requires var p := InsertPosition(groups, id); !(p < |groups| && groups[p].id == id)
    ensures var p := InsertPosition(groups, id);
      Tallies(groups[..p] + [GroupedItem(id, 1)] + groups[p..], ids + [id])
  {
    var p := InsertPosition(groups, id);
    var g := GroupedItem(id, 1);
    var gs := groups[..p] + [g] + groups[p..];
    assert forall j :: 0 <= j < |groups| ==> groups[j].id != id;
    assert id !in ids;
    assert StrictlyAscending(gs) by {
      InsertKeepsAscending(groups, p, g);
    }
    assert Sum(gs, Qty()) == |ids + [id]| by {
      SumInsert(groups, p, g, Qty());
    }
    InsertKeepsCounts(groups, ids, p, id);
    InsertKeepsIds(groups, ids, p, id);
  }

  /** `groupedItems`: the loop counts each id in a record, and
      `Object.entries` lists a record's integer keys in ascending order. The
      result has one line per distinct id, ids ascending, each with the
      number of times the id occurs, so the quantities add up to the length
      of the list. */
  method GroupProductIds(ids: seq<int>) returns (groups: seq<GroupedItem>)
    ensures StrictlyAscending(groups)
    ensures forall j :: 0 <= j < |groups| ==> groups[j].qty == multiset(ids)[groups[j].id]
    ensures forall j :: 0 <= j < |groups| ==> groups[j].qty >= 1
    ensures forall x :: x in ids <==> exists j :: 0 <= j < |groups| && groups[j].id == x
    ensures Sum(groups, Qty()) == |ids|
  {
    groups := [];
    var i := 0;
    while i < |ids|
      invariant 0 <= i <= |ids|
      invariant Tallies(groups, ids[..i])
    {
      var id := ids[i];
      assert ids[..i + 1] == ids[..i] + [id];
      var p := InsertPosition(groups, id);
      if p < |groups| && groups[p].id == id {
        TallyAgain(groups, ids[..i], p);
        groups := groups[p := groups[p].(qty := groups[p].qty + 1)];
      } else {
        TallyNew(groups, ids[..i], id);
        groups := groups[..p] + [GroupedItem(id, 1)] + groups[p..];
      }
      i := i + 1;
    }
    assert ids[..|ids|] == ids;
  }

  // ---------------------------------------------------------------------------
  // Identifying the driver
  // ---------------------------------------------------------------------------

  /** How the panel compares names: lower-cased, then trimmed. */
  function NameKey(s: string): string {
    Trim(ToLower(s))
  }

  function FullName(d: Domiciliario): string {
    d.nombre + " " + d.apellido
  }

  function NamedAs(displayName: string): Domiciliario -> bool {
    (d: Domiciliario) => NameKey(FullName(d)) == NameKey(displayName)
  }

  /** The comparison ignores letter case and spaces in front. */
  lemma NameKeyIgnoresCaseAndLeadingSpace(s: string)
    ensures NameKey(ToLower(s)) == NameKey(s)
    ensures NameKey([' '] + s) == NameKey(s)
  {
    ToLowerIdempotent(s);
    assert ToLower([' '] + s) == [' '] + ToLower(s);
    TrimLeadingSpace(ToLower(s));
  }

  class Panel {
    var currentDriverId: Option<int>

    constructor()
      ensures currentDriverId.None?
    {
      currentDriverId := None;
    }

    /** The identification effect: once the user and the drivers are
        known, the first driver whose name matches the user's display name
        becomes the current driver (with that driver's id, possibly
        missing); with no match the current driver stays as it was. */
    method IdentifyDriver(user: Option<User>, drivers: Option<seq<Domiciliario>>)
      modifies this`currentDriverId
      ensures user.Some? && drivers.Some? && FindFirst(drivers.value, NamedAs(user.value.displayName)).Some? ==>
        var k := FindFirst(drivers.value, NamedAs(user.value.displayName)).value;
        currentDriverId == drivers.value[k].idDomiciliario
        && NameKey(FullName(drivers.value[k])) == NameKey(user.value.displayName)
      ensures !(user.Some? && drivers.Some? && FindFirst(drivers.value, NamedAs(user.value.displayName)).Some?) ==>
        currentDriverId == old(currentDriverId)
    {
      if user.Some? && drivers.Some? {
        var found := FindFirst(drivers.value, NamedAs(user.value.displayName));
        if found.Some? {
          currentDriverId := drivers.value[found.value].idDomiciliario;
        }
      }
    }

    /** The orders the panel lists for the current driver. */
    function Orders(orders: Option<seq<Pedido>>): seq<Pedido>
      reads this
    {
      MyOrders(orders, currentDriverId)
    }
  }

  // ---------------------------------------------------------------------------
  // myOrders and the counters
  // ---------------------------------------------------------------------------

  function AssignedTo(driverId: Option<int>): Pedido -> bool {
    (o: Pedido) => o.idDomiciliario == driverId
  }

  function NotWithdrawn(): Pedido -> bool {
    (o: Pedido) => o.estado != Borrado && o.estado != Cancelado
  }

  function Undelivered(): Pedido -> bool {
    (o: Pedido) => o.estado != Entregado
  }

  function Delivered(): Pedido -> bool {
    (o: Pedido) => o.estado == Entregado
  }

  /** `myOrders`: nothing until the orders arrive and a driver is known;
      then the driver's orders that are neither deleted nor cancelled, the
      undelivered ones first, each group newest first. This is the order the
      page's comparator defines (delivered last, then `idPedido`
      descending), written as the two groups it separates. */
  function MyOrders(orders: Option<seq<Pedido>>, driverId: Option<int>): seq<Pedido> {
    if orders.None? || !Truthy(driverId) then []
    else
      var mine := Filter(Filter(orders.value, AssignedTo(driverId)), NotWithdrawn());
      SortBy(Filter(mine, Undelivered()), NewestFirst()) + SortBy(Filter(mine, Delivered()), NewestFirst())
  }

  /** Without an identified driver the panel lists nothing. */
  lemma NoDriverNoOrders(orders: Option<seq<Pedido>>, driverId: Option<int>)
    requires !Truthy(driverId)
    ensures MyOrders(orders, driverId) == []
  {
  }

  /** An order is listed iff it is one of the driver's loaded orders and is
      neither deleted nor cancelled. */
  lemma MyOrdersMember(orders: Option<seq<Pedido>>, driverId: Option<int>, o: Pedido)
    ensures o in MyOrders(orders, driverId) <==>
      orders.Some? && Truthy(driverId) && o in orders.value
      && o.idDomiciliario == driverId && o.estado != Borrado && o.estado != Cancelado
  {
    if orders.Some? && Truthy(driverId) {
      var theirs := Filter(orders.value, AssignedTo(driverId));
      var mine := Filter(theirs, NotWithdrawn());
      SortByMembership(Filter(mine, Undelivered()), NewestFirst(), o);
      SortByMembership(Filter(mine, Delivered()), NewestFirst(), o);
      FilterMember(mine, Undelivered(), o);
      FilterMember(mine, Delivered(), o);
      FilterMember(theirs, NotWithdrawn(), o);
      FilterMember(orders.value, AssignedTo(driverId), o);
    }
  }

  /** Undelivered orders, newest first, followed by delivered orders, newest
      first: delivered orders come last and ids descend within each group. */
  lemma TwoGroupOrder(u: seq<Pedido>, d: seq<Pedido>)
    requires forall i :: 0 <= i < |u| ==> u[i].estado != Entregado
    requires forall i :: 0 <= i < |d| ==> d[i].estado == Entregado
    requires SortedBy(u, NewestFirst()) && SortedBy(d, NewestFirst())
    ensures var r := u + d;
      && (forall i, j :: 0 <= i < j < |r| && r[i].estado == Entregado ==> r[j].estado == Entregado)
      && (forall i, j :: 0 <= i < j < |r| && (r[i].estado == Entregado <==> r[j].estado == Entregado) ==>
            IdOrZero(r[i].idPedido) >= IdOrZero(r[j].idPedido))
  {
    var r := u + d;
    forall i, j | 0 <= i < j < |r| && (r[i].estado == Entregado <==> r[j].estado == Entregado)
      ensures IdOrZero(r[i].idPedido) >= IdOrZero(r[j].idPedido)
    {
      if j < |u| {
        assert NewestFirst()(u[i]) <= NewestFirst()(u[j]);
      } else {
        assert i >= |u|;
        assert NewestFirst()(d[i - |u|]) <= NewestFirst()(d[j - |u|]);
      }
    }
  }

  /** Every order of a sorted group passes the group's test. */
  lemma SortedGroupMember(s: seq<Pedido>, group: Pedido -> bool, o: Pedido)
    requires o in SortBy(Filter(s, group), NewestFirst())
    ensures group(o) && o in s
  {
    SortByMembership(Filter(s, group), NewestFirst(), o);
    FilterMember(s, group, o);
  }

  /** Delivered orders come last and ids descend within each group. */
  lemma MyOrdersOrder(orders: Option<seq<Pedido>>, driverId: Option<int>)
    ensures var r := MyOrders(orders, driverId);
      && (forall i, j :: 0 <= i < j < |r| && r[i].estado == Entregado ==> r[j].estado == Entregado)
      && (forall i, j :: 0 <= i < j < |r| && (r[i].estado == Entregado <==> r[j].estado == Entregado) ==>
            IdOrZero(r[i].idPedido) >= IdOrZero(r[j].idPedido))
  {
    if orders.Some? && Truthy(driverId) {
      var mine := Filter(Filter(orders.value, AssignedTo(driverId)), NotWithdrawn());
      var u := SortBy(Filter(mine, Undelivered()), NewestFirst());
      var d := SortBy(Filter(mine, Delivered()), NewestFirst());
      assert MyOrders(orders, driverId) == u + d;
      forall i | 0 <= i < |u|
        ensures u[i].estado != Entregado
      {
        SortedGroupMember(mine, Undelivered(), u[i]);
      }
      forall i | 0 <= i < |d|
        ensures d[i].estado == Entregado
      {
        SortedGroupMember(mine, Delivered(), d[i]);
      }
      TwoGroupOrder(u, d);
    }
  }

  /** The panel lists exactly the driver's orders that are neither deleted
      nor cancelled; every undelivered order comes before every delivered
      one; and within each group order ids descend. */
  lemma MyOrdersListing(orders: Option<seq<Pedido>>, driverId: Option<int>)
    ensures var r := MyOrders(orders, driverId);
      && (forall o :: o in r <==>
            orders.Some? && Truthy(driverId) && o in orders.value
            && o.idDomiciliario == driverId && o.estado != Borrado && o.estado != Cancelado)
      && (forall i, j :: 0 <= i < j < |r| && r[i].estado == Entregado ==> r[j].estado == Entregado)
      && (forall i, j :: 0 <= i < j < |r| && (r[i].estado == Entregado <==> r[j].estado == Entregado) ==>
            IdOrZero(r[i].idPedido) >= IdOrZero(r[j].idPedido))
  {
    forall o
      ensures o in MyOrders(orders, driverId) <==>
        orders.Some? && Truthy(driverId) && o in orders.value
        && o.idDomiciliario == driverId && o.estado != Borrado && o.estado != Cancelado
    {
      MyOrdersMember(orders, driverId, o);
    }
    MyOrdersOrder(orders, driverId);
  }

  /** The "Pendientes" counter. */
  function PendingCount(r: seq<Pedido>): nat {
    |Filter(r, Undelivered())|
  }

  /** The "Entregados" counter. */
  function DeliveredCount(r: seq<Pedido>): nat {
    |Filter(r, Delivered())|
  }

  /** The two counters always add up to the number of listed orders. */
  lemma CountersCoverList(r: seq<Pedido>)
    ensures PendingCount(r) + DeliveredCount(r) == |r|
  {
    FilterPartition(r, Undelivered(), Delivered());
  }

  /** Delivering a listed undelivered order moves one unit from
      "Pendientes" to "Entregados". */
  lemma DeliveringMovesCounters(r: seq<Pedido>, k: nat)
    requires k < |r| && r[k].estado != Entregado
    ensures var r' := r[k := r[k].(estado := Entregado)];
      PendingCount(r') == PendingCount(r) - 1 && DeliveredCount(r') == DeliveredCount(r) + 1
  {
    var x := r[k];
    var y := x.(estado := Entregado);
    var a, b := r[..k], r[k + 1..];
    assert r == a + [x] + b;
    assert r[k := y] == a + [y] + b;
    FilterAroundOne(a, x, b, Undelivered());
    FilterAroundOne(a, x, b, Delivered());
    FilterAroundOne(a, y, b, Undelivered());
    FilterAroundOne(a, y, b, Delivered());
  }

  /** The "Confirmar Entrega" button is shown for every order not yet
      delivered. */
  predicate ShowsDeliverButton(o: Pedido) {
    o.estado != Entregado
  }

  /** `handleMarkDelivered`: with the user's confirmation the order is set to
      ENTREGADO; without it nothing is sent. */
  function MarkDeliveredRequest(orderId: int, confirmed: bool): (r: Option<StatusChange>)
    ensures r.Some? <==> confirmed
    ensures r.Some? ==> r.value.id == orderId && r.value.estado == Entregado
  {
    if confirmed then Some(StatusChange(orderId, Entregado)) else None
  }

  /** Once the change is applied, the order shows no button any more. */
  lemma DeliveredOrderLosesButton(o: Pedido, confirmed: bool)
    requires MarkDeliveredRequest(IdOrZero(o.idPedido), confirmed).Some?
    ensures !ShowsDeliverButton(o.(estado := MarkDeliveredRequest(IdOrZero(o.idPedido), confirmed).value.estado))
  {
  }
}
