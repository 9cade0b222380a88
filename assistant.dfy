/** The assistant's order desk (src/pages/Assistant.tsx): the map telling
    which drivers are out on a delivery, the names shown for clients and
    drivers, the buttons each order state offers, the status changes and the
    driver assignment they send, and the filtered, newest-first order list.
    The page's React state (search, status filter, assignment modal) is the
    class `Desk`. */
module Assistant {
  import opened Common
  import opened Seqs
  import opened Types

  // ---------------------------------------------------------------------------
  // driverLoadMap
  // ---------------------------------------------------------------------------

  /** An order that keeps its driver busy: it names a driver and has been
      accepted or sent out. */
  predicate KeepsDriverBusy(o: Pedido) {
    Truthy(o.idDomiciliario) && (o.estado == Aceptado || o.estado == Enviado)
  }

  /** Some order of `os` keeps driver `id` busy. */
  predicate BusyIn(os: seq<Pedido>, id: int) {
    exists i :: 0 <= i < |os| && KeepsDriverBusy(os[i]) && os[i].idDomiciliario == Some(id)
  }

  /** `id` is the non-zero id of some driver of `ds`. */
  predicate DriverOnFile(ds: seq<Domiciliario>, id: int) {
    id != 0 && exists j :: 0 <= j < |ds| && ds[j].idDomiciliario == Some(id)
  }

  /** `driverLoadMap`: empty until both lists have arrived; then one key per
      driver with a non-zero id, mapped to whether some accepted or sent order
      is assigned to that driver. */
  method DriverLoadMap(orders: Option<seq<Pedido>>, drivers: Option<seq<Domiciliario>>)
    returns (load: map<int, bool>)
    ensures orders.None? || drivers.None? ==> load == map[]
    ensures orders.Some? && drivers.Some? ==>
      forall id :: id in load <==> DriverOnFile(drivers.value, id)
    ensures orders.Some? && drivers.Some? ==>
      forall id :: id in load ==> (load[id] <==> BusyIn(orders.value, id))
  {
    if orders.None? || drivers.None? {
      return map[];
    }
    var os, ds := orders.value, drivers.value;
    var busy: set<int> := {};
    var i := 0;
    while i < |os|
      invariant 0 <= i <= |os|
      invariant forall id :: id in busy <==> BusyIn(os[..i], id)
    {
      assert forall k :: 0 <= k < i ==> os[..i + 1][k] == os[..i][k];
      if KeepsDriverBusy(os[i]) {
        busy := busy + {os[i].idDomiciliario.value};
      }
      i := i + 1;
    }
    assert os[..|os|] == os;
    load := map[];
    var j := 0;
    while j < |ds|
      invariant 0 <= j <= |ds|
      invariant forall id :: id in load <==> DriverOnFile(ds[..j], id)
      invariant forall id :: id in load ==> (load[id] <==> id in busy)
    {
      assert forall k :: 0 <= k < j ==> ds[..j + 1][k] == ds[..j][k];
      if Truthy(ds[j].idDomiciliario) {
        var id := ds[j].idDomiciliario.value;
        load := load[id := id in busy];
      }
      j := j + 1;
    }
    assert ds[..|ds|] == ds;
  }

  /** The drivers the assignment modal lists: active and with an id. */
  function IsAvailable(): Domiciliario -> bool {
    (d: Domiciliario) => d.estado && Truthy(d.idDomiciliario)
  }

  function AvailableDrivers(ds: seq<Domiciliario>): seq<Domiciliario> {
    Filter(ds, IsAvailable())
  }

  /** Every driver the modal lists is active, has an id and is a key of the
      load map, so its "OCUPADO"/"DISPONIBLE" label comes from the map; and
      every active driver with an id is listed. */
  lemma AvailableDriversAreOnFile(ds: seq<Domiciliario>)
    ensures forall d :: d in AvailableDrivers(ds) <==> d in ds && d.estado && Truthy(d.idDomiciliario)
    ensures forall d :: d in AvailableDrivers(ds) ==> DriverOnFile(ds, d.idDomiciliario.value)
  {
    forall d
      ensures d in AvailableDrivers(ds) <==> d in ds && d.estado && Truthy(d.idDomiciliario)
    {
      FilterMember(ds, IsAvailable(), d);
    }
  }

  // ---------------------------------------------------------------------------
  // getClientName / getDriverName
  // ---------------------------------------------------------------------------

  function HasUserId(id: int): Usuario -> bool {
    (u: Usuario) => u.idUsuario == Some(id)
  }

  function HasDriverId(id: int): Domiciliario -> bool {
    (d: Domiciliario) => d.idDomiciliario == Some(id)
  }

  /** `getClientName`: the first user with that id as "nombre apellido", or
      "Cliente #id" when the users have not arrived or none has the id. */
  function ClientName(users: Option<seq<Usuario>>, id: int): (name: string)
    ensures (users.None? || forall j :: 0 <= j < |users.value| ==> users.value[j].idUsuario != Some(id))
      ==> name == "Cliente #" + IntToString(id)
    ensures users.Some? && FindFirst(users.value, HasUserId(id)).Some? ==>
      var u := users.value[FindFirst(users.value, HasUserId(id)).value];
      u.idUsuario == Some(id) && name == u.nombre + " " + u.apellido
  {
    var k := if users.Some? then FindFirst(users.value, HasUserId(id)) else None;
    if k.Some? then users.value[k.value].nombre + " " + users.value[k.value].apellido
    else "Cliente #" + IntToString(id)
  }

  /** Lower-casing leaves a string of digits as it is. */
  lemma LowerDigits(s: string)
    requires AllDigits(s)
    ensures ToLower(s) == s
  {
    var r := ToLower(s);
    forall i | 0 <= i < |s|
      ensures r[i] == s[i]
    {
      assert !IsUpperLetter(s[i]);
    }
  }

  /** An order of an unknown client is still found by searching for the
      client's id, since the fallback name "Cliente #id" contains it. */
  lemma UnknownClientFoundById(users: Option<seq<Usuario>>, id: nat)
    requires users.None? || forall j :: 0 <= j < |users.value| ==> users.value[j].idUsuario != Some(id)
    ensures ContainsIgnoreCase(ClientName(users, id), IntToString(id))
  {
    var digits := IntToString(id);
    var name := ClientName(users, id);
    var prefix := "Cliente #";
    assert name == prefix + digits;
    LowerDigits(digits);
    var lowered := ToLower(name);
    assert lowered[|prefix|..][..|digits|] == digits;
    ContainsIffOccurs(lowered, digits);
  }

  /** `getDriverName`: no name for an id that is missing, 0 or 1, nor for an
      id no listed driver has; otherwise "nombre apellido" of the first
      driver with that id. */
  function DriverName(drivers: Option<seq<Domiciliario>>, id: Option<int>): (name: Option<string>)
    ensures name.Some? <==>
      Truthy(id) && id.value != 1 && drivers.Some?
      && exists j :: 0 <= j < |drivers.value| && drivers.value[j].idDomiciliario == id
    ensures name.Some? ==>
      var k := FindFirst(drivers.value, HasDriverId(id.value)).value;
      drivers.value[k].idDomiciliario == id && name.value == drivers.value[k].nombre + " " + drivers.value[k].apellido
  {
    if !Truthy(id) || id.value == 1 || drivers.None? then None
    else match FindFirst(drivers.value, HasDriverId(id.value))
      case Some(k) => Some(drivers.value[k].nombre + " " + drivers.value[k].apellido)
      case None => None
  }

  // ---------------------------------------------------------------------------
  // The buttons each state offers, and the status changes they send
  // ---------------------------------------------------------------------------

  datatype Action = Accept | AssignDriver | Dispatch | CancelOrder

  /** The action buttons of an order row, left to right, given its state and
      whether a driver name is shown for it. */
  function OfferedActions(estado: string, hasDriver: bool): (r: seq<Action>)
    ensures Accept in r <==> estado == Pendiente
    ensures AssignDriver in r <==> estado == Aceptado && !hasDriver
    ensures Dispatch in r <==> estado == Aceptado && hasDriver
    ensures CancelOrder in r <==> estado == Pendiente || estado == Aceptado || estado == Enviado
    ensures |r| <= 2
  {
    if estado == Pendiente then [Accept, CancelOrder]
    else if estado == Aceptado then
      if hasDriver then [Dispatch, CancelOrder] else [AssignDriver, CancelOrder]
    else if estado == Enviado then [CancelOrder]
    else []
  }

  /** The buttons of an order row on the page. */
  function OrderActions(o: Pedido, drivers: Option<seq<Domiciliario>>): seq<Action> {
    OfferedActions(o.estado, DriverName(drivers, o.idDomiciliario).Some?)
  }

  /** The state a button asks for; "Asignar" opens the modal instead. */
  function TargetStatus(a: Action): Option<string> {
    match a
    case Accept => Some(Aceptado)
    case AssignDriver => None
    case Dispatch => Some(Enviado)
    case CancelOrder => Some(Cancelado)
  }

  /** How far along an order is; delivered, cancelled and deleted orders are
      at the end. */
  function StatusRank(estado: string): nat {
    if estado == Pendiente then 0
    else if estado == Aceptado then 1
    else if estado == Enviado then 2
    else 3
  }

  /** Every button moves an order strictly forward, and an order at the end
      (delivered, cancelled, deleted or unknown) offers no button at all. */
  lemma ActionsMoveForward(estado: string, hasDriver: bool)
    ensures forall a :: a in OfferedActions(estado, hasDriver) && TargetStatus(a).Some? ==>
      StatusRank(TargetStatus(a).value) > StatusRank(estado)
    ensures StatusRank(estado) == 3 ==> OfferedActions(estado, hasDriver) == []
  {
  }

  /** `handleStatusChange`: a change to CANCELADO is sent only once the user
      confirms; every other change is sent at once. */
  function StatusChangeRequest(orderId: int, newStatus: string, confirmed: bool): (r: Option<StatusChange>)
    ensures r.None? <==> newStatus == Cancelado && !confirmed
    ensures r.Some? ==> r.value.id == orderId && r.value.estado == newStatus
  {
    if newStatus == Cancelado && !confirmed then None
    else Some(StatusChange(orderId, newStatus))
  }

  // ---------------------------------------------------------------------------
  // Assignment
  // ---------------------------------------------------------------------------

  /** The order `handleConfirmAssign` sends: the flat driver id and the nested
      one both set to the chosen driver, every other field as it was. */
  function AssignedOrder(o: Pedido, driverId: int): (r: Pedido)
    ensures r.idDomiciliario == Some(driverId) && r.nestedDriverId == Some(driverId)
    ensures r.(idDomiciliario := o.idDomiciliario, nestedDriverId := o.nestedDriverId) == o
  {
    o.(idDomiciliario := Some(driverId), nestedDriverId := Some(driverId))
  }

  /** Assigning a listed driver (other than 1) to an accepted order replaces
      the "Asignar" button with "Despachar". */
  lemma AssignmentEnablesDispatch(o: Pedido, drivers: seq<Domiciliario>, k: nat)
    requires o.estado == Aceptado
    requires k < |drivers| && Truthy(drivers[k].idDomiciliario) && drivers[k].idDomiciliario != Some(1)
    ensures var r := OrderActions(AssignedOrder(o, drivers[k].idDomiciliario.value), Some(drivers));
      Dispatch in r && AssignDriver !in r
  {
    var d := drivers[k].idDomiciliario.value;
    assert DriverName(Some(drivers), Some(d)).Some?;
  }

  /** Driver 1 is never shown: an accepted order assigned to driver 1 still
      offers "Asignar" and not "Despachar", whoever driver 1 is. */
  lemma DriverOneCountsAsUnassigned(o: Pedido, drivers: Option<seq<Domiciliario>>)
    requires o.estado == Aceptado
    ensures DriverName(drivers, Some(1)).None?
    ensures var r := OrderActions(AssignedOrder(o, 1), drivers);
      AssignDriver in r && Dispatch !in r
  {
  }

  /** Once the assignment of an accepted order is saved, the driver counts as
      busy in the next load map. */
  lemma AssignmentMakesDriverBusy(os: seq<Pedido>, k: nat, driverId: int)
    requires k < |os| && os[k].estado == Aceptado && driverId != 0
    ensures BusyIn(os[k := AssignedOrder(os[k], driverId)], driverId)
  {
    var os' := os[k := AssignedOrder(os[k], driverId)];
    assert KeepsDriverBusy(os'[k]) && os'[k].idDomiciliario == Some(driverId);
  }

  // ---------------------------------------------------------------------------
  // filteredOrders
  // ---------------------------------------------------------------------------

  /** The desk never shows deleted or delivered orders. */
  function OnDesk(): Pedido -> bool {
    (o: Pedido) => o.estado != Borrado && o.estado != Entregado
  }

  /** The status filter; "TODOS" lets everything through. */
  function HasStatus(filterStatus: string): Pedido -> bool {
    (o: Pedido) => filterStatus == "TODOS" || o.estado == filterStatus
  }

  /** The search: the order id's digits contain the term, or the client's
      name contains it in any case. An order without an id matches only by
      name. */
  function MatchesSearch(users: Option<seq<Usuario>>, term: string): Pedido -> bool {
    (o: Pedido) =>
      (o.idPedido.Some? && Contains(IntToString(o.idPedido.value), term))
      || ContainsIgnoreCase(ClientName(users, o.idUsuario), term)
  }

  /** `filteredOrders`: the three filters, newest first. */
  function FilteredOrders(orders: Option<seq<Pedido>>, users: Option<seq<Usuario>>,
                          filterStatus: string, term: string): seq<Pedido> {
    var os := if orders.Some? then orders.value else [];
    SortBy(
      Filter(Filter(Filter(os, OnDesk()), HasStatus(filterStatus)), MatchesSearch(users, term)),
      NewestFirst())
  }

  /** The desk lists exactly the loaded orders that are neither deleted nor
      delivered, have the chosen status (any, for "TODOS") and match the
      search, with order ids descending. */
  lemma DeskListing(orders: Option<seq<Pedido>>, users: Option<seq<Usuario>>,
                    filterStatus: string, term: string)
    ensures var r := FilteredOrders(orders, users, filterStatus, term);
      var os := if orders.Some? then orders.value else [];
      && |r| <= |os|
      && (forall o :: o in r <==>
            o in os && OnDesk()(o) && HasStatus(filterStatus)(o) && MatchesSearch(users, term)(o))
      && (forall i, j :: 0 <= i < j < |r| ==> IdOrZero(r[i].idPedido) >= IdOrZero(r[j].idPedido))
      && (forall o :: multiset(r)[o] ==
            if OnDesk()(o) && HasStatus(filterStatus)(o) && MatchesSearch(users, term)(o)
            then multiset(os)[o] else 0)
  {
    var os := if orders.Some? then orders.value else [];
    var a := Filter(os, OnDesk());
    var b := Filter(a, HasStatus(filterStatus));
    var c := Filter(b, MatchesSearch(users, term));
    var r := FilteredOrders(orders, users, filterStatus, term);
    forall o
      ensures o in r <==>
        o in os && OnDesk()(o) && HasStatus(filterStatus)(o) && MatchesSearch(users, term)(o)
    {
      SortByMembership(c, NewestFirst(), o);
      FilterMember(b, MatchesSearch(users, term), o);
      FilterMember(a, HasStatus(filterStatus), o);
      FilterMember(os, OnDesk(), o);
    }
    forall o
      ensures multiset(r)[o] ==
        if OnDesk()(o) && HasStatus(filterStatus)(o) && MatchesSearch(users, term)(o)
        then multiset(os)[o] else 0
    {
      FilterCount(b, MatchesSearch(users, term), o);
      FilterCount(a, HasStatus(filterStatus), o);
      FilterCount(os, OnDesk(), o);
    }
    assert SortedBy(r, NewestFirst());
  }

  // ---------------------------------------------------------------------------
  // The page state
  // ---------------------------------------------------------------------------

  class Desk {
    var searchTerm: string
    var filterStatus: string
    var isModalOpen: bool
    var orderToAssign: Option<Pedido>

    /** No search, every status, the modal closed and no order picked. */
    constructor()
      ensures searchTerm == "" && filterStatus == "TODOS"
      ensures !isModalOpen && orderToAssign.None?
    {
      searchTerm := "";
      filterStatus := "TODOS";
      isModalOpen := false;
      orderToAssign := None;
    }

    method SetSearchTerm(term: string)
      modifies this`searchTerm
      ensures searchTerm == term
    {
      searchTerm := term;
    }

    method SetFilterStatus(status: string)
      modifies this`filterStatus
      ensures filterStatus == status
    {
      filterStatus := status;
    }

    /** `openAssignModal` */
    method OpenAssignModal(order: Pedido)
      modifies this`orderToAssign, this`isModalOpen
      ensures orderToAssign == Some(order) && isModalOpen
    {
      orderToAssign := Some(order);
      isModalOpen := true;
    }

    /** The modal's "Cancelar": it closes, and the picked order stays picked. */
    method CloseAssignModal()
      modifies this`isModalOpen
      ensures !isModalOpen
    {
      isModalOpen := false;
    }

    /** `handleConfirmAssign`: with no picked order nothing is sent and
        nothing changes; otherwise the assigned order is sent, and only when
        the server accepts it does the modal close and the pick clear. */
    method HandleConfirmAssign(driverId: int, updateSucceeds: bool) returns (sent: Option<Pedido>)
      modifies this`isModalOpen, this`orderToAssign
      ensures old(orderToAssign).None? ==> sent.None?
      ensures old(orderToAssign).Some? ==> sent == Some(AssignedOrder(old(orderToAssign).value, driverId))
      ensures if sent.Some? && updateSucceeds then !isModalOpen && orderToAssign.None?
              else isModalOpen == old(isModalOpen) && orderToAssign == old(orderToAssign)
    {
      if orderToAssign.None? {
        return None;
      }
      sent := Some(AssignedOrder(orderToAssign.value, driverId));
      if updateSucceeds {
        isModalOpen := false;
        orderToAssign := None;
      }
    }

    /** The rows the page shows with the current search and status filter. */
    function Rows(orders: Option<seq<Pedido>>, users: Option<seq<Usuario>>): seq<Pedido>
      reads this
    {
      FilteredOrders(orders, users, filterStatus, searchTerm)
    }
  }
}
