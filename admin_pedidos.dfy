/** The back-office order editor (src/components/admin/AdminPedidos.tsx):
    the comma-separated product id field, the delete/restore toggle, the
    submit that builds the order payload, and the searchable list. The
    page's React state is the class `OrderEditor`; the product summary of
    the editor uses `Driver.GroupProductIds`. */
module AdminPedidos {
  import opened Common
  import opened Seqs
  import opened Types

  // ---------------------------------------------------------------------------
  // handleProductListChange and the text shown in the field
  // ---------------------------------------------------------------------------

  /** One piece trimmed and read with `Number`, when that is a number
      greater than 0. */
  function PieceId(piece: string): (r: Option<nat>)
    ensures r.Some? ==> r.value > 0
  {
    var n := ParseNumber(Trim(piece));
    if n.Some? && n.value > 0 then n else None
  }

  /** Each piece trimmed and read with `Number`, keeping the values that are
      numbers greater than 0 (the `map` and the `filter` in one pass). */
  function ParsePieces(pieces: seq<string>): (ids: seq<nat>)
    ensures |ids| <= |pieces|
    ensures forall i :: 0 <= i < |ids| ==> ids[i] > 0
  {
    if pieces == [] then []
    else
      var rest := ParsePieces(pieces[1..]);
      match PieceId(pieces[0])
      case None => rest
      case Some(n) =>
        assert forall i :: 1 <= i <= |rest| ==> ([n] + rest)[i] == rest[i - 1];
        [n] + rest
  }

  /** One step of `ParsePieces`. */
  lemma ParsePiecesCons(piece: string, rest: seq<string>)
    ensures ParsePieces([piece] + rest)
      == (if PieceId(piece).Some? then [PieceId(piece).value] else []) + ParsePieces(rest)
  {
    assert ([piece] + rest)[1..] == rest;
  }

  /** `handleProductListChange`: the ids typed in the field. */
  function ParseProductList(text: string): (ids: seq<nat>)
    ensures forall i :: 0 <= i < |ids| ==> ids[i] > 0
  {
    ParsePieces(Split(text, ','))
  }

  /** `currentProductList.join(", ")`: the text the field shows. */
  function JoinIds(ids: seq<int>): string {
    Join(seq(|ids|, i requires 0 <= i < |ids| => IntToString(ids[i])), ", ")
  }

  /** Two first pieces that trim to the same text parse the same. */
  lemma ParsePiecesSameHead(p: string, q: string, rest: seq<string>)
    requires Trim(p) == Trim(q)
    ensures ParsePieces([p] + rest) == ParsePieces([q] + rest)
  {
    assert ([p] + rest)[1..] == rest;
    assert ([q] + rest)[1..] == rest;
  }

  /** A space in front of the text makes no difference. */
  lemma LeadingSpaceIgnored(text: string)
    ensures ParseProductList([' '] + text) == ParseProductList(text)
  {
    var pieces := Split(text, ',');
    SplitLeadingChar(' ', text, ',');
    TrimLeadingSpace(pieces[0]);
    ParsePiecesSameHead([' '] + pieces[0], pieces[0], pieces[1..]);
    assert [pieces[0]] + pieces[1..] == pieces;
  }

  /** The text of two or more ids: the first, a comma and a space, then the rest. */
  lemma JoinIdsCons(ids: seq<int>)
    requires |ids| >= 2
    ensures JoinIds(ids) == IntToString(ids[0]) + [','] + ([' '] + JoinIds(ids[1..]))
  {
    var parts := seq(|ids|, i requires 0 <= i < |ids| => IntToString(ids[i]));
    var rest := ids[1..];
    assert parts[1..] == seq(|rest|, i requires 0 <= i < |rest| => IntToString(rest[i]));
  }

  /** A positive id's text in front of further pieces contributes that id. */
  lemma ParseOneIdCons(n: nat, tail: seq<string>)
    requires n > 0
    ensures ParsePieces([NatToString(n)] + tail) == [n] + ParsePieces(tail)
  {
    var s := NatToString(n);
    assert !IsSpace(s[0]) && !IsSpace(s[|s| - 1]);
    TrimNoOuterSpace(s);
    ParseNumberOfNatToString(n);
    assert ([s] + tail)[1..] == tail;
  }

  /** The empty list shows as an empty field, which parses to no ids. */
  lemma RoundTripEmpty()
    ensures ParseProductList(JoinIds([])) == []
  {
    assert JoinIds([]) == [];
    assert Split([], ',') == [[]];
    assert Trim([]) == [];
    var empty: seq<string> := [[]];
    assert empty[1..] == [];
  }

  /** An id's digits hold no comma. */
  lemma NoCommaInId(n: nat)
    ensures forall k :: 0 <= k < |NatToString(n)| ==> NatToString(n)[k] != ','
  {
    assert AllDigits(NatToString(n));
  }

  /** A single id shows as its digits, which parse back to it. */
  lemma RoundTripOne(n: nat)
    requires n > 0
    ensures ParseProductList(JoinIds([n])) == [n]
  {
    var head := NatToString(n);
    var ids: seq<int> := [n];
    var parts := seq(|ids|, i requires 0 <= i < |ids| => IntToString(ids[i]));
    assert parts == [head];
    NoCommaInId(n);
    SplitNoSep(head, ',');
    ParseOneIdCons(n, []);
    var single: seq<string> := [head];
    assert single + [] == single;
    calc {
      ParseProductList(JoinIds(ids));
      ParsePieces(Split(head, ','));
      ParsePieces(single);
      [n];
    }
  }

  /** The step of the round trip: an id in front of a list that parses back. */
  lemma RoundTripCons(n: nat, rest: seq<int>)
    requires n > 0 && rest != []
    requires ParseProductList(JoinIds(rest)) == rest
    ensures ParseProductList(JoinIds([n] + rest)) == [n] + rest
  {
    var ids := [n] + rest;
    assert ids[1..] == rest;
    var head := NatToString(n);
    var restText := JoinIds(rest);
    JoinIdsCons(ids);
    assert JoinIds(ids) == head + [','] + ([' '] + restText);
    NoCommaInId(n);
    SplitAtFirstSep(head, ',', [' '] + restText);
    var tail := Split([' '] + restText, ',');
    ParseOneIdCons(n, tail);
    LeadingSpaceIgnored(restText);
    calc {
      ParseProductList(JoinIds(ids));
      ParsePieces(Split(head + [','] + ([' '] + restText), ','));
      ParsePieces([head] + tail);
      [n] + ParsePieces(tail);
      [n] + ParseProductList([' '] + restText);
      [n] + ParseProductList(restText);
    }
  }

  /** Round trip: the field's text for a list of positive ids parses back to
      the same list. */
  lemma {:induction false} ParseJoinRoundTrip(ids: seq<int>)
    requires forall i :: 0 <= i < |ids| ==> ids[i] > 0
    ensures ParseProductList(JoinIds(ids)) == ids
    decreases |ids|
  {
    if ids == [] {
      RoundTripEmpty();
    } else {
      var n, rest := ids[0], ids[1..];
      assert ids == [n] + rest;
      if rest == [] {
        RoundTripOne(n);
      } else {
        assert forall i :: 0 <= i < |rest| ==> rest[i] == ids[i + 1];
        ParseJoinRoundTrip(rest);
        RoundTripCons(n, rest);
      }
    }
  }

  /** Splitting a text with a comma added at the end gives one more, empty, piece. */
  lemma {:induction false} SplitTrailingComma(text: string)
    ensures Split(text + [','], ',') == Split(text, ',') + [[]]
  {
    if text == [] {
      SplitLeadingSep([], ',');
      assert [','] + [] == text + [','];
    } else {
      var c, b := text[0], text[1..];
      SplitTrailingComma(b);
      assert text == [c] + b;
      assert text + [','] == [c] + (b + [',']);
      var pieces := Split(b, ',');
      if c == ',' {
        SplitLeadingSep(b, ',');
        SplitLeadingSep(b + [','], ',');
      } else {
        var head, tail := pieces[0], pieces[1..];
        assert pieces == [head] + tail;
        assert pieces + [[]] == [head] + (tail + [[]]);
        SplitLeadingChar(c, b, ',');
        SplitLeadingChar(c, b + [','], ',');
      }
    }
  }

  /** An empty piece at the end adds nothing: `Number("")` is 0, which the
      filter drops. */
  lemma {:induction false} ParsePiecesTrailingEmpty(pieces: seq<string>)
    ensures ParsePieces(pieces + [[]]) == ParsePieces(pieces)
  {
    assert Trim([]) == [];
    assert PieceId([]).None?;
    if pieces == [] {
      ParsePiecesCons([], []);
      assert [[]] + [] == pieces + [[]];
    } else {
      var head, tail := pieces[0], pieces[1..];
      ParsePiecesTrailingEmpty(tail);
      assert pieces == [head] + tail;
      assert pieces + [[]] == [head] + (tail + [[]]);
      ParsePiecesCons(head, tail);
      ParsePiecesCons(head, tail + [[]]);
    }
  }

  /** The field shows the parsed list, not what was typed: a comma typed at
      the end parses to the same list, so the field is redrawn without it
      and a second id cannot be started by typing a comma. */
  lemma TypedCommaIsDropped(ids: seq<int>)
    requires forall i :: 0 <= i < |ids| ==> ids[i] > 0
    ensures ParseProductList(JoinIds(ids) + [',']) == ids
    ensures JoinIds(ParseProductList(JoinIds(ids) + [','])) == JoinIds(ids)
  {
    SplitTrailingComma(JoinIds(ids));
    ParsePiecesTrailingEmpty(Split(JoinIds(ids), ','));
    ParseJoinRoundTrip(ids);
  }

  // ---------------------------------------------------------------------------
  // handleChangeStatus
  // ---------------------------------------------------------------------------

  /** The delete/restore toggle: a deleted order goes back to PENDIENTE, any
      other order is deleted. */
  function ToggledStatus(estado: string): (r: string)
    ensures r != estado
    ensures r == Pendiente <==> estado == Borrado
    ensures r == Borrado <==> estado != Borrado
  {
    if estado == Borrado then Pendiente else Borrado
  }

  /** `handleChangeStatus`: nothing is sent unless the user confirms. */
  function ToggleRequest(id: int, estadoActual: string, confirmed: bool): (r: Option<StatusChange>)
    ensures r.Some? <==> confirmed
    ensures r.Some? ==> r.value.id == id && r.value.estado == ToggledStatus(estadoActual)
  {
    if confirmed then Some(StatusChange(id, ToggledStatus(estadoActual))) else None
  }

  /** Deleting and restoring brings an order back to where it was only if it
      was PENDIENTE (or deleted to begin with): an accepted or sent order
      comes back as PENDIENTE. */
  lemma ToggleTwice(estado: string)
    ensures ToggledStatus(ToggledStatus(estado)) == estado <==> estado == Pendiente || estado == Borrado
  {
  }

  // ---------------------------------------------------------------------------
  // handleSubmit
  // ---------------------------------------------------------------------------

  /** The values of the editor form, as the form hands them over. */
  datatype OrderForm = OrderForm(
    idUsuario: string,
    idDomiciliario: string,
    idAuxiliar: string,
    estado: string,
    nombreSucursal: string,
    fechaPedido: string,
    direccionEntrega: string,
    costoEnvio: string,
    costoPedido: string,
    totalPagar: string)

  /** The body sent to the server. A `None` number is NaN. The last four
      fields are the ids of the nested `domiciliario`, `auxiliar`, `sucursal`
      and `usuario` objects. */
  datatype OrderPayload = OrderPayload(
    idPedido: Option<int>,
    idUsuario: Option<nat>,
    nombreSucursal: string,
    idSucursal: int,
    idAuxiliar: nat,
    idDomiciliario: nat,
    fechaPedido: string,
    direccionEntrega: string,
    costoEnvio: Option<nat>,
    costoPedido: Option<nat>,
    totalPagar: Option<nat>,
    listaDeProductos: seq<int>,
    estado: string,
    nestedDomiciliario: nat,
    nestedAuxiliar: nat,
    nestedSucursal: int,
    nestedUsuario: Option<nat>)

  /** What a submit does: nothing (a warning), an update of an existing order
      followed by a status change when the state was changed, or a creation. */
  datatype SubmitAction =
    | Refused
    | UpdateOrder(id: int, payload: OrderPayload, statusChange: Option<StatusChange>)
    | CreateOrder(payload: OrderPayload)

  predicate Positive(n: Option<nat>) {
    n.Some? && n.value > 0
  }

  /** `editingOrder?.estado || "PENDIENTE"` */
  function OriginalStatus(editing: Option<Pedido>): string {
    if editing.Some? && editing.value.estado != "" then editing.value.estado else Pendiente
  }

  /** The nested ids repeat the flat ones. */
  predicate Mirrored(p: OrderPayload) {
    p.nestedDomiciliario == p.idDomiciliario && p.nestedAuxiliar == p.idAuxiliar
    && p.nestedSucursal == p.idSucursal && p.nestedUsuario == p.idUsuario
  }

  function Payload(form: OrderForm, productList: seq<int>, editing: Option<Pedido>, estado: string): OrderPayload
    requires Positive(ParseNumber(form.idDomiciliario)) && Positive(ParseNumber(form.idAuxiliar))
  {
    var idDom := ParseNumber(form.idDomiciliario).value;
    var idAux := ParseNumber(form.idAuxiliar).value;
    var idUsu := ParseNumber(form.idUsuario);
    var idSuc := if editing.Some? then IdOrZero(editing.value.idSucursal) else 0;
    OrderPayload(
      if editing.Some? then editing.value.idPedido else None,
      idUsu, form.nombreSucursal, idSuc, idAux, idDom, form.fechaPedido, form.direccionEntrega,
      ParseNumber(form.costoEnvio), ParseNumber(form.costoPedido), ParseNumber(form.totalPagar),
      productList, estado, idDom, idAux, idSuc, idUsu)
  }

  /** `handleSubmit`. A driver and an assistant are required. Editing an
      order that has an id updates it keeping its original state, then sends
      the upper-cased form state as a status change only if it differs; any
      other submit creates an order with the form state. Every payload
      carries the current product list and mirrors its ids. */
  function SubmitOrder(form: OrderForm, productList: seq<int>, editing: Option<Pedido>): (r: SubmitAction)
    ensures r.Refused? <==> !Positive(ParseNumber(form.idDomiciliario)) || !Positive(ParseNumber(form.idAuxiliar))
    ensures r.UpdateOrder? <==> !r.Refused? && editing.Some? && Truthy(editing.value.idPedido)
    ensures r.UpdateOrder? ==> r.id == editing.value.idPedido.value && r.payload.estado == OriginalStatus(editing)
    ensures r.UpdateOrder? ==> (r.statusChange.Some? <==> OriginalStatus(editing) != ToUpper(form.estado))
    ensures r.UpdateOrder? && r.statusChange.Some? ==> r.statusChange.value == StatusChange(r.id, ToUpper(form.estado))
    ensures r.CreateOrder? ==> r.payload.estado == ToUpper(form.estado)
    ensures !r.Refused? ==> Mirrored(r.payload) && r.payload.listaDeProductos == productList
    ensures !r.Refused? ==>
      Some(r.payload.idDomiciliario) == ParseNumber(form.idDomiciliario) && Some(r.payload.idAuxiliar) == ParseNumber(form.idAuxiliar)
  {
    var idDom := ParseNumber(form.idDomiciliario);
    var idAux := ParseNumber(form.idAuxiliar);
    var estadoForm := ToUpper(form.estado);
    var estadoOriginal := OriginalStatus(editing);
    if !Positive(idDom) || !Positive(idAux) then Refused
    else if editing.Some? && Truthy(editing.value.idPedido) then
      var id := editing.value.idPedido.value;
      UpdateOrder(id, Payload(form, productList, editing, estadoOriginal),
        if estadoOriginal != estadoForm then Some(StatusChange(id, estadoForm)) else None)
    else
      CreateOrder(Payload(form, productList, editing, estadoForm))
  }

  /** Saving an order without touching its state sends no status change. */
  lemma UnchangedStatusSendsNoChange(form: OrderForm, productList: seq<int>, o: Pedido)
    requires Positive(ParseNumber(form.idDomiciliario)) && Positive(ParseNumber(form.idAuxiliar))
    requires Truthy(o.idPedido) && o.estado != "" && ToUpper(form.estado) == o.estado
    ensures SubmitOrder(form, productList, Some(o)) == UpdateOrder(o.idPedido.value, SubmitOrder(form, productList, Some(o)).payload, None)
  {
  }

  /** The six options of the state select. */
  predicate SelectState(estado: string) {
    estado in {Pendiente, Cancelado, Aceptado, Enviado, Entregado, Borrado}
  }

  /** The options are already upper case, so a picked state is sent as
      picked: a new order gets it, and an edited order gets a status change
      exactly when the pick differs from its state. */
  lemma PickedStateSentAsIs(form: OrderForm, productList: seq<int>, editing: Option<Pedido>)
    requires SelectState(form.estado)
    ensures var r := SubmitOrder(form, productList, editing);
      && (r.CreateOrder? ==> r.payload.estado == form.estado)
      && (r.UpdateOrder? ==> (r.statusChange.Some? <==> OriginalStatus(editing) != form.estado))
  {
    SelectStateIsUpperCase(form.estado);
    UpperStateSentAsIs(form, productList, editing);
  }

  /** The same for any state that upper-cases to itself. */
  lemma UpperStateSentAsIs(form: OrderForm, productList: seq<int>, editing: Option<Pedido>)
    requires ToUpper(form.estado) == form.estado
    ensures var r := SubmitOrder(form, productList, editing);
      && (r.CreateOrder? ==> r.payload.estado == form.estado)
      && (r.UpdateOrder? ==> (r.statusChange.Some? <==> OriginalStatus(editing) != form.estado))
  {
  }

  /** Each option upper-cases to itself. */
  lemma SelectStateIsUpperCase(estado: string)
    requires SelectState(estado)
    ensures ToUpper(estado) == estado
  {
    assert forall i :: 0 <= i < |estado| ==> 'A' <= estado[i] <= 'Z';
    ToUpperFixed(estado);
  }

  // ---------------------------------------------------------------------------
  // The list
  // ---------------------------------------------------------------------------

  /** `fetchData`: the orders newest first, or none when the answer is not a
      list or the request fails. */
  function FetchedOrders(data: Option<seq<Pedido>>): seq<Pedido> {
    if data.Some? then SortBy(data.value, NewestFirst()) else []
  }

  /** `o.idPedido?.toString() || ""` */
  function IdText(id: Option<int>): string {
    if id.Some? then IntToString(id.value) else ""
  }

  /** `filteredOrders`: deleted orders only when asked for; then the id text
      or the branch name (in any case) must contain the search term. */
  function Shows(showDeleted: bool, term: string): Pedido -> bool {
    (o: Pedido) =>
      (showDeleted || o.estado != Borrado)
      && (Contains(IdText(o.idPedido), term) || ContainsIgnoreCase(o.nombreSucursal, term))
  }

  function AdminListing(orders: seq<Pedido>, showDeleted: bool, term: string): seq<Pedido> {
    Filter(orders, Shows(showDeleted, term))
  }

  /** The list holds exactly the fetched orders that pass the filter, never
      a deleted one unless deleted orders are shown, and keeps the
      newest-first order of the fetch. */
  lemma AdminListingShows(data: Option<seq<Pedido>>, showDeleted: bool, term: string)
    ensures var r := AdminListing(FetchedOrders(data), showDeleted, term);
      && (forall o :: o in r <==> data.Some? && o in data.value && Shows(showDeleted, term)(o))
      && (!showDeleted ==> forall i :: 0 <= i < |r| ==> r[i].estado != Borrado)
      && (forall i, j :: 0 <= i < j < |r| ==> IdOrZero(r[i].idPedido) >= IdOrZero(r[j].idPedido))
      && (forall o :: multiset(r)[o] == if data.Some? && Shows(showDeleted, term)(o) then multiset(data.value)[o] else 0)
  {
    var fetched := FetchedOrders(data);
    forall o
      ensures o in AdminListing(fetched, showDeleted, term) <==> data.Some? && o in data.value && Shows(showDeleted, term)(o)
    {
      FilterMember(fetched, Shows(showDeleted, term), o);
      if data.Some? {
        SortByMembership(data.value, NewestFirst(), o);
      }
    }
    FilterKeepsSorted(fetched, Shows(showDeleted, term), NewestFirst());
    var r := AdminListing(fetched, showDeleted, term);
    assert SortedBy(r, NewestFirst());
    forall o
      ensures multiset(r)[o] == if data.Some? && Shows(showDeleted, term)(o) then multiset(data.value)[o] else 0
    {
      FilterCount(fetched, Shows(showDeleted, term), o);
    }
  }

  /** With deleted orders shown and an empty search, the whole fetch is listed. */
  lemma EmptySearchShowsAll(orders: seq<Pedido>)
    ensures AdminListing(orders, true, "") == orders
  {
    forall i | 0 <= i < |orders|
      ensures Shows(true, "")(orders[i])
    {
      ContainsEmpty(IdText(orders[i].idPedido));
    }
    FilterAll(orders, Shows(true, ""));
  }

  // ---------------------------------------------------------------------------
  // The page state
  // ---------------------------------------------------------------------------

  /** Whether setting `editingOrder` from `previous` to `next` fires the
      `[editingOrder]` effect: `null` is identical to `null`, and an order is
      identical to the old one only when it is the same object. */
  function EditingChanged(previous: Option<Pedido>, next: Option<Pedido>, sameObject: bool): (changed: bool)
    requires sameObject ==> next.Some? && previous == next
    ensures next.None? ==> (changed <==> previous.Some?)
    ensures next.Some? ==> (changed <==> !sameObject)
  {
    if next.None? then previous.Some? else !sameObject
  }

  /** What the effect loads: the order's product list, or nothing for a new order. */
  function LoadedProductList(order: Option<Pedido>): (list: seq<int>)
    ensures order.None? ==> list == []
    ensures order.Some? ==> list == order.value.listaDeProductos
  {
    if order.Some? then order.value.listaDeProductos else []
  }

  /** Pressing "Nuevo Pedido", typing "7", cancelling and pressing "Nuevo
      Pedido" again: the effect does not fire the second time, so the new
      form starts with the product 7 of the abandoned one. */
  method NewOrderKeepsTypedProducts() returns (list: seq<int>)
    ensures list == [7]
  {
    var editor := new OrderEditor();
    editor.OpenEditor(None, false);
    editor.HandleProductListChange("7");
    editor.CloseEditor();
    editor.OpenEditor(None, false);
    list := editor.currentProductList;
    RoundTripOne(7);
    assert JoinIds([7]) == "7";
  }

  /** Editing an order, typing "7", cancelling and opening the same row
      again before any refetch: the typed list stays instead of the order's. */
  method EditAgainKeepsTypedProducts(order: Pedido) returns (list: seq<int>)
    ensures list == [7]
  {
    var editor := new OrderEditor();
    editor.OpenEditor(Some(order), false);
    editor.HandleProductListChange("7");
    editor.CloseEditor();
    editor.OpenEditor(Some(order), true);
    list := editor.currentProductList;
    RoundTripOne(7);
    assert JoinIds([7]) == "7";
  }

  class OrderEditor {
    var orders: seq<Pedido>
    var searchTerm: string
    var isModalOpen: bool
    var editingOrder: Option<Pedido>
    var showDeleted: bool
    var currentProductList: seq<int>

    constructor()
      ensures orders == [] && searchTerm == "" && !isModalOpen
      ensures editingOrder.None? && !showDeleted && currentProductList == []
    {
      orders := [];
      searchTerm := "";
      isModalOpen := false;
      editingOrder := None;
      showDeleted := false;
      currentProductList := [];
    }

    /** `fetchData`, with `None` for a failed request or an answer that is
        not a list. */
    method LoadOrders(data: Option<seq<Pedido>>)
      modifies this`orders
      ensures orders == FetchedOrders(data)
    {
      orders := FetchedOrders(data);
    }

    method ToggleShowDeleted()
      modifies this`showDeleted
      ensures showDeleted == !old(showDeleted)
    {
      showDeleted := !showDeleted;
    }

    method SetSearchTerm(term: string)
      modifies this`searchTerm
      ensures searchTerm == term
    {
      searchTerm := term;
    }

    /** "Nuevo Pedido" (`None`) or the edit button of an order (`Some`),
        followed by the `[editingOrder]` effect. The effect runs only when the
        new value differs from the old one by identity: setting `null` again
        after `null`, or the very object already being edited, keeps the list
        typed so far. `sameObject` says that the row is that object (a refetch
        replaces every object, so an equal row may still be a new one). */
    method OpenEditor(order: Option<Pedido>, sameObject: bool)
      requires sameObject ==> order.Some? && editingOrder == order
      modifies this`editingOrder, this`isModalOpen, this`currentProductList
      ensures editingOrder == order && isModalOpen
      ensures currentProductList ==
        (if EditingChanged(old(editingOrder), order, sameObject) then LoadedProductList(order)
         else old(currentProductList))
    {
      var changed := EditingChanged(editingOrder, order, sameObject);
      editingOrder := order;
      isModalOpen := true;
      if changed {
        currentProductList := LoadedProductList(order);
      }
    }

    method CloseEditor()
      modifies this`isModalOpen
      ensures !isModalOpen
    {
      isModalOpen := false;
    }

    /** `handleProductListChange` */
    method HandleProductListChange(text: string)
      modifies this`currentProductList
      ensures currentProductList == ParseProductList(text)
    {
      currentProductList := ParseProductList(text);
    }

    /** `handleSubmit`: the request built from the form, the current product
        list and the order being edited; the modal closes only when the
        request was sent and the server accepted it. */
    method HandleSubmit(form: OrderForm, saveSucceeds: bool) returns (action: SubmitAction)
      modifies this`isModalOpen
      ensures action == SubmitOrder(form, currentProductList, editingOrder)
      ensures isModalOpen == (if !action.Refused? && saveSucceeds then false else old(isModalOpen))
    {
      action := SubmitOrder(form, currentProductList, editingOrder);
      if !action.Refused? && saveSucceeds {
        isModalOpen := false;
      }
    }

    /** The rows shown with the current toggle and search. */
    function Rows(): seq<Pedido>
      reads this
    {
      AdminListing(orders, showDeleted, searchTerm)
    }
  }
}
