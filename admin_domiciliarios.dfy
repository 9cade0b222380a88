/** The back-office driver editor (src/components/admin/AdminDomiciliarios.tsx):
    the branch chosen in a select, the submit that builds the driver payload
    with the branch id repeated in a nested object, the branch-name lookup
    and the searchable list. */
module AdminDomiciliarios {
  import opened Common
  import opened Seqs
  import opened Types

  // ---------------------------------------------------------------------------
  // The branch select and getBranchName
  // ---------------------------------------------------------------------------

  const Unassigned: string := "Sin Asignar"

  /** The `value` of a branch's option: its id, or, for a branch without
      one, the option's own text. */
  function OptionValue(b: Sucursal): string {
    if b.idSucursal.Some? then IntToString(b.idSucursal.value) else b.nombre + " (" + b.ciudad + ")"
  }

  /** The values of the select: the empty placeholder, then one per branch. */
  function BranchOptions(branches: seq<Sucursal>): (r: seq<string>)
    ensures |r| == |branches| + 1 && r[0] == ""
    ensures forall i :: 0 <= i < |branches| ==> r[i + 1] == OptionValue(branches[i])
  {
    [""] + seq(|branches|, i requires 0 <= i < |branches| => OptionValue(branches[i]))
  }

  function HasBranchId(id: int): Sucursal -> bool {
    (b: Sucursal) => b.idSucursal == Some(id)
  }

  /** `getBranchName`: the name of the first branch with that id, or
      "Sin Asignar" when there is none. */
  function BranchName(branches: seq<Sucursal>, id: int): (r: string)
    ensures (forall i :: 0 <= i < |branches| ==> branches[i].idSucursal != Some(id)) ==> r == Unassigned
    ensures forall i :: 0 <= i < |branches| ==>
      (branches[i].idSucursal == Some(id) && (forall k :: 0 <= k < i ==> branches[k].idSucursal != Some(id)) ==> r == branches[i].nombre)
  {
    match FindFirst(branches, HasBranchId(id))
    case None => Unassigned
    case Some(i) => branches[i].nombre
  }

  // ---------------------------------------------------------------------------
  // handleSubmit and handleDelete
  // ---------------------------------------------------------------------------

  /** The values of the form; `idSucursal` is the select's value. */
  datatype DriverForm = DriverForm(
    nombre: string,
    apellido: string,
    telefono: string,
    placaVehiculo: string,
    idSucursal: string)

  /** The body sent to the server: the branch id flat and again as the
      `idSucursal` and the `id` of the nested `sucursal`. */
  datatype DriverPayload = DriverPayload(
    idDomiciliario: Option<int>,
    nombre: string,
    apellido: string,
    telefono: string,
    placaVehiculo: string,
    idSucursal: nat,
    sucursalIdSucursal: nat,
    sucursalId: nat)

  datatype DriverSubmit =
    | Refused
    | UpdateDriver(id: int, payload: DriverPayload)
    | CreateDriver(payload: DriverPayload)

  /** `Number(value)` used as a condition: a number other than 0. */
  predicate ChosenBranch(value: string) {
    var n := ParseNumber(value);
    n.Some? && n.value != 0
  }

  /** `handleSubmit`. Name, surname and a branch are required. A driver
      being edited that has an id is updated, any other submit creates one.
      The three branch ids of the payload agree with the chosen one. */
  function SubmitDriver(form: DriverForm, editing: Option<Domiciliario>): (r: DriverSubmit)
    ensures r.Refused? <==> form.nombre == "" || form.apellido == "" || !ChosenBranch(form.idSucursal)
    ensures r.UpdateDriver? <==> !r.Refused? && editing.Some? && Truthy(editing.value.idDomiciliario)
    ensures r.UpdateDriver? ==> r.id == editing.value.idDomiciliario.value
    ensures !r.Refused? ==>
      && Some(r.payload.idSucursal) == ParseNumber(form.idSucursal)
      && r.payload.sucursalIdSucursal == r.payload.idSucursal && r.payload.sucursalId == r.payload.idSucursal
      && r.payload.nombre == form.nombre && r.payload.apellido == form.apellido
      && r.payload.telefono == form.telefono && r.payload.placaVehiculo == form.placaVehiculo
      && r.payload.idDomiciliario == (if editing.Some? then editing.value.idDomiciliario else None)
  {
    var idSucursal := ParseNumber(form.idSucursal);
    if form.nombre == "" || form.apellido == "" || idSucursal.None? || idSucursal.value == 0 then Refused
    else
      var id := idSucursal.value;
      var payload := DriverPayload(
        if editing.Some? then editing.value.idDomiciliario else None,
        form.nombre, form.apellido, form.telefono, form.placaVehiculo, id, id, id);
      if editing.Some? && Truthy(editing.value.idDomiciliario) then
        UpdateDriver(editing.value.idDomiciliario.value, payload)
      else
        CreateDriver(payload)
  }

  /** Leaving the select on its placeholder refuses the submit. */
  lemma PlaceholderIsRefused(form: DriverForm, editing: Option<Domiciliario>, branches: seq<Sucursal>)
    requires form.idSucursal == BranchOptions(branches)[0]
    ensures SubmitDriver(form, editing).Refused?
  {
  }

  /** Choosing the option of a branch with a positive id sends that id, and
      the list then shows that branch's name for the driver (when no earlier
      branch has the same id). */
  lemma ChosenBranchIsSent(form: DriverForm, editing: Option<Domiciliario>, branches: seq<Sucursal>, i: nat)
    requires i < |branches| && branches[i].idSucursal.Some? && branches[i].idSucursal.value > 0
    requires forall k :: 0 <= k < i ==> branches[k].idSucursal != branches[i].idSucursal
    requires form.nombre != "" && form.apellido != ""
    requires form.idSucursal == BranchOptions(branches)[i + 1]
    ensures var r := SubmitDriver(form, editing);
      && !r.Refused?
      && r.payload.idSucursal == branches[i].idSucursal.value
      && BranchName(branches, r.payload.idSucursal) == branches[i].nombre
  {
    var id: nat := branches[i].idSucursal.value;
    assert form.idSucursal == NatToString(id);
    ParseNumberOfNatToString(id);
  }

  // ---------------------------------------------------------------------------
  // The list
  // ---------------------------------------------------------------------------

  function NewestDriverFirst(): Domiciliario -> int {
    (d: Domiciliario) => -IdOrZero(d.idDomiciliario)
  }

  /** The drivers of a successful fetch by id, highest first (none when the
      answer is not a list). */
  function FetchedDrivers(data: Option<seq<Domiciliario>>): seq<Domiciliario> {
    if data.Some? then SortBy(data.value, NewestDriverFirst()) else []
  }

  /** `filtered`: the name or the surname contains the term, in any case. */
  function DriverMatches(term: string): Domiciliario -> bool {
    (d: Domiciliario) => ContainsIgnoreCase(d.nombre, term) || ContainsIgnoreCase(d.apellido, term)
  }

  function DriverListing(drivers: seq<Domiciliario>, term: string): seq<Domiciliario> {
    Filter(drivers, DriverMatches(term))
  }

  /** The list holds exactly the fetched drivers whose name or surname
      matches, with ids descending. */
  lemma DriverListingShows(data: Option<seq<Domiciliario>>, term: string)
    ensures var r := DriverListing(FetchedDrivers(data), term);
      && (forall d :: d in r <==> data.Some? && d in data.value && DriverMatches(term)(d))
      && (forall i, j :: 0 <= i < j < |r| ==> IdOrZero(r[i].idDomiciliario) >= IdOrZero(r[j].idDomiciliario))
      && (forall d :: multiset(r)[d] == if data.Some? && DriverMatches(term)(d) then multiset(data.value)[d] else 0)
  {
    var fetched := FetchedDrivers(data);
    forall d
      ensures d in DriverListing(fetched, term) <==> data.Some? && d in data.value && DriverMatches(term)(d)
    {
      FilterMember(fetched, DriverMatches(term), d);
      if data.Some? {
        SortByMembership(data.value, NewestDriverFirst(), d);
      }
    }
    FilterKeepsSorted(fetched, DriverMatches(term), NewestDriverFirst());
    var r := DriverListing(fetched, term);
    assert SortedBy(r, NewestDriverFirst());
    forall d
      ensures multiset(r)[d] == if data.Some? && DriverMatches(term)(d) then multiset(data.value)[d] else 0
    {
      FilterCount(fetched, DriverMatches(term), d);
    }
  }

  // ---------------------------------------------------------------------------
  // The page state
  // ---------------------------------------------------------------------------

  /** What `fetchData` gets: `None` when either request fails; otherwise the
      two answers, each `None` when it is not a list. */
  type FetchResult = Option<(Option<seq<Domiciliario>>, Option<seq<Sucursal>>)>

  class DriverEditor {
    var drivers: seq<Domiciliario>
    var branches: seq<Sucursal>
    var searchTerm: string
    var isModalOpen: bool
    var editingDriver: Option<Domiciliario>

    constructor()
      ensures drivers == [] && branches == [] && searchTerm == "" && !isModalOpen && editingDriver.None?
    {
      drivers := [];
      branches := [];
      searchTerm := "";
      isModalOpen := false;
      editingDriver := None;
    }

    /** `fetchData`: a failure empties the drivers and keeps the branches. */
    method LoadData(result: FetchResult)
      modifies this`drivers, this`branches
      ensures result.None? ==> drivers == [] && branches == old(branches)
      ensures result.Some? ==>
        drivers == FetchedDrivers(result.value.0) && branches == (if result.value.1.Some? then result.value.1.value else [])
    {
      if result.None? {
        drivers := [];
      } else {
        drivers := FetchedDrivers(result.value.0);
        branches := if result.value.1.Some? then result.value.1.value else [];
      }
    }

    method SetSearchTerm(term: string)
      modifies this`searchTerm
      ensures searchTerm == term
    {
      searchTerm := term;
    }

    /** "Nuevo Domiciliario" (`None`) or the edit button of a driver. */
    method OpenEditor(driver: Option<Domiciliario>)
      modifies this`editingDriver, this`isModalOpen
      ensures editingDriver == driver && isModalOpen
    {
      editingDriver := driver;
      isModalOpen := true;
    }

    /** `handleSubmit`: the modal closes once the server accepted the save. */
    method HandleSubmit(form: DriverForm, saveSucceeds: bool) returns (action: DriverSubmit)
      modifies this`isModalOpen
      ensures action == SubmitDriver(form, editingDriver)
      ensures isModalOpen == (if !action.Refused? && saveSucceeds then false else old(isModalOpen))
    {
      action := SubmitDriver(form, editingDriver);
      if !action.Refused? && saveSucceeds {
        isModalOpen := false;
      }
    }

    function Rows(): seq<Domiciliario>
      reads this
    {
      DriverListing(drivers, searchTerm)
    }
  }
}
