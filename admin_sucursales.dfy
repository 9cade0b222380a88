/** The back-office branch editor (src/components/admin/AdminSucursales.tsx):
    the conversion between the `HH:MM` of a time input and the
    `HH:MM:SS.sss` the server stores, the submit that builds the branch
    payload, and the searchable list. */
module AdminSucursales {
  import opened Common
  import opened Seqs
  import opened Types

  // ---------------------------------------------------------------------------
  // Time helpers
  // ---------------------------------------------------------------------------

  const Midnight: string := "00:00:00.000"
  const ZeroSeconds: string := ":00.000"

  /** `formatToBackendTime`: a missing or empty time is midnight, a time of
      five UTF-16 code units gets zero seconds and milliseconds, anything
      else is sent as it is. */
  function FormatToBackendTime(time: Option<string>): (r: string)
    ensures time.None? || time.value == "" ==> r == Midnight
    ensures time.Some? && JsLength(time.value) == 5 ==> r == time.value + ZeroSeconds && JsLength(r) == 12
    ensures time.Some? && time.value != "" && JsLength(time.value) != 5 ==> r == time.value
    ensures r != ""
  {
    if time.None? || time.value == "" then Midnight
    else if JsLength(time.value) == 5 then
      JsLengthAppend(time.value, ZeroSeconds);
      time.value + ZeroSeconds
    else time.value
  }

  /** `formatToInputTime`: a missing or empty time is empty, anything else
      is cut to its first five characters (a shorter one is kept whole). */
  function FormatToInputTime(time: Option<string>): (r: string)
    ensures time.None? || time.value == "" ==> r == ""
    ensures time.Some? ==> |r| == Min(5, |time.value|) && r == time.value[..|r|]
  {
    if time.None? || time.value == "" then ""
    else if |time.value| <= 5 then time.value
    else time.value[..5]
  }

  /** A time typed as `HH:MM` (five characters from the Basic Multilingual
      Plane) survives the trip to the server and back. */
  lemma TimeRoundTrip(t: string)
    requires |t| == 5 && forall i :: 0 <= i < |t| ==> !Supplementary(t[i])
    ensures FormatToInputTime(Some(FormatToBackendTime(Some(t)))) == t
  {
    var b := FormatToBackendTime(Some(t));
    assert b[..5] == t;
  }

  /** Converting a time that is already in the server's form changes nothing. */
  lemma BackendTimeIdempotent(time: Option<string>)
    ensures FormatToBackendTime(Some(FormatToBackendTime(time))) == FormatToBackendTime(time)
  {
    assert JsLength(Midnight) == 12;
  }

  /** The value shown in a time input of the form: the stored time cut to
      `HH:MM`, or the given default when there is none. */
  function InputDefault(stored: Option<string>, fallback: string): (r: string)
    ensures FormatToInputTime(stored) != "" ==> r == FormatToInputTime(stored)
    ensures FormatToInputTime(stored) == "" ==> r == fallback
  {
    var shown := FormatToInputTime(stored);
    if shown != "" then shown else fallback
  }

  /** A new branch opens with 08:00 to 18:00, which are sent as
      08:00:00.000 and 18:00:00.000 when left untouched. */
  lemma NewBranchHours()
    ensures FormatToBackendTime(Some(InputDefault(None, "08:00"))) == "08:00:00.000"
    ensures FormatToBackendTime(Some(InputDefault(None, "18:00"))) == "18:00:00.000"
  {
  }

  // ---------------------------------------------------------------------------
  // handleSubmit and handleDelete
  // ---------------------------------------------------------------------------

  /** The form values; the two times are `None` when the field is absent. */
  datatype BranchForm = BranchForm(
    nombre: string,
    direccion: string,
    ciudad: string,
    horarioApertura: Option<string>,
    horarioCierre: Option<string>)

  /** The body sent to the server: name and address each under two keys. */
  datatype BranchPayload = BranchPayload(
    idSucursal: Option<int>,
    nombre: string,
    nombreSucursal: string,
    direccion: string,
    direccionSucursal: string,
    ciudad: string,
    horarioApertura: string,
    horarioCierre: string)

  datatype BranchSubmit =
    | Refused
    | UpdateBranch(id: int, payload: BranchPayload)
    | CreateBranch(payload: BranchPayload)

  /** `handleSubmit`. Name, address and city are required. A branch being
      edited that has an id is updated, any other submit creates one. The
      payload repeats the name and the address under their long keys and
      carries both times in the server's form. */
  function SubmitBranch(form: BranchForm, editing: Option<Sucursal>): (r: BranchSubmit)
    ensures r.Refused? <==> form.nombre == "" || form.direccion == "" || form.ciudad == ""
    ensures r.UpdateBranch? <==> !r.Refused? && editing.Some? && Truthy(editing.value.idSucursal)
    ensures r.UpdateBranch? ==> r.id == editing.value.idSucursal.value
    ensures !r.Refused? ==>
      && r.payload.nombre == form.nombre && r.payload.nombreSucursal == form.nombre
      && r.payload.direccion == form.direccion && r.payload.direccionSucursal == form.direccion
      && r.payload.ciudad == form.ciudad
      && r.payload.horarioApertura == FormatToBackendTime(form.horarioApertura)
      && r.payload.horarioCierre == FormatToBackendTime(form.horarioCierre)
      && r.payload.idSucursal == (if editing.Some? then editing.value.idSucursal else None)
  {
    if form.nombre == "" || form.direccion == "" || form.ciudad == "" then Refused
    else
      var payload := BranchPayload(
        if editing.Some? then editing.value.idSucursal else None,
        form.nombre, form.nombre, form.direccion, form.direccion, form.ciudad,
        FormatToBackendTime(form.horarioApertura), FormatToBackendTime(form.horarioCierre));
      if editing.Some? && Truthy(editing.value.idSucursal) then
        UpdateBranch(editing.value.idSucursal.value, payload)
      else
        CreateBranch(payload)
  }

  /** Re-saving a branch whose stored times are already `HH:MM:SS.sss`
      (characters of the Basic Multilingual Plane), with the form fields as
      they were opened, keeps those times. */
  lemma ResavingKeepsHours(b: Sucursal, form: BranchForm)
    requires Truthy(b.idSucursal) && b.nombre != "" && b.direccion != "" && b.ciudad != ""
    requires b.horarioApertura.Some? && |b.horarioApertura.value| == 12
    requires b.horarioCierre.Some? && |b.horarioCierre.value| == 12
    requires forall i :: 0 <= i < 5 ==> !Supplementary(b.horarioApertura.value[i]) && !Supplementary(b.horarioCierre.value[i])
    requires form == BranchForm(b.nombre, b.direccion, b.ciudad,
      Some(InputDefault(b.horarioApertura, "08:00")), Some(InputDefault(b.horarioCierre, "18:00")))
    ensures var r := SubmitBranch(form, Some(b));
      && r.UpdateBranch?
      && r.payload.horarioApertura == b.horarioApertura.value[..5] + ZeroSeconds
      && r.payload.horarioCierre == b.horarioCierre.value[..5] + ZeroSeconds
  {
    assert forall i :: 0 <= i < 5 ==> b.horarioApertura.value[..5][i] == b.horarioApertura.value[i];
    assert forall i :: 0 <= i < 5 ==> b.horarioCierre.value[..5][i] == b.horarioCierre.value[i];
  }

  // ---------------------------------------------------------------------------
  // The list
  // ---------------------------------------------------------------------------

  function NewestBranchFirst(): Sucursal -> int {
    (b: Sucursal) => -IdOrZero(b.idSucursal)
  }

  /** `fetchData`: the branches by id, highest first, or none. */
  function FetchedBranches(data: Option<seq<Sucursal>>): seq<Sucursal> {
    if data.Some? then SortBy(data.value, NewestBranchFirst()) else []
  }

  /** `filteredBranches`: the name or the city contains the term, in any case. */
  function BranchMatches(term: string): Sucursal -> bool {
    (b: Sucursal) => ContainsIgnoreCase(b.nombre, term) || ContainsIgnoreCase(b.ciudad, term)
  }

  function BranchListing(branches: seq<Sucursal>, term: string): seq<Sucursal> {
    Filter(branches, BranchMatches(term))
  }

  /** The list holds exactly the fetched branches whose name or city matches,
      with ids descending. */
  lemma BranchListingShows(data: Option<seq<Sucursal>>, term: string)
    ensures var r := BranchListing(FetchedBranches(data), term);
      && (forall b :: b in r <==> data.Some? && b in data.value && BranchMatches(term)(b))
      && (forall i, j :: 0 <= i < j < |r| ==> IdOrZero(r[i].idSucursal) >= IdOrZero(r[j].idSucursal))
      && (forall b :: multiset(r)[b] == if data.Some? && BranchMatches(term)(b) then multiset(data.value)[b] else 0)
  {
    var fetched := FetchedBranches(data);
    forall b
      ensures b in BranchListing(fetched, term) <==> data.Some? && b in data.value && BranchMatches(term)(b)
    {
      FilterMember(fetched, BranchMatches(term), b);
      if data.Some? {
        SortByMembership(data.value, NewestBranchFirst(), b);
      }
    }
    FilterKeepsSorted(fetched, BranchMatches(term), NewestBranchFirst());
    var r := BranchListing(fetched, term);
    assert SortedBy(r, NewestBranchFirst());
    forall b
      ensures multiset(r)[b] == if data.Some? && BranchMatches(term)(b) then multiset(data.value)[b] else 0
    {
      FilterCount(fetched, BranchMatches(term), b);
    }
  }

  /** An empty search lists every branch. */
  lemma EmptySearchShowsAllBranches(branches: seq<Sucursal>)
    ensures BranchListing(branches, "") == branches
  {
    forall i | 0 <= i < |branches|
      ensures BranchMatches("")(branches[i])
    {
      ContainsEmpty(ToLower(branches[i].nombre));
    }
    FilterAll(branches, BranchMatches(""));
  }

  // ---------------------------------------------------------------------------
  // The page state
  // ---------------------------------------------------------------------------

  class BranchEditor {
    var branches: seq<Sucursal>
    var searchTerm: string
    var isModalOpen: bool
    var editingBranch: Option<Sucursal>

    constructor()
      ensures branches == [] && searchTerm == "" && !isModalOpen && editingBranch.None?
    {
      branches := [];
      searchTerm := "";
      isModalOpen := false;
      editingBranch := None;
    }

    /** `fetchData`, with `None` for a failed request or an answer that is
        not a list. */
    method LoadBranches(data: Option<seq<Sucursal>>)
      modifies this`branches
      ensures branches == FetchedBranches(data)
    {
      branches := FetchedBranches(data);
    }

    method SetSearchTerm(term: string)
      modifies this`searchTerm
      ensures searchTerm == term
    {
      searchTerm := term;
    }

    /** "Nueva Sucursal" (`None`) or the edit button of a branch. */
    method OpenEditor(branch: Option<Sucursal>)
      modifies this`editingBranch, this`isModalOpen
      ensures editingBranch == branch && isModalOpen
    {
      editingBranch := branch;
      isModalOpen := true;
    }

    /** `handleSubmit`: the modal closes once the server accepted the save. */
    method HandleSubmit(form: BranchForm, saveSucceeds: bool) returns (action: BranchSubmit)
      modifies this`isModalOpen
      ensures action == SubmitBranch(form, editingBranch)
      ensures isModalOpen == (if !action.Refused? && saveSucceeds then false else old(isModalOpen))
    {
      action := SubmitBranch(form, editingBranch);
      if !action.Refused? && saveSucceeds {
        isModalOpen := false;
      }
    }

    function Rows(): seq<Sucursal>
      reads this
    {
      BranchListing(branches, searchTerm)
    }
  }
}
