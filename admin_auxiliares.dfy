/** The back-office assistant editor (src/components/admin/AdminAuxiliares.tsx).
    Its branch-name lookup is the same code as the driver editor's and uses
    `AdminDomiciliarios.BranchName`. Its branch select gives every branch the
    value 1, so whichever branch is picked, an accepted submit carries branch 1. */
module AdminAuxiliares {
  import opened Common
  import opened Seqs
  import opened Types
  import AdminDomiciliarios

  // ---------------------------------------------------------------------------
  // The branch select
  // ---------------------------------------------------------------------------

  /** The values of the select: the empty placeholder, then "1" for every branch. */
  function AssistantBranchOptions(branches: seq<Sucursal>): (r: seq<string>)
    ensures |r| == |branches| + 1 && r[0] == ""
    ensures forall i :: 1 <= i < |r| ==> r[i] == "1"
  {
    [""] + seq(|branches|, i => "1")
  }

  // ---------------------------------------------------------------------------
  // handleSubmit and handleDelete
  // ---------------------------------------------------------------------------

  datatype AssistantForm = AssistantForm(
    nombre: string,
    apellido: string,
    telefono: string,
    idSucursal: string)

  /** The body sent to the server: no nested branch and no state. */
  datatype AssistantPayload = AssistantPayload(
    idAuxiliar: Option<int>,
    nombre: string,
    apellido: string,
    telefono: string,
    idSucursal: nat)

  datatype AssistantSubmit =
    | Refused
    | UpdateAssistant(id: int, payload: AssistantPayload)
    | CreateAssistant(payload: AssistantPayload)

  /** `handleSubmit`. Name, surname and a branch (`Number` of the select, not
      0 and not NaN) are required. An assistant being edited that has an id
      is updated, any other submit creates one. */
  function SubmitAssistant(form: AssistantForm, editing: Option<Auxiliar>): (r: AssistantSubmit)
    ensures r.Refused? <==> form.nombre == "" || form.apellido == "" || !AdminDomiciliarios.ChosenBranch(form.idSucursal)
    ensures r.UpdateAssistant? <==> !r.Refused? && editing.Some? && Truthy(editing.value.idAuxiliar)
    ensures r.UpdateAssistant? ==> r.id == editing.value.idAuxiliar.value
    ensures !r.Refused? ==>
      && Some(r.payload.idSucursal) == ParseNumber(form.idSucursal)
      && r.payload.nombre == form.nombre && r.payload.apellido == form.apellido && r.payload.telefono == form.telefono
      && r.payload.idAuxiliar == (if editing.Some? then editing.value.idAuxiliar else None)
  {
    var idSucursal := ParseNumber(form.idSucursal);
    if form.nombre == "" || form.apellido == "" || idSucursal.None? || idSucursal.value == 0 then Refused
    else
      var payload := AssistantPayload(
        if editing.Some? then editing.value.idAuxiliar else None,
        form.nombre, form.apellido, form.telefono, idSucursal.value);
      if editing.Some? && Truthy(editing.value.idAuxiliar) then
        UpdateAssistant(editing.value.idAuxiliar.value, payload)
      else
        CreateAssistant(payload)
  }

  /** Whatever option is picked, the submit is refused (the placeholder) or
      carries branch 1. */
  lemma EveryOptionSendsBranchOne(form: AssistantForm, editing: Option<Auxiliar>, branches: seq<Sucursal>)
    requires form.idSucursal in AssistantBranchOptions(branches)
    ensures var r := SubmitAssistant(form, editing);
      r.Refused? <==> form.idSucursal == "" || form.nombre == "" || form.apellido == ""
    ensures var r := SubmitAssistant(form, editing);
      !r.Refused? ==> r.payload.idSucursal == 1
  {
    var options := AssistantBranchOptions(branches);
    var i :| 0 <= i < |options| && options[i] == form.idSucursal;
    if i > 0 {
      assert form.idSucursal == NatToString(1);
      ParseNumberOfNatToString(1);
    }
  }

  /** So a saved assistant is listed under the name of the first branch with
      id 1 (or "Sin Asignar"), not under the branch that was picked. */
  lemma SavedAssistantShowsBranchOne(form: AssistantForm, editing: Option<Auxiliar>, branches: seq<Sucursal>)
    requires form.idSucursal in AssistantBranchOptions(branches)
    requires !SubmitAssistant(form, editing).Refused?
    ensures AdminDomiciliarios.BranchName(branches, SubmitAssistant(form, editing).payload.idSucursal)
      == AdminDomiciliarios.BranchName(branches, 1)
  {
    EveryOptionSendsBranchOne(form, editing, branches);
  }

  // ---------------------------------------------------------------------------
  // The list
  // ---------------------------------------------------------------------------

  function NewestAssistantFirst(): Auxiliar -> int {
    (a: Auxiliar) => -IdOrZero(a.idAuxiliar)
  }

  function FetchedAssistants(data: Option<seq<Auxiliar>>): seq<Auxiliar> {
    if data.Some? then SortBy(data.value, NewestAssistantFirst()) else []
  }

  /** `filtered`: the name or the surname contains the term, in any case. */
  function AssistantMatches(term: string): Auxiliar -> bool {
    (a: Auxiliar) => ContainsIgnoreCase(a.nombre, term) || ContainsIgnoreCase(a.apellido, term)
  }

  function AssistantListing(assistants: seq<Auxiliar>, term: string): seq<Auxiliar> {
    Filter(assistants, AssistantMatches(term))
  }

  /** The list holds exactly the fetched assistants whose name or surname
      matches, with ids descending. */
  lemma AssistantListingShows(data: Option<seq<Auxiliar>>, term: string)
    ensures var r := AssistantListing(FetchedAssistants(data), term);
      && (forall a :: a in r <==> data.Some? && a in data.value && AssistantMatches(term)(a))
      && (forall i, j :: 0 <= i < j < |r| ==> IdOrZero(r[i].idAuxiliar) >= IdOrZero(r[j].idAuxiliar))
      && (forall a :: multiset(r)[a] == if data.Some? && AssistantMatches(term)(a) then multiset(data.value)[a] else 0)
  {
    var fetched := FetchedAssistants(data);
    forall a
      ensures a in AssistantListing(fetched, term) <==> data.Some? && a in data.value && AssistantMatches(term)(a)
    {
      FilterMember(fetched, AssistantMatches(term), a);
      if data.Some? {
        SortByMembership(data.value, NewestAssistantFirst(), a);
      }
    }
    FilterKeepsSorted(fetched, AssistantMatches(term), NewestAssistantFirst());
    var r := AssistantListing(fetched, term);
    assert SortedBy(r, NewestAssistantFirst());
    forall a
      ensures multiset(r)[a] == if data.Some? && AssistantMatches(term)(a) then multiset(data.value)[a] else 0
    {
      FilterCount(fetched, AssistantMatches(term), a);
    }
  }

  // ---------------------------------------------------------------------------
  // The page state
  // ---------------------------------------------------------------------------

  /** What `fetchData` gets: `None` when either request fails; otherwise the
      two answers, each `None` when it is not a list. */
  type FetchResult = Option<(Option<seq<Auxiliar>>, Option<seq<Sucursal>>)>

  class AssistantEditor {
    var assistants: seq<Auxiliar>
    var branches: seq<Sucursal>
    var searchTerm: string
    var isModalOpen: bool
    var editingAssistant: Option<Auxiliar>

    constructor()
      ensures assistants == [] && branches == [] && searchTerm == "" && !isModalOpen && editingAssistant.None?
    {
      assistants := [];
      branches := [];
      searchTerm := "";
      isModalOpen := false;
      editingAssistant := None;
    }

    /** `fetchData`: a failure empties the assistants and keeps the branches. */
    method LoadData(result: FetchResult)
      modifies this`assistants, this`branches
      ensures result.None? ==> assistants == [] && branches == old(branches)
      ensures result.Some? ==>
        assistants == FetchedAssistants(result.value.0) && branches == (if result.value.1.Some? then result.value.1.value else [])
    {
      if result.None? {
        assistants := [];
      } else {
        assistants := FetchedAssistants(result.value.0);
        branches := if result.value.1.Some? then result.value.1.value else [];
      }
    }

    method SetSearchTerm(term: string)
      modifies this`searchTerm
      ensures searchTerm == term
    {
      searchTerm := term;
    }

    /** "Nuevo Auxiliar" (`None`) or the edit button of an assistant. */
    method OpenEditor(assistant: Option<Auxiliar>)
      modifies this`editingAssistant, this`isModalOpen
      ensures editingAssistant == assistant && isModalOpen
    {
      editingAssistant := assistant;
      isModalOpen := true;
    }

    /** `handleSubmit`: the modal closes once the server accepted the save. */
    method HandleSubmit(form: AssistantForm, saveSucceeds: bool) returns (action: AssistantSubmit)
      modifies this`isModalOpen
      ensures action == SubmitAssistant(form, editingAssistant)
      ensures isModalOpen == (if !action.Refused? && saveSucceeds then false else old(isModalOpen))
    {
      action := SubmitAssistant(form, editingAssistant);
      if !action.Refused? && saveSucceeds {
        isModalOpen := false;
      }
    }

    function Rows(): seq<Auxiliar>
      reads this
    {
      AssistantListing(assistants, searchTerm)
    }
  }
}
