/** The back-office user editor (src/components/admin/AdminUsuarios.tsx):
    the form edited field by field, the submit that builds the user payload,
    the confirm-gated logical delete and the list that hides inactive users. */
module AdminUsuarios {
  import opened Common
  import opened Seqs
  import opened Types

  // ---------------------------------------------------------------------------
  // The form
  // ---------------------------------------------------------------------------

  /** `INITIAL_FORM_STATE`: empty fields, active, registered on the day the
      page was loaded. */
  function InitialForm(today: string): (u: Usuario)
    ensures u.idUsuario.None? && u.password == Some("") && u.estado == Flag(true)
    ensures u.nombre == "" && u.apellido == "" && u.email == "" && u.telefono == "" && u.direccion == ""
    ensures u.fechaRegistro == today
  {
    Usuario(None, "", "", "", "", Some(""), "", today, Flag(true))
  }

  /** The inputs of the form, by their `name` attribute. */
  datatype Field = Nombre | Apellido | Email | Password | Telefono | Direccion

  /** `handleInputChange`: the named field takes the typed value. */
  function WithField(u: Usuario, field: Field, value: string): (r: Usuario)
    ensures r.nombre == (if field == Nombre then value else u.nombre)
    ensures r.apellido == (if field == Apellido then value else u.apellido)
    ensures r.email == (if field == Email then value else u.email)
    ensures r.password == (if field == Password then Some(value) else u.password)
    ensures r.telefono == (if field == Telefono then value else u.telefono)
    ensures r.direccion == (if field == Direccion then value else u.direccion)
    ensures r.idUsuario == u.idUsuario && r.fechaRegistro == u.fechaRegistro && r.estado == u.estado
  {
    match field
    case Nombre => u.(nombre := value)
    case Apellido => u.(apellido := value)
    case Email => u.(email := value)
    case Password => u.(password := Some(value))
    case Telefono => u.(telefono := value)
    case Direccion => u.(direccion := value)
  }

  /** Typing the value a field already holds leaves the form as it was. */
  lemma RetypingChangesNothing(u: Usuario, field: Field)
    requires field != Password || u.password.Some?
    ensures var current := match field
        case Nombre => u.nombre
        case Apellido => u.apellido
        case Email => u.email
        case Password => u.password.value
        case Telefono => u.telefono
        case Direccion => u.direccion;
      WithField(u, field, current) == u
  {
  }

  /** `openModal(user)`: a copy of the user with the password defaulting to "". */
  function FormFor(user: Usuario): (f: Usuario)
    ensures f.password == Some(if user.password.Some? then user.password.value else "")
    ensures f.(password := user.password) == user
  {
    user.(password := Some(if user.password.Some? then user.password.value else ""))
  }

  // ---------------------------------------------------------------------------
  // handleSubmit and handleChangeStatus
  // ---------------------------------------------------------------------------

  const DefaultPassword: string := "123456"

  /** The body sent to the server: neither the state nor the id. */
  datatype UserPayload = UserPayload(
    nombre: string,
    apellido: string,
    email: string,
    telefono: string,
    password: string,
    direccion: string,
    fechaRegistro: string)

  datatype UserSubmit =
    | Refused
    | UpdateUser(id: int, payload: UserPayload)
    | CreateUser(payload: UserPayload)

  /** `formData.password || "123456"` */
  function PasswordToSend(password: Option<string>): (r: string)
    ensures r != ""
    ensures password.Some? && password.value != "" ==> r == password.value
    ensures password.None? || password.value == "" ==> r == DefaultPassword
  {
    if password.Some? && password.value != "" then password.value else DefaultPassword
  }

  /** `handleSubmit`. Name and email are required. The form is sent as an
      update when editing a user that has an id, otherwise as a creation;
      an empty password is replaced by the default one. */
  function SubmitUser(form: Usuario, isEditing: bool): (r: UserSubmit)
    ensures r.Refused? <==> form.nombre == "" || form.email == ""
    ensures r.UpdateUser? <==> !r.Refused? && isEditing && Truthy(form.idUsuario)
    ensures r.UpdateUser? ==> r.id == form.idUsuario.value
    ensures !r.Refused? ==>
      && r.payload.nombre == form.nombre && r.payload.apellido == form.apellido
      && r.payload.email == form.email && r.payload.telefono == form.telefono
      && r.payload.direccion == form.direccion && r.payload.fechaRegistro == form.fechaRegistro
      && r.payload.password == PasswordToSend(form.password)
  {
    if form.nombre == "" || form.email == "" then Refused
    else
      var payload := UserPayload(form.nombre, form.apellido, form.email, form.telefono,
        PasswordToSend(form.password), form.direccion, form.fechaRegistro);
      if isEditing && Truthy(form.idUsuario) then UpdateUser(form.idUsuario.value, payload)
      else CreateUser(payload)
  }

  /** What is sent does not depend on the form's state or id: only whether
      it is an update, and of which user, does. */
  lemma PayloadIgnoresStateAndId(form: Usuario, estado: EstadoValue, id: Option<int>, isEditing: bool)
    ensures var a := SubmitUser(form, isEditing);
      var b := SubmitUser(form.(estado := estado, idUsuario := id), isEditing);
      a.Refused? == b.Refused? && (!a.Refused? ==> a.payload == b.payload)
  {
  }

  /** The form after a sequence of inputs. */
  function Typed(u: Usuario, edits: seq<(Field, string)>): (r: Usuario)
    ensures r.idUsuario == u.idUsuario && r.estado == u.estado && r.fechaRegistro == u.fechaRegistro
    decreases |edits|
  {
    if edits == [] then u else Typed(WithField(u, edits[0].0, edits[0].1), edits[1..])
  }

  /** A form opened for a new user is sent as a creation, whatever is typed into it. */
  lemma NewUserIsCreated(today: string, edits: seq<(Field, string)>)
    ensures var r := SubmitUser(Typed(InitialForm(today), edits), false);
      r.Refused? || r.CreateUser?
  {
  }

  /** Opening an existing user and saving it untouched updates that user,
      resending its stored password or the default one. */
  lemma ResavingUpdatesSameUser(user: Usuario)
    requires Truthy(user.idUsuario) && user.nombre != "" && user.email != ""
    ensures var r := SubmitUser(FormFor(user), true);
      && r == UpdateUser(user.idUsuario.value, r.payload)
      && r.payload.password == PasswordToSend(user.password)
  {
  }

  // ---------------------------------------------------------------------------
  // The list
  // ---------------------------------------------------------------------------

  /** The states that count as deleted: `false`, "Inactivo" and `null`. A
      user without a state is still active. */
  predicate Inactive(estado: EstadoValue) {
    estado == Flag(false) || estado == Text("Inactivo") || estado == Null
  }

  /** `filteredUsers`: inactive users only when asked for; then the name or
      the email contains the term, in any case. */
  function UserShows(showInactive: bool, term: string): Usuario -> bool {
    (u: Usuario) =>
      (showInactive || !Inactive(u.estado))
      && (ContainsIgnoreCase(u.nombre, term) || ContainsIgnoreCase(u.email, term))
  }

  function UserListing(users: seq<Usuario>, showInactive: bool, term: string): seq<Usuario> {
    Filter(users, UserShows(showInactive, term))
  }

  /** The list holds exactly the users that pass, each as often as fetched;
      with inactive users hidden, none of them shows. */
  lemma UserListingShows(users: seq<Usuario>, showInactive: bool, term: string)
    ensures var r := UserListing(users, showInactive, term);
      && |r| <= |users|
      && (forall u :: u in r <==> u in users && UserShows(showInactive, term)(u))
      && (!showInactive ==> forall i :: 0 <= i < |r| ==> !Inactive(r[i].estado))
      && (forall u :: multiset(r)[u] == if UserShows(showInactive, term)(u) then multiset(users)[u] else 0)
  {
    forall u
      ensures u in UserListing(users, showInactive, term) <==> u in users && UserShows(showInactive, term)(u)
      ensures multiset(UserListing(users, showInactive, term))[u] ==
        if UserShows(showInactive, term)(u) then multiset(users)[u] else 0
    {
      FilterMember(users, UserShows(showInactive, term), u);
      FilterCount(users, UserShows(showInactive, term), u);
    }
  }

  /** An empty search shows every active user, including those without a
      state, and with inactive users shown, everybody. */
  lemma EmptySearchShowsActive(users: seq<Usuario>, showInactive: bool)
    ensures forall u :: u in UserListing(users, showInactive, "") <==> u in users && (showInactive || !Inactive(u.estado))
    ensures showInactive ==> UserListing(users, true, "") == users
  {
    forall u
      ensures u in UserListing(users, showInactive, "") <==> u in users && (showInactive || !Inactive(u.estado))
    {
      FilterMember(users, UserShows(showInactive, ""), u);
      ContainsEmpty(ToLower(u.nombre));
    }
    if showInactive {
      forall i | 0 <= i < |users|
        ensures UserShows(true, "")(users[i])
      {
        ContainsEmpty(ToLower(users[i].nombre));
      }
      FilterAll(users, UserShows(true, ""));
    }
  }

  // ---------------------------------------------------------------------------
  // The page state
  // ---------------------------------------------------------------------------

  class UserEditor {
    /** `INITIAL_FORM_STATE`, fixed when the page is loaded. */
    const initialForm: Usuario
    var users: seq<Usuario>
    var searchTerm: string
    var showInactive: bool
    var isModalOpen: bool
    var isEditing: bool
    var formData: Usuario

    constructor(today: string)
      ensures initialForm == InitialForm(today) && formData == initialForm
      ensures users == [] && searchTerm == "" && !showInactive && !isModalOpen && !isEditing
    {
      initialForm := InitialForm(today);
      formData := InitialForm(today);
      users := [];
      searchTerm := "";
      showInactive := false;
      isModalOpen := false;
      isEditing := false;
    }

    /** `fetchUsers`, with `None` for a failed request or an answer that is
        not a list. */
    method LoadUsers(data: Option<seq<Usuario>>)
      modifies this`users
      ensures users == (if data.Some? then data.value else [])
    {
      users := if data.Some? then data.value else [];
    }

    method ToggleShowInactive()
      modifies this`showInactive
      ensures showInactive == !old(showInactive)
    {
      showInactive := !showInactive;
    }

    method SetSearchTerm(term: string)
      modifies this`searchTerm
      ensures searchTerm == term
    {
      searchTerm := term;
    }

    /** `handleInputChange` */
    method HandleInputChange(field: Field, value: string)
      modifies this`formData
      ensures formData == WithField(old(formData), field, value)
    {
      formData := WithField(formData, field, value);
    }

    /** `openModal`: an existing user is copied into the form for editing, no
        user starts a blank creation form. */
    method OpenModal(user: Option<Usuario>)
      modifies this`formData, this`isEditing, this`isModalOpen
      ensures formData == (if user.Some? then FormFor(user.value) else initialForm)
      ensures isEditing == user.Some? && isModalOpen
    {
      if user.Some? {
        formData := FormFor(user.value);
        isEditing := true;
      } else {
        formData := initialForm;
        isEditing := false;
      }
      isModalOpen := true;
    }

    /** `handleSubmit`: the modal closes once the server accepted the save. */
    method HandleSubmit(saveSucceeds: bool) returns (action: UserSubmit)
      modifies this`isModalOpen
      ensures action == SubmitUser(formData, isEditing)
      ensures isModalOpen == (if !action.Refused? && saveSucceeds then false else old(isModalOpen))
    {
      action := SubmitUser(formData, isEditing);
      if !action.Refused? && saveSucceeds {
        isModalOpen := false;
      }
    }

    function Rows(): seq<Usuario>
      reads this
    {
      UserListing(users, showInactive, searchTerm)
    }
  }
}
