/** The profile page (src/components/Profile.tsx): a form of four fields
    copied from the signed-in user, an edit mode, a save that hands the
    merged user to `updateUserProfile` (code that is not part of this model,
    which may throw), and a cancel that restores the form. */
module Profile {
  import opened Common

  /** The signed-in user as the page reads it; the four editable fields may
      be missing. */
  datatype ProfileUser = ProfileUser(
    uid: string,
    email: string,
    role: string,
    registerDate: Option<string>,
    displayName: Option<string>,
    phone: Option<string>,
    address: Option<string>,
    password: Option<string>)

  datatype ProfileForm = ProfileForm(displayName: string, phone: string, address: string, password: string)

  const EmptyForm: ProfileForm := ProfileForm("", "", "", "")

  /** The form filled from a user, "" for each missing field. */
  function FormOf(user: ProfileUser): ProfileForm {
    ProfileForm(OrEmpty(user.displayName), OrEmpty(user.phone), OrEmpty(user.address), OrEmpty(user.password))
  }

  /** `{...user, ...formData}`: the four fields from the form, every other
      field from the user. */
  function Merged(user: ProfileUser, form: ProfileForm): (r: ProfileUser)
    ensures r.uid == user.uid && r.email == user.email && r.role == user.role && r.registerDate == user.registerDate
    ensures r.displayName == Some(form.displayName) && r.phone == Some(form.phone)
    ensures r.address == Some(form.address) && r.password == Some(form.password)
  {
    user.(displayName := Some(form.displayName), phone := Some(form.phone),
          address := Some(form.address), password := Some(form.password))
  }

  /** Once the saved user comes back, the form it fills is the form that was saved. */
  lemma SavedFormComesBack(user: ProfileUser, form: ProfileForm)
    ensures FormOf(Merged(user, form)) == form
  {
  }

  /** Saving the form a user fills, untouched, changes only missing fields
      into empty ones. */
  lemma SavingUntouchedForm(user: ProfileUser)
    ensures var r := Merged(user, FormOf(user));
      && (user.displayName.Some? && user.phone.Some? && user.address.Some? && user.password.Some? ==> r == user)
      && FormOf(r) == FormOf(user)
  {
  }

  /** The form fields the inputs edit. */
  datatype Field = DisplayName | Phone | Address | Password

  function WithField(form: ProfileForm, field: Field, value: string): (r: ProfileForm)
    ensures r.displayName == (if field == DisplayName then value else form.displayName)
    ensures r.phone == (if field == Phone then value else form.phone)
    ensures r.address == (if field == Address then value else form.address)
    ensures r.password == (if field == Password then value else form.password)
  {
    match field
    case DisplayName => form.(displayName := value)
    case Phone => form.(phone := value)
    case Address => form.(address := value)
    case Password => form.(password := value)
  }

  class ProfilePage {
    var user: Option<ProfileUser>
    var isEditing: bool
    var formData: ProfileForm

    constructor()
      ensures user.None? && !isEditing && formData == EmptyForm
    {
      user := None;
      isEditing := false;
      formData := EmptyForm;
    }

    /** The effect run when the user changes: a user fills the form, no user
        leaves it as it is. */
    method UserChanged(newUser: Option<ProfileUser>)
      modifies this`user, this`formData
      ensures user == newUser
      ensures formData == (if newUser.Some? then FormOf(newUser.value) else old(formData))
    {
      user := newUser;
      if newUser.Some? {
        formData := FormOf(newUser.value);
      }
    }

    /** The edit button. */
    method StartEditing()
      modifies this`isEditing
      ensures isEditing
    {
      isEditing := true;
    }

    /** An input of the form. */
    method SetField(field: Field, value: string)
      modifies this`formData
      ensures formData == WithField(old(formData), field, value)
    {
      formData := WithField(formData, field, value);
    }

    /** `handleSave`: a name that is blank after trimming is refused and
        nothing changes; otherwise the merged user is handed to
        `updateUserProfile` (the result), and edit mode ends once that call
        returns. `updateThrows` says whether it throws instead: the provider
        at src/context/GlobalContext.tsx:235-239 puts no `updateUserProfile`
        in its value, so as the storefront is wired the call throws and edit
        mode stays on. */
    method HandleSave(updateThrows: bool) returns (update: Option<ProfileUser>)
      requires user.Some?
      modifies this`isEditing
      ensures Trim(formData.displayName) == [] ==> update.None? && isEditing == old(isEditing)
      ensures Trim(formData.displayName) != [] ==> update == Some(Merged(user.value, formData))
      ensures Trim(formData.displayName) != [] ==> isEditing == (if updateThrows then old(isEditing) else false)
    {
      if Trim(formData.displayName) == [] {
        update := None;
        return;
      }
      update := Some(Merged(user.value, formData));
      if updateThrows {
        return;
      }
      isEditing := false;
    }

    /** `handleCancel`: the form is filled from the user again and edit mode ends. */
    method HandleCancel()
      requires user.Some?
      modifies this`formData, this`isEditing
      ensures formData == FormOf(user.value) && !isEditing
    {
      formData := FormOf(user.value);
      isEditing := false;
    }
  }
}
