/** The admin registration form: the same inputs as the user form without the
    address, the same three checks, and no upload: the data, a raw File image
    included, goes to `onSubmit` as it stands. */
module AdminForm {

  import opened Options
  import opened Js
  import Types
  import UserForm

  /** The inputs of the form, by their `name` attribute. */
  datatype Field = FirstName | LastName | Pid | PhoneNumber | Email | Password | ProfileImage

  datatype AdminFormData = AdminFormData(
    firstName: string,
    lastName: string,
    pid: string,
    phoneNumber: string,
    email: string,
    password: string,
    profileImage: Value)

  const InitialData := AdminFormData("", "", "", "", "", "", Null)

  function FieldValue(d: AdminFormData, f: Field): Value {
    match f
    case FirstName => Str(d.firstName)
    case LastName => Str(d.lastName)
    case Pid => Str(d.pid)
    case PhoneNumber => Str(d.phoneNumber)
    case Email => Str(d.email)
    case Password => Str(d.password)
    case ProfileImage => d.profileImage
  }

  function SetText(d: AdminFormData, f: Field, value: string): AdminFormData {
    match f
    case FirstName => d.(firstName := value)
    case LastName => d.(lastName := value)
    case Pid => d.(pid := value)
    case PhoneNumber => d.(phoneNumber := value)
    case Email => d.(email := value)
    case Password => d.(password := value)
    case ProfileImage => d.(profileImage := Str(value))
  }

  /** `handleChange`, as in the user form. */
  function HandleChange(d: AdminFormData, name: Field, value: string, files: Option<seq<Value>>): (r: AdminFormData)
    ensures name == ProfileImage && files.Some? ==> FieldValue(r, ProfileImage) == UserForm.FirstFile(files.value)
    ensures !(name == ProfileImage && files.Some?) ==> FieldValue(r, name) == Str(value)
    ensures forall f :: f != name ==> FieldValue(r, f) == FieldValue(d, f)
  {
    if name == ProfileImage && files.Some? then d.(profileImage := UserForm.FirstFile(files.value))
    else SetText(d, name, value)
  }

  /** `handleSubmit`: clear the error, run the checks, then `onSubmit(formData)`. */
  function HandleSubmit(d: AdminFormData): (r: UserForm.Outcome<AdminFormData>)
    ensures r.submitted.Some? <==> UserForm.FieldsError(d.firstName, d.pid, d.phoneNumber, d.email, d.password).None?
    ensures r.submitted.Some? ==> r.submitted.value == d && r.error == ""
    ensures r.submitted.None? ==> r.error == UserForm.FieldsError(d.firstName, d.pid, d.phoneNumber, d.email, d.password).value
  {
    match UserForm.FieldsError(d.firstName, d.pid, d.phoneNumber, d.email, d.password)
    case Some(message) => UserForm.Outcome(message, None)
    case None => UserForm.Outcome("", Some(d))
  }

  /** The admin form and the user form accept and refuse the same entries with
      the same messages, apart from the user form's upload step. */
  lemma SameChecksAsUserForm(d: AdminFormData, address: string)
    ensures var u := UserForm.UserFormData(d.firstName, d.lastName, d.pid, d.phoneNumber, d.email, d.password, address, Null);
      && (HandleSubmit(d).submitted.Some? <==> UserForm.HandleSubmit(u, Types.UploadFailed).submitted.Some?)
      && HandleSubmit(d).error == UserForm.HandleSubmit(u, Types.UploadFailed).error
  {
  }
}
