/** The user registration form: the change handler of its inputs and the
    submission sequence (required fields, password length, personal-ID
    length, then the image upload). The three field checks are the same in the
    admin form, which reuses them from here. */
module UserForm {

  import opened Options
  import opened Js
  import opened Types
  import opened Text

  /** The inputs of the form, by their `name` attribute. */
  datatype Field = FirstName | LastName | Pid | PhoneNumber | Email | Password | Address | ProfileImage

  datatype UserFormData = UserFormData(
    firstName: string,
    lastName: string,
    pid: string,
    phoneNumber: string,
    email: string,
    password: string,
    address: string,
    profileImage: Value)

  const InitialData := UserFormData("", "", "", "", "", "", "", Null)

  /** The value the form holds under an input's name. */
  function FieldValue(d: UserFormData, f: Field): Value {
    match f
    case FirstName => Str(d.firstName)
    case LastName => Str(d.lastName)
    case Pid => Str(d.pid)
    case PhoneNumber => Str(d.phoneNumber)
    case Email => Str(d.email)
    case Password => Str(d.password)
    case Address => Str(d.address)
    case ProfileImage => d.profileImage
  }

  /** `{...prev, [name]: value}`. */
  function SetText(d: UserFormData, f: Field, value: string): UserFormData {
    match f
    case FirstName => d.(firstName := value)
    case LastName => d.(lastName := value)
    case Pid => d.(pid := value)
    case PhoneNumber => d.(phoneNumber := value)
    case Email => d.(email := value)
    case Password => d.(password := value)
    case Address => d.(address := value)
    case ProfileImage => d.(profileImage := Str(value))
  }

  /** `files[0]` of a chosen-file list: undefined when the list is empty. */
  function FirstFile(files: seq<Value>): Value {
    if |files| > 0 then files[0] else Undefined
  }

  /** `handleChange`: the file input stores its first file; any other change
      stores the input's text under its name. `files` is `None` for inputs that
      have no file list. */
  function HandleChange(d: UserFormData, name: Field, value: string, files: Option<seq<Value>>): (r: UserFormData)
    ensures name == ProfileImage && files.Some? ==> FieldValue(r, ProfileImage) == FirstFile(files.value)
    ensures !(name == ProfileImage && files.Some?) ==> FieldValue(r, name) == Str(value)
    ensures forall f :: f != name ==> FieldValue(r, f) == FieldValue(d, f)
  {
    if name == ProfileImage && files.Some? then d.(profileImage := FirstFile(files.value))
    else SetText(d, name, value)
  }

  /** The three checks both registration forms run before anything else, in
      order; the first failure is the message shown. Lengths are JavaScript's
      `.length`, counted in UTF-16 code units. */
  function FieldsError(firstName: string, pid: string, phoneNumber: string, email: string, password: string): (r: Option<string>)
    ensures r.None? <==> firstName != "" && pid != "" && phoneNumber != "" && email != "" && password != ""
                         && Utf16Length(password) >= 6 && Utf16Length(pid) == 11
    ensures (firstName == "" || pid == "" || phoneNumber == "" || email == "" || password == "") ==>
      r == Some("Please fill in all required fields")
    ensures firstName != "" && pid != "" && phoneNumber != "" && email != "" && password != "" && Utf16Length(password) < 6 ==>
      r == Some("Password must be at least 6 characters long")
    ensures firstName != "" && pid != "" && phoneNumber != "" && email != "" && Utf16Length(password) >= 6 && Utf16Length(pid) != 11 ==>
      r == Some("Personal ID must be 11 characters long")
  {
    if firstName == "" || pid == "" || phoneNumber == "" || email == "" || password == "" then
      Some("Please fill in all required fields")
    else if Utf16Length(password) < 6 then Some("Password must be at least 6 characters long")
    else if Utf16Length(pid) != 11 then Some("Personal ID must be 11 characters long")
    else None
  }

  /** What a submit leaves behind: the error shown ("" when none) and the data
      passed to `onSubmit`, if it was called. */
  datatype Outcome<D> = Outcome(error: string, submitted: Option<D>)

  /** `handleSubmit`: clear the error, run the checks, upload a chosen File,
      and pass the data with the image URL (or null) to `onSubmit`. */
  function HandleSubmit(d: UserFormData, upload: UploadResult): (r: Outcome<UserFormData>)
    ensures FieldsError(d.firstName, d.pid, d.phoneNumber, d.email, d.password).Some? ==>
      r == Outcome(FieldsError(d.firstName, d.pid, d.phoneNumber, d.email, d.password).value, None)
    ensures r.submitted.Some? <==>
      FieldsError(d.firstName, d.pid, d.phoneNumber, d.email, d.password).None?
      && !(d.profileImage.File? && upload.UploadFailed?)
    ensures r.submitted.Some? ==>
      && r.error == ""
      && r.submitted.value == d.(profileImage := r.submitted.value.profileImage)
      && r.submitted.value.profileImage == (if d.profileImage.File? && Truthy(upload.secureUrl) then upload.secureUrl else Null)
    ensures FieldsError(d.firstName, d.pid, d.phoneNumber, d.email, d.password).None? && r.submitted.None? ==>
      r.error == "Image upload failed. Please try again."
  {
    match FieldsError(d.firstName, d.pid, d.phoneNumber, d.email, d.password)
    case Some(message) => Outcome(message, None)
    case None =>
      match SubmittedImage(d.profileImage, upload)
      case None => Outcome("Image upload failed. Please try again.", None)
      case Some(image) => Outcome("", Some(d.(profileImage := image)))
  }

  /** The address and last name are never checked: a form that passes with
      them filled in passes with them empty too, and fails with the same
      message when it fails. */
  lemma OptionalFieldsUnchecked(d: UserFormData, upload: UploadResult)
    ensures HandleSubmit(d.(address := "", lastName := ""), upload).error == HandleSubmit(d, upload).error
    ensures HandleSubmit(d.(address := "", lastName := ""), upload).submitted.Some? <==> HandleSubmit(d, upload).submitted.Some?
  {
  }

  /** The personal-ID check is on length only: eleven letters pass it. */
  lemma PidLengthOnly()
    ensures HandleSubmit(UserFormData("Ana", "", "abcdefghijk", "555", "a@b.ge", "secret", "", Null), UploadFailed)
      == Outcome("", Some(UserFormData("Ana", "", "abcdefghijk", "555", "a@b.ge", "secret", "", Null)))
  {
    Utf16LengthBmp("abcdefghijk");
    Utf16LengthBmp("secret");
  }

  /** The length checks count UTF-16 code units: three emoji make a password
      of length 6, which passes. */
  lemma AstralPasswordAccepted()
    ensures FieldsError("Ana", "01234567890", "555", "a@b.ge", "\U{1F600}\U{1F600}\U{1F600}").None?
    ensures FieldsError("Ana", "01234567890", "555", "a@b.ge", "\U{1F600}\U{1F600}").Some?
  {
    var emoji := "\U{1F600}";
    assert Utf16Length(emoji) == 2;
    Utf16LengthAppend(emoji, emoji);
    Utf16LengthAppend(emoji + emoji, emoji);
    assert "\U{1F600}\U{1F600}\U{1F600}" == emoji + emoji + emoji;
    Utf16LengthBmp("01234567890");
  }
}
