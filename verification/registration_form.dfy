/** The registration page: what each of its three tabs hands to `registerUser`,
    what the user tab stores and posts afterwards, and when the page moves on
    to the login screen. */
module RegistrationForm {

  import opened Options
  import opened Js
  import opened Types
  import opened BrowserStorage
  import opened Thunks
  import AuthSlice
  import AdminForm
  import UserForm
  import CourierForm

  /** Where the page goes when a submission is over: `/login`, or nowhere. */
  datatype Navigation = Stay | ToLogin

  // ---------------------------------------------------------------------------
  // Admin tab
  // ---------------------------------------------------------------------------

  /** `{...data, role: "admin"}`: the admin form data, fields the admin form
      has not stay undefined. */
  function AdminRegisterData(d: AdminForm.AdminFormData): (r: AuthSlice.RegisterData)
    ensures r.role == "admin"
    ensures r.email == d.email && r.password == d.password && r.firstName == d.firstName
    ensures r.lastName == Str(d.lastName) && r.phoneNumber == d.phoneNumber && r.pid == d.pid
    ensures r.profileImage == d.profileImage
    ensures r.address == Undefined && r.vehicle == Undefined && r.workingDays == Undefined
  {
    AuthSlice.RegisterData(d.email, d.password, d.firstName, Str(d.lastName), d.phoneNumber, d.pid,
                           Undefined, Undefined, "admin", Undefined, d.profileImage)
  }

  datatype AdminRun = AdminRun(register: AuthSlice.RegisterRun, navigation: Navigation)

  /** `handleAdminSubmit`: register, then go to the login screen; a rejected
      registration is caught and the page stays. */
  function HandleAdminSubmit(d: AdminForm.AdminFormData, http: Http): (r: AdminRun)
    ensures r.register == AuthSlice.RegisterThunk(AdminRegisterData(d), http)
    ensures r.navigation == ToLogin <==> r.register.result.Fulfilled?
    ensures r.register.profileRequest == None
  {
    var run := AuthSlice.RegisterThunk(AdminRegisterData(d), http);
    AdminRun(run, if run.result.Fulfilled? then ToLogin else Stay)
  }

  // ---------------------------------------------------------------------------
  // User tab
  // ---------------------------------------------------------------------------

  /** `{...data, role: "user"}`: the whole form, password included, goes to
      registration. */
  function UserRegisterData(d: UserForm.UserFormData): (r: AuthSlice.RegisterData)
    ensures r.role == "user"
    ensures r.email == d.email && r.password == d.password && r.firstName == d.firstName
    ensures r.lastName == Str(d.lastName) && r.phoneNumber == d.phoneNumber && r.pid == d.pid
    ensures r.address == Str(d.address) && r.profileImage == d.profileImage
    ensures r.vehicle == Undefined && r.workingDays == Undefined
  {
    AuthSlice.RegisterData(d.email, d.password, d.firstName, Str(d.lastName), d.phoneNumber, d.pid,
                           Str(d.address), Undefined, "user", Undefined, d.profileImage)
  }

  const UserResourceKeys: set<string> := {"firstName", "lastName", "email", "phoneNumber", "pid", "address", "profileImage"}

  /** The user resource posted after registration: seven profile fields, the
      password left out, "" for a missing address or image. */
  function UserResource(d: UserForm.UserFormData): (r: Value)
    ensures r.Obj? && r.fields.Keys == UserResourceKeys && "password" !in r.fields
    ensures r.fields["firstName"] == Str(d.firstName) && r.fields["lastName"] == Str(d.lastName)
    ensures r.fields["email"] == Str(d.email) && r.fields["phoneNumber"] == Str(d.phoneNumber)
    ensures r.fields["pid"] == Str(d.pid) && r.fields["address"] == Str(d.address)
    ensures r.fields["profileImage"] == (if Truthy(d.profileImage) then d.profileImage else Str(""))
  {
    Obj(map[
      "firstName" := Str(d.firstName),
      "lastName" := Str(d.lastName),
      "email" := Str(d.email),
      "phoneNumber" := Str(d.phoneNumber),
      "pid" := Str(d.pid),
      "address" := Or(Str(d.address), Str("")),
      "profileImage" := Or(d.profileImage, Str(""))])
  }

  /** `POST /resource/{collection}` with its body and Authorization header. */
  datatype ResourceRequest = ResourceRequest(collection: string, body: Value, authorization: string)

  datatype UserRun = UserRun(
    register: AuthSlice.RegisterRun,
    storage: Storage,
    resourceRequest: Option<ResourceRequest>,
    navigation: Navigation)

  /** `handleUserSubmit`: register; store the returned token if there is one;
      post the user resource with the token as bearer; then go to the login
      screen. `resourceCreated` is whether that post succeeds. */
  function HandleUserSubmit(d: UserForm.UserFormData, http: Http, resourceCreated: bool, st: Storage): (r: UserRun)
    ensures r.register == AuthSlice.RegisterThunk(UserRegisterData(d), http)
    ensures r.register.result.Rejected? ==> r.storage == st && r.resourceRequest == None
    ensures r.register.result.Fulfilled? ==>
      var token := Get(r.register.result.payload, "token");
      && (Truthy(token) ==> GetItem(r.storage, "token") == Some(ToText(token)))
      && (!Truthy(token) ==> r.storage == st)
      && (forall k :: k != "token" ==> GetItem(r.storage, k) == GetItem(st, k))
      && r.resourceRequest == Some(ResourceRequest("users", UserResource(d), "Bearer " + ToText(token)))
    ensures r.navigation == ToLogin <==> r.register.result.Fulfilled? && resourceCreated
  {
    var run := AuthSlice.RegisterThunk(UserRegisterData(d), http);
    match run.result
    case Rejected(_) => UserRun(run, st, None, Stay)
    case Fulfilled(payload) =>
      var token := Get(payload, "token");
      var stored := if Truthy(token) then SetItem(st, "token", ToText(token)) else st;
      var request := ResourceRequest("users", UserResource(d), "Bearer " + ToText(token));
      UserRun(run, stored, Some(request), if resourceCreated then ToLogin else Stay)
  }

  /** A registration answered without credentials still settles fulfilled, so
      the user resource is posted with the header `Bearer null`, and the page
      moves on when that post is accepted. */
  lemma UserWithoutCredentials(d: UserForm.UserFormData, st: Storage)
    ensures var r := HandleUserSubmit(d, Ok(Obj(map[])), true, st);
      && r.storage == st
      && r.resourceRequest == Some(ResourceRequest("users", UserResource(d), "Bearer null"))
      && r.navigation == ToLogin
  {
    var run := AuthSlice.RegisterThunk(UserRegisterData(d), Ok(Obj(map[])));
    assert run.result.payload == Obj(map["user" := Null, "token" := Null]);
    assert Get(run.result.payload, "token") == Null;
    assert "Bearer " + ToText(Null) == "Bearer null";
  }

  // ---------------------------------------------------------------------------
  // Courier tab
  // ---------------------------------------------------------------------------

  /** The courier registration: the form's fields, role "courier", "" for a
      missing last name or vehicle, always "" for the address (the courier
      form has none), and the schedule as an array. */
  function CourierRegisterData(d: CourierForm.CourierFormData): (r: AuthSlice.RegisterData)
    ensures r.role == "courier"
    ensures r.email == d.email && r.password == d.password && r.firstName == d.firstName
    ensures r.lastName == Str(d.lastName) && r.phoneNumber == d.phoneNumber && r.pid == d.pid
    ensures r.address == Str("") && r.vehicle == Str(d.vehicle)
    ensures r.profileImage == d.profileImage && r.workingDays == WorkingDaysValue(d.workingDays)
  {
    AuthSlice.RegisterData(d.email, d.password, d.firstName, Or(Str(d.lastName), Str("")), d.phoneNumber, d.pid,
                           Str(""), Or(Str(d.vehicle), Str("")), "courier",
                           Or(WorkingDaysValue(d.workingDays), Arr([])), d.profileImage)
  }

  datatype CourierRun = CourierRun(register: AuthSlice.RegisterRun, navigation: Navigation)

  function HandleCourierSubmit(d: CourierForm.CourierFormData, http: Http): (r: CourierRun)
    ensures r.register == AuthSlice.RegisterThunk(CourierRegisterData(d), http)
    ensures r.navigation == ToLogin <==> r.register.result.Fulfilled?
  {
    var run := AuthSlice.RegisterThunk(CourierRegisterData(d), http);
    CourierRun(run, if run.result.Fulfilled? then ToLogin else Stay)
  }

  /** A courier registration answered with a user and a token always sends the
      courier-resource request, carrying the submitted schedule: the schedule
      array is never falsy. */
  lemma CourierProfileAlwaysRequested(d: CourierForm.CourierFormData, body: Value)
    requires Truthy(Get(body, "user")) && Truthy(AuthSlice.AccessToken(body))
    ensures var r := HandleCourierSubmit(d, Ok(body));
      && r.navigation == ToLogin
      && r.register.profileRequest.Some?
      && Get(Get(r.register.profileRequest.value, "data").items[0], "workingDays") == WorkingDaysValue(d.workingDays)
  {
    var data := CourierRegisterData(d);
    assert Truthy(data.workingDays);
    var run := AuthSlice.RegisterThunk(data, Ok(body));
    assert run.result.Fulfilled? && Get(run.result.payload, "token") == AuthSlice.AccessToken(body);
  }

  /** A rejected registration never leaves the page, on any tab. */
  lemma RejectedRegistrationStays(a: AdminForm.AdminFormData, u: UserForm.UserFormData, c: CourierForm.CourierFormData,
                                  response: Value, resourceCreated: bool, st: Storage)
    ensures HandleAdminSubmit(a, HttpError(response)).navigation == Stay
    ensures HandleUserSubmit(u, HttpError(response), resourceCreated, st).navigation == Stay
    ensures HandleUserSubmit(u, HttpError(response), resourceCreated, st).storage == st
    ensures HandleCourierSubmit(c, HttpError(response)).navigation == Stay
  {
  }
}
