/** The authentication slice of the store: its state, the `logout`,
    `initializeAuth` and `clearError` reducers, the `registerUser` and
    `loginUser` thunks, and their pending, fulfilled and rejected cases. A
    reducer acts on a session: the slice state together with the browser
    storage it reads and writes. */
module AuthSlice {

  import opened Options
  import opened Js
  import opened BrowserStorage
  import opened Thunks
  import opened Lists

  datatype AuthState = AuthState(
    user: Value,
    users: seq<Value>,
    token: Value,
    isAuthenticated: bool,
    role: Value,
    loading: bool,
    error: Value)

  const InitialState := AuthState(Null, [], Null, false, Null, false, Null)

  datatype Session = Session(state: AuthState, storage: Storage)

  /** `JSON.stringify` and `JSON.parse`, taken as given; `parse` is `None`
      where `JSON.parse` throws. */
  datatype JsonCodec = JsonCodec(stringify: Value -> string, parse: string -> Option<Value>)

  /** The state and storage a session is in after a reload with that storage,
      before `initializeAuth` runs. */
  function Reload(st: Storage): Session {
    Session(InitialState, st)
  }

  // ---------------------------------------------------------------------------
  // Plain reducers
  // ---------------------------------------------------------------------------

  function ClearError(s: Session): (r: Session)
    ensures r.state.error == Null
    ensures r == Session(s.state.(error := r.state.error), s.storage)
  {
    Session(s.state.(error := Null), s.storage)
  }

  /** `logout`: the session is cleared and the three storage keys removed. */
  function Logout(s: Session): (r: Session)
    ensures r.state.user == Null && r.state.token == Null && r.state.role == Null
    ensures !r.state.isAuthenticated && !r.state.loading && r.state.error == Null
    ensures r.state.users == s.state.users
    ensures GetItem(r.storage, "token").None? && GetItem(r.storage, "user").None? && GetItem(r.storage, "role").None?
    ensures forall k :: k !in {"token", "user", "role"} ==> GetItem(r.storage, k) == GetItem(s.storage, k)
  {
    var state := s.state.(user := Null, token := Null, isAuthenticated := false, role := Null, loading := false, error := Null);
    Session(state, RemoveItem(RemoveItem(RemoveItem(s.storage, "token"), "user"), "role"))
  }

  lemma LogoutIdempotent(s: Session)
    ensures Logout(Logout(s)) == Logout(s)
  {
    var once := Logout(s);
    assert once.storage - {"token"} - {"user"} - {"role"} == once.storage;
  }

  /** `initializeAuth` exactly as written. The three assignments before
      `user.role` stay in place when reading `role` throws, because the
      exception is caught inside the reducer. */
  function InitializeAuthAsWritten(s: Session, codec: JsonCodec): (r: Session)
    ensures !(HasItem(s.storage, "token") && HasItem(s.storage, "user")) ==> r == s
    ensures HasItem(s.storage, "token") && HasItem(s.storage, "user") && codec.parse(s.storage["user"]).None? ==>
      r == Session(s.state, RemoveItem(RemoveItem(s.storage, "token"), "user"))
    ensures HasItem(s.storage, "token") && HasItem(s.storage, "user") && codec.parse(s.storage["user"]).Some? ==>
      r.state.isAuthenticated && r.state.user == codec.parse(s.storage["user"]).value
    ensures HasItem(s.storage, "token") && HasItem(s.storage, "user")
            && codec.parse(s.storage["user"]) in {Some(Null), Some(Undefined)} ==>
      r == Session(s.state.(user := codec.parse(s.storage["user"]).value, token := Str(s.storage["token"]), isAuthenticated := true),
                   RemoveItem(RemoveItem(s.storage, "token"), "user"))
  {
    var st := s.storage;
    if HasItem(st, "token") && HasItem(st, "user") then
      (match codec.parse(st["user"])
       case None => Session(s.state, RemoveItem(RemoveItem(st, "token"), "user"))
       case Some(user) =>
         var halfway := s.state.(user := user, token := Str(st["token"]), isAuthenticated := true);
         match Read(user, "role")
         case None => Session(halfway, RemoveItem(RemoveItem(st, "token"), "user"))
         case Some(role) => Session(halfway.(role := role), st))
    else s
  }

  /** A stored user of "null" parses, then `user.role` throws: the keys are
      removed as for a parse failure, yet the session is left authenticated
      with a null user. */
  lemma NullStoredUserAuthenticates(codec: JsonCodec)
    requires codec.parse("null") == Some(Null)
    ensures var r := InitializeAuthAsWritten(Reload(map["token" := "t", "user" := "null"]), codec);
      && r.state.isAuthenticated
      && r.state.user == Null
      && GetItem(r.storage, "token").None?
    ensures !SignedInWithUser(Reduce(Reload(map["token" := "t", "user" := "null"]), InitializeAuthAction, codec).state)
  {
  }

  /** `initializeAuth` as its catch clause intends it: a stored user that
      cannot be used, because it does not parse or has no properties to read,
      clears the two keys and leaves the state as it was. */
  function InitializeAuth(s: Session, codec: JsonCodec): (r: Session)
    ensures !(HasItem(s.storage, "token") && HasItem(s.storage, "user")) ==> r == s
    ensures HasItem(s.storage, "token") && HasItem(s.storage, "user") ==>
      match codec.parse(s.storage["user"])
      case Some(user) =>
        if user.Null? || user.Undefined? then r == Session(s.state, RemoveItem(RemoveItem(s.storage, "token"), "user"))
        else r == Session(s.state.(user := user, token := Str(s.storage["token"]), isAuthenticated := true, role := Get(user, "role")), s.storage)
      case None => r == Session(s.state, RemoveItem(RemoveItem(s.storage, "token"), "user"))
    ensures GetItem(r.storage, "role") == GetItem(s.storage, "role")
    ensures r.state.isAuthenticated && !s.state.isAuthenticated ==>
      && !r.state.user.Null? && !r.state.user.Undefined?
      && HasItem(r.storage, "token") && HasItem(r.storage, "user")
  {
    var st := s.storage;
    if HasItem(st, "token") && HasItem(st, "user") then
      (match codec.parse(st["user"])
       case None => Session(s.state, RemoveItem(RemoveItem(st, "token"), "user"))
       case Some(user) =>
         match Read(user, "role")
         case None => Session(s.state, RemoveItem(RemoveItem(st, "token"), "user"))
         case Some(role) => Session(s.state.(user := user, token := Str(st["token"]), isAuthenticated := true, role := role), st))
    else s
  }

  /** Both versions agree on every stored user except one that parses to null
      (or to undefined, which `JSON.parse` never returns). */
  lemma InitializeAuthAgrees(s: Session, codec: JsonCodec)
    requires !(HasItem(s.storage, "token") && HasItem(s.storage, "user")
               && codec.parse(s.storage["user"]) in {Some(Null), Some(Undefined)})
    ensures InitializeAuth(s, codec) == InitializeAuthAsWritten(s, codec)
  {
  }

  // ---------------------------------------------------------------------------
  // Thunks
  // ---------------------------------------------------------------------------

  /** `credentials?.accessToken` of a response body. */
  function AccessToken(body: Value): Value {
    Get(Get(body, "credentials"), "accessToken")
  }

  datatype LoginData = LoginData(email: string, password: string, role: string)

  /** `{user, token, loginRole}`. */
  datatype LoginPayload = LoginPayload(user: Value, token: Value, loginRole: string)

  /** The `loginUser` thunk. A body without an access token is rejected, and so
      is a null body, whose `.user` throws; neither has a response to take a
      message from. */
  function LoginThunk(data: LoginData, http: Http): (r: Settled<LoginPayload>)
    ensures r.Fulfilled? <==> http.Ok? && !http.data.Null? && !http.data.Undefined? && Truthy(AccessToken(http.data))
    ensures r.Fulfilled? ==> Truthy(r.payload.token) && r.payload.loginRole == data.role
                             && r.payload.user == Get(http.data, "user") && r.payload.token == AccessToken(http.data)
    ensures http.HttpError? ==> r == Rejected(RejectionMessage(http.response, "Login failed"))
    ensures http.Ok? && r.Rejected? ==> r.reason == Str("Login failed")
  {
    match http
    case HttpError(response) => Rejected(RejectionMessage(response, "Login failed"))
    case Ok(body) =>
      match Read(body, "user")
      case None => Rejected(RejectionMessage(Undefined, "Login failed"))
      case Some(user) =>
        var token := AccessToken(body);
        if !Truthy(token) then Rejected(RejectionMessage(Undefined, "Login failed"))
        else Fulfilled(LoginPayload(user, token, data.role))
  }

  /** The argument of `registerUser`; the optional fields are JavaScript values
      that may be undefined. */
  datatype RegisterData = RegisterData(
    email: string,
    password: string,
    firstName: string,
    lastName: Value,
    phoneNumber: string,
    pid: string,
    address: Value,
    vehicle: Value,
    role: string,
    workingDays: Value,
    profileImage: Value)

  /** The body of the follow-up request that creates a courier's resource. */
  function CourierProfileBody(d: RegisterData, user: Value): (r: Value)
    ensures Get(r, "data").Arr? && |Get(r, "data").items| == 1
    ensures var c := Get(r, "data").items[0];
      && Get(c, "workingDays") == d.workingDays && Get(c, "vehicle") == d.vehicle
      && Get(c, "pid") == Str(d.pid) && Get(c, "email") == Str(d.email)
      && Get(c, "name") == Str(d.firstName + " " + ToText(d.lastName))
      && Get(c, "userId") == Get(user, "id")
  {
    Obj(map["data" := Arr([Obj(map[
      "workingDays" := d.workingDays,
      "vehicle" := d.vehicle,
      "pid" := Str(d.pid),
      "name" := Str(d.firstName + " " + ToText(d.lastName)),
      "email" := Str(d.email),
      "userId" := Get(user, "id")])])])
  }

  /** The user the thunk resolves with: the backend's user with the submitted
      profile fields written over it. */
  function RegisteredUser(d: RegisterData, user: Value): (r: Value)
    ensures r.Obj? && Get(r, "role") == Str(d.role) && Get(r, "pid") == Str(d.pid)
    ensures Get(r, "workingDays") == d.workingDays && Get(r, "profileImage") == d.profileImage
    ensures Get(r, "phoneNumber") == Str(d.phoneNumber) && Get(r, "address") == d.address && Get(r, "vehicle") == d.vehicle
    ensures forall k :: k in Fields(user) && k !in {"role", "phoneNumber", "pid", "address", "vehicle", "workingDays", "profileImage"} ==>
      Get(r, k) == Get(user, k)
  {
    Merge(user, Obj(map[
      "role" := Str(d.role),
      "phoneNumber" := Str(d.phoneNumber),
      "pid" := Str(d.pid),
      "address" := d.address,
      "vehicle" := d.vehicle,
      "workingDays" := d.workingDays,
      "profileImage" := d.profileImage]))
  }

  /** What one run of `registerUser` does: the courier-resource request it
      sends, if any, and how it settles. The outcome of that second request is
      not an input: its failure is caught and ignored. */
  datatype RegisterRun = RegisterRun(profileRequest: Option<Value>, result: Settled<Value>)

  function RegisterThunk(d: RegisterData, http: Http): (r: RegisterRun)
    ensures http.HttpError? ==> r == RegisterRun(None, Rejected(RejectionMessage(http.response, "Registration failed")))
    ensures r.result.Rejected? <==> http.HttpError? || http.data.Null? || http.data.Undefined?
    ensures r.result.Fulfilled? ==>
      var user := Get(http.data, "user");
      var token := AccessToken(http.data);
      if Truthy(user) && Truthy(token) then
        r.result.payload == Obj(map["user" := RegisteredUser(d, user), "token" := token])
      else
        r.result.payload == Obj(map["user" := Null, "token" := Null])
    ensures r.profileRequest.Some? <==>
      && r.result.Fulfilled? && Truthy(Get(r.result.payload, "token"))
      && d.role == "courier" && Truthy(d.workingDays)
    ensures r.profileRequest.Some? ==> r.profileRequest.value == CourierProfileBody(d, Get(http.data, "user"))
  {
    match http
    case HttpError(response) => RegisterRun(None, Rejected(RejectionMessage(response, "Registration failed")))
    case Ok(body) =>
      match Read(body, "user")
      case None => RegisterRun(None, Rejected(RejectionMessage(Undefined, "Registration failed")))
      case Some(user) =>
        var token := AccessToken(body);
        if Truthy(token) && Truthy(user) then
          var profile := if d.role == "courier" && Truthy(d.workingDays) then Some(CourierProfileBody(d, user)) else None;
          RegisterRun(profile, Fulfilled(Obj(map["user" := RegisteredUser(d, user), "token" := token])))
        else RegisterRun(None, Fulfilled(Obj(map["user" := Null, "token" := Null])))
  }

  // ---------------------------------------------------------------------------
  // Thunk cases
  // ---------------------------------------------------------------------------

  /** `registerUser.pending` and `loginUser.pending`. */
  function Pending(s: Session): (r: Session)
    ensures r.state.loading && r.state.error == Null
    ensures r == Session(s.state.(loading := r.state.loading, error := r.state.error), s.storage)
  {
    Session(s.state.(loading := true, error := Null), s.storage)
  }

  /** `registerUser.rejected` and `loginUser.rejected`: the error is the
      rejection payload; user, token and the session flags stay. */
  function RejectedCase(s: Session, reason: Value): (r: Session)
    ensures !r.state.loading && r.state.error == reason
    ensures r.state.user == s.state.user && r.state.token == s.state.token
    ensures r.state.isAuthenticated == s.state.isAuthenticated && r.state.role == s.state.role
    ensures r.storage == s.storage
  {
    Session(s.state.(loading := false, error := reason), s.storage)
  }

  /** `registerUser.fulfilled`: whatever the payload, registration leaves the
      session signed out. */
  function RegisterFulfilled(s: Session, payload: Value): (r: Session)
    ensures !r.state.isAuthenticated && r.state.user == Null && r.state.token == Null && r.state.role == Null
    ensures !r.state.loading && r.state.error == Null
    ensures r.storage == s.storage && r.state.users == s.state.users
  {
    Session(s.state.(loading := false, user := Null, token := Null, isAuthenticated := false, role := Null, error := Null), s.storage)
  }

  /** The role `loginUser.fulfilled` settles on: the user's `role`, else the
      first truthy of `userRole`, `type` and `roleType`, else the role chosen at
      login. */
  function FinalRole(user: Value, loginRole: string): (r: Value)
    ensures Truthy(Get(user, "role")) ==> r == Get(user, "role")
    ensures !Truthy(Get(user, "role")) && Truthy(Get(user, "userRole")) ==> r == Get(user, "userRole")
    ensures !Truthy(Get(user, "role")) && !Truthy(Get(user, "userRole")) && Truthy(Get(user, "type")) ==> r == Get(user, "type")
    ensures (!Truthy(Get(user, "role")) && !Truthy(Get(user, "userRole")) && !Truthy(Get(user, "type"))
             && Truthy(Get(user, "roleType"))) ==> r == Get(user, "roleType")
    ensures (!Truthy(Get(user, "role")) && !Truthy(Get(user, "userRole")) && !Truthy(Get(user, "type"))
             && !Truthy(Get(user, "roleType"))) ==> r == Str(loginRole)
    ensures loginRole != "" ==> Truthy(r)
  {
    var first := Get(user, "role");
    var second := if Truthy(first) then first else Or(Or(Get(user, "userRole"), Get(user, "type")), Get(user, "roleType"));
    if Truthy(second) then second else Str(loginRole)
  }

  /** The profile fields `loginUser.fulfilled` writes over the backend's user. */
  const ProfileKeys: set<string> := {"role", "profileImage", "pid", "phoneNumber", "address", "vehicle", "workingDays"}

  /** The value written for one profile field: the settled role, or the
      user's own field with [] or "" when it is falsy. */
  function ProfileDefault(user: Value, loginRole: string, k: string): Value {
    if k == "role" then FinalRole(user, loginRole)
    else if k == "workingDays" then Or(Get(user, k), Arr([]))
    else Or(Get(user, k), Str(""))
  }

  /** The values written over the backend's user: the settled role, and the
      user's own profile fields with "" or [] for those it lacks. */
  function ProfileDefaults(user: Value, loginRole: string): (d: map<string, Value>)
    ensures d.Keys == ProfileKeys
    ensures "role" in d && d["role"] == FinalRole(user, loginRole)
    ensures "profileImage" in d && d["profileImage"] == Or(Get(user, "profileImage"), Str(""))
    ensures "pid" in d && d["pid"] == Or(Get(user, "pid"), Str(""))
    ensures "phoneNumber" in d && d["phoneNumber"] == Or(Get(user, "phoneNumber"), Str(""))
    ensures "address" in d && d["address"] == Or(Get(user, "address"), Str(""))
    ensures "vehicle" in d && d["vehicle"] == Or(Get(user, "vehicle"), Str(""))
    ensures "workingDays" in d && d["workingDays"] == Or(Get(user, "workingDays"), Arr([]))
  {
    map k | k in ProfileKeys :: ProfileDefault(user, loginRole, k)
  }

  /** The user stored after login: the backend's user with the settled role and
      "" or [] for the profile fields it lacks. */
  function CompleteUser(user: Value, loginRole: string): (r: Value)
    ensures r.Obj? && Get(r, "role") == FinalRole(user, loginRole)
    ensures Get(r, "profileImage") == Or(Get(user, "profileImage"), Str(""))
    ensures Get(r, "pid") == Or(Get(user, "pid"), Str(""))
    ensures Get(r, "phoneNumber") == Or(Get(user, "phoneNumber"), Str(""))
    ensures Get(r, "address") == Or(Get(user, "address"), Str(""))
    ensures Get(r, "vehicle") == Or(Get(user, "vehicle"), Str(""))
    ensures Get(r, "workingDays") == Or(Get(user, "workingDays"), Arr([]))
    ensures forall k :: k in Fields(user) && k !in ProfileKeys ==> Get(r, k) == Get(user, k)
  {
    var d := ProfileDefaults(user, loginRole);
    var r := Merge(user, Obj(d));
    assert forall k :: k in ProfileKeys ==> Get(r, k) == d[k];
    r
  }

  /** `loginUser.fulfilled`: signed in as the completed user, with `token` and
      `user` written to storage and no `role` key written. */
  function LoginFulfilled(s: Session, p: LoginPayload, codec: JsonCodec): (r: Session)
    ensures r.state.isAuthenticated && !r.state.loading && r.state.error == Null
    ensures r.state.user == CompleteUser(p.user, p.loginRole) && r.state.token == p.token
    ensures r.state.role == FinalRole(p.user, p.loginRole)
    ensures GetItem(r.storage, "token") == Some(ToText(p.token))
    ensures GetItem(r.storage, "user") == Some(codec.stringify(CompleteUser(p.user, p.loginRole)))
    ensures forall k :: k != "token" && k != "user" ==> GetItem(r.storage, k) == GetItem(s.storage, k)
  {
    var finalRole := FinalRole(p.user, p.loginRole);
    var completeUser := CompleteUser(p.user, p.loginRole);
    var state := s.state.(loading := false, user := completeUser, token := p.token, isAuthenticated := true,
                          role := finalRole, error := Null);
    Session(state, SetItem(SetItem(s.storage, "token", ToText(p.token)), "user", codec.stringify(completeUser)))
  }

  // ---------------------------------------------------------------------------
  // The reducer
  // ---------------------------------------------------------------------------

  datatype Action =
    | ClearErrorAction
    | LogoutAction
    | InitializeAuthAction
    | RegisterPending
    | RegisterFulfilledAction(payload: Value)
    | RegisterRejected(reason: Value)
    | LoginPending
    | LoginFulfilledAction(login: LoginPayload)
    | LoginRejected(reason: Value)

  /** The slice's reducer, with `initializeAuth` as written. Nothing touches
      the user list; only logout, `initializeAuth` and a fulfilled login touch
      storage; the "role" key is removed but never written; and only a
      fulfilled login or `initializeAuth` signs a session in. */
  function Reduce(s: Session, a: Action, codec: JsonCodec): (r: Session)
    ensures r.state.users == s.state.users
    ensures !(a.LogoutAction? || a.InitializeAuthAction? || a.LoginFulfilledAction?) ==> r.storage == s.storage
    ensures GetItem(r.storage, "role").Some? ==> GetItem(r.storage, "role") == GetItem(s.storage, "role")
    ensures r.state.isAuthenticated && !s.state.isAuthenticated ==> a.LoginFulfilledAction? || a.InitializeAuthAction?
  {
    match a
    case ClearErrorAction => ClearError(s)
    case LogoutAction => Logout(s)
    case InitializeAuthAction => InitializeAuthAsWritten(s, codec)
    case RegisterPending => Pending(s)
    case RegisterFulfilledAction(payload) => RegisterFulfilled(s, payload)
    case RegisterRejected(reason) => RejectedCase(s, reason)
    case LoginPending => Pending(s)
    case LoginFulfilledAction(p) => LoginFulfilled(s, p, codec)
    case LoginRejected(reason) => RejectedCase(s, reason)
  }

  /** A signed-in session has a user whose properties can be read. */
  predicate SignedInWithUser(st: AuthState) {
    st.isAuthenticated ==> !st.user.Null? && !st.user.Undefined?
  }

  /** The reducer with the corrected `initializeAuth`: it differs from the
      slice's only on that action, and it never leaves a session signed in
      without a user. */
  function ReduceCorrected(s: Session, a: Action, codec: JsonCodec): (r: Session)
    ensures a != InitializeAuthAction ==> r == Reduce(s, a, codec)
    ensures SignedInWithUser(s.state) ==> SignedInWithUser(r.state)
  {
    if a == InitializeAuthAction then InitializeAuth(s, codec) else Reduce(s, a, codec)
  }

  function Step(codec: JsonCodec): (Session, Action) -> Session {
    (s, a) => Reduce(s, a, codec)
  }

  function CorrectedStep(codec: JsonCodec): (Session, Action) -> Session {
    (s, a) => ReduceCorrected(s, a, codec)
  }

  /** Across any run of actions the "role" storage key is at most removed:
      if it is present at the end, it holds what it held at the start. */
  lemma {:induction false} RoleKeyNeverWritten(s: Session, actions: seq<Action>, codec: JsonCodec)
    ensures var r := Replay(Step(codec), s, actions);
      GetItem(r.storage, "role").Some? ==> GetItem(r.storage, "role") == GetItem(s.storage, "role")
  {
    var inv := (x: Session) => GetItem(x.storage, "role").Some? ==> GetItem(x.storage, "role") == GetItem(s.storage, "role");
    ReplayPreserves(Step(codec), inv, (a: Action) => true, s, actions);
  }

  /** With the corrected reducer, no run that starts from a reload ever
      reaches a signed-in session without a user. */
  lemma {:induction false} CorrectedRunKeepsSignedInUser(st: Storage, actions: seq<Action>, codec: JsonCodec)
    ensures SignedInWithUser(Replay(CorrectedStep(codec), Reload(st), actions).state)
  {
    var inv := (x: Session) => SignedInWithUser(x.state);
    ReplayPreserves(CorrectedStep(codec), inv, (a: Action) => true, Reload(st), actions);
  }

  /** The actions a settled thunk dispatches after its pending one. */
  function LoginSettled(r: Settled<LoginPayload>): Action {
    match r
    case Fulfilled(p) => LoginFulfilledAction(p)
    case Rejected(reason) => LoginRejected(reason)
  }

  /** A login that fails never signs a session in, and leaves its user, token
      and storage as they were. */
  lemma FailedLoginKeepsSession(s: Session, data: LoginData, http: Http, codec: JsonCodec)
    requires LoginThunk(data, http).Rejected?
    ensures var r := Reduce(Reduce(s, LoginPending, codec), LoginSettled(LoginThunk(data, http)), codec);
      && r.state.isAuthenticated == s.state.isAuthenticated
      && r.state.user == s.state.user && r.state.token == s.state.token
      && r.storage == s.storage
      && !r.state.loading && Truthy(r.state.error)
  {
  }

  /** After a successful login, a reload restores the same user, role and
      signed-in flag from storage, provided the stored user reads back as
      written. */
  lemma {:induction false} LoginThenReload(s: Session, p: LoginPayload, codec: JsonCodec)
    requires ToText(p.token) != ""
    requires codec.stringify(CompleteUser(p.user, p.loginRole)) != ""
    requires codec.parse(codec.stringify(CompleteUser(p.user, p.loginRole))) == Some(CompleteUser(p.user, p.loginRole))
    ensures var signedIn := LoginFulfilled(s, p, codec);
      var reloaded := InitializeAuthAsWritten(Reload(signedIn.storage), codec);
      && reloaded.state.isAuthenticated
      && reloaded.state.user == signedIn.state.user
      && reloaded.state.role == signedIn.state.role
      && reloaded.state.token == Str(ToText(p.token))
      && reloaded.storage == signedIn.storage
  {
    var signedIn := LoginFulfilled(s, p, codec);
    var u := CompleteUser(p.user, p.loginRole);
    assert signedIn.storage["user"] == codec.stringify(u);
    assert signedIn.storage["token"] == ToText(p.token);
    assert Read(u, "role") == Some(FinalRole(p.user, p.loginRole));
  }

  /** After a logout, a reload stays signed out. */
  lemma LogoutThenReload(s: Session, codec: JsonCodec)
    ensures InitializeAuthAsWritten(Reload(Logout(s).storage), codec) == Reload(Logout(s).storage)
    ensures !InitializeAuthAsWritten(Reload(Logout(s).storage), codec).state.isAuthenticated
  {
  }
}
