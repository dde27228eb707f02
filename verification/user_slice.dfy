/** The user slice of the store: the user list, the user being viewed, a
    loading flag and an error. */
module UserSlice {

  import opened Js
  import opened Thunks
  import opened Lists

  datatype UserState = UserState(users: seq<Value>, currentUser: Value, loading: bool, error: Value)

  const InitialState := UserState([], Null, false, Null)

  datatype Thunk = FetchUsers | FetchUserById | UpdateUser | DeleteUser | CreateUser

  /** The message each thunk rejects with when the failure carries none. */
  function Fallback(t: Thunk): string {
    match t
    case FetchUsers => "Failed to fetch users"
    case FetchUserById => "Failed to fetch user"
    case UpdateUser => "Failed to update user"
    case DeleteUser => "Failed to delete user"
    case CreateUser => "Failed to create user"
  }

  /** How a thunk settles: `deleteUser` resolves to the id it was given, the
      others to the response body. */
  function Settle(t: Thunk, argument: string, http: Http): (r: Settled<Value>)
    ensures r.Rejected? <==> http.HttpError?
    ensures r.Rejected? ==> Truthy(r.reason)
    ensures r.Fulfilled? && t == DeleteUser ==> r.payload == Str(argument)
    ensures r.Fulfilled? && t != DeleteUser ==> r.payload == http.data
  {
    if t == DeleteUser then ReturnArgument(http, Str(argument), Fallback(t)) else ReturnData(http, Fallback(t))
  }

  /** Every pending case: loading, and the previous error forgotten. */
  function PendingCase(s: UserState): (r: UserState)
    ensures r.loading && r.error == Null
    ensures r.users == s.users && r.currentUser == s.currentUser
  {
    s.(loading := true, error := Null)
  }

  /** Every rejected case: the reason becomes the error. */
  function RejectedCase(s: UserState, reason: Value): (r: UserState)
    ensures !r.loading && r.error == reason
    ensures r.users == s.users && r.currentUser == s.currentUser
  {
    s.(loading := false, error := reason)
  }

  function FetchUsersFulfilled(s: UserState, users: seq<Value>): (r: UserState)
    ensures !r.loading && r.users == users
    ensures r.currentUser == s.currentUser && r.error == s.error
  {
    s.(loading := false, users := users)
  }

  /** `fetchUserById.fulfilled`: the fetched user is spread over the one being
      viewed, so fields the fetched user lacks keep their previous values. */
  function FetchUserByIdFulfilled(s: UserState, user: Value): (r: UserState)
    ensures !r.loading && r.currentUser.Obj?
    ensures forall k :: Get(r.currentUser, k) == if k in Fields(user) then Fields(user)[k] else Get(s.currentUser, k)
    ensures r.users == s.users && r.error == s.error
  {
    s.(loading := false, currentUser := Merge(s.currentUser, user))
  }

  /** `user.id === id`. */
  function HasId(id: Value): Value -> bool {
    u => Get(u, "id") == id
  }

  /** The list half of `updateUser.fulfilled`: the update is spread over the
      first listed user with its id. */
  function MergeIntoFirst(users: seq<Value>, updated: Value): (r: seq<Value>)
    ensures |r| == |users|
    ensures (forall i :: 0 <= i < |users| ==> Get(users[i], "id") != Get(updated, "id")) ==> r == users
    ensures forall i :: 0 <= i < |users| && Get(users[i], "id") == Get(updated, "id")
                        && (forall k :: 0 <= k < i ==> Get(users[k], "id") != Get(updated, "id")) ==>
      r == users[i := Merge(users[i], updated)]
  {
    ReplaceFirst(users, HasId(Get(updated, "id")), u => Merge(u, updated))
  }

  /** `updateUser.fulfilled`: the update is spread over the viewed user and
      over the first listed user with its id. */
  function UpdateUserFulfilled(s: UserState, updated: Value): (r: UserState)
    ensures !r.loading
    ensures forall k :: Get(r.currentUser, k) == if k in Fields(updated) then Fields(updated)[k] else Get(s.currentUser, k)
    ensures r.users == MergeIntoFirst(s.users, updated)
    ensures r.error == s.error
  {
    s.(loading := false, currentUser := Merge(s.currentUser, updated), users := MergeIntoFirst(s.users, updated))
  }

  /** `user.id !== id`. */
  function OtherId(id: string): Value -> bool {
    u => Get(u, "id") != Str(id)
  }

  /** `deleteUser.fulfilled`: every user with the id goes, and the viewed user
      is cleared only when it has that id. */
  function DeleteUserFulfilled(s: UserState, id: string): (r: UserState)
    ensures !r.loading
    ensures forall i :: 0 <= i < |r.users| ==> Get(r.users[i], "id") != Str(id) && r.users[i] in s.users
    ensures forall i :: 0 <= i < |s.users| && Get(s.users[i], "id") != Str(id) ==> s.users[i] in r.users
    ensures Get(s.currentUser, "id") == Str(id) ==> r.currentUser == Null
    ensures Get(s.currentUser, "id") != Str(id) ==> r.currentUser == s.currentUser
    ensures r.error == s.error
  {
    s.(loading := false, users := Filter(s.users, OtherId(id)),
       currentUser := if Get(s.currentUser, "id") == Str(id) then Null else s.currentUser)
  }

  /** `createUser.fulfilled`: the created user goes at the end. */
  function CreateUserFulfilled(s: UserState, user: Value): (r: UserState)
    ensures !r.loading
    ensures |r.users| == |s.users| + 1 && r.users[..|s.users|] == s.users && r.users[|s.users|] == user
    ensures r.currentUser == s.currentUser && r.error == s.error
  {
    s.(loading := false, users := s.users + [user])
  }

  /** `updateUserProfile`: spread the changes over the viewed user, if any. */
  function UpdateUserProfile(s: UserState, changes: Value): (r: UserState)
    ensures !Truthy(s.currentUser) ==> r == s
    ensures Truthy(s.currentUser) ==>
      && r.currentUser.Obj?
      && (forall k :: Get(r.currentUser, k) == if k in Fields(changes) then Fields(changes)[k] else Get(s.currentUser, k))
    ensures r.users == s.users && r.loading == s.loading && r.error == s.error
  {
    if Truthy(s.currentUser) then s.(currentUser := Merge(s.currentUser, changes)) else s
  }

  datatype Action =
    | ClearError
    | SetCurrentUser(user: Value)
    | ClearCurrentUser
    | UpdateUserProfileAction(changes: Value)
    | Pending(thunk: Thunk)
    | Rejected(thunk: Thunk, reason: Value)
    | UsersFetched(users: seq<Value>)
    | UserFetched(user: Value)
    | UserUpdated(updated: Value)
    | UserDeleted(id: string)
    | UserCreated(user: Value)

  /** The slice's reducer. Loading is raised only by a pending case; the
      error changes only through `clearError`, a pending case or a rejected
      case; and the list changes only through the four list results. */
  function Reduce(s: UserState, a: Action): (r: UserState)
    ensures a.Pending? ==> r.loading && r.error == Null
    ensures !a.Pending? && r.loading ==> s.loading
    ensures !(a.ClearError? || a.Pending? || a.Rejected?) ==> r.error == s.error
    ensures !(a.UsersFetched? || a.UserUpdated? || a.UserDeleted? || a.UserCreated?) ==> r.users == s.users
  {
    match a
    case ClearError => s.(error := Null)
    case SetCurrentUser(u) => s.(currentUser := u)
    case ClearCurrentUser => s.(currentUser := Null)
    case UpdateUserProfileAction(changes) => UpdateUserProfile(s, changes)
    case Pending(_) => PendingCase(s)
    case Rejected(_, reason) => RejectedCase(s, reason)
    case UsersFetched(users) => FetchUsersFulfilled(s, users)
    case UserFetched(u) => FetchUserByIdFulfilled(s, u)
    case UserUpdated(u) => UpdateUserFulfilled(s, u)
    case UserDeleted(id) => DeleteUserFulfilled(s, id)
    case UserCreated(u) => CreateUserFulfilled(s, u)
  }

  /** Deleting a user by id removes a user created with that id: the list is
      the one deleting from the old list gives. */
  lemma DeleteUndoesCreate(s: UserState, user: Value, id: string)
    requires Get(user, "id") == Str(id)
    ensures DeleteUserFulfilled(CreateUserFulfilled(s, user), id).users == DeleteUserFulfilled(s, id).users
  {
    FilterConcat(s.users, [user], OtherId(id));
    assert [user][..0] == [];
  }

  /** Deleting twice is deleting once. */
  lemma DeleteIdempotent(s: UserState, id: string)
    ensures DeleteUserFulfilled(DeleteUserFulfilled(s, id), id) == DeleteUserFulfilled(s, id)
  {
    FilterIdempotent(s.users, OtherId(id));
  }

  /** After a user is fetched, a field the fetched record does not carry still
      shows the value it had for the user viewed before. */
  lemma FetchedUserKeepsStaleFields(s: UserState, user: Value, k: string)
    requires s.currentUser.Obj? && k in s.currentUser.fields && k !in Fields(user)
    ensures Get(Reduce(s, UserFetched(user)).currentUser, k) == s.currentUser.fields[k]
  {
  }

  /** A failed request never changes the list or the viewed user, and always
      leaves a non-empty error behind. */
  lemma FailedRequestKeepsData(s: UserState, t: Thunk, argument: string, http: Http)
    requires http.HttpError?
    ensures var r := Reduce(Reduce(s, Pending(t)), Action.Rejected(t, Settle(t, argument, http).reason));
      r.users == s.users && r.currentUser == s.currentUser && !r.loading && Truthy(r.error)
  {
  }

  /** The spinner shows only while a request is in flight: a run without a
      pending case never raises the loading flag. */
  lemma {:induction false} NoSpinnerWithoutPending(s: UserState, actions: seq<Action>)
    requires !s.loading
    requires forall i :: 0 <= i < |actions| ==> !actions[i].Pending?
    ensures !Replay(Reduce, s, actions).loading
  {
    ReplayPreserves(Reduce, (x: UserState) => !x.loading, (a: Action) => !a.Pending?, s, actions);
  }
}
