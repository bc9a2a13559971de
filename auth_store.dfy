/** The authentication store: whether a user is signed in, who, with which
    token, and the progress and error of the last login. The replies of the
    back end are inputs of the methods. */
module AuthStore {
  import opened Common

  const LOGIN_FAILED: string := "登录失败"
  const NOT_LOGGED_IN: string := "用户未登录"

  /** What `api.post('/auth/login', credentials)` produced: a reply (its
      `code`, the `data` object with its `user` and `token` when present, and
      its `message`), or a thrown error with its message and the message of
      the error response, if any. */
  datatype LoginData = LoginData(user: Option<Object>, token: Option<string>)
  datatype LoginExchange =
    | LoginReply(code: Option<int>, data: Option<LoginData>, message: Option<string>)
    | LoginThrew(errorMessage: string, responseMessage: Option<string>)

  /** What `api.get('/user')` produced. */
  datatype UserExchange =
    | UserReply(code: Option<int>, data: Option<Object>, message: Option<string>)
    | UserThrew(errorMessage: string)

  /** `{ success, error }` returned by login and updateUser. */
  datatype Outcome = Success | Failure(error: string)

  /** The fields the store persists. */
  datatype PersistedAuth = PersistedAuth(isAuthenticated: bool, user: Option<Object>, token: Option<string>)

  /** The login reply is usable: code 200 with both a token and a user. */
  predicate LoginAccepted(r: LoginExchange) {
    r.LoginReply? && r.code == Some(200) && r.data.Some? && Truthy(r.data.value.token) && r.data.value.user.Some?
  }

  /** The error a failed login shows: the reply's message, else the thrown
      error's message, else the response's message, else the default. */
  function LoginError(r: LoginExchange): (e: string)
    ensures e != ""
  {
    match r
    case LoginReply(_, _, message) => OrElse(message, LOGIN_FAILED)
    case LoginThrew(m, responseMessage) => if m != "" then m else OrElse(responseMessage, LOGIN_FAILED)
  }

  class AuthState {
    var isAuthenticated: bool
    var user: Option<Object>
    var token: Option<string>
    var isLoading: bool
    var error: Option<string>

    /** A signed-in store knows its user and holds a token. */
    ghost predicate Valid()
      reads this`isAuthenticated, this`user, this`token
    {
      isAuthenticated ==> user.Some? && Truthy(token)
    }

    constructor ()
      ensures Valid()
      ensures !isAuthenticated && user.None? && token.None? && !isLoading && error.None?
    {
      isAuthenticated, user, token, isLoading, error := false, None, None, false, None;
    }

    /** `login(credentials)`: an accepted reply signs in with its user and
        token; anything else, a thrown error included, leaves the store
        signed out with the error message. */
    method Login(reply: LoginExchange) returns (outcome: Outcome)
      modifies this
      ensures Valid()
      ensures !isLoading
      ensures LoginAccepted(reply) ==>
        && outcome == Success && isAuthenticated
        && user == reply.data.value.user && token == reply.data.value.token && error.None?
      ensures !LoginAccepted(reply) ==>
        && outcome == Failure(LoginError(reply)) && !isAuthenticated
        && user.None? && token.None? && error == Some(LoginError(reply))
    {
      isLoading, error := true, None;
      if LoginAccepted(reply) {
        var data := reply.data.value;
        isAuthenticated, user, token, isLoading, error := true, data.user, data.token, false, None;
        return Success;
      }
      var message := LoginError(reply);
      isAuthenticated, user, token, isLoading, error := false, None, None, false, Some(message);
      return Failure(message);
    }

    /** `logout()`: whatever the request did, the store ends signed out. */
    method Logout()
      modifies this
      ensures Valid()
      ensures !isAuthenticated && user.None? && token.None? && !isLoading && error.None?
    {
      isAuthenticated, user, token, isLoading, error := false, None, None, false, None;
    }

    /** `fetchCurrentUser()`: without a token nothing is asked and nothing
        changes; a 200 reply with data refreshes the user; any other outcome
        signs the store out. */
    method FetchCurrentUser(reply: UserExchange) returns (success: bool)
      requires Valid()
      modifies this`isAuthenticated, this`user, this`token, this`error
      ensures Valid()
      ensures !Truthy(old(token)) ==> !success && unchanged(this)
      ensures Truthy(old(token)) && reply.UserReply? && reply.code == Some(200) && reply.data.Some? ==>
        && success && user == reply.data && isAuthenticated && error.None? && token == old(token)
      ensures Truthy(old(token)) && !(reply.UserReply? && reply.code == Some(200) && reply.data.Some?) ==>
        && !success && !isAuthenticated && user.None? && token.None? && error == old(error)
    {
      if !Truthy(token) {
        return false;
      }
      if reply.UserReply? && reply.code == Some(200) && reply.data.Some? {
        user, isAuthenticated, error := reply.data, true, None;
        return true;
      }
      isAuthenticated, user, token := false, None, None;
      return false;
    }

    /** `updateUser(userData)`: a shallow merge into the signed-in user, whose
        other fields are kept; without a user, an error and no change. */
    method UpdateUser(userData: Object) returns (outcome: Outcome)
      modifies this`user
      ensures old(user).None? ==> outcome == Failure(NOT_LOGGED_IN) && user == old(user)
      ensures old(user).Some? ==> outcome == Success && user.Some?
      ensures old(user).Some? ==> forall k :: k in user.value <==> k in old(user).value || k in userData
      ensures old(user).Some? ==> forall k :: k in userData ==> user.value[k] == userData[k]
      ensures old(user).Some? ==> forall k :: k in old(user).value && k !in userData ==> user.value[k] == old(user).value[k]
    {
      if user.Some? {
        user := Some(user.value + userData);
        return Success;
      }
      return Failure(NOT_LOGGED_IN);
    }

    /** `clearError()` */
    method ClearError()
      modifies this`error
      ensures error.None?
    {
      error := None;
    }

    /** The persisted slice of the store: authentication, user and token. */
    function Partialize(): (p: PersistedAuth)
      reads this`isAuthenticated, this`user, this`token
      ensures p.isAuthenticated == isAuthenticated && p.user == user && p.token == token
    {
      PersistedAuth(isAuthenticated, user, token)
    }
  }
}
