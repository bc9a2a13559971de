/** The development mock of the back end: login against a fixed table of two
    accounts, an idempotent logout, and the protected current-user endpoint
    behind a bearer token. Token signing and verification are parameters. */
module MockApi {
  import opened Common
  import opened Strings

  const PASSWORD: string := "123456"
  const LOGIN_OK: string := "登录成功"
  const LOGIN_REJECTED: string := "用户名或密码错误"
  const LOGOUT_OK: string := "退出成功"
  const NO_TOKEN: string := "未提供授权令牌"
  const BAD_TOKEN: string := "令牌无效或已过期"
  const BEARER: string := "Bearer "

  datatype User = User(id: nat, username: string, nickname: string, role: string)

  /** The account table, keyed by user name. */
  const USERS: map<string, User> := map[
    "admin" := User(1, "admin", "管理员", "admin"),
    "user" := User(2, "user", "普通用户", "user")
  ]

  /** The names every plain JavaScript object answers to through its
      prototype; each of them reads as a truthy value. */
  const PROTOTYPE_MEMBERS: set<string> := {
    "constructor", "__proto__", "hasOwnProperty", "isPrototypeOf", "propertyIsEnumerable",
    "toString", "valueOf", "toLocaleString", "__defineGetter__", "__defineSetter__",
    "__lookupGetter__", "__lookupSetter__"
  }

  /** What `users[username]` evaluates to when it is truthy: an account of
      the table, or a member inherited from the object prototype. */
  datatype Principal = Listed(user: User) | Inherited(name: string)

  /** The reply of `POST /api/auth/login`. */
  datatype LoginResponse = LoginOk(principal: Principal, token: string) | LoginRejected

  /** `{ code, message }` of a login reply. */
  function LoginCode(r: LoginResponse): (code: nat)
    ensures code == 200 || code == 401
  {
    if r.LoginOk? then 200 else 401
  }

  function LoginMessage(r: LoginResponse): string {
    if r.LoginOk? then LOGIN_OK else LOGIN_REJECTED
  }

  /** `users[username]` as JavaScript evaluates it: own keys first, then the
      prototype chain. */
  function LookupAsWritten(username: Option<string>): (p: Option<Principal>)
    ensures username.Some? && username.value in USERS ==> p == Some(Listed(USERS[username.value]))
  {
    if username.None? then None
    else if username.value in USERS then Some(Listed(USERS[username.value]))
    else if username.value in PROTOTYPE_MEMBERS then Some(Inherited(username.value))
    else None
  }

  /** The login handler as written: any truthy `users[username]` with the
      right password is accepted. */
  function LoginAsWritten(username: Option<string>, password: Option<string>, sign: Principal -> string): (r: LoginResponse)
    ensures r.LoginOk? <==> LookupAsWritten(username).Some? && password == Some(PASSWORD)
  {
    match LookupAsWritten(username)
    case Some(p) => if password == Some(PASSWORD) then LoginOk(p, sign(p)) else LoginRejected
    case None => LoginRejected
  }

  /** The login handler with the lookup restricted to the table's own
      accounts: it succeeds exactly for `admin` or `user` with the password
      `123456`, and answers with that account. */
  function Login(username: Option<string>, password: Option<string>, sign: Principal -> string): (r: LoginResponse)
    ensures r.LoginOk? <==> username.Some? && username.value in {"admin", "user"} && password == Some(PASSWORD)
    ensures r.LoginOk? ==> r.principal == Listed(USERS[username.value]) && r.token == sign(r.principal)
    ensures r.LoginRejected? ==> LoginCode(r) == 401 && LoginMessage(r) == LOGIN_REJECTED
  {
    if username.Some? && username.value in USERS && password == Some(PASSWORD) then
      var p := Listed(USERS[username.value]);
      LoginOk(p, sign(p))
    else LoginRejected
  }

  /** With the right password, the name `__proto__` logs in under the
      handler as written, while the corrected handler refuses it. */
  lemma PrototypeNameLogsIn(sign: Principal -> string)
    ensures LoginAsWritten(Some("__proto__"), Some(PASSWORD), sign).LoginOk?
    ensures LoginAsWritten(Some("__proto__"), Some(PASSWORD), sign).principal == Inherited("__proto__")
    ensures Login(Some("__proto__"), Some(PASSWORD), sign).LoginRejected?
  {
    assert "__proto__" !in USERS;
    assert "__proto__" in PROTOTYPE_MEMBERS;
  }

  /** On the table's own names the two handlers agree. */
  lemma HandlersAgreeOnAccounts(username: Option<string>, password: Option<string>, sign: Principal -> string)
    requires username.None? || username.value !in PROTOTYPE_MEMBERS
    ensures Login(username, password, sign) == LoginAsWritten(username, password, sign)
  {
  }

  /** `POST /api/auth/logout` always answers 200. */
  function LogoutCode(): (code: nat)
    ensures code == 200
  {
    200
  }

  /** The token of an `Authorization` header: the text after `Bearer `, or
      the whole header otherwise; a missing header gives "". */
  function BearerToken(header: Option<string>): (token: string)
    ensures header.None? ==> token == ""
    ensures header.Some? && StartsWith(header.value, BEARER) ==> BEARER + token == header.value
    ensures header.Some? && !StartsWith(header.value, BEARER) ==> token == header.value
  {
    var h := OrElse(header, "");
    if StartsWith(h, BEARER) then
      assert h == h[..7] + h[7..];
      h[7..]
    else h
  }

  /** What `jwt.verify` made of a token: its `user` claim (absent when the
      claim was missing), or a rejection. */
  datatype Verified = Accepted(user: Option<User>) | Refused

  /** The reply of `GET /api/user`. */
  datatype UserResponse = UserOk(data: Option<User>) | Unauthorized(message: string)

  /** `GET /api/user`: an empty token is refused before any verification;
      otherwise the verifier decides. */
  function CurrentUser(header: Option<string>, verify: string -> Verified): (r: UserResponse)
    ensures BearerToken(header) == "" ==> r == Unauthorized(NO_TOKEN)
    ensures BearerToken(header) != "" && verify(BearerToken(header)).Refused? ==> r == Unauthorized(BAD_TOKEN)
    ensures BearerToken(header) != "" && verify(BearerToken(header)).Accepted? ==> r == UserOk(verify(BearerToken(header)).user)
  {
    var token := BearerToken(header);
    if token == "" then Unauthorized(NO_TOKEN)
    else
      match verify(token)
      case Refused => Unauthorized(BAD_TOKEN)
      case Accepted(user) => UserOk(user)
  }

  /** The bare header `Bearer ` carries no token and is refused without
      asking the verifier. */
  lemma BareBearerRefused(verify: string -> Verified)
    ensures CurrentUser(Some(BEARER), verify) == Unauthorized(NO_TOKEN)
  {
    assert BearerToken(Some(BEARER)) == BEARER[7..];
  }
}
