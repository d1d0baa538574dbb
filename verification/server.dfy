/** server.go: the user lookup of the root package and its two middlewares,
    each of which decides whether the wrapped handler runs. */
module Server {
  import opened Common
  import Utils

  const UserDoesNotExist: string := "failed to find user: user doesn't exist"

  /** findUser (server.go:86-97): a failed query and a missing user are both
      errors; otherwise the stored row. */
  function FindUser(rows: map<string, User>, name: string, fault: Option<string>): (r: Result<User>)
    ensures r.Ok? <==> fault.None? && name in rows && rows[name] != ZeroUser
    ensures r.Ok? ==> r.value == rows[name]
    ensures fault.Some? ==> r == Err("failed to find user: " + fault.value)
    ensures fault.None? && r.Err? ==> r == Err(UserDoesNotExist)
  {
    match FindLimit1(rows, name, fault)
    case Err(e) => Err("failed to find user: " + e)
    case Ok(user) => if user == ZeroUser then Err(UserDoesNotExist) else Ok(user)
  }

  /** In a well-formed table a present user is always found. */
  lemma FindUserPresent(t: map<string, User>, name: string)
    requires forall n :: n in t ==> t[n].id > 0
    ensures FindUser(t, name, None) == if name in t then Ok(t[name]) else Err(UserDoesNotExist)
  {
    if name in t {
      assert t[name].id > 0;
    }
  }

  /** What findUser's own comment (server.go:85) and its callers' `User{}`
      checks (auth.go:21, auth.go:90) expect: a failed query is an error, and
      a missing user comes back as `User{}`. */
  function FindUserIntended(rows: map<string, User>, name: string, fault: Option<string>): (r: Result<User>)
    ensures r.Ok? <==> fault.None?
    ensures r.Ok? ==> r.value == if name in rows then rows[name] else ZeroUser
    ensures fault.Some? ==> r == Err("failed to find user: " + fault.value)
  {
    match FindLimit1(rows, name, fault)
    case Err(e) => Err("failed to find user: " + e)
    case Ok(user) => Ok(user)
  }

  /** The two agree on every present user and differ on every missing one:
      as written, a missing user is an error, never `User{}`, so no caller
      can reach its "not registered" branch. */
  lemma FindUserDisagreesOnMissingUser(rows: map<string, User>, name: string)
    ensures name in rows && rows[name] != ZeroUser ==> FindUser(rows, name, None) == FindUserIntended(rows, name, None)
    ensures name !in rows ==> FindUser(rows, name, None) == Err(UserDoesNotExist) && FindUserIntended(rows, name, None) == Ok(ZeroUser)
    ensures FindUser(rows, name, None).Ok? ==> FindUser(rows, name, None).value != ZeroUser
  {
  }

  /** Whether a middleware calls the wrapped handler (with these arguments)
      or answers the request itself. */
  datatype Gate<T> = Proceed(args: T) | Stop(response: Response)

  const NotLoggedIn: string := "you have not logged in yet"

  /** authenticatedOnly (server.go:45-63), given what `store.Get` returned:
      a store error is a 500; a new or logged-out session gets a plain
      200 "you have not logged in yet"; otherwise the handler runs. */
  function AuthenticatedOnly(storeError: Option<string>, isNew: bool, authenticated: Option<bool>): (g: Gate<()>)
    ensures g.Proceed? <==> storeError.None? && !isNew && authenticated != Some(false)
    ensures storeError.Some? ==> g == Stop(HttpError("failed to valid request:" + storeError.value, 500))
    ensures storeError.None? && g.Stop? ==> g == Stop(Plain(NotLoggedIn))
  {
    if storeError.Some? then Stop(HttpError("failed to valid request:" + storeError.value, 500))
    else if isNew || authenticated == Some(false) then Stop(Plain(NotLoggedIn))
    else Proceed(())
  }

  /** postUsernamePasswordOnly (server.go:67-82): only a POST with both
      credentials reaches the handler, which receives them unchanged. */
  function PostUsernamePasswordOnly(r: Request): (g: Gate<(string, string)>)
    ensures g.Proceed? <==> r.verb == "POST" && FormValue(r, "username") != "" && FormValue(r, "password") != ""
    ensures g.Proceed? ==> g.args == (FormValue(r, "username"), FormValue(r, "password"))
    ensures r.verb != "POST" ==> g == Stop(HttpError("method is not supported", 405))
    ensures r.verb == "POST" && g.Stop? ==> g == Stop(HttpError(Utils.NoCredentials, 401))
  {
    if r.verb != "POST" then Stop(HttpError("method is not supported", 405))
    else match Utils.GetUsernameAndPassword(r)
      case Err(e) => Stop(HttpError(e, 401))
      case Ok(credentials) => Proceed(credentials)
  }
}
