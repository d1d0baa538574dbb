/** auth.go: login, logout and registration of the root package. Login and
    registration receive the credentials from postUsernamePasswordOnly,
    logout the session from authenticatedOnly. */
module Auth {
  import opened Common
  import Server

  const NotRegistered: string := "you have not registered yet"
  const PasswordIncorrect: string := "password is incorrect"
  const AlreadyLoggedIn: string := "you have logged in already"
  const LoginSuccess: string := "login successfully"
  const LogoutSuccess: string := "log out successfully"
  const UsernameTaken: string := "username has been taken"
  const RegisterSuccess: string := "registered successfully"

  /** The values of a session that has just logged in as `username`. */
  function LoggedInValues(v: Values, username: string): (l: Values)
    ensures l.authenticated == Some(true) && l.username == Some(username)
    ensures l.messages == Some(Json(NoBytes)) && l.maxAge == OneDay
    ensures l.visitTime == v.visitTime
  {
    v.(maxAge := OneDay, authenticated := Some(true), messages := Some(Json(NoBytes)), username := Some(username))
  }

  /** The part of handleAuthLogin after `user` was found (auth.go:25-50):
      the password check, then a session for a new client only. */
  twostate predicate LoginFinished(w: Writer, s: Session, user: User, username: string, password: string,
                                   compare: (string, string) -> bool, saveFault: Option<string>)
    reads w, s
  {
    if !PasswordMatches(compare, user.password, password) then
      w.Answered(HttpError(PasswordIncorrect, 401)) && unchanged(s)
    else if !s.isNew then
      w.Answered(Plain(AlreadyLoggedIn)) && unchanged(s)
    else
      && s.Current() == LoggedInValues(old(s.Current()), username)
      && s.persisted == (if saveFault.None? then Some(s.Current()) else old(s.persisted))
      && w.Answered(if saveFault.None? then Plain(LoginSuccess) else HttpError(saveFault.value, 500))
  }

  /** auth.go:25-50. */
  method FinishLogin(w: Writer, s: Session, user: User, username: string, password: string,
                     compare: (string, string) -> bool, saveFault: Option<string>)
    requires w.Fresh()
    modifies w, s
    ensures LoginFinished(w, s, user, username, password, compare, saveFault)
  {
    if !PasswordMatches(compare, user.password, password) {
      w.Error(PasswordIncorrect, 401);
      return;
    }
    if !s.isNew {
      w.Print(AlreadyLoggedIn);
      return;
    }
    s.maxAge := OneDay;
    s.authenticated := Some(true);
    s.messages := Some(Json(NoBytes));
    s.username := Some(username);
    var err := s.Save(saveFault);
    if err.Some? {
      w.Error(err.value, 500);
      return;
    }
    w.Print(LoginSuccess);
  }

  /** handleAuthLogin (auth.go:12-51) as written. `s` is the session
      `store.Get` returned (its error is overwritten unread). The
      "not registered" branch (auth.go:21-24) is not reachable here:
      findUser never returns `User{}`, so an unknown user is a 500. */
  method HandleAuthLogin(w: Writer, s: Session, db: UserTable, username: string, password: string,
                         compare: (string, string) -> bool, faults: Faults)
    requires w.Fresh()
    modifies w, s
    ensures Server.FindUser(db.rows, username, faults.lookup).Err? ==>
      w.Answered(HttpError(Server.FindUser(db.rows, username, faults.lookup).error, 500)) && unchanged(s)
    ensures faults.lookup.None? && username !in db.rows ==>
      w.Answered(HttpError(Server.UserDoesNotExist, 500)) && unchanged(s)
    ensures Server.FindUser(db.rows, username, faults.lookup).Ok? ==>
      LoginFinished(w, s, db.rows[username], username, password, compare, faults.sessionSave)
  {
    var found := Server.FindUser(db.rows, username, faults.lookup);
    if found.Err? {
      w.Error(found.error, 500);
      return;
    }
    FinishLogin(w, s, found.value, username, password, compare, faults.sessionSave);
  }

  /** handleAuthLogin with the lookup its `User{}` check was written for:
      an unknown user is told to register (401). */
  method HandleAuthLoginIntended(w: Writer, s: Session, db: UserTable, username: string, password: string,
                                 compare: (string, string) -> bool, faults: Faults)
    requires w.Fresh()
    modifies w, s
    ensures faults.lookup.Some? ==>
      w.Answered(HttpError("failed to find user: " + faults.lookup.value, 500)) && unchanged(s)
    ensures faults.lookup.None? && (username !in db.rows || db.rows[username] == ZeroUser) ==>
      w.Answered(HttpError(NotRegistered, 401)) && unchanged(s)
    ensures faults.lookup.None? && username in db.rows && db.rows[username] != ZeroUser ==>
      LoginFinished(w, s, db.rows[username], username, password, compare, faults.sessionSave)
  {
    var found := Server.FindUserIntended(db.rows, username, faults.lookup);
    if found.Err? {
      w.Error(found.error, 500);
      return;
    }
    if found.value == ZeroUser {
      w.Error(NotRegistered, 401);
      return;
    }
    FinishLogin(w, s, found.value, username, password, compare, faults.sessionSave);
  }

  /** handleAuthLogout (auth.go:53-68): the session is marked logged out and
      expired (MaxAge -1), then saved. */
  method HandleAuthLogout(w: Writer, s: Session, saveFault: Option<string>)
    requires w.Fresh()
    modifies w, s
    ensures s.Current() == old(s.Current()).(maxAge := -1, authenticated := Some(false))
    ensures s.persisted == if saveFault.None? then Some(s.Current()) else old(s.persisted)
    ensures saveFault.Some? ==> w.Answered(HttpError("failed to log out:" + saveFault.value, 500))
    ensures saveFault.None? ==> w.Answered(Plain(LogoutSuccess))
  {
    s.maxAge := -1;
    s.authenticated := Some(false);
    var err := s.Save(saveFault);
    if err.Some? {
      w.Error("failed to log out:" + err.value, 500);
      return;
    }
    w.Print(LogoutSuccess);
  }

  /** A login leaves a session that authenticatedOnly lets through on the
      next request; a logout leaves one that it turns away, whether or not
      the client comes back with the same cookie. */
  lemma SessionGate(v: Values, username: string, isNew: bool)
    ensures Server.AuthenticatedOnly(None, false, LoggedInValues(v, username).authenticated).Proceed?
    ensures Server.AuthenticatedOnly(None, isNew, v.(maxAge := -1, authenticated := Some(false)).authenticated)
         == Server.Stop(Plain(Server.NotLoggedIn))
  {
  }

  /** handleRegister (auth.go:70-105) as written: `hash` is what bcrypt
      returned for the password. findUser either fails or returns a stored
      user, so the handler answers 400, 500 or 409 and never creates a user;
      the creation path (auth.go:94-104) is not reachable and not modelled. */
  method HandleRegister(w: Writer, db: UserTable, username: string, hash: Result<string>, faults: Faults)
    requires w.Fresh()
    modifies w
    ensures hash.Err? ==> w.Answered(HttpError(hash.error, 400))
    ensures hash.Ok? && Server.FindUser(db.rows, username, faults.lookup).Err? ==>
      w.Answered(HttpError(Server.FindUser(db.rows, username, faults.lookup).error, 500))
    ensures hash.Ok? && faults.lookup.None? && username !in db.rows ==>
      w.Answered(HttpError(Server.UserDoesNotExist, 500))
    ensures hash.Ok? && Server.FindUser(db.rows, username, faults.lookup).Ok? ==>
      w.Answered(HttpError(UsernameTaken, 409))
  {
    if hash.Err? {
      w.Error(hash.error, 400);
      return;
    }
    var found := Server.FindUser(db.rows, username, faults.lookup);
    if found.Err? {
      w.Error(found.error, 500);
      return;
    }
    w.Error(UsernameTaken, 409);
  }

  /** handleRegister with the lookup its `User{}` check was written for: an
      unknown name is created with the hashed password and the default
      balance; a failed insert still ends with the success text after the
      500 (auth.go:97-104 has no return). The table stays well formed. */
  method HandleRegisterIntended(w: Writer, db: UserTable, username: string, hash: Result<string>, faults: Faults)
    requires w.Fresh()
    modifies w, db
    ensures old(db.Valid()) ==> db.Valid()
    ensures hash.Err? ==> w.Answered(HttpError(hash.error, 400)) && unchanged(db)
    ensures hash.Ok? && faults.lookup.Some? ==>
      w.Answered(HttpError("failed to find user: " + faults.lookup.value, 500)) && unchanged(db)
    ensures hash.Ok? && faults.lookup.None? && username in old(db.rows) && old(db.rows)[username] != ZeroUser ==>
      w.Answered(HttpError(UsernameTaken, 409)) && unchanged(db)
    ensures hash.Ok? && faults.lookup.None? && (username !in old(db.rows) || old(db.rows)[username] == ZeroUser) ==>
      && (faults.dbWrite.None? ==>
            && db.rows == old(db.rows)[username := User(old(db.nextId), username, hash.value, DefaultTokens)]
            && w.Answered(Plain(RegisterSuccess)))
      && (faults.dbWrite.Some? ==>
            && db.rows == old(db.rows)
            && w.Answered(Response(500, [faults.dbWrite.value, "\n", RegisterSuccess])))
  {
    if hash.Err? {
      w.Error(hash.error, 400);
      return;
    }
    var found := Server.FindUserIntended(db.rows, username, faults.lookup);
    if found.Err? {
      w.Error(found.error, 500);
      return;
    }
    if found.value != ZeroUser {
      w.Error(UsernameTaken, 409);
      return;
    }
    var user := found.value.(username := username, password := hash.value);
    var err := db.Create(user, faults.dbWrite);
    if err.Some? {
      w.Error(err.value, 500);
    }
    w.Print(RegisterSuccess);
  }

  const NoFaults: Faults := Faults(None, None, None, None, None)

  /** Registering "david" on an empty table, as written: the lookup reports
      the missing user as an error, so the answer is a 500 and the table
      stays empty. */
  method RegisterOnEmptyTable(hash: string) returns (answer: Response, rows: map<string, User>)
    ensures answer == HttpError(Server.UserDoesNotExist, 500)
    ensures rows == map[]
  {
    var w := new Writer();
    var db := new UserTable();
    HandleRegister(w, db, "david", Ok(hash), NoFaults);
    answer, rows := w.Sent(), db.rows;
  }

  /** The same request against the intended lookup registers "david" with
      the default balance, and a login with a matching password that follows
      on a new session succeeds and stores the user name in the session. */
  method RegisterThenLoginIntended(hash: string, compare: (string, string) -> bool)
    returns (registered: Response, loggedIn: Response, session: Option<Values>)
    requires |hash| >= MinHashSize && compare(hash, "778899123")
    ensures registered == Plain(RegisterSuccess)
    ensures loggedIn == Plain(LoginSuccess)
    ensures session.Some? && session.value.username == Some("david") && session.value.authenticated == Some(true)
  {
    var db := new UserTable();
    var w := new Writer();
    HandleRegisterIntended(w, db, "david", Ok(hash), NoFaults);
    registered := w.Sent();
    var v := Values(None, None, None, None, 0);
    var s := new Session("1", true, v, None);
    var w2 := new Writer();
    HandleAuthLoginIntended(w2, s, db, "david", "778899123", compare, NoFaults);
    loggedIn, session := w2.Sent(), s.persisted;
  }
}
