/** handler/AuthHandler.go: the visit counter, login, logout and
    registration of the `handler` package. Unlike the root package, these
    handlers look users up with `Limit(1).Find`, so a missing user is
    `User{}`, and the session holds the message list itself. */
module HandlerAuth {
  import opened Common

  const MethodNotSupported: string := "method not supported"
  const NoSuchUser: string := "no such user, please register"
  const PasswordNotCorrect: string := "password is not correct"
  const AlreadyLoggedIn: string := "you have logged in already"
  const LoginSuccess: string := "login successfully"
  const NotLoggedIn: string := "you have not logged in yet"
  const LogoutSuccess: string := "logout successfully"
  const UsernameTaken: string := "username has been taken"
  const RegisterSuccess: string := "registered successfully"
  const NoCredentials: string := "failed to parse username and password: no username or password"

  /** IndexHandler (handler/AuthHandler.go:17-33). A new session starts a
      30-second visit counter at 1 and is greeted with its id; a returning
      one has its counter incremented, saved and printed. A returning
      session without a counter (one made by the login handler) fails the
      `.(int)` assertion. Errors of `store.Get` and `Save` are discarded. */
  method IndexHandler(w: Writer, s: Session, saveFault: Option<string>)
    requires w.Fresh()
    modifies w, s
    ensures s.isNew ==>
      && s.Current() == old(s.Current()).(maxAge := 30, authenticated := Some(true), visitTime := Some(1))
      && w.Answered(Plain("welcome: " + s.id))
    ensures !s.isNew && old(s.visitTime).None? ==> w.panicked && unchanged(s)
    ensures !s.isNew && old(s.visitTime).Some? ==>
      && s.Current() == old(s.Current()).(visitTime := Some(old(s.visitTime).value + 1))
      && w.Answered(Plain("visit time: " + Decimal(old(s.visitTime).value + 1)))
    ensures !w.panicked ==> s.persisted == if saveFault.None? then Some(s.Current()) else old(s.persisted)
  {
    if s.isNew {
      s.maxAge := 30;
      s.authenticated := Some(true);
      s.visitTime := Some(1);
      w.Print("welcome: " + s.id);
      var _ := s.Save(saveFault);
      return;
    }
    if s.visitTime.None? {
      w.Panic();
      return;
    }
    s.visitTime := Some(s.visitTime.value + 1);
    var _ := s.Save(saveFault);
    w.Print("visit time: " + Decimal(s.visitTime.value));
  }

  /** parseUsernamePassword (handler/AuthHandler.go:196-209). */
  function ParseUsernamePassword(r: Request): (res: Result<(string, string)>)
    ensures res.Ok? <==> r.formError.None? && FormValue(r, "username") != "" && FormValue(r, "password") != ""
    ensures res.Ok? ==> res.value == (FormValue(r, "username"), FormValue(r, "password"))
    ensures r.formError.Some? ==> res == Err("failed to parse username and password: " + r.formError.value)
    ensures r.formError.None? && res.Err? ==> res == Err(NoCredentials)
  {
    if r.formError.Some? then Err("failed to parse username and password: " + r.formError.value)
    else if FormValue(r, "username") == "" || FormValue(r, "password") == "" then Err(NoCredentials)
    else Ok((FormValue(r, "username"), FormValue(r, "password")))
  }

  /** initSession (handler/AuthHandler.go:180-194): a one-day MaxAge, the
      authenticated flag and an empty message list; it never fails. */
  method InitSession(s: Session) returns (err: Option<string>)
    modifies s
    ensures err.None?
    ensures s.Current() == old(s.Current()).(maxAge := OneDay, authenticated := Some(true), messages := Some(List([])))
    ensures s.persisted == old(s.persisted)
  {
    s.maxAge := OneDay;
    s.authenticated := Some(true);
    s.messages := Some(List([]));
    err := None;
  }

  /** The session values after a successful login of `username`. */
  function LoggedInValues(v: Values, username: string): (l: Values)
    ensures l.authenticated == Some(true) && l.username == Some(username)
    ensures l.messages == Some(List([])) && l.maxAge == OneDay
  {
    v.(maxAge := OneDay, authenticated := Some(true), messages := Some(List([])), username := Some(username))
  }

  /** handler/AuthHandler.go:62-89, once `user` is known: the password
      check, then a session for a new client only. A failed save is
      reported and then followed by the success text (no return). */
  twostate predicate LoginFinished(w: Writer, s: Session, user: User, username: string, password: string,
                                   compare: (string, string) -> bool, saveFault: Option<string>)
    reads w, s
  {
    if !PasswordMatches(compare, user.password, password) then
      w.Answered(HttpError(PasswordNotCorrect, 401)) && unchanged(s)
    else if !s.isNew then
      w.Answered(Plain(AlreadyLoggedIn)) && unchanged(s)
    else
      && s.Current() == LoggedInValues(old(s.Current()), username)
      && s.persisted == (if saveFault.None? then Some(s.Current()) else old(s.persisted))
      && w.Answered(if saveFault.None? then Plain(LoginSuccess)
                    else Response(500, [saveFault.value, "\n", LoginSuccess]))
  }

  /** handler/AuthHandler.go:62-89. */
  method FinishLogin(w: Writer, s: Session, user: User, username: string, password: string,
                     compare: (string, string) -> bool, saveFault: Option<string>)
    requires w.Fresh()
    modifies w, s
    ensures LoginFinished(w, s, user, username, password, compare, saveFault)
  {
    if !PasswordMatches(compare, user.password, password) {
      w.Error(PasswordNotCorrect, 401);
      return;
    }
    if !s.isNew {
      w.Print(AlreadyLoggedIn);
      return;
    }
    var err := InitSession(s);
    s.username := Some(username);
    err := s.Save(saveFault);
    if err.Some? {
      w.Error(err.value, 500);
    }
    w.Print(LoginSuccess);
  }

  /** LoginHandler (handler/AuthHandler.go:35-91). `s` is the session
      `store.Get` returned (its error is overwritten unread). */
  method LoginHandler(w: Writer, r: Request, s: Session, db: UserTable,
                      compare: (string, string) -> bool, faults: Faults)
    requires w.Fresh()
    modifies w, s
    ensures r.verb != "POST" ==> w.Answered(HttpError(MethodNotSupported, 405)) && unchanged(s)
    ensures r.verb == "POST" && ParseUsernamePassword(r).Err? ==>
      w.Answered(HttpError(ParseUsernamePassword(r).error, 401)) && unchanged(s)
    ensures r.verb == "POST" && ParseUsernamePassword(r).Ok? ==>
      var (username, password) := ParseUsernamePassword(r).value;
      && (faults.lookup.Some? ==> w.Answered(HttpError(faults.lookup.value, 500)) && unchanged(s))
      && (faults.lookup.None? && (username !in db.rows || db.rows[username] == ZeroUser) ==>
            w.Answered(HttpError(NoSuchUser, 401)) && unchanged(s))
      && (faults.lookup.None? && username in db.rows && db.rows[username] != ZeroUser ==>
            LoginFinished(w, s, db.rows[username], username, password, compare, faults.sessionSave))
  {
    if r.verb != "POST" {
      w.Error(MethodNotSupported, 405);
      return;
    }
    var userInfo := ParseUsernamePassword(r);
    if userInfo.Err? {
      w.Error(userInfo.error, 401);
      return;
    }
    var (username, password) := userInfo.value;
    var user := FindLimit1(db.rows, username, faults.lookup);
    if user.Err? {
      w.Error(user.error, 500);
      return;
    }
    if user.value == ZeroUser {
      w.Error(NoSuchUser, 401);
      return;
    }
    FinishLogin(w, s, user.value, username, password, compare, faults.sessionSave);
  }

  /** LogoutHandler (handler/AuthHandler.go:93-123): the session is kept but
      marked logged out. */
  method LogoutHandler(w: Writer, s: Session, faults: Faults)
    requires w.Fresh()
    modifies w, s
    ensures faults.store.Some? ==>
      w.Answered(HttpError("failed to logout: " + faults.store.value, 500)) && unchanged(s)
    ensures faults.store.None? && s.isNew ==> w.Answered(Plain(NotLoggedIn)) && unchanged(s)
    ensures faults.store.None? && !s.isNew ==>
      && s.Current() == old(s.Current()).(authenticated := Some(false))
      && s.persisted == (if faults.sessionSave.None? then Some(s.Current()) else old(s.persisted))
      && w.Answered(if faults.sessionSave.None? then Plain(LogoutSuccess)
                    else HttpError(faults.sessionSave.value, 500))
  {
    if faults.store.Some? {
      w.Error("failed to logout: " + faults.store.value, 500);
      return;
    }
    if s.isNew {
      w.Print(NotLoggedIn);
      return;
    }
    s.authenticated := Some(false);
    var err := s.Save(faults.sessionSave);
    if err.Some? {
      w.Error(err.value, 500);
      return;
    }
    w.Print(LogoutSuccess);
  }

  /** RegisterHandler (handler/AuthHandler.go:125-178). `hash` is what
      bcrypt returned for the password. An unknown name is created with the
      hash and the default balance; a failed insert is reported and then
      followed by the success text (no return). The table stays well formed. */
  method RegisterHandler(w: Writer, r: Request, db: UserTable, hash: Result<string>, faults: Faults)
    requires w.Fresh()
    modifies w, db
    ensures old(db.Valid()) ==> db.Valid()
    ensures r.verb != "POST" ==> w.Answered(HttpError(MethodNotSupported, 405)) && unchanged(db)
    ensures r.verb == "POST" && ParseUsernamePassword(r).Err? ==>
      w.Answered(HttpError(ParseUsernamePassword(r).error, 401)) && unchanged(db)
    ensures r.verb == "POST" && ParseUsernamePassword(r).Ok? && hash.Err? ==>
      w.Answered(HttpError(hash.error, 400)) && unchanged(db)
    ensures r.verb == "POST" && ParseUsernamePassword(r).Ok? && hash.Ok? ==>
      var username := ParseUsernamePassword(r).value.0;
      && (faults.lookup.Some? ==> w.Answered(HttpError(faults.lookup.value, 500)) && unchanged(db))
      && (faults.lookup.None? && username in old(db.rows) && old(db.rows)[username] != ZeroUser ==>
            w.Answered(HttpError(UsernameTaken, 409)) && unchanged(db))
      && (faults.lookup.None? && (username !in old(db.rows) || old(db.rows)[username] == ZeroUser) ==>
            && db.rows == (if faults.dbWrite.None? then old(db.rows)[username := User(old(db.nextId), username, hash.value, DefaultTokens)]
                           else old(db.rows))
            && w.Answered(if faults.dbWrite.None? then Plain(RegisterSuccess)
                          else Response(500, [faults.dbWrite.value, "\n", RegisterSuccess])))
  {
    if r.verb != "POST" {
      w.Error(MethodNotSupported, 405);
      return;
    }
    var userInfo := ParseUsernamePassword(r);
    if userInfo.Err? {
      w.Error(userInfo.error, 401);
      return;
    }
    var (username, _) := userInfo.value;
    if hash.Err? {
      w.Error(hash.error, 400);
      return;
    }
    var user := FindLimit1(db.rows, username, faults.lookup);
    if user.Err? {
      w.Error(user.error, 500);
      return;
    }
    if user.value != ZeroUser {
      w.Error(UsernameTaken, 409);
      return;
    }
    var err := db.Create(User(0, username, hash.value, 0), faults.dbWrite);
    if err.Some? {
      w.Error(err.value, 500);
    }
    w.Print(RegisterSuccess);
  }

  /** The same name registered twice: the second attempt is refused with a
      409 and the row of the first is kept; a login with the registered
      password then succeeds. */
  method RegisterTwiceThenLogin(hash: string, compare: (string, string) -> bool)
    returns (first: Response, second: Response, login: Response, stored: User)
    requires |hash| >= MinHashSize && compare(hash, "778899123")
    ensures first == Plain(RegisterSuccess)
    ensures second == HttpError(UsernameTaken, 409)
    ensures login == Plain(LoginSuccess)
    ensures stored == User(1, "david", hash, DefaultTokens)
  {
    var db := new UserTable();
    var faults := Faults(None, None, None, None, None);
    var r := Request("POST", None, map["username" := "david", "password" := "778899123"]);
    var w1 := new Writer();
    RegisterHandler(w1, r, db, Ok(hash), faults);
    first := w1.Sent();
    var w2 := new Writer();
    RegisterHandler(w2, r.(form := r.form["password" := "my_password"]), db, Ok(hash), faults);
    second := w2.Sent();
    stored := db.rows["david"];
    var s := new Session("1", true, Values(None, None, None, None, 0), None);
    var w3 := new Writer();
    LoginHandler(w3, r, s, db, compare, faults);
    login := w3.Sent();
  }
}
