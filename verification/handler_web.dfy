/** handler/WebHandler.go: the cookie-session login and registration of the
    `handler` package. The user lookup is `Limit(1).Find`, which reports a
    missing user as `User{}` and no error; both handlers test for an error
    instead, which decides how they treat a name that is not registered. */
module HandlerWeb {
  import opened Common

  const MethodNotSupported: string := "Method Not Supported"
  const NotUrlEncoded: string := "Please pass the data as URL form encoded"
  const NoCredentials: string := "No username or password specified in the form"
  const UsernameNotFound: string := "username not found"
  const PasswordNotCorrect: string := "password is not correct"
  const LoginSuccess: string := "login successfully!"
  const UsernameTaken: string := "Username has been taken"
  const RegisterSuccess: string := "Registered successfully!"
  const CannotCreateSession: string := "Cannot create session: "
  const SessionMaxAge: int := 5 * 60

  /** parseUsernamePassword (handler/WebHandler.go:176-191): answers the
      request itself with a 400 and returns two empty strings when the form
      does not parse or lacks a credential. */
  method ParseUsernamePassword(w: Writer, r: Request) returns (username: string, password: string)
    requires w.Fresh()
    modifies w
    ensures r.formError.Some? ==> username == "" && password == "" && w.Answered(HttpError(NotUrlEncoded, 400))
    ensures r.formError.None? && (FormValue(r, "username") == "" || FormValue(r, "password") == "") ==>
      username == "" && password == "" && w.Answered(HttpError(NoCredentials, 400))
    ensures r.formError.None? && FormValue(r, "username") != "" && FormValue(r, "password") != "" ==>
      username == FormValue(r, "username") && password == FormValue(r, "password") && w.Fresh()
    ensures username != "" && password != "" <==> w.Fresh()
  {
    if r.formError.Some? {
      w.Error(NotUrlEncoded, 400);
      return "", "";
    }
    username := FormValue(r, "username");
    password := FormValue(r, "password");
    if username == "" || password == "" {
      w.Error(NoCredentials, 400);
      return "", "";
    }
  }

  /** findUserByUserName (handler/WebHandler.go:150-162): a query error, or
      the stored row, or `User{}` for a name that is not stored. */
  function FindUserByUserName(rows: map<string, User>, username: string, fault: Option<string>): (r: Result<User>)
    ensures r.Err? <==> fault.Some?
    ensures r.Err? ==> r.error == fault.value
    ensures r.Ok? ==> r.value == if username in rows then rows[username] else ZeroUser
  {
    FindLimit1(rows, username, fault)
  }

  /** A name that is not stored is not an error, so "record not found"
      comes back only when the database itself reports it. */
  lemma MissingUserIsNoError(rows: map<string, User>, username: string)
    requires username !in rows
    ensures FindUserByUserName(rows, username, None) == Ok(ZeroUser)
  {
  }

  /** createSession (handler/WebHandler.go:131-148): a five-minute
      authenticated cookie session. A store failure is reported with a 500
      and then aborts the request with a panic. */
  method CreateSession(w: Writer, s: Session, faults: Faults) returns (created: bool)
    requires w.Fresh()
    modifies w, s
    ensures created <==> !w.panicked
    ensures created <==> faults.store.None? && faults.sessionSave.None?
    ensures faults.store.Some? ==>
      w.status == Some(500) && w.body == [CannotCreateSession + faults.store.value, "\n"] && unchanged(s)
    ensures faults.store.None? ==>
      && s.Current() == old(s.Current()).(maxAge := SessionMaxAge, authenticated := Some(true))
      && s.persisted == (if faults.sessionSave.None? then Some(s.Current()) else old(s.persisted))
    ensures faults.store.None? && faults.sessionSave.Some? ==>
      w.status == Some(500) && w.body == [CannotCreateSession + faults.sessionSave.value, "\n"]
    ensures created ==> w.Fresh()
  {
    if faults.store.Some? {
      w.Error(CannotCreateSession + faults.store.value, 500);
      w.Panic();
      return false;
    }
    s.maxAge := SessionMaxAge;
    s.authenticated := Some(true);
    var err := s.Save(faults.sessionSave);
    if err.Some? {
      w.Error(CannotCreateSession + err.value, 500);
      w.Panic();
      return false;
    }
    return true;
  }

  /** LoginHandler (handler/WebHandler.go:41-76) as written. Only a failed
      query is "username not found"; a name that is not stored is checked
      against the empty hash of `User{}`, which never matches, so it is told
      that the password is not correct. */
  method LoginHandler(w: Writer, r: Request, s: Session, db: UserTable,
                      compare: (string, string) -> bool, faults: Faults)
    requires w.Fresh()
    modifies w, s
    ensures r.verb != "POST" ==> w.Answered(HttpError(MethodNotSupported, 405)) && unchanged(s)
    ensures r.verb == "POST" && r.formError.Some? ==> w.Answered(HttpError(NotUrlEncoded, 400)) && unchanged(s)
    ensures r.verb == "POST" && r.formError.None? && (FormValue(r, "username") == "" || FormValue(r, "password") == "") ==>
      w.Answered(HttpError(NoCredentials, 400)) && unchanged(s)
    ensures r.verb == "POST" && r.formError.None? && FormValue(r, "username") != "" && FormValue(r, "password") != "" ==>
      var username := FormValue(r, "username");
      && (faults.lookup.Some? ==> w.Answered(HttpError(UsernameNotFound, 401)) && unchanged(s))
      && (faults.lookup.None? && username !in db.rows ==> w.Answered(HttpError(PasswordNotCorrect, 401)) && unchanged(s))
      && (faults.lookup.None? && username in db.rows ==>
            if !PasswordMatches(compare, db.rows[username].password, FormValue(r, "password")) then
              w.Answered(HttpError(PasswordNotCorrect, 401)) && unchanged(s)
            else
              && (faults.store.None? ==> s.Current() == old(s.Current()).(maxAge := SessionMaxAge, authenticated := Some(true)))
              && (faults.store.None? && faults.sessionSave.None? ==>
                    s.persisted == Some(s.Current()) && w.Answered(Plain(LoginSuccess)))
              && (faults.store.Some? ==>
                    w.panicked && w.Sent() == HttpError(CannotCreateSession + faults.store.value, 500) && unchanged(s))
              && (faults.store.None? && faults.sessionSave.Some? ==>
                    && w.panicked && w.Sent() == HttpError(CannotCreateSession + faults.sessionSave.value, 500)
                    && s.persisted == old(s.persisted)))
  {
    if r.verb != "POST" {
      w.Error(MethodNotSupported, 405);
      return;
    }
    var username, password := ParseUsernamePassword(w, r);
    if username == "" || password == "" {
      return;
    }
    var user := FindUserByUserName(db.rows, username, faults.lookup);
    if user.Err? {
      w.Error(UsernameNotFound, 401);
      return;
    }
    if !PasswordMatches(compare, user.value.password, password) {
      w.Error(PasswordNotCorrect, 401);
      return;
    }
    var created := CreateSession(w, s, faults);
    if created {
      w.Print(LoginSuccess);
    }
  }

  /** Every login of a name that is not stored ends in the same answer as
      a wrong password, whatever the password: the lookup hands back the
      zero user, whose empty hash never matches. */
  lemma UnknownUserLooksLikeWrongPassword(compare: (string, string) -> bool, rows: map<string, User>,
                                          username: string, password: string)
    requires username !in rows
    ensures FindUserByUserName(rows, username, None).Ok?
    ensures !PasswordMatches(compare, FindUserByUserName(rows, username, None).value.password, password)
  {
  }

  /** RegisterHandler (handler/WebHandler.go:78-129) as written. It creates
      the user only when the lookup reports "record not found", which
      `Limit(1).Find` does not do for a missing name: with a working
      database every registration is refused with a 409. */
  method RegisterHandler(w: Writer, r: Request, db: UserTable, hash: Result<string>, faults: Faults)
    requires w.Fresh()
    modifies w, db
    ensures old(db.Valid()) ==> db.Valid()
    ensures r.verb != "POST" ==> w.Answered(HttpError(MethodNotSupported, 405)) && unchanged(db)
    ensures r.verb == "POST" && r.formError.Some? ==> w.Answered(HttpError(NotUrlEncoded, 400)) && unchanged(db)
    ensures r.verb == "POST" && r.formError.None? && (FormValue(r, "username") == "" || FormValue(r, "password") == "") ==>
      w.Answered(HttpError(NoCredentials, 400)) && unchanged(db)
    ensures r.verb == "POST" && r.formError.None? && FormValue(r, "username") != "" && FormValue(r, "password") != "" ==>
      var username := FormValue(r, "username");
      && (hash.Err? ==> w.Answered(HttpError(hash.error, 400)) && unchanged(db))
      && (hash.Ok? && faults.lookup.None? ==> w.Answered(HttpError(UsernameTaken, 409)) && unchanged(db))
      && (hash.Ok? && faults.lookup.Some? && faults.lookup.value != RecordNotFound ==>
            w.panicked && w.status == Some(500) && w.body == [faults.lookup.value, "\n"] && unchanged(db))
      && (hash.Ok? && faults.lookup == Some(RecordNotFound) ==>
            && db.rows == (if faults.dbWrite.None? then old(db.rows)[username := User(old(db.nextId), username, hash.value, DefaultTokens)]
                           else old(db.rows))
            && (faults.dbWrite.None? ==> w.Answered(Plain(RegisterSuccess)))
            && (faults.dbWrite.Some? ==> w.panicked && w.status == Some(500)))
  {
    if r.verb != "POST" {
      w.Error(MethodNotSupported, 405);
      return;
    }
    var username, password := ParseUsernamePassword(w, r);
    if username == "" || password == "" {
      return;
    }
    if hash.Err? {
      w.Error(hash.error, 400);
      return;
    }
    var user := User(0, username, hash.value, 0);
    var found := FindUserByUserName(db.rows, username, faults.lookup);
    if found.Err? {
      if found.error == RecordNotFound {
        var err := db.Create(user, faults.dbWrite);
        if err.Some? {
          w.Error(err.value, 500);
          w.Panic();
          return;
        }
        w.Print(RegisterSuccess);
        return;
      } else {
        w.Error(found.error, 500);
        w.Panic();
        return;
      }
    }
    w.Error(UsernameTaken, 409);
  }

  /** The user lookup that the error tests of both handlers were written
      for (`db.First`, which reports a missing name as "record not found"). */
  function FindUserByUserNameIntended(rows: map<string, User>, username: string, fault: Option<string>): (r: Result<User>)
    ensures r.Ok? <==> fault.None? && username in rows
    ensures r.Ok? ==> r.value == rows[username]
    ensures fault.None? && username !in rows ==> r == Err(RecordNotFound)
  {
    FindFirst(rows, username, fault)
  }

  /** RegisterHandler with the intended lookup: a name that is not stored is
      created with the hash and the default balance, a stored one is
      refused with a 409. */
  method RegisterHandlerIntended(w: Writer, r: Request, db: UserTable, hash: Result<string>, faults: Faults)
    requires w.Fresh()
    modifies w, db
    ensures old(db.Valid()) ==> db.Valid()
    ensures r.verb != "POST" ==> w.Answered(HttpError(MethodNotSupported, 405)) && unchanged(db)
    ensures r.verb == "POST" && r.formError.Some? ==> w.Answered(HttpError(NotUrlEncoded, 400)) && unchanged(db)
    ensures r.verb == "POST" && r.formError.None? && (FormValue(r, "username") == "" || FormValue(r, "password") == "") ==>
      w.Answered(HttpError(NoCredentials, 400)) && unchanged(db)
    ensures r.verb == "POST" && r.formError.None? && FormValue(r, "username") != "" && FormValue(r, "password") != "" ==>
      var username := FormValue(r, "username");
      && (hash.Err? ==> w.Answered(HttpError(hash.error, 400)) && unchanged(db))
      && (hash.Ok? && faults.lookup.None? && username in old(db.rows) ==>
            w.Answered(HttpError(UsernameTaken, 409)) && unchanged(db))
      && (hash.Ok? && faults.lookup.None? && username !in old(db.rows) ==>
            && db.rows == (if faults.dbWrite.None? then old(db.rows)[username := User(old(db.nextId), username, hash.value, DefaultTokens)]
                           else old(db.rows))
            && (faults.dbWrite.None? ==> w.Answered(Plain(RegisterSuccess)))
            && (faults.dbWrite.Some? ==> w.panicked && w.status == Some(500)))
  {
    if r.verb != "POST" {
      w.Error(MethodNotSupported, 405);
      return;
    }
    var username, password := ParseUsernamePassword(w, r);
    if username == "" || password == "" {
      return;
    }
    if hash.Err? {
      w.Error(hash.error, 400);
      return;
    }
    var user := User(0, username, hash.value, 0);
    var found := FindUserByUserNameIntended(db.rows, username, faults.lookup);
    if found.Err? {
      if found.error == RecordNotFound {
        var err := db.Create(user, faults.dbWrite);
        if err.Some? {
          w.Error(err.value, 500);
          w.Panic();
          return;
        }
        w.Print(RegisterSuccess);
        return;
      } else {
        w.Error(found.error, 500);
        w.Panic();
        return;
      }
    }
    w.Error(UsernameTaken, 409);
  }

  /** LoginHandler with the intended lookup: a name that is not stored is
      "username not found". */
  method LoginHandlerIntended(w: Writer, r: Request, s: Session, db: UserTable,
                              compare: (string, string) -> bool, faults: Faults)
    requires w.Fresh()
    modifies w, s
    ensures r.verb != "POST" ==> w.Answered(HttpError(MethodNotSupported, 405)) && unchanged(s)
    ensures r.verb == "POST" && r.formError.Some? ==> w.Answered(HttpError(NotUrlEncoded, 400)) && unchanged(s)
    ensures r.verb == "POST" && r.formError.None? && (FormValue(r, "username") == "" || FormValue(r, "password") == "") ==>
      w.Answered(HttpError(NoCredentials, 400)) && unchanged(s)
    ensures r.verb == "POST" && r.formError.None? && FormValue(r, "username") != "" && FormValue(r, "password") != "" ==>
      var username := FormValue(r, "username");
      && (faults.lookup.Some? || username !in db.rows ==> w.Answered(HttpError(UsernameNotFound, 401)) && unchanged(s))
      && (faults.lookup.None? && username in db.rows && !PasswordMatches(compare, db.rows[username].password, FormValue(r, "password")) ==>
            w.Answered(HttpError(PasswordNotCorrect, 401)) && unchanged(s))
      && (faults.lookup.None? && username in db.rows && PasswordMatches(compare, db.rows[username].password, FormValue(r, "password"))
            && faults.store.None? && faults.sessionSave.None? ==>
            && s.Current() == old(s.Current()).(maxAge := SessionMaxAge, authenticated := Some(true))
            && s.persisted == Some(s.Current())
            && w.Answered(Plain(LoginSuccess)))
      && (faults.lookup.None? && username in db.rows && PasswordMatches(compare, db.rows[username].password, FormValue(r, "password"))
            && (faults.store.Some? || faults.sessionSave.Some?) ==>
            && w.panicked && w.status == Some(500) && s.persisted == old(s.persisted))
  {
    if r.verb != "POST" {
      w.Error(MethodNotSupported, 405);
      return;
    }
    var username, password := ParseUsernamePassword(w, r);
    if username == "" || password == "" {
      return;
    }
    var user := FindUserByUserNameIntended(db.rows, username, faults.lookup);
    if user.Err? {
      w.Error(UsernameNotFound, 401);
      return;
    }
    if !PasswordMatches(compare, user.value.password, password) {
      w.Error(PasswordNotCorrect, 401);
      return;
    }
    var created := CreateSession(w, s, faults);
    if created {
      w.Print(LoginSuccess);
    }
  }

  /** A registration on an empty table, as written and as intended. */
  method RegisterOnEmptyTable(hash: string) returns (asWritten: Response, intended: Response, created: bool)
    ensures asWritten == HttpError(UsernameTaken, 409)
    ensures intended == Plain(RegisterSuccess)
    ensures created
  {
    var faults := Faults(None, None, None, None, None);
    var r := Request("POST", None, map["username" := "david", "password" := "778899123"]);
    var db := new UserTable();
    var w := new Writer();
    RegisterHandler(w, r, db, Ok(hash), faults);
    asWritten := w.Sent();
    var w2 := new Writer();
    RegisterHandlerIntended(w2, r, db, Ok(hash), faults);
    intended := w2.Sent();
    created := "david" in db.rows;
  }
}
