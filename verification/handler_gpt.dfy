/** handler/GptHandler.go: the chat turn of the `handler` package. The
    session keeps the message list itself; the user's message is appended
    to it in place before the balance is even read, the gate compares the
    balance with the byte length, the provider may produce up to
    balance - length tokens, and the debit is a quarter of (prompt length -
    reply length), truncated toward zero. */
module HandlerGpt {
  import opened Common

  const Limits: string := "you've reached limits"
  const NotLoggedIn: string := "you have not logged in yet"

  /** The session holds a message list (the type assertion succeeds). */
  predicate HasList(v: Values)
  {
    v.messages.Some? && v.messages.value.List?
  }

  /** updateMessage (handler/GptHandler.go:113-122): appends one user message
      to the session's list in place; the type assertion fails (and the
      request is aborted) when the session holds no list. */
  method UpdateMessage(s: Session, message: string) returns (ok: bool)
    modifies s`messages
    ensures ok <==> HasList(old(s.Current()))
    ensures s.messages == if ok then Some(List(old(s.messages).value.msgs + [Msg(UserRole, message)])) else old(s.messages)
  {
    ok := s.messages.Some? && s.messages.value.List?;
    if ok {
      s.messages := Some(List(s.messages.value.msgs + [Msg(UserRole, message)]));
    }
  }

  /** getTokens (handler/GptHandler.go:132-141): a missing user is an error. */
  function GetTokens(rows: map<string, User>, username: string, fault: Option<string>): (res: Result<int>)
    ensures res.Ok? <==> fault.None? && username in rows
    ensures res.Ok? ==> res.value == ToInt(rows[username].tokens)
    ensures fault.None? && username !in rows ==> res == Err("failed to get token: " + RecordNotFound)
  {
    match FindFirst(rows, username, fault)
    case Err(e) => Err("failed to get token: " + e)
    case Ok(user) => Ok(ToInt(user.tokens))
  }

  /** The table after updateTokens. */
  function UpdatedRows(rows: map<string, User>, username: string, tokens: int, lookup: Option<string>, save: Option<string>): map<string, User>
  {
    var found := FindFirst(rows, username, lookup);
    if found.Ok? && save.None? then rows[found.value.username := found.value.(tokens := ToUint(tokens))]
    else rows
  }

  /** updateTokens (handler/GptHandler.go:143-157): a missing user is an
      error and leaves the table alone. */
  method UpdateTokens(db: UserTable, username: string, tokens: int, lookup: Option<string>, save: Option<string>)
    returns (err: Option<string>)
    modifies db`rows
    ensures old(db.Valid()) ==> db.Valid()
    ensures err.None? <==> lookup.None? && username in old(db.rows) && save.None?
    ensures lookup.None? && username !in old(db.rows) ==> err == Some("failed to update tokens: " + RecordNotFound)
    ensures db.rows == UpdatedRows(old(db.rows), username, tokens, lookup, save)
  {
    var found := FindFirst(db.rows, username, lookup);
    if found.Err? {
      return Some("failed to update tokens: " + found.error);
    }
    var user := found.value.(tokens := ToUint(tokens));
    err := db.Save(user, save);
    if err.Some? {
      err := Some("failed to update tokens: " + err.value);
    }
  }

  /** The balance written after a successful turn (handler/GptHandler.go:91). */
  function NewBalance(balance: int, historyLength: int, reply: string): (nb: int)
    ensures Utf8Len(reply) <= historyLength ==> balance - nb == (historyLength - Utf8Len(reply)) / 4
    ensures Utf8Len(reply) > historyLength ==> nb - balance == (Utf8Len(reply) - historyLength) / 4
  {
    balance - Quarter(historyLength - Utf8Len(reply))
  }

  /** The debit is never more than a quarter of the history sent, so an
      admitted turn (balance > history length) always leaves a positive
      balance; a reply longer than the history by 4 bytes or more raises it. */
  lemma AdmittedTurnKeepsBalancePositive(balance: int, historyLength: int, reply: string)
    requires 0 <= historyLength < balance
    ensures NewBalance(balance, historyLength, reply) > 0
    ensures Utf8Len(reply) >= historyLength + 4 ==> NewBalance(balance, historyLength, reply) > balance
  {
  }

  /** What a successful reply leads to (handler/GptHandler.go:77-96): the
      reply is sent and appended to the list as a user message, the session
      is saved, and only a saved session is charged for. */
  twostate predicate Charged(w: Writer, s: Session, db: UserTable, prior: Values, name: string,
                             messages: seq<Msg>, balance: int, length: int, reply: string, faults: Faults)
    reads w, s, db
  {
    && s.Current() == prior.(messages := Some(List(messages + [Msg(UserRole, reply)])))
    && s.persisted == (if faults.sessionSave.None? then Some(s.Current()) else old(s.persisted))
    && if faults.sessionSave.Some? then
         // the reply is already out: the 401 does not change the status
         && w.Answered(Response(200, [reply, "failed to save session: " + faults.sessionSave.value, "\n"]))
         && unchanged(db)
       else
         && w.Answered(Plain(reply))
         && db.rows == UpdatedRows(old(db.rows), name, NewBalance(balance, length, reply), faults.relookup, faults.dbWrite)
  }

  /** handler/GptHandler.go:77-96. */
  method Charge(w: Writer, s: Session, db: UserTable, ghost prior: Values, name: string,
                messages: seq<Msg>, balance: int, length: int, reply: string, faults: Faults)
    requires w.Fresh()
    requires s.Current() == prior.(messages := Some(List(messages)))
    modifies w, s, db
    ensures old(db.Valid()) ==> db.Valid()
    ensures db.nextId == old(db.nextId)
    ensures Charged(w, s, db, prior, name, messages, balance, length, reply, faults)
  {
    w.Print(reply);
    var _ := UpdateMessage(s, reply);
    var err := s.Save(faults.sessionSave);
    if err.Some? {
      w.Error("failed to save session: " + err.value, 401);
      return;
    }
    var newBalance := balance - Quarter(length - Utf8Len(reply));
    err := UpdateTokens(db, name, newBalance, faults.relookup, faults.dbWrite);
  }

  /** The metered part of the turn (handler/GptHandler.go:53-96) for the
      user `name` whose session held `prior` before `messages` (the stored
      list plus the new user message) was appended to it in memory. */
  twostate predicate Metered(w: Writer, s: Session, db: UserTable, prior: Values, name: string,
                             messages: seq<Msg>, reply: Result<string>, faults: Faults, new sent: Option<ChatRequest>)
    reads w, s, db
  {
    // the in-memory session after updateMessage; it is only stored by a later Save
    var keptInMemory := s.Current() == prior.(messages := Some(List(messages))) && s.persisted == old(s.persisted) && unchanged(db);
    var balance := GetTokens(old(db.rows), name, faults.lookup);
    var length := TotalLen(messages);
    if balance.Err? then
      w.Answered(HttpError(balance.error, 500)) && sent.None? && keptInMemory
    else if balance.value <= length then
      w.Answered(Plain(Limits)) && sent.None? && keptInMemory
    else
      && sent == Some(ChatRequest(Gpt35Turbo, messages, balance.value - length))
      && sent.value.maxTokens >= 1
      && if reply.Err? then
           w.Answered(HttpError("cannot respond: " + reply.error, 500)) && keptInMemory
         else
           Charged(w, s, db, prior, name, messages, balance.value, length, reply.value, faults)
  }

  /** The message-handling part of Gpt3Dot5Handler for the parsed `message`
      (handler/GptHandler.go:45-96): the list must be there, then the
      username, then the metered turn. */
  twostate predicate Turned(w: Writer, s: Session, db: UserTable, message: string,
                            reply: Result<string>, faults: Faults, new sent: Option<ChatRequest>)
    reads w, s, db
  {
    if !HasList(old(s.Current())) then
      w.panicked && sent.None? && unchanged(s, db)
    else
      var messages := old(s.messages).value.msgs + [Msg(UserRole, message)];
      if old(s.username).None? then
        && w.panicked && sent.None? && unchanged(db)
        && s.Current() == old(s.Current()).(messages := Some(List(messages)))
        && s.persisted == old(s.persisted)
      else
        Metered(w, s, db, old(s.Current()), old(s.username).value, messages, reply, faults, sent)
  }

  /** handler/GptHandler.go:53-96, entered with `messages` already appended. */
  method Meter(w: Writer, s: Session, db: UserTable, ghost prior: Values, name: string,
               messages: seq<Msg>, reply: Result<string>, faults: Faults)
    returns (sent: Option<ChatRequest>)
    requires w.Fresh()
    requires s.Current() == prior.(messages := Some(List(messages)))
    modifies w, s, db
    ensures old(db.Valid()) ==> db.Valid()
    ensures db.nextId == old(db.nextId)
    ensures Metered(w, s, db, prior, name, messages, reply, faults, sent)
  {
    sent := None;
    var balance := GetTokens(db.rows, name, faults.lookup);
    if balance.Err? {
      w.Error(balance.error, 500);
      return;
    }
    var historyMessageLength := ContentLength(messages);
    if balance.value <= historyMessageLength {
      w.Print(Limits);
      return;
    }
    sent := Some(ChatRequest(Gpt35Turbo, messages, balance.value - historyMessageLength));
    if reply.Err? {
      w.Error("cannot respond: " + reply.error, 500);
      return;
    }
    Charge(w, s, db, prior, name, messages, balance.value, historyMessageLength, reply.value, faults);
  }

  /** handler/GptHandler.go:45-96 for the parsed `message`. */
  method Converse(w: Writer, s: Session, db: UserTable, message: string, reply: Result<string>, faults: Faults)
    returns (sent: Option<ChatRequest>)
    requires w.Fresh()
    modifies w, s, db
    ensures old(db.Valid()) ==> db.Valid()
    ensures db.nextId == old(db.nextId)
    ensures Turned(w, s, db, message, reply, faults, sent)
  {
    sent := None;
    ghost var prior := s.Current();
    var ok := UpdateMessage(s, message);
    if !ok {
      w.Panic();
      return;
    }
    var messages := s.messages.value.msgs;
    if s.username.None? {
      w.Panic();
      return;
    }
    sent := Meter(w, s, db, prior, s.username.value, messages, reply, faults);
  }

  /** Gpt3Dot5Handler (handler/GptHandler.go:20-98). `s` is the session
      `store.Get` returned and `reply` what the provider answers to `sent`. */
  method Gpt3Dot5Handler(w: Writer, r: Request, s: Session, db: UserTable, reply: Result<string>, faults: Faults)
    returns (sent: Option<ChatRequest>)
    requires w.Fresh()
    modifies w, s, db
    ensures old(db.Valid()) ==> db.Valid()
    ensures db.nextId == old(db.nextId)
    ensures r.verb != "POST" ==>
      w.Answered(HttpError("method not supported", 405)) && sent.None? && unchanged(s, db)
    ensures r.verb == "POST" && faults.store.Some? ==>
      w.Answered(HttpError("failed to get sessions: " + faults.store.value, 500)) && sent.None? && unchanged(s, db)
    ensures r.verb == "POST" && faults.store.None? && old(s.NotLoggedIn()) ==>
      w.Answered(HttpError(NotLoggedIn, 401)) && sent.None? && unchanged(s, db)
    ensures r.verb == "POST" && faults.store.None? && !old(s.NotLoggedIn()) && ParseMessage(r).Err? ==>
      w.Answered(HttpError(ParseMessage(r).error, 401)) && sent.None? && unchanged(s, db)
    ensures r.verb == "POST" && faults.store.None? && !old(s.NotLoggedIn()) && ParseMessage(r).Ok? ==>
      Turned(w, s, db, ParseMessage(r).value, reply, faults, sent)
  {
    sent := None;
    if r.verb != "POST" {
      w.Error("method not supported", 405);
      return;
    }
    if faults.store.Some? {
      w.Error("failed to get sessions: " + faults.store.value, 500);
      return;
    }
    if s.NotLoggedIn() {
      w.Error(NotLoggedIn, 401);
      return;
    }
    var message := ParseMessage(r);
    if message.Err? {
      w.Error(message.error, 401);
      return;
    }
    sent := Converse(w, s, db, message.value, reply, faults);
  }
}
