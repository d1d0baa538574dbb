/** GptHandler.go: an older revision of the chat turn in the root package.
    It gates on the raw byte length of the conversation (no division by 4)
    and debits a quarter of (prompt length - reply length), with Go's
    truncating division. */
module GptHandler {
  import opened Common

  const Limits: string := "you've reached limits"
  const NotLoggedIn: string := "you have not logged in yet"

  /** getSessionMessages (GptHandler.go:131-143). */
  function GetSessionMessages(b: Blob): (res: Result<seq<Msg>>)
    ensures res.Ok? <==> !b.Corrupt?
    ensures b.NoBytes? ==> res == Ok([])
    ensures b.Encoded? ==> res == Ok(b.msgs)
  {
    match b
    case NoBytes => Ok([])
    case Encoded(ms) => Ok(ms)
    case Corrupt(e) => Err("failed to get session messages: " + e)
  }

  /** generateMessageFromRequest (GptHandler.go:105-125): the stored history
      and the request's message as one more user message. */
  function GenerateMessageFromRequest(b: Blob, r: Request): (res: Result<seq<Msg>>)
    ensures res.Ok? <==> !b.Corrupt? && ParseMessage(r).Ok?
    ensures res.Ok? ==> res.value == GetSessionMessages(b).value + [Msg(UserRole, FormValue(r, "message"))]
    ensures r.formError.None? && FormValue(r, "message") == "" ==> res.Err?
    ensures res.Err? ==>
      res.error == "failed to generate message: " + (if b.Corrupt? then GetSessionMessages(b).error else ParseMessage(r).error)
  {
    match GetSessionMessages(b)
    case Err(e) => Err("failed to generate message: " + e)
    case Ok(history) =>
      match ParseMessage(r)
      case Err(e) => Err("failed to generate message: " + e)
      case Ok(message) => Ok(history + [Msg(UserRole, message)])
  }

  /** getBalance (GptHandler.go:184-194): `First` reports a missing user as
      an error. */
  function GetBalance(rows: map<string, User>, username: string, fault: Option<string>): (res: Result<int>)
    ensures res.Ok? <==> fault.None? && username in rows
    ensures res.Ok? ==> res.value == ToInt(rows[username].tokens)
    ensures fault.None? && username !in rows ==> res == Err("failed to get balance: " + RecordNotFound)
  {
    match FindFirst(rows, username, fault)
    case Err(e) => Err("failed to get balance: " + e)
    case Ok(user) => Ok(ToInt(user.tokens))
  }

  /** The table after updateTokens. */
  function UpdatedRows(rows: map<string, User>, username: string, tokens: int, lookup: Option<string>, save: Option<string>): map<string, User>
  {
    var found := FindFirst(rows, username, lookup);
    if found.Ok? && save.None? then rows[found.value.username := found.value.(tokens := ToUint(tokens))]
    else rows
  }

  /** updateTokens (GptHandler.go:196-211): a missing user is an error and
      leaves the table alone. */
  method UpdateTokens(db: UserTable, username: string, tokens: int, lookup: Option<string>, save: Option<string>)
    returns (err: Option<string>)
    modifies db`rows
    ensures old(db.Valid()) ==> db.Valid()
    ensures err.None? <==> lookup.None? && username in old(db.rows) && save.None?
    ensures lookup.None? && username !in old(db.rows) ==> err == Some("failed to update tokens: " + RecordNotFound)
    ensures db.rows == UpdatedRows(old(db.rows), username, tokens, lookup, save)
  {
    var found := FindFirst(db.rows, username, lookup);
    if found.Err? {
      return Some("failed to update tokens: " + found.error);
    }
    var user := found.value.(tokens := ToUint(tokens));
    err := db.Save(user, save);
    if err.Some? {
      err := Some("failed to update tokens: " + err.value);
    }
  }

  /** saveSessionMessages (GptHandler.go:145-161). */
  method SaveSessionMessages(s: Session, history: seq<Msg>, fault: Option<string>) returns (err: Option<string>)
    modifies s
    ensures s.Current() == old(s.Current()).(messages := Some(Json(Encoded(history))), maxAge := OneDay)
    ensures s.persisted == if fault.None? then Some(s.Current()) else old(s.persisted)
    ensures err == if fault.None? then None else Some("failed to save session messages: " + fault.value)
  {
    s.messages := Some(Json(Encoded(history)));
    s.maxAge := OneDay;
    err := s.Save(fault);
    if err.Some? {
      err := Some("failed to save session messages: " + err.value);
    }
  }

  /** The balance written after a successful turn (GptHandler.go:96). */
  function NewBalance(balance: int, promptLength: int, reply: string): (nb: int)
    ensures Utf8Len(reply) <= promptLength ==> balance - nb == (promptLength - Utf8Len(reply)) / 4
    ensures Utf8Len(reply) > promptLength ==> nb - balance == (Utf8Len(reply) - promptLength) / 4
  {
    balance - Quarter(promptLength - Utf8Len(reply))
  }

  /** A reply at least four bytes longer than the whole prompt raises the
      balance instead of lowering it; a reply at most as long as the prompt
      never raises it. */
  lemma LongReplyRaisesBalance(balance: int, promptLength: int, reply: string)
    ensures Utf8Len(reply) >= promptLength + 4 ==> NewBalance(balance, promptLength, reply) > balance
    ensures Utf8Len(reply) <= promptLength ==> NewBalance(balance, promptLength, reply) <= balance
  {
  }

  /** A POST whose session could be loaded. */
  predicate Entered(r: Request, faults: Faults)
  {
    r.verb == "POST" && faults.store.None?
  }

  predicate HasBlob(v: Values)
  {
    v.messages.Some? && v.messages.value.Json?
  }

  function Generated(v: Values, r: Request): Result<seq<Msg>>
    requires HasBlob(v)
  {
    GenerateMessageFromRequest(v.messages.value.blob, r)
  }

  /** What a successful reply leads to (GptHandler.go:77-101): the reply
      is sent, the history with the reply tagged as a user message is saved
      with a one-day MaxAge, and only a saved history is charged for. */
  twostate predicate Charged(w: Writer, s: Session, db: UserTable, name: string, messages: seq<Msg>,
                             balance: int, length: int, reply: string, faults: Faults)
    reads w, s, db
  {
    var history := messages + [Msg(UserRole, reply)];
    && s.Current() == old(s.Current()).(messages := Some(Json(Encoded(history))), maxAge := OneDay)
    && s.persisted == (if faults.sessionSave.None? then Some(s.Current()) else old(s.persisted))
    && if faults.sessionSave.Some? then
         // the reply is already out, so the 500 comes too late to change the status
         && w.Answered(Response(200, [reply, "failed to save session messages: " + faults.sessionSave.value, "\n"]))
         && db.rows == old(db.rows)
       else
         && w.Answered(Plain(reply))
         && db.rows == UpdatedRows(old(db.rows), name, NewBalance(balance, length, reply), faults.relookup, faults.dbWrite)
  }

  /** GptHandler.go:77-101. */
  method Charge(w: Writer, s: Session, db: UserTable, name: string, messages: seq<Msg>,
                balance: int, length: int, reply: string, faults: Faults)
    requires w.Fresh()
    modifies w, s, db
    ensures old(db.Valid()) ==> db.Valid()
    ensures db.nextId == old(db.nextId)
    ensures Charged(w, s, db, name, messages, balance, length, reply, faults)
  {
    w.Print(reply);
    var history := messages + [Msg(UserRole, reply)];
    var err := SaveSessionMessages(s, history, faults.sessionSave);
    if err.Some? {
      w.Error(err.value, 500);
      return;
    }
    var newBalance := balance - Quarter(length - Utf8Len(reply));
    err := UpdateTokens(db, name, newBalance, faults.relookup, faults.dbWrite);
  }

  /** The metered part of the turn for user `name` and the conversation
      `messages` (GptHandler.go:46-101): the balance lookup, the gate on the
      byte length, the provider call, then the reply. */
  twostate predicate Turned(w: Writer, s: Session, db: UserTable, name: string, messages: seq<Msg>,
                            reply: Result<string>, faults: Faults, new sent: Option<ChatRequest>)
    reads w, s, db
  {
    var balance := GetBalance(old(db.rows), name, faults.lookup);
    var length := TotalLen(messages);
    if balance.Err? then
      w.Answered(HttpError(balance.error, 500)) && sent.None? && unchanged(s, db)
    else if balance.value <= length then
      w.Answered(Plain(Limits)) && sent.None? && unchanged(s, db)
    else
      && sent == Some(ChatRequest(Gpt35Turbo, messages, 50))
      && if reply.Err? then
           w.Answered(HttpError("cannot respond: " + reply.error, 500)) && unchanged(s, db)
         else
           Charged(w, s, db, name, messages, balance.value, length, reply.value, faults)
  }

  /** The metered part of Gpt3Dot5Handler (GptHandler.go:46-101). */
  method Converse(w: Writer, s: Session, db: UserTable, username: string, messages: seq<Msg>, reply: Result<string>, faults: Faults)
    returns (sent: Option<ChatRequest>)
    requires w.Fresh()
    modifies w, s, db
    ensures old(db.Valid()) ==> db.Valid()
    ensures db.nextId == old(db.nextId)
    ensures Turned(w, s, db, username, messages, reply, faults, sent)
  {
    sent := None;
    var balance := GetBalance(db.rows, username, faults.lookup);
    if balance.Err? {
      w.Error(balance.error, 500);
      return;
    }
    var messagesLength := ContentLength(messages);
    if balance.value <= messagesLength {
      w.Print(Limits);
      return;
    }
    sent := Some(ChatRequest(Gpt35Turbo, messages, 50));
    if reply.Err? {
      w.Error("cannot respond: " + reply.error, 500);
      return;
    }
    Charge(w, s, db, username, messages, balance.value, messagesLength, reply.value, faults);
  }

  /** Gpt3Dot5Handler past the login check (GptHandler.go:40-101): the
      `[]byte` assertion on the stored history, the message generation, the
      `string` assertion on the user name, then the metered turn. */
  twostate predicate Chatted(w: Writer, s: Session, db: UserTable, r: Request,
                             reply: Result<string>, faults: Faults, new sent: Option<ChatRequest>)
    reads w, s, db
  {
    if !HasBlob(old(s.Current())) then
      w.panicked && sent.None? && unchanged(s, db)
    else
      var generated := Generated(old(s.Current()), r);
      if generated.Err? then
        w.Answered(HttpError(generated.error, 500)) && sent.None? && unchanged(s, db)
      else if old(s.username).None? then
        w.panicked && sent.None? && unchanged(s, db)
      else
        Turned(w, s, db, old(s.username).value, generated.value, reply, faults, sent)
  }

  /** GptHandler.go:40-101. */
  method Chat(w: Writer, r: Request, s: Session, db: UserTable, reply: Result<string>, faults: Faults)
    returns (sent: Option<ChatRequest>)
    requires w.Fresh()
    modifies w, s, db
    ensures old(db.Valid()) ==> db.Valid()
    ensures db.nextId == old(db.nextId)
    ensures Chatted(w, s, db, r, reply, faults, sent)
  {
    sent := None;
    if !(s.messages.Some? && s.messages.value.Json?) {
      w.Panic();
      return;
    }
    var generated := GenerateMessageFromRequest(s.messages.value.blob, r);
    if generated.Err? {
      w.Error(generated.error, 500);
      return;
    }
    if s.username.None? {
      w.Panic();
      return;
    }
    sent := Converse(w, s, db, s.username.value, generated.value, reply, faults);
  }

  /** Gpt3Dot5Handler (GptHandler.go:20-103). `s` is the session `store.Get`
      returned and `reply` what the provider answers to `sent`. */
  method Gpt3Dot5Handler(w: Writer, r: Request, s: Session, db: UserTable, reply: Result<string>, faults: Faults)
    returns (sent: Option<ChatRequest>)
    requires w.Fresh()
    modifies w, s, db
    ensures old(db.Valid()) ==> db.Valid()
    ensures db.nextId == old(db.nextId)
    ensures r.verb != "POST" ==>
      w.Answered(HttpError("method not supported", 405)) && sent.None? && unchanged(s, db)
    ensures r.verb == "POST" && faults.store.Some? ==>
      w.Answered(HttpError("failed to get sessions: " + faults.store.value, 500)) && sent.None? && unchanged(s, db)
    ensures Entered(r, faults) && old(s.NotLoggedIn()) ==>
      w.Answered(HttpError(NotLoggedIn, 401)) && sent.None? && unchanged(s, db)
    ensures Entered(r, faults) && !old(s.NotLoggedIn()) ==> Chatted(w, s, db, r, reply, faults, sent)
  {
    sent := None;
    if r.verb != "POST" {
      w.Error("method not supported", 405);
      return;
    }
    if faults.store.Some? {
      w.Error("failed to get sessions: " + faults.store.value, 500);
      return;
    }
    if s.NotLoggedIn() {
      w.Error(NotLoggedIn, 401);
      return;
    }
    sent := Chat(w, r, s, db, reply, faults);
  }
}
