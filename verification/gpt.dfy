/** gpt.go: the current revision of the metered chat turn. The stored history
    is decoded, the new message appended, the cost estimated as a quarter of
    the byte length, the turn refused when the balance does not exceed the
    estimate, and otherwise the provider is called, the reply appended, the
    history saved and the balance debited by the cost of the whole history. */
module Gpt {
  import opened Common
  import Server

  const Limits: string := "you've reached limits"

  /** parseMessageFromRequest (gpt.go:135-146). */
  function ParseMessageFromRequest(r: Request): (res: Result<string>)
    ensures res.Ok? <==> r.formError.None? && FormValue(r, "message") != ""
    ensures res.Ok? ==> res.value == FormValue(r, "message")
    ensures r.formError.Some? ==> res == Err("failed to parse message: " + r.formError.value)
  {
    if r.formError.Some? then Err("failed to parse message: " + r.formError.value)
    else if FormValue(r, "message") == "" then Err("failed to parse message: no message provided in the request")
    else Ok(FormValue(r, "message"))
  }

  /** getHistoryMessages (gpt.go:120-133): no bytes is an empty history, not
      an error; only bytes that do not decode are an error. */
  function GetHistoryMessages(b: Blob): (res: Result<seq<Msg>>)
    ensures res.Ok? <==> !b.Corrupt?
    ensures b.NoBytes? ==> res == Ok([])
    ensures b.Encoded? ==> res == Ok(b.msgs)
  {
    match b
    case NoBytes => Ok([])
    case Encoded(ms) => Ok(ms)
    case Corrupt(e) => Err("failed to get history messages: " + e)
  }

  /** formatMessages (gpt.go:95-118): the stored history with exactly one
      user message, the request's, appended at the end. */
  function FormatMessages(b: Blob, r: Request): (res: Result<seq<Msg>>)
    ensures res.Ok? <==> !b.Corrupt? && ParseMessageFromRequest(r).Ok?
    ensures res.Ok? ==> res.value == GetHistoryMessages(b).value + [Msg(UserRole, FormValue(r, "message"))]
    ensures res.Ok? && b.NoBytes? ==> res.value == [Msg(UserRole, FormValue(r, "message"))]
  {
    match GetHistoryMessages(b)
    case Err(e) => Err("failed to format messages: " + e)
    case Ok(history) =>
      match ParseMessageFromRequest(r)
      case Err(e) => Err("failed to format messages: " + e)
      case Ok(message) => Ok(history + [Msg(UserRole, message)])
  }

  /** The list the handler goes on with: the error of formatMessages is
      overwritten at gpt.go:19 before anyone looks at it, so a failure leaves
      the nil list. */
  function Candidate(b: Blob, r: Request): (ms: seq<Msg>)
    ensures FormatMessages(b, r).Err? ==> ms == []
    ensures FormatMessages(b, r).Ok? ==> ms == FormatMessages(b, r).value
  {
    match FormatMessages(b, r)
    case Ok(ms) => ms
    case Err(_) => []
  }

  /** The estimated cost of a message list: a quarter of its byte length. */
  function Tokens(ms: seq<Msg>): nat
  {
    TotalLen(ms) / 4
  }

  /** calculateTokens (gpt.go:148-155). */
  method CalculateTokens(messages: seq<Msg>) returns (tokens: int)
    ensures tokens == Tokens(messages)
  {
    var length := 0;
    for i := 0 to |messages|
      invariant length == TotalLen(messages[..i])
    {
      assert messages[..i + 1][..i] == messages[..i];
      length := length + Utf8Len(messages[i].content);
    }
    assert messages[..|messages|] == messages;
    tokens := length / 4;
  }

  /** Appending a message never lowers the estimate, and the estimate of a
      list is at least the estimates of its parts taken apart. */
  lemma {:induction false} TokensMonotone(ms: seq<Msg>, more: seq<Msg>)
    ensures Tokens(ms) <= Tokens(ms + more)
    ensures Tokens(ms) + Tokens(more) <= Tokens(ms + more)
  {
    TotalLenConcat(ms, more);
  }

  /** A failed parse is not noticed: the turn goes on with an empty list
      whose estimate is 0, so any positive balance admits it. */
  lemma FailedFormatCostsNothing(b: Blob, r: Request, balance: int)
    requires ParseMessageFromRequest(r).Err? && balance > 0
    ensures Candidate(b, r) == [] && balance > Tokens(Candidate(b, r))
  {
  }

  /** getUserTokens (gpt.go:74-80): the stored balance read back as a Go `int`. */
  function GetUserTokens(rows: map<string, User>, username: string, fault: Option<string>): (res: Result<int>)
    ensures res.Ok? <==> Server.FindUser(rows, username, fault).Ok?
    ensures res.Ok? ==> res.value == ToInt(rows[username].tokens)
    ensures res.Err? ==> res.error == "failed to get user tokens: " + Server.FindUser(rows, username, fault).error
  {
    match Server.FindUser(rows, username, fault)
    case Err(e) => Err("failed to get user tokens: " + e)
    case Ok(user) => Ok(ToInt(user.tokens))
  }

  /** The table after updateUserTokens: the user's row with `uint(tokens)`
      stored, when both the lookup and the save succeed. */
  function UpdatedRows(rows: map<string, User>, username: string, tokens: int, lookup: Option<string>, save: Option<string>): map<string, User>
  {
    var found := Server.FindUser(rows, username, lookup);
    if found.Ok? && save.None? then rows[found.value.username := found.value.(tokens := ToUint(tokens))]
    else rows
  }

  /** updateUserTokens (gpt.go:82-93). */
  method UpdateUserTokens(db: UserTable, username: string, tokens: int, lookup: Option<string>, save: Option<string>)
    returns (err: Option<string>)
    modifies db`rows
    ensures old(db.Valid()) ==> db.Valid()
    ensures err.None? <==> Server.FindUser(old(db.rows), username, lookup).Ok? && save.None?
    ensures db.rows == UpdatedRows(old(db.rows), username, tokens, lookup, save)
  {
    var found := Server.FindUser(db.rows, username, lookup);
    if found.Err? {
      return Some("failed to update tokens: " + found.error);
    }
    var user := found.value.(tokens := ToUint(tokens));
    err := db.Save(user, save);
    if err.Some? {
      err := Some("failed to update user tokens: " + err.value);
    }
  }

  /** saveChatHistory (gpt.go:157-173): the encoded history and a one-day
      MaxAge are put into the session, which is then saved. */
  method SaveChatHistory(s: Session, history: seq<Msg>, fault: Option<string>) returns (err: Option<string>)
    modifies s
    ensures s.Current() == old(s.Current()).(messages := Some(Json(Encoded(history))), maxAge := OneDay)
    ensures s.persisted == if fault.None? then Some(s.Current()) else old(s.persisted)
    ensures err.Some? <==> fault.Some?
  {
    s.messages := Some(Json(Encoded(history)));
    s.maxAge := OneDay;
    err := s.Save(fault);
    if err.Some? {
      err := Some("failed to save session messages: " + err.value);
    }
  }

  /** What saveChatHistory stores is what getHistoryMessages reads back.
      With JSON encoding modelled as the identity this only records that the
      two ends use the same encoding; JSON itself is not modelled. */
  lemma SavedHistoryReadsBack(history: seq<Msg>)
    ensures GetHistoryMessages(Encoded(history)) == Ok(history)
  {
  }

  /** The session values the handler reads through type assertions. */
  predicate Readable(v: Values)
  {
    v.messages.Some? && v.messages.value.Json? && v.username.Some?
  }

  /** gpt.go:48-71: the reply is sent, the history with the reply tagged as
      a user message is saved with a one-day MaxAge, and only a saved
      history is charged for, at the estimate of the whole history. */
  twostate predicate Charged(w: Writer, s: Session, db: UserTable, username: string, messages: seq<Msg>,
                             balance: int, reply: string, faults: Faults)
    reads w, s, db
  {
    var history := messages + [Msg(UserRole, reply)];
    && w.Answered(Plain(reply))
    && s.Current() == old(s.Current()).(messages := Some(Json(Encoded(history))), maxAge := OneDay)
    && s.persisted == (if faults.sessionSave.None? then Some(s.Current()) else old(s.persisted))
    && db.rows == if faults.sessionSave.Some? then old(db.rows)
                  else UpdatedRows(old(db.rows), username, balance - Tokens(history), faults.relookup, faults.dbWrite)
  }

  /** gpt.go:48-71. */
  method Charge(w: Writer, s: Session, db: UserTable, username: string, messages: seq<Msg>,
                balance: int, reply: string, faults: Faults)
    requires w.Fresh()
    modifies w, s, db
    ensures old(db.Valid()) ==> db.Valid()
    ensures db.nextId == old(db.nextId)
    ensures Charged(w, s, db, username, messages, balance, reply, faults)
  {
    w.Print(reply);
    var history := messages + [Msg(UserRole, reply)];
    var err := SaveChatHistory(s, history, faults.sessionSave);
    if err.Some? {
      return;
    }
    var cost := CalculateTokens(history);
    err := UpdateUserTokens(db, username, balance - cost, faults.relookup, faults.dbWrite);
  }

  /** The outcome of handleGpt3Dot5Turbo (gpt.go:14-72). A session without
      an encoded history or a user name fails a type assertion before
      anything is written; the message list sent is the history plus the
      request's message, or nothing when either is missing or unreadable. */
  twostate predicate Served(w: Writer, s: Session, db: UserTable, r: Request,
                            reply: Result<string>, faults: Faults, new sent: Option<ChatRequest>)
    reads w, s, db
  {
    if !Readable(old(s.Current())) then
      w.panicked && w.body == [] && sent.None? && unchanged(s, db)
    else
      var candidate := Candidate(old(s.messages).value.blob, r);
      var name := old(s.username).value;
      var balance := GetUserTokens(old(db.rows), name, faults.lookup);
      if balance.Err? then
        w.Answered(HttpError(balance.error, 500)) && sent.None? && unchanged(s, db)
      else if balance.value <= Tokens(candidate) then
        // the gate: the soft refusal, no provider call, no change
        w.Answered(Plain(Limits)) && sent.None? && unchanged(s, db)
      else
        // at most 50 tokens of output, whatever the balance
        && sent == Some(ChatRequest(Gpt35Turbo, candidate, 50))
        && if reply.Err? then
             w.Answered(HttpError("cannot respond: " + reply.error, 500)) && unchanged(s, db)
           else
             Charged(w, s, db, name, candidate, balance.value, reply.value, faults)
  }

  /** handleGpt3Dot5Turbo (gpt.go:14-72), reached through authenticatedOnly.
      `reply` is what the provider answers to the request returned in `sent`
      (`None`: the provider is not called). */
  method HandleGpt3Dot5Turbo(w: Writer, r: Request, s: Session, db: UserTable, reply: Result<string>, faults: Faults)
    returns (sent: Option<ChatRequest>)
    requires w.Fresh()
    modifies w, s, db
    ensures old(db.Valid()) ==> db.Valid()
    ensures db.nextId == old(db.nextId)
    ensures Served(w, s, db, r, reply, faults, sent)
  {
    sent := None;
    if !(s.messages.Some? && s.messages.value.Json?) {
      w.Panic();
      return;
    }
    var formatted := FormatMessages(s.messages.value.blob, r);
    var messages := if formatted.Ok? then formatted.value else [];
    if s.username.None? {
      w.Panic();
      return;
    }
    var username := s.username.value;
    var balance := GetUserTokens(db.rows, username, faults.lookup);
    if balance.Err? {
      w.Error(balance.error, 500);
      return;
    }
    var messagesLength := CalculateTokens(messages);
    if balance.value <= messagesLength {
      w.Print(Limits);
      return;
    }
    sent := Some(ChatRequest(Gpt35Turbo, messages, 50));
    if reply.Err? {
      w.Error("cannot respond: " + reply.error, 500);
      return;
    }
    Charge(w, s, db, username, messages, balance.value, reply.value, faults);
  }

  /** A successful turn stores the old history followed by exactly two new
      entries, the user's message and the model's reply, both with the user
      role; a history of user messages stays one. */
  lemma {:induction false} TurnAppendsTwoUserMessages(h: seq<Msg>, r: Request, reply: string)
    requires ParseMessageFromRequest(r).Ok?
    ensures var next := Candidate(Encoded(h), r) + [Msg(UserRole, reply)];
      && next == h + [Msg(UserRole, FormValue(r, "message")), Msg(UserRole, reply)]
      && (AllUser(h) ==> AllUser(next))
  {
    var next := Candidate(Encoded(h), r) + [Msg(UserRole, reply)];
    assert next == h + [Msg(UserRole, FormValue(r, "message")), Msg(UserRole, reply)];
    if AllUser(h) {
      forall i | 0 <= i < |next|
        ensures next[i].role == UserRole
      {
        if i < |h| {
          assert next[i] == h[i];
        }
      }
    }
  }

  /** The charge is the estimate of the whole stored history, not of this
      turn: a reply four bytes longer than four times the balance takes the
      balance below zero, and `uint` stores it as a number of at least 2^63. */
  lemma {:induction false} LongReplyWrapsBalance(candidate: seq<Msg>, reply: string, balance: int)
    requires Tokens(candidate) < balance
    requires 4 * balance + 4 <= Utf8Len(reply)
    requires TotalLen(candidate) + Utf8Len(reply) < TwoTo63
    ensures balance - Tokens(candidate + [Msg(UserRole, reply)]) < 0
    ensures ToUint(balance - Tokens(candidate + [Msg(UserRole, reply)])) >= TwoTo63
  {
    TotalLenSnoc(candidate, Msg(UserRole, reply));
  }

  /** One concrete case of the above: a 1-token balance, an empty history
      entry and an 8-byte reply leave the balance at -1, stored as 2^64 - 1. */
  lemma WrappedBalanceExample()
    ensures var history := [Msg(UserRole, ""), Msg(UserRole, "abcdefgh")];
      && Tokens(history) == 2
      && ToUint(1 - Tokens(history)) == TwoTo64 - 1
  {
    var history := [Msg(UserRole, ""), Msg(UserRole, "abcdefgh")];
    TotalLenSnoc([Msg(UserRole, "")], Msg(UserRole, "abcdefgh"));
    TotalLenSnoc([], Msg(UserRole, ""));
    assert [Msg(UserRole, "")] + [Msg(UserRole, "abcdefgh")] == history;
    assert [] + [Msg(UserRole, "")] == [Msg(UserRole, "")];
  }
}
