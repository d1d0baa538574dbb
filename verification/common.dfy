/** Shared vocabulary of the chat relay: optional values and results, chat
    messages, Go's byte length of a string, 64-bit conversions, and the three
    pieces of state the handlers change in place (the HTTP response being
    written, the gorilla session and the gorm user table). */
module Common {

  datatype Option<T> = None | Some(value: T)

  /** A value or the text of the Go error that was returned instead. */
  datatype Result<T> = Ok(value: T) | Err(error: string)

  // ---------------------------------------------------------------------------
  // Go integers

  const TwoTo63: int := 0x8000_0000_0000_0000
  const TwoTo64: int := 0x1_0000_0000_0000_0000

  type uint64 = x: int | 0 <= x < 0x1_0000_0000_0000_0000

  /** Go's `uint(x)` on a 64-bit platform: the value modulo 2^64. */
  function ToUint(x: int): (u: uint64)
    ensures 0 <= x < TwoTo64 ==> u == x
    ensures -TwoTo63 <= x < 0 ==> u == x + TwoTo64
    ensures (x - u) % TwoTo64 == 0
  {
    x % TwoTo64
  }

  /** Go's `int(u)` for a `uint`: the two's-complement reading of the same bits. */
  function ToInt(u: uint64): (x: int)
    ensures -TwoTo63 <= x < TwoTo63
    ensures ToUint(x) == u
  {
    if u < TwoTo63 then u else u - TwoTo64
  }

  /** A balance that fits in a Go `int` survives being stored as `uint` and read back. */
  lemma IntUintRoundTrip(x: int)
    requires -TwoTo63 <= x < TwoTo63
    ensures ToInt(ToUint(x)) == x
  {
  }

  /** Go's `/` on `int` truncates toward zero; this is `a / 4` as Go computes it. */
  function Quarter(a: int): (q: int)
    ensures a >= 0 ==> 0 <= a - 4 * q < 4
    ensures a < 0 ==> -4 < a - 4 * q <= 0
  {
    if a >= 0 then a / 4 else -((-a) / 4)
  }

  /** Truncating and Euclidean division agree on non-negative numerators only. */
  lemma QuarterAgreesWhenNonNegative(a: int)
    requires a >= 0
    ensures Quarter(a) == a / 4
  {
  }

  /** On a negative numerator that is not a multiple of 4, Go's quotient is
      one more than Dafny's (-1/4 is 0 in Go and -1 in Dafny). */
  lemma QuarterDiffersFromEuclid(a: int)
    requires a < 0
    ensures a % 4 != 0 ==> Quarter(a) == a / 4 + 1
    ensures a % 4 == 0 ==> Quarter(a) == a / 4
  {
  }

  // ---------------------------------------------------------------------------
  // Text and messages

  /** Number of bytes of the UTF-8 encoding of one character. */
  function Utf8Width(c: char): (n: nat)
    ensures 1 <= n <= 4
    ensures c as int < 0x80 <==> n == 1
  {
    if c as int < 0x80 then 1
    else if c as int < 0x800 then 2
    else if c as int < 0x1_0000 then 3
    else 4
  }

  /** Go's `len(s)` for a string: the length of its UTF-8 encoding in bytes. */
  function Utf8Len(s: string): (n: nat)
    ensures |s| <= n <= 4 * |s|
  {
    if s == [] then 0 else Utf8Width(s[0]) + Utf8Len(s[1..])
  }

  lemma {:induction false} Utf8LenConcat(a: string, b: string)
    ensures Utf8Len(a + b) == Utf8Len(a) + Utf8Len(b)
  {
    if a != [] {
      assert (a + b)[0] == a[0];
      assert (a + b)[1..] == a[1..] + b;
      Utf8LenConcat(a[1..], b);
    } else {
      assert a + b == b;
    }
  }

  /** Roles of the completion API; only `UserRole` is ever written by this code. */
  datatype Role = UserRole | AssistantRole

  datatype Msg = Msg(role: Role, content: string)

  /** Sum of the byte lengths of the contents of a message list. */
  function TotalLen(ms: seq<Msg>): nat
  {
    if ms == [] then 0 else TotalLen(ms[..|ms| - 1]) + Utf8Len(ms[|ms| - 1].content)
  }

  lemma {:induction false} TotalLenConcat(a: seq<Msg>, b: seq<Msg>)
    ensures TotalLen(a + b) == TotalLen(a) + TotalLen(b)
    decreases |b|
  {
    if b == [] {
      assert a + b == a;
    } else {
      var b' := b[..|b| - 1];
      assert (a + b)[..|a + b| - 1] == a + b';
      assert (a + b)[|a + b| - 1] == b[|b| - 1];
      TotalLenConcat(a, b');
    }
  }

  lemma TotalLenSnoc(ms: seq<Msg>, m: Msg)
    ensures TotalLen(ms + [m]) == TotalLen(ms) + Utf8Len(m.content)
  {
    assert (ms + [m])[..|ms|] == ms;
  }

  /** True when every message of the list carries the `user` role. */
  predicate AllUser(ms: seq<Msg>)
  {
    forall i :: 0 <= i < |ms| ==> ms[i].role == UserRole
  }

  /** The byte length of a conversation, as both older revisions compute it
      (calculateMessageLength, GptHandler.go:176-182, and calculateLength,
      handler/GptHandler.go:124-130, are the same loop): bytes, not tokens. */
  method ContentLength(messages: seq<Msg>) returns (length: int)
    ensures length == TotalLen(messages)
  {
    length := 0;
    for i := 0 to |messages|
      invariant length == TotalLen(messages[..i])
    {
      assert messages[..i + 1][..i] == messages[..i];
      length := length + Utf8Len(messages[i].content);
    }
    assert messages[..|messages|] == messages;
  }

  // ---------------------------------------------------------------------------
  // HTTP requests and responses

  /** The parts of an `*http.Request` the handlers read: the HTTP method, the error
      `ParseForm` returns (if any) and the form values it managed to parse. */
  datatype Request = Request(verb: string, formError: Option<string>, form: map<string, string>)

  /** `r.Form.Get(key)`: the empty string when the key is absent. */
  function FormValue(r: Request, key: string): (v: string)
    ensures key !in r.form ==> v == ""
  {
    if key in r.form then r.form[key] else ""
  }

  /** The message of a chat request, as both older revisions parse it
      (parseMessageFromRequest, GptHandler.go:163-174, and parseMessage,
      handler/GptHandler.go:100-111, are the same code): a form that does
      not parse or an empty message is an error. */
  function ParseMessage(r: Request): (res: Result<string>)
    ensures res.Ok? <==> r.formError.None? && FormValue(r, "message") != ""
    ensures res.Ok? ==> res.value == FormValue(r, "message")
    ensures r.formError.None? && res.Err? ==> res.error == "failed to parse message: no message provided"
  {
    if r.formError.Some? then Err("failed to parse message: " + r.formError.value)
    else if FormValue(r, "message") == "" then Err("failed to parse message: no message provided")
    else Ok(FormValue(r, "message"))
  }

  /** A finished response: its status and the strings written to its body,
      write by write (the client receives their concatenation, `Text`). */
  datatype Response = Response(status: int, body: seq<string>)

  /** The body as the client receives it. */
  function Text(chunks: seq<string>): string
  {
    if chunks == [] then "" else Text(chunks[..|chunks| - 1]) + chunks[|chunks| - 1]
  }

  /** What `fmt.Fprint(w, text)` alone produces. */
  function Plain(text: string): (resp: Response)
    ensures resp.status == 200 && Text(resp.body) == text
  {
    assert [text][..0] == [];
    Response(200, [text])
  }

  /** What `http.Error(w, msg, code)` produces on a response nothing was written to yet. */
  function HttpError(msg: string, code: int): (resp: Response)
    ensures resp.status == code && Text(resp.body) == msg + "\n"
  {
    assert [msg, "\n"][..1] == [msg];
    assert [msg][..0] == [];
    assert Text([msg]) == "" + msg == msg;
    Response(code, [msg, "\n"])
  }

  /** The `http.ResponseWriter` of one request. The first status written wins
      (a later `WriteHeader` is ignored by net/http), every write appends to
      the body, and a panic in the handler aborts the request. */
  class Writer {
    var status: Option<int>
    var body: seq<string>
    var panicked: bool

    constructor ()
      ensures Fresh()
    {
      status, body, panicked := None, [], false;
    }

    predicate Fresh()
      reads this
    {
      status.None? && body == [] && !panicked
    }

    /** The status the client receives: 200 when the handler never set one. */
    function Code(): int
      reads this
    {
      if status.Some? then status.value else 200
    }

    /** The response, when the handler did not panic. */
    function Sent(): Response
      reads this
    {
      Response(Code(), body)
    }

    /** The handler completed and the client received `resp`. */
    predicate Answered(resp: Response)
      reads this
    {
      !panicked && Sent() == resp
    }

    method WriteHeader(code: int)
      modifies this
      ensures status == if old(status).None? then Some(code) else old(status)
      ensures body == old(body) && panicked == old(panicked)
    {
      if status.None? {
        status := Some(code);
      }
    }

    /** `fmt.Fprint(w, s)`: an implicit 200 unless a status was already sent. */
    method Print(s: string)
      modifies this
      ensures status == if old(status).None? then Some(200) else old(status)
      ensures body == old(body) + [s] && panicked == old(panicked)
    {
      WriteHeader(200);
      body := body + [s];
    }

    /** `http.Error(w, msg, code)`. */
    method Error(msg: string, code: int)
      modifies this
      ensures status == if old(status).None? then Some(code) else old(status)
      ensures body == old(body) + [msg, "\n"] && panicked == old(panicked)
    {
      WriteHeader(code);
      body := body + [msg, "\n"];
    }

    /** A failed type assertion or an explicit `panic`: the request is aborted. */
    method Panic()
      modifies this
      ensures panicked && status == old(status) && body == old(body)
    {
      panicked := true;
    }
  }

  // ---------------------------------------------------------------------------
  // Sessions

  /** The encoded conversation kept in the root package's session: the empty
      byte slice, the JSON encoding of a message list, or bytes that do not
      decode (with the decoder's error text). JSON is modelled as the identity. */
  datatype Blob = NoBytes | Encoded(msgs: seq<Msg>) | Corrupt(reason: string)

  /** The dynamic type of `session.Values["messages"]`: `[]byte` in the root
      package, `[]openai.ChatCompletionMessage` (gob-registered) in `handler`. */
  datatype Stored = Json(blob: Blob) | List(msgs: seq<Msg>)

  /** The session values and options that the handlers use. `None` is a key
      that is absent from `session.Values`. */
  datatype Values = Values(
    authenticated: Option<bool>,
    username: Option<string>,
    messages: Option<Stored>,
    visitTime: Option<int>,
    maxAge: int)

  /** A gorilla session as returned by `store.Get`: its id, whether it is new,
      its values and MaxAge, and what the session store holds for it. */
  class Session {
    const id: string
    const isNew: bool
    var authenticated: Option<bool>
    var username: Option<string>
    var messages: Option<Stored>
    var visitTime: Option<int>
    var maxAge: int
    var persisted: Option<Values>

    constructor (id: string, isNew: bool, v: Values, persisted: Option<Values>)
      ensures this.id == id && this.isNew == isNew
      ensures Current() == v && this.persisted == persisted
    {
      this.id, this.isNew := id, isNew;
      authenticated, username, messages := v.authenticated, v.username, v.messages;
      visitTime, maxAge := v.visitTime, v.maxAge;
      this.persisted := persisted;
    }

    function Current(): Values
      reads this
    {
      Values(authenticated, username, messages, visitTime, maxAge)
    }

    /** `session.IsNew || session.Values["authenticated"] == false`; an absent
        flag does not compare equal to `false`. */
    predicate NotLoggedIn()
      reads this
    {
      isNew || authenticated == Some(false)
    }

    /** `session.Save(r, w)`, whose store may fail with `fault`. */
    method Save(fault: Option<string>) returns (err: Option<string>)
      modifies this`persisted
      ensures err == fault
      ensures persisted == if fault.None? then Some(Current()) else old(persisted)
    {
      err := fault;
      if fault.None? {
        persisted := Some(Current());
      }
    }
  }

  // ---------------------------------------------------------------------------
  // The user table

  datatype User = User(id: nat, username: string, password: string, tokens: uint64)

  /** `User{}`: what a query leaves behind when no row matches. */
  const ZeroUser: User := User(0, "", "", 0)

  /** The column default of the balance (model/User.go). */
  const DefaultTokens: uint64 := 1000

  /** The gorm error text for a `First` that matches no row. */
  const RecordNotFound: string := "record not found"

  /** `db.Limit(1).Find(&user, "username = ?", name)`: a query error, or the
      matching row, or `User{}` when no row matches. */
  function FindLimit1(rows: map<string, User>, name: string, fault: Option<string>): (r: Result<User>)
    ensures fault.Some? ==> r == Err(fault.value)
    ensures fault.None? && name in rows ==> r == Ok(rows[name])
    ensures fault.None? && name !in rows ==> r == Ok(ZeroUser)
  {
    if fault.Some? then Err(fault.value)
    else if name in rows then Ok(rows[name])
    else Ok(ZeroUser)
  }

  /** `db.First(&user, "username = ?", name)`: a query error, "record not
      found", or the matching row. */
  function FindFirst(rows: map<string, User>, name: string, fault: Option<string>): (r: Result<User>)
    ensures r.Ok? <==> fault.None? && name in rows
    ensures r.Ok? ==> r.value == rows[name]
    ensures fault.Some? ==> r == Err(fault.value)
    ensures fault.None? && name !in rows ==> r == Err(RecordNotFound)
  {
    if fault.Some? then Err(fault.value)
    else if name in rows then Ok(rows[name])
    else Err(RecordNotFound)
  }

  /** The row that `Create` stores: a fresh primary key, and the column
      default for a zero balance. */
  function Inserted(u: User, id: nat): (v: User)
    ensures v.username == u.username && v.password == u.password && v.id == id
    ensures v.tokens == if u.tokens == 0 then DefaultTokens else u.tokens
  {
    u.(id := id, tokens := if u.tokens == 0 then DefaultTokens else u.tokens)
  }

  /** The gorm user table, keyed by user name. */
  class UserTable {
    var rows: map<string, User>
    var nextId: nat

    constructor ()
      ensures rows == map[] && nextId == 1 && Valid()
    {
      rows, nextId := map[], 1;
    }

    /** Each row is stored under its own name and has a primary key that was
        handed out (so no row equals `User{}`). */
    ghost predicate Valid()
      reads this
    {
      && nextId > 0
      && forall n :: n in rows ==> rows[n].username == n && 0 < rows[n].id < nextId
    }

    /** `db.Create(&u)`. */
    method Create(u: User, fault: Option<string>) returns (err: Option<string>)
      modifies this
      ensures err == fault
      ensures fault.Some? ==> rows == old(rows) && nextId == old(nextId)
      ensures fault.None? ==> rows == old(rows)[u.username := Inserted(u, old(nextId))] && nextId == old(nextId) + 1
    {
      err := fault;
      if fault.None? {
        rows := rows[u.username := Inserted(u, nextId)];
        nextId := nextId + 1;
      }
    }

    /** `db.Save(&u)` for a row that was read from the table. */
    method Save(u: User, fault: Option<string>) returns (err: Option<string>)
      modifies this`rows
      ensures err == fault
      ensures rows == if fault.None? then old(rows)[u.username := u] else old(rows)
    {
      err := fault;
      if fault.None? {
        rows := rows[u.username := u];
      }
    }
  }

  /** `bcrypt.CompareHashAndPassword(hash, password) == nil`. The hash
      function is not modelled: `compare` stands for it. What is kept is that
      a hash shorter than bcrypt's minimum encoded size never matches. */
  const MinHashSize: nat := 59

  function PasswordMatches(compare: (string, string) -> bool, hash: string, password: string): (ok: bool)
    ensures |hash| < MinHashSize ==> !ok
  {
    |hash| >= MinHashSize && compare(hash, password)
  }

  /** The failures the external stores report during one request, one per
      call: `None` is success, `Some(text)` the error text. */
  datatype Faults = Faults(
    store: Option<string>,       // store.Get
    lookup: Option<string>,      // the first user query
    relookup: Option<string>,    // the user query before the balance is written
    dbWrite: Option<string>,     // db.Save or db.Create
    sessionSave: Option<string>) // session.Save

  /** One day in seconds, the MaxAge given to a logged-in session. */
  const OneDay: int := 24 * 3600

  /** The model requested by every revision. */
  const Gpt35Turbo: string := "gpt-3.5-turbo"

  /** A chat completion request as sent to the provider. */
  datatype ChatRequest = ChatRequest(model: string, messages: seq<Msg>, maxTokens: int)

  /** Decimal rendering of an integer, as `%v` prints it. */
  function Decimal(n: int): (s: string)
    ensures s != []
    decreases if n < 0 then -n + 1 else n
  {
    if n < 0 then "-" + Decimal(-n)
    else if n < 10 then [Digit(n)]
    else Decimal(n / 10) + [Digit(n % 10)]
  }

  function Digit(d: int): char
    requires 0 <= d < 10
  {
    ('0' as int + d) as char
  }

  predicate IsDigits(s: string)
  {
    forall i :: 0 <= i < |s| ==> '0' <= s[i] <= '9'
  }

  /** The number a string of decimal digits denotes. */
  function DigitsValue(s: string): nat
    requires IsDigits(s)
  {
    if s == [] then 0 else DigitsValue(s[..|s| - 1]) * 10 + (s[|s| - 1] as int - '0' as int)
  }

  /** Reading back what `Decimal` prints gives the number printed. */
  lemma {:induction false} DecimalRoundTrip(n: nat)
    ensures IsDigits(Decimal(n)) && DigitsValue(Decimal(n)) == n
  {
    if n >= 10 {
      DecimalRoundTrip(n / 10);
      var s := Decimal(n);
      assert s == Decimal(n / 10) + [Digit(n % 10)];
      assert s[..|s| - 1] == Decimal(n / 10);
    }
  }
}
