# chatgptbot in Dafny

A model of the request handlers of chatgptbot, a small Go web service that
lets registered users chat with OpenAI's gpt-3.5-turbo and pay for each turn
with a token balance stored in an SQLite user table. Sessions are kept in a
Redis or cookie session store. The model covers two parts.

- **The metered chat turn**, in its three revisions, each in its own module:
  - `Gpt` models `gpt.go`, the current revision.
  - `GptHandler` models `GptHandler.go`, an older revision.
  - `HandlerGpt` models `handler/GptHandler.go`, the oldest revision.

  A turn loads the stored history and appends the user's message. It checks
  the balance against a length estimate, then calls the provider. It then
  stores the reply and writes back the new balance.
- **Registration, login, logout and the middleware gates**:
  - `Auth` models `auth.go`.
  - `Server` models `server.go`.
  - `Utils` models `utils.go`.
  - `HandlerAuth` models `handler/AuthHandler.go`.
  - `HandlerWeb` models `handler/WebHandler.go`.

`Common` holds what the handlers share:
- **Response writer.** The `Writer` class stands for `http.ResponseWriter`:
  - The first status written wins.
  - Each `Fprint` adds one chunk to the body. Each `http.Error` adds two: the message and a newline.
  - A failed type assertion or a `panic` aborts the request.
- **Session.** The `Session` class stands for a gorilla session:
  - Its values are `Option` fields; `None` means the key is absent.
  - `persisted` is what the store holds.
- **User table.** The `UserTable` class stands for the gorm user table. It
  is a map from user name to row, plus the next primary key.
- **Go conversions.** The 64-bit `int`/`uint` conversions and Go's
  truncating `/` are written out.

Conventions used throughout:
- **Faults.** Failures of the external services are inputs: a `Faults`
  value holds one optional error text per call.
- **Provider reply.** What the provider answers is an input too, and each
  chat handler returns the request it sent (`None` when it made no call).
- **Password hashing.** A bcrypt hash is an input (`Result<string>`).
  Comparing a password with a hash goes through `compare`, a function
  parameter. The model keeps one rule of bcrypt: a hash shorter than 59
  bytes never matches.
- **Message lengths.** Message contents are strings, and Go's `len` is
  their UTF-8 byte length (`Utf8Len`).

Where the code and its tests or comments disagree, the model follows the
code. Some examples:
- `server_test.go:28` expects "registered successfully\n", but auth.go
  writes no newline.
- `fmt.Fprint` sends a 200 before any later `http.Error`, so a failed
  session save after the reply keeps status 200. The error text is only
  appended to the body (GptHandler.go:77-93, handler/GptHandler.go:78-88).
- auth.go repeats `getUsernameAndPassword`, `comparePasswordHash` and
  `hashPassword` from utils.go line for line (auth.go:116-140).
  `Utils.GetUsernameAndPassword` models both copies.

## Model

| member | source | states |
|---|---|---|
| Common.ToUint | gpt.go:87 | `uint(x)` is x modulo 2^64: unchanged in [0, 2^64), x + 2^64 for a negative 64-bit x |
| Common.ToInt | gpt.go:79 | `int(u)` reads a uint64 as two's complement; converting back with `uint` restores u |
| Common.IntUintRoundTrip | gpt.go:79-87 | `int(uint(x)) == x` for every 64-bit x |
| Common.Quarter | GptHandler.go:96 | Go's `a/4`: the remainder has the sign of a and is smaller than 4 in magnitude |
| Common.QuarterAgreesWhenNonNegative | handler/GptHandler.go:91 | for a >= 0 Go's and Dafny's division by 4 agree |
| Common.QuarterDiffersFromEuclid | handler/GptHandler.go:91 | on a negative numerator that is not a multiple of 4, Go's quotient is one more than Dafny's (-1/4 is 0 in Go); on multiples of 4 they agree |
| Common.Utf8Len | gpt.go:152 | `len(s)` counts UTF-8 bytes: between 1 and 4 per character |
| Common.Utf8LenConcat | gpt.go:150-153 | byte length is additive over concatenation |
| Common.TotalLenConcat | GptHandler.go:176-182 | the summed content length is additive over concatenation of message lists |
| Common.TotalLenSnoc | GptHandler.go:176-182 | appending a message adds exactly its byte length |
| Common.ContentLength | handler/GptHandler.go:124-130 | the loop computes the total byte length of the contents, with no division. GptHandler.go:176-182 is the same loop |
| Common.FormValue | gpt.go:141 | `r.Form.Get` gives "" for an absent key |
| Common.ParseMessage | GptHandler.go:163-174 | a form that does not parse or an empty message is an error ("no message provided" for the latter); otherwise the field unchanged. handler/GptHandler.go:100-111 is the same code |
| Common.Plain | gpt.go:28 | a lone `Fprint` gives status 200 and exactly the text |
| Common.HttpError | gpt.go:21 | `http.Error` gives the code and the message followed by a newline |
| Common.Writer.WriteHeader | gpt.go:21 | only the first status takes effect |
| Common.Writer.Print | gpt.go:49 | `Fprint` appends the text and implies a 200 when no status was sent |
| Common.Writer.Error | gpt.go:44 | `http.Error` appends the message and a newline, with its code if no status was sent |
| Common.Writer.Panic | gpt.go:19 | a failed type assertion aborts the request and writes nothing |
| Common.Session.Save | gpt.go:169 | a successful save stores exactly the current values; a failed one leaves the store as it was |
| Common.FindLimit1 | server.go:89 | `Limit(1).Find` gives the stored row for the name, or `User{}` for a missing name; a query error is returned as is |
| Common.FindFirst | GptHandler.go:188 | `First` succeeds exactly for a stored name and then gives its row; "record not found" for a missing name; a query error is returned as is |
| Common.Inserted | model/User.go:8-11 | an inserted row gets a fresh key and the column default of 1000 tokens for a zero balance |
| Common.UserTable.Create | auth.go:97 | `Create` inserts the row under its name with the next key, or changes nothing on failure |
| Common.UserTable.Save | gpt.go:88 | `Save` overwrites the row under its name, or changes nothing on failure |
| Common.PasswordMatches | utils.go:25-28 | a hash shorter than bcrypt's minimum size never matches |
| Common.Decimal | handler/AuthHandler.go:31 | `%v` of an int is a non-empty string |
| Common.DecimalRoundTrip | handler/AuthHandler.go:31 | the printed visit count consists of digits and reads back as the count |
| Utils.GetUsernameAndPassword | utils.go:11-23 | both credentials are non-empty exactly when they are returned unchanged, else the fixed error text |
| Utils.ParseFormErrorIgnored | utils.go:12-15 | the outcome is the same whether or not `ParseForm` failed |
| Utils.GetUsernameAndPasswordIntended | utils.go:12-15 | with the guard on `e`, a parse failure is reported with its text; otherwise the same as written |
| Utils.ParseErrorSlipsThrough | utils.go:12-15 | a request whose form failed to parse is accepted as written and refused as intended |
| Utils.InitSession | utils.go:37-43 | one-day MaxAge, authenticated, empty encoded history; the user name and the store are untouched |
| Server.FindUser | server.go:86-97 | succeeds exactly for a stored non-zero row; a query error and a missing user are the two error texts |
| Server.FindUserPresent | server.go:86-97 | in a table of keyed rows a stored user is found and a missing one is "user doesn't exist" |
| Server.FindUserIntended | server.go:85 | the lookup findUser's comment describes: a missing user is `User{}`, not an error |
| Server.FindUserDisagreesOnMissingUser | server.go:93-95 | the two agree on stored users and differ on every missing one; findUser never returns `User{}` |
| Server.AuthenticatedOnly | server.go:45-63 | the handler runs exactly for a loaded, non-new session not marked logged out; otherwise a 500 or a plain 200 refusal |
| Server.PostUsernamePasswordOnly | server.go:67-82 | the handler runs exactly for a POST with both credentials, which it receives unchanged; otherwise 405 or 401 |
| Gpt.ParseMessageFromRequest | gpt.go:137-146 | an empty message is an error; otherwise the field comes back unchanged |
| Gpt.GetHistoryMessages | gpt.go:121-133 | empty bytes are the empty history, encoded bytes their messages, undecodable bytes an error |
| Gpt.FormatMessages | gpt.go:98-118 | the stored history with exactly one user message appended; just that message for empty bytes |
| Gpt.Candidate | gpt.go:17-19 | the formatting error is discarded: the list sent is empty when formatting fails |
| Gpt.CalculateTokens | gpt.go:149-155 | the loop computes the total byte length divided by 4 |
| Gpt.TokensMonotone | gpt.go:149-155 | appending messages never lowers the estimate, and estimates are superadditive |
| Gpt.FailedFormatCostsNothing | gpt.go:17-27 | a failed parse sends an empty list whose estimate 0 passes any positive balance |
| Gpt.GetUserTokens | gpt.go:74-80 | the stored balance read back as an `int`, or findUser's error with its prefix |
| Gpt.UpdateUserTokens | gpt.go:82-93 | the user's row gets `uint(tokens)` when lookup and save succeed; nothing else changes |
| Gpt.SaveChatHistory | gpt.go:157-173 | the encoded history and a one-day MaxAge are set, and stored when the save succeeds |
| Gpt.SavedHistoryReadsBack | gpt.go:160-164 | what is saved is what getHistoryMessages reads back; with JSON modelled as the identity this only records that both ends use one encoding |
| Gpt.Charge | gpt.go:48-71 | reply sent; history plus the reply (as user) saved; only a saved history is charged its whole estimate |
| Gpt.HandleGpt3Dot5Turbo | gpt.go:14-72 | panic without history or name; 500 on lookup error; refusal at `balance <= estimate` with no call or change; otherwise a 50-token request, 500 on provider error, else the charged turn; a well-formed user table stays well formed and gets no new key |
| Gpt.TurnAppendsTwoUserMessages | gpt.go:54-59 | a turn stores the old history plus the message and the reply, both tagged user |
| Gpt.LongReplyWrapsBalance | gpt.go:66-67 | an admitted turn with a long reply leaves a negative balance, stored by `uint` as at least 2^63 |
| Gpt.WrappedBalanceExample | gpt.go:87 | a balance of 1 and an 8-byte reply store 2^64 - 1 |
| GptHandler.GetSessionMessages | GptHandler.go:131-143 | empty bytes are the empty history, encoded bytes their messages, other bytes an error |
| GptHandler.GenerateMessageFromRequest | GptHandler.go:105-125 | the history with exactly one user message appended; otherwise "failed to generate message: " followed by the decoding error, or else the parse error |
| GptHandler.GetBalance | GptHandler.go:184-194 | the stored balance, or "record not found" for a missing user |
| GptHandler.NewBalance | GptHandler.go:96 | the debit is (prompt length - reply length)/4 truncated toward zero: a reply shorter than the prompt lowers the balance by the rounded-down quarter, a longer one raises it by the rounded-down quarter of the excess |
| GptHandler.UpdateTokens | GptHandler.go:196-211 | the row gets `uint(tokens)`; a missing user is an error and changes nothing |
| GptHandler.SaveSessionMessages | GptHandler.go:146-161 | the encoded history and a one-day MaxAge are set and stored when the save succeeds |
| GptHandler.LongReplyRaisesBalance | GptHandler.go:96 | a reply 4 bytes longer than the prompt raises the balance; one no longer than the prompt never does |
| GptHandler.Charge | GptHandler.go:77-101 | reply sent and saved as a user message; a failed save adds the error after the reply, keeps 200 and charges nothing; else the balance becomes `balance - (length - len(reply))/4` |
| GptHandler.Converse | GptHandler.go:46-101 | 500 on lookup error; refusal at `balance <= length` with no call or change; a 50-token request; 500 on provider error; else the charged turn |
| GptHandler.Chat | GptHandler.go:40-101 | panic without an encoded history; 500 when generation fails; panic without a name; otherwise the metered turn |
| GptHandler.Gpt3Dot5Handler | GptHandler.go:20-103 | 405 for non-POST, 500 on store error, 401 when not logged in, each with no change; otherwise the chat; a well-formed user table stays well formed and gets no new key |
| HandlerGpt.UpdateMessage | handler/GptHandler.go:113-122 | appends one user message to the session's list in place; fails exactly when there is no list |
| HandlerGpt.GetTokens | handler/GptHandler.go:132-141 | the stored balance, or "record not found" for a missing user |
| HandlerGpt.UpdateTokens | handler/GptHandler.go:143-157 | the row gets `uint(tokens)`; a missing user is an error and changes nothing |
| HandlerGpt.NewBalance | handler/GptHandler.go:91 | the debit is (history length - reply length)/4 truncated toward zero: a shorter reply lowers the balance by the rounded-down quarter, a longer one raises it by the rounded-down quarter of the excess |
| HandlerGpt.AdmittedTurnKeepsBalancePositive | handler/GptHandler.go:56-91 | an admitted turn leaves a positive balance; a reply 4 bytes longer than the history raises it |
| HandlerGpt.Charge | handler/GptHandler.go:78-96 | reply sent and appended as user, session saved; a failed save adds the 401 text, keeps 200, charges nothing; else the truncated debit |
| HandlerGpt.Meter | handler/GptHandler.go:48-96 | 500 on lookup error; refusal at `balance <= length` with the message kept only in memory; `MaxTokens = balance - length >= 1`; 500 on provider error; else the charged turn |
| HandlerGpt.Converse | handler/GptHandler.go:45-96 | the message is appended in memory first; panic without a list or a name; otherwise the metered turn |
| HandlerGpt.Gpt3Dot5Handler | handler/GptHandler.go:20-98 | 405, 500, 401 for not logged in and 401 for a bad message, each with no change; otherwise the turn; a well-formed user table stays well formed and gets no new key |
| Auth.LoggedInValues | auth.go:37-40 | a fresh login: one-day MaxAge, authenticated, empty history, the given user name |
| Auth.FinishLogin | auth.go:25-50 | 401 on a wrong password and "logged in already" for an old session, both with no change; else the login values, saved, 500 if the save fails |
| Auth.HandleAuthLogin | auth.go:12-51 | a lookup error, including a missing user, is a 500 with no change; otherwise the password and session steps |
| Auth.HandleAuthLoginIntended | auth.go:21-24 | with the intended lookup a missing user gets 401 "you have not registered yet" |
| Auth.HandleAuthLogout | auth.go:53-68 | MaxAge -1 and authenticated false, saved; 500 with the error or "log out successfully" |
| Auth.SessionGate | server.go:54 | a logged-in session passes authenticatedOnly next time; a logged-out one is refused |
| Auth.HandleRegister | auth.go:70-105 | 400 on a hash error, 500 on any lookup error (a missing name included), 409 otherwise: no user is ever created |
| Auth.HandleRegisterIntended | auth.go:90-104 | a missing name is created with the hash and 1000 tokens; a failed insert still ends with the success text; the table stays well formed |
| Auth.RegisterOnEmptyTable | server_test.go:28 | registering on an empty table answers 500 "user doesn't exist" and creates nothing |
| Auth.RegisterThenLoginIntended | server_test.go:28 | with the intended lookup, registering then logging in succeeds and stores the user name |
| HandlerAuth.IndexHandler | handler/AuthHandler.go:17-33 | a new session starts the counter at 1 with MaxAge 30; an old one gets exactly +1, saved and printed; panic without a counter |
| HandlerAuth.ParseUsernamePassword | handler/AuthHandler.go:196-209 | both credentials returned unchanged exactly when the form parses and both are non-empty |
| HandlerAuth.InitSession | handler/AuthHandler.go:180-194 | one-day MaxAge, authenticated, empty message list; never fails |
| HandlerAuth.LoggedInValues | handler/AuthHandler.go:74-80 | login values: one-day MaxAge, authenticated, empty list, the user name |
| HandlerAuth.FinishLogin | handler/AuthHandler.go:62-89 | 401 on wrong password, "logged in already" for an old session; else the login values; a failed save gives the 500 text followed by the success text |
| HandlerAuth.LoginHandler | handler/AuthHandler.go:35-91 | 405, 401 on bad credentials, 500 on query error, 401 "no such user" for a missing name, each with no change; otherwise the password and session steps |
| HandlerAuth.LogoutHandler | handler/AuthHandler.go:93-123 | 500 on store error; "not logged in" for a new session; otherwise authenticated false, saved |
| HandlerAuth.RegisterHandler | handler/AuthHandler.go:125-178 | 405, 401, 400, 500 or 409 with no change; a missing name is created with the hash and 1000 tokens; the table stays well formed |
| HandlerAuth.RegisterTwiceThenLogin | server_test.go:28-29 | a second registration of the same name gets 409 and keeps the first row; a login then succeeds |
| HandlerWeb.ParseUsernamePassword | handler/WebHandler.go:176-191 | returns the credentials untouched, or two empty strings after a 400 with the matching text |
| HandlerWeb.FindUserByUserName | handler/WebHandler.go:150-162 | fails only on a query error; a missing name gives `User{}` |
| HandlerWeb.MissingUserIsNoError | handler/WebHandler.go:157-159 | a missing name is no error |
| HandlerWeb.CreateSession | handler/WebHandler.go:131-148 | a five-minute authenticated session, saved; a store failure is a 500 followed by a panic |
| HandlerWeb.LoginHandler | handler/WebHandler.go:41-76 | 405, 400, "username not found" only on a query error, "password is not correct" for a missing name or a mismatch, each with no change; else the session and "login successfully!"; a store or save failure is the 500 "Cannot create session: " text, a panic, and nothing persisted |
| HandlerWeb.UnknownUserLooksLikeWrongPassword | handler/WebHandler.go:63-65 | for every table and every name not stored in it, the lookup succeeds with a user whose empty hash matches no password |
| HandlerWeb.RegisterHandler | handler/WebHandler.go:78-129 | without a query error every registration is a 409; only a "record not found" error creates the user |
| HandlerWeb.FindUserByUserNameIntended | handler/WebHandler.go:154-155 | the `First` lookup the comment mentions: a missing name is "record not found" |
| HandlerWeb.RegisterHandlerIntended | handler/WebHandler.go:106-127 | a missing name is created with the hash and 1000 tokens, a stored one gets 409; the table stays well formed |
| HandlerWeb.LoginHandlerIntended | handler/WebHandler.go:41-76 | the same 405 and 400 answers; a missing name or a query error is "username not found"; a wrong password is "password is not correct"; else the session and "login successfully!", or a 500 with nothing persisted |
| HandlerWeb.RegisterOnEmptyTable | handler/WebHandler.go:106-127 | on an empty table, as written answers 409 while as intended creates the user |

## Left out

- main.go, routes.go and handler/AppHandler.go: startup, the route table and empty declarations. routes.go maps `/login` and `/register` to `postUsernamePasswordOnly`, and `/logout` and `/chat/gpt-3-turbo` to `authenticatedOnly`.
- `handleGreeting`, `handleFavicon` (server.go:37-41) and the `IndexHandler` of handler/WebHandler.go:32-39 write a fixed text or nothing and are not modelled.
- `validUserTable` and the migration in the register handlers (auth.go:78-82, handler/AuthHandler.go:144-150, handler/WebHandler.go:98-104): the table is assumed to exist. The `log.Fatal` or `panic` when migration fails is not modelled.
- Errors from writing the response (`Fprint` failures) are not modelled, and neither are the `log` calls.
- The provider answer is a `Result<string>`, so a successful call that returns no choices is not modelled. In that case `resp.Choices[0]` panics (gpt.go:49, GptHandler.go:77, handler/GptHandler.go:78).
- JSON and gob encoding of the history are the identity, so the `json.Marshal` failure branches (gpt.go:160-163, GptHandler.go:147-150) cannot happen in the model.
- The Redis store's deletion of a session saved with MaxAge <= 0 is not modelled. A logged-out session simply has `authenticated == false`, which every gate refuses.
- Cookies, session ids and expiry timing are not modelled. A session's `isNew` and `id` are inputs.
- Common.PasswordMatches: bcrypt's hashing and cost are not modelled. The comparison is a parameter, and only the minimum hash size is kept.
- Common.Utf8Len: strings are sequences of Unicode scalar values. Invalid UTF-8 in a Go string is not modelled.
- Common.ToUint: the lengths summed by the handlers are unbounded integers. Go's `int` would wrap beyond 2^63, which no request reaches.
- Auth.HandleAuthLogin: the "not registered" branch (auth.go:21-24) cannot be reached through `findUser` and is not in the method. `Auth.HandleAuthLoginIntended` has it.
- Auth.HandleRegister: the creation path (auth.go:94-104) cannot be reached and is not in the method. `Auth.HandleRegisterIntended` has it.
- Concurrency: two requests of one user race on the balance. Each handler is modelled as one sequential request.
- Each long handler is split into a dispatching method and helper methods (`Chat`, `Converse`, `Meter`, `Charge`, `FinishLogin`) that follow the source's own sequence of steps. Their outcomes are stated as two-state predicates.

## Findings

| source | as written | input that shows it | evidently intended | confidence | as-written member | corrected member |
|---|---|---|---|---|---|---|
| server.go:93-95 | `findUser` turns a missing user into an error, so `handleRegister` answers 500 before reaching its `User{}` check and never creates a user | registering "david" on an empty table gives 500 "failed to find user: user doesn't exist" (Auth.RegisterOnEmptyTable), where server_test.go:28 expects success | `findUser` returns `User{}` for a missing user, as its comment at server.go:85 says, and registration creates the user | high (not executed) | Auth.HandleRegister | Auth.HandleRegisterIntended |
| auth.go:15-24 | for the same reason, login of an unregistered name is a 500 and the "you have not registered yet" branch is dead | any name absent from the table (Server.FindUserDisagreesOnMissingUser) | a 401 "you have not registered yet" | high (not executed) | Auth.HandleAuthLogin | Auth.HandleAuthLoginIntended |
| utils.go:12 | the guard after `ParseForm` tests the named result `err` instead of `e`, so a parse failure is never reported | a form that fails to parse but has both credentials in the query string (Utils.ParseErrorSlipsThrough) | the parse error is returned | high (not executed) | Utils.GetUsernameAndPassword | Utils.GetUsernameAndPasswordIntended |
| handler/WebHandler.go:106-127 | `Limit(1).Find` reports no error for a missing name, so every registration is refused with 409 | registering "david" on an empty table (HandlerWeb.RegisterOnEmptyTable) | the "record not found" branch creates the user | high (not executed) | HandlerWeb.RegisterHandler | HandlerWeb.RegisterHandlerIntended |
| handler/WebHandler.go:56-60 | for the same reason a missing name is never "username not found"; it gets "password is not correct" | logging in as any name absent from the table (HandlerWeb.UnknownUserLooksLikeWrongPassword) | "username not found" | medium (not executed) | HandlerWeb.LoginHandler | HandlerWeb.LoginHandlerIntended |
