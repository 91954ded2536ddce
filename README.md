# stock-service-go, modelled in Dafny

stock-service-go is a small HTTP service written in Go with gin and MongoDB. It keeps
users and stock holdings. This project models the service's decision layer and proves
properties of the model:

- **models.dfy** (`Models`, from `models/models.go`): the `User`, `RegistrationRequest` and
  `Holding` records. It covers their JSON and BSON key names, decoding as
  `json.Unmarshal` and the driver do it, and the ObjectID hexadecimal codec.
- **store.dfy** (`Store`, from `config/db.go`): an abstract document store. `DocumentStore`
  is a class with two collections, each a sequence of BSON documents in cursor order. Each
  document carries a distinct `_id`. The list functions decode in a loop and skip the
  documents that fail. Lookups, inserts, deletes and whole-document replacements work by
  `_id`. Every driver call may fail; the failure is an input of the model.
- **auth.dfy** (`Auth`, from `auth/auth.go`): the bearer-token gate (`AuthMiddleware`) and
  the issuing of access and refresh tokens.
- **holdings.dfy** (`HoldingRoutes`, from `routes/holdings.go`) and **users.dfy**
  (`UserRoutes`, from `routes/users.go`): the handlers. Each one maps store outcomes to a
  status and a JSON body, and decides whether the store is written.
- **routes.dfy** (`Routes`, from `routes/routes.go`): the route table with its auth
  flags, and the index page's loop that filters out static routes.
- **http.dfy** and **wrappers.dfy**: status codes, response bodies, `Option` and `Result`.

Foreign code is passed in as function parameters:
- bcrypt: `hash`, and `matches` for CompareHashAndPassword succeeding;
- JWT signing, segment decoding and signature verification: `sign`, `decodeSegments`, `verify`;
- the database server's regular-expression engine: `regexMatch`;
- time formatting and parsing: `formatTime`, `parseTime`.

The clock is the parameter `now`, in Unix seconds. The environment variables
`ACCESS_TOKEN_SECRET`, `REFRESH_TOKEN_SECRET` and `MONGO_DB` are the parameters
`accessEnv`, `refreshEnv` and `dbName`. The identity the driver generates for an insert is
the parameter `newId`.

The service's written description differs from its code in several places. The model
follows the code:
- Login uses two different messages: "Authentication failed" for an unknown email and
  "Invalid credentials" for a wrong password.
- Fetching a holding by an id that matches nothing gives 500, not 404.
- A registration whose email is taken gives 500.
- `GetAllUsers` passes the driver's own error text to the client with 500. `GetUserByID`
  answers 500 with the store function's formatted text, "User ID: … not found" or "User ID:
  … not found in Database: …".
- The login answer does not contain the password hash, because `User.Password` is tagged
  `json:"-"`. Only the registration answer echoes the hash.
- A Holding's `_id` and a User's `id` are always written to JSON. `omitempty` does not
  omit a fixed-size array, so even the zero ObjectID is written. BSON omits the zero
  ObjectID.

## Model

| member | source | states |
|---|---|---|
| Models.ObjectIdFromHexAccepts | config/db.go:323-326 | ObjectIDFromHex accepts a string iff it has exactly 24 hexadecimal digits, in either case; the parsed identity prints back as the lower-cased input |
| Models.ObjectIdHexRoundTrip | config/db.go:217 | The hex text of an ObjectID parses back to the same ObjectID |
| Models.ObjectIdString | auth/auth.go:98 | ObjectID.String is `ObjectID("…")` around the 24 hex digits (36 characters), and it is never itself accepted as ObjectID hex |
| Models.HoldingToJson | models/models.go:35-41 | A Holding's JSON keys are exactly `_id`, ticker, quantity, totalCost and account; `_id` is the hex text, written even when zero |
| Models.HoldingJsonRoundTrip | models/models.go:35-41 | A Holding written as JSON and decoded is the same Holding |
| Models.EmptyObjectDecodesToZero | routes/holdings.go:55-92 | A `null` body, bound as the empty object, decodes to the all-zero Holding and to the zero User, with the zero ObjectID and the zero time |
| Models.FieldKeysDecodeWithoutId | routes/holdings.go:66-92 | A payload whose keys are all allow-listed decodes, if at all, to a Holding with the zero ObjectID; it decodes iff every present field has the right JSON type or is null |
| Models.UserToJson | models/models.go:10-19 | A User's JSON keys are id, firstName, lastName, email, timezone, profileImageUrl and date; the password is never written |
| Models.UserFromJson | models/models.go:15 | Binding a request body to a User always leaves the password empty |
| Models.UserFromJsonIgnoresPassword | models/models.go:15 | A `password` key in a body makes no difference to the User it binds to |
| Models.UserJsonRoundTrip | models/models.go:10-19 | A User written as JSON and decoded loses exactly its password |
| Models.UserUpdateFromJson | routes/users.go:194-206 | The intended update binding: the written binding's fields plus the body's `password` |
| Models.UserUpdateKeepsPassword | routes/users.go:200-206 | With the intended binding, the bound password is the one sent, and every other field is the one the written binding reads |
| Models.JsonObjectIdField | models/models.go:36 | A JSON ObjectID is read from a string or from `{"$oid": string}`; null and the empty text give the zero ObjectID; other text is accepted iff it is ObjectID hex; any other JSON value is refused |
| Models.BsonStringField | models/models.go:35-41 | The driver reads a stored ObjectID into a string field as its hex text, and refuses numbers, booleans and dates |
| Models.BsonDoubleField | models/models.go:38-39 | The driver reads an int32 or int64 into a float64 field as its value and a boolean as 1 or 0, and refuses strings, ObjectIDs and dates |
| Models.BsonObjectIdField | models/models.go:36 | A stored string is read as an ObjectID when it is ObjectID hex; otherwise only a 12-byte string is read, and any other length is refused |
| Models.HoldingToBson | models/models.go:35-41 | A stored Holding has `_id` iff its ID is non-zero, plus exactly the four field keys |
| Models.UserToBson | models/models.go:10-19 | A stored User keeps the password hash under `password` and the untagged profile image under `profileimageurl`; it has no `id` or `profileImageUrl` key |
| Models.HoldingBsonRoundTrip | models/models.go:35-41 | A Holding stored and decoded is the same Holding |
| Models.UserBsonRoundTrip | models/models.go:10-19 | A User stored and decoded is the same User, password hash included |
| Store.Select | config/db.go:229 | A Find returns a document iff it is stored and passes the filter |
| Store.SelectAppend | config/db.go:229-243 | Selection keeps cursor order: the selection of a concatenation is the concatenation of the selections |
| Store.SelectEmpty | config/db.go:229-243 | A Find returns nothing iff no stored document passes the filter |
| Store.SelectEverything | config/db.go:229 | The empty filter selects every document, in order |
| Store.DecodeAllMembers | config/db.go:236-243 | A record is listed iff some document in the cursor decodes to it |
| Store.DecodeAllAppend | config/db.go:236-243 | Skipping is positional: the records of a concatenation are the records of its parts, in order |
| Store.DecodeAllLength | config/db.go:236-243 | A listing is never longer than the cursor; it is as long iff every document decodes |
| Store.DecodeAllEmpty | config/db.go:236-243 | A listing is empty iff no document in the cursor decodes |
| Store.Collect | config/db.go:236-243 | The cursor loop collects exactly the records that decode, in cursor order |
| Store.FindIndex | config/db.go:333 | FindOne by `_id` stops at the first document with that identity; none precedes it |
| Store.LookupUnique | config/db.go:333 | With distinct identities, the lookup finds exactly the document with the identity, or reports that none has it |
| Store.InsertEffect | config/db.go:211 | Appending a document with a new identity keeps identities distinct, makes it findable, and changes no other lookup |
| Store.DeleteEffect | config/db.go:350 | DeleteOne by `_id` keeps identities distinct, removes the identity, leaves other lookups alone, and shrinks the collection by one iff the identity was present |
| Store.ReplaceEffect | config/db.go:366 | ReplaceOne by `_id` keeps the length and distinct identities, stores the replacement at a present identity, changes nothing at an absent one, and leaves other lookups alone |
| Store.AccountRegex | config/db.go:292-293 | The account pattern is the unescaped input between `.*` and `.*`, with the case-insensitive option |
| Store.DocumentStore.FindAll | config/db.go:229-250 | A failing Find, or a cursor error after the loop, gives that error and none of the records collected; otherwise the selected records that decode, in order |
| Store.DocumentStore.GetAllHoldings | config/db.go:222-251 | Every stored holding that decodes, in cursor order, or the driver error |
| Store.DocumentStore.GetHoldingsByTicker | config/db.go:254-284 | The decodable holdings whose ticker equals the argument exactly, in order; every one returned has that ticker |
| Store.DocumentStore.GetHoldingsByAccount | config/db.go:287-320 | The decodable holdings whose account the pattern matches, in order; the pattern matched each one returned |
| Store.DocumentStore.GetAllUsers | config/db.go:70-99 | Every stored user that decodes, in cursor order, or the driver error |
| Store.SelectHead | config/db.go:229 | The head of a Find's cursor is a stored document that passes the filter, and no earlier document passes it |
| Store.SelectStartsAtFirstMatch | config/db.go:229 | Whichever document passes the filter with no earlier document passing is the head of the cursor |
| Store.DocumentStore.FindOne | config/db.go:333 | "No documents" iff no stored document passes the filter; otherwise the result is the first passing document in collection order, decoded, or "undecodable" when that document does not decode |
| Store.DocumentStore.GetHoldingById | config/db.go:322-338 | A malformed id fails before the store is read; otherwise the driver error or the FindOne result |
| Store.DocumentStore.GetUserByEmail | config/db.go:101-112 | The driver error, or FindOne on the email. A user returned has that email, decodes from the first stored document with that email, and no earlier document has it. If some document has the email, the answer is never "no documents" |
| Store.DocumentStore.GetUserById | config/db.go:115-135 | A malformed id gives "User ID: … not found"; a failed lookup gives "… not found in Database: "quoted name""; otherwise the user |
| Store.DocumentStore.AddHolding | config/db.go:200-219 | A holding with an ID is refused and nothing changes; otherwise it is appended under the generated identity, whose hex is returned; a driver error or duplicate key changes nothing |
| Store.DocumentStore.DeleteHoldingById | config/db.go:340-355 | A malformed id or driver error changes nothing; otherwise the holding with that identity, if any, is removed and counted |
| Store.DocumentStore.Replacement | config/db.go:366 | The stored replacement carries the target `_id` and the record's fields; a record naming a different non-zero ID is refused |
| Store.DocumentStore.UpdateHoldingById | config/db.go:357-372 | Whole-document replacement at the id; a well-formed id that matches nothing changes nothing and is no error; an error changes nothing |
| Store.DocumentStore.InsertUser | config/db.go:137-147 | A user without an ID is stored under the generated identity, which is returned; an error changes nothing |
| Store.DocumentStore.DeleteUserById | config/db.go:150-171 | Parse, look up, delete: a failed lookup deletes nothing; success removes the user and returns them as they were before |
| Store.DocumentStore.UpdateUserById | config/db.go:173-188 | Whole-document replacement of the user at the id, with the same no-match and error cases as the holding update |
| Auth.AccessClaimsMap | auth/auth.go:16-20 | Access-token claims carry `_id` and `email`, never `user_id`; `exp` and `iat` appear iff non-zero |
| Auth.GetAccessSecret | auth/auth.go:78-84 | An empty ACCESS_TOKEN_SECRET is an error; otherwise the secret |
| Auth.GetRefreshSecret | auth/auth.go:86-92 | An empty REFRESH_TOKEN_SECRET is an error; otherwise the secret |
| Auth.AccessClaimsFor | auth/auth.go:97-103 | Access claims expire 30 days after issue and carry no issue time |
| Auth.RefreshClaimsMap | auth/auth.go:118-121 | Refresh claims are exactly `user_id` (the hex ObjectID), `email` and `exp` 7 days on |
| Auth.CreateTokensWithAtClaim | auth/auth.go:94-137 | Issuing succeeds iff both secrets are set and both payloads sign. A missing access secret fails first. A missing refresh secret discards the signed access token. Any failure gives empty tokens and no claims |
| Auth.CreateTokens | auth/auth.go:29-36 | Both tokens on success; empty strings and the error otherwise |
| Auth.GenerateTokens | auth/auth.go:38-44 | Both tokens and the access claims on success; empty strings and nil claims otherwise |
| Auth.IssuedAccessClaims | auth/auth.go:97-103 | Issued access claims expire exactly 2592000 s after issue, have no `iat`, and their `_id` is not the hex ObjectID |
| Auth.BearerToken | auth/auth.go:49-56 | A header yields a token iff it starts with the case-sensitive `Bearer `; the token is the rest of the header |
| Auth.BearerTokenRoundTrip | auth/auth.go:56 | Whatever follows `Bearer ` reaches the parser unchanged |
| Auth.KeyFunc | auth/auth.go:57-63 | The key function accepts only HMAC-family algorithms, with the access secret as the key |
| Auth.JwtParse | auth/auth.go:57 | jwt.Parse returns no token iff the string is not three segments, and then it returns an error; a returned token is valid iff there is no error |
| Auth.GateAsWritten | auth/auth.go:47-73 | As written: a missing prefix aborts with 401 "No Authorization header provided"; every abort is 401 |
| Auth.Gate | auth/auth.go:47-73 | The corrected gate never crashes; every abort is 401; a missing prefix gives "No Authorization header provided" |
| Auth.GatePassesExactly | auth/auth.go:47-73 | A request passes iff the header is `Bearer ` plus a three-segment HMAC token that verifies with the access secret |
| Auth.GateRefusesNonHmac | auth/auth.go:58-60 | A non-HMAC token is refused with "unexpected signing method: alg", by both gates |
| Auth.AccessTokenSetsUserIdNil | auth/auth.go:65-67 | An accepted access token sets `userID` to nil, since it carries `_id` and not `user_id` |
| Auth.RefreshTokenSetsUserId | auth/auth.go:65-67 | An accepted refresh token would set `userID` to the hex ObjectID |
| Auth.GateAgreesExceptNilToken | auth/auth.go:57-71 | The written gate crashes iff the header has the prefix and the token is not three segments; otherwise it agrees with the corrected gate |
| Auth.GateNilTokenWitness | auth/auth.go:57-71 | `Bearer ` and `Bearer abc` crash the written gate; the corrected gate answers 401 with the segment-count message |
| HoldingRoutes.CheckFields | routes/holdings.go:61-80 | `id` is dropped; the payload passes iff every other key is allow-listed; a rejected key is an offending key of the input; a payload with `_id` is rejected |
| HoldingRoutes.AddHoldingsHandler | routes/holdings.go:51-103 | An unbound body gives 400 "Invalid input data". A body with a key outside the allow-list gives 400 "Unknown field: k" for an offending k, and a 400 other than "Invalid input data" occurs only then. A body that passes the key check but does not decode gives 400 "Invalid input data". A driver error or taken identity gives 500 "Failed to add holding". 201 iff the body passes, decodes, and the insert succeeds; it names the ticker and the new hex id. The store changes only on 201, by appending the decoded holding under the new identity |
| HoldingRoutes.GetAllHoldingsHandler | routes/holdings.go:22-49 | 200 iff no driver error, with every decodable holding and `found` equal to their number, even zero; otherwise 500 "Failed to retrieve holdings"; never 404 |
| HoldingRoutes.GetHoldingsByTickerHandler | routes/holdings.go:106-120 | A driver error gives 500 and takes precedence. 404 iff no selected document decodes. Otherwise 200 with exactly the selected records, all of that ticker |
| HoldingRoutes.GetHoldingsByAccountHandler | routes/holdings.go:123-152 | The same 500/404/200 mapping; on 200 `found` equals the number of holdings returned, each matched by the account pattern |
| HoldingRoutes.GetHoldingByIdHandler | routes/holdings.go:154-163 | 200 iff the id parses and a holding is found and decodes, with that holding; any failure, a missing one included, gives 500 "Failed to retrieve holding" |
| HoldingRoutes.DeleteHoldingHandler | routes/holdings.go:165-182 | A failed lookup gives 500 "Failed to find holding with ID: id" and deletes nothing. A failing delete after it gives 500 "Failed to delete holding". 200 iff the lookup and the delete succeed; it removes exactly that identity, shrinks the collection by one, and names the ticker |
| HoldingRoutes.UpdateHoldingHandler | routes/holdings.go:184-212 | The lookup comes first, so a missing holding gives 500 "Failed to find holding with ID: id" whatever the body. A bad body then gives 400 "Invalid input data". A failing replace gives 500 "Failed to update holding". 200 iff all three succeed; it replaces the whole document and names the ticker before the update. Only 200 writes |
| UserRoutes.LoginHandler | routes/users.go:44-80 | An unbound body gives 400. A failed lookup gives 401 "Authentication failed". A wrong password gives 401 "Invalid credentials". 200 iff the password matches and tokens issue; it carries the user, iat = now and exp = the access token's expiry, now + 30 days |
| UserRoutes.NewUser | routes/users.go:122-130 | The stored user takes the request's fields, the hash in place of the password, and the registration time |
| UserRoutes.RegistrationCheck | routes/users.go:85-100 | Checks in order: an unbound body gives "Invalid input data"; otherwise a missing required field (timezone and image are optional) gives "Please fill in all fields", even when the passwords also differ; otherwise differing passwords give "Passwords do not match"; the request passes iff all hold |
| UserRoutes.RegisterUserHandler | routes/users.go:82-176 | The checks give 400 and a found email gives 500, before any write. A hash failure gives 500 "Failed to encrypt password" and a failing insert 500 "Failed to register user". The user is inserted iff the checks pass, the lookup fails for any reason, hashing succeeds and the insert succeeds. A token failure then gives 500 with the user kept. 200 echoes the hash, the new hex id and exp = now + 30 days |
| UserRoutes.StoredUserDecodes | routes/users.go:133-141 | The document a registration inserts decodes to the new user with the generated identity |
| UserRoutes.ConfirmationNotStored | models/models.go:21-30 | The confirmation password is never stored; the stored password is the hash |
| UserRoutes.RegisteredUserFoundByEmail | routes/users.go:103-141 | After a registration whose email was free, a lookup by that email finds the new user, with the hash the login compares against |
| UserRoutes.DeleteUserHandler | routes/users.go:178-190 | 200 iff the id parses, the user is found and both calls succeed; it names the deleted user's email and removes that identity; otherwise 500 "Failed to delete user" and nothing is deleted |
| UserRoutes.BindUser | routes/users.go:194-198 | Binding the update body gives a user iff the body is an object whose fields decode, and the bound password is always empty |
| UserRoutes.BindUserIgnoresPassword | routes/users.go:194-206 | Two update bodies that differ only in their password bind to the same user, the same as a body with no password |
| UserRoutes.UpdateUserHandler | routes/users.go:192-216 | An unbound body gives 400. The bound password, always empty, is hashed, and a hash failure gives 500. A failing replace gives 500 "Failed to update user". Otherwise the whole user is replaced at the id, and the stored password is the hash of the empty string whatever the body sent. A well-formed id that matches nothing still gives 200. Only 200 writes |
| UserRoutes.GetAllUsersHandler | routes/users.go:220-233 | 200 iff no driver error, with every decodable user and their count; otherwise 500 with the driver's own error text |
| UserRoutes.GetUserByIdHandler | routes/users.go:237-248 | 200 iff the id parses, the call succeeds and the user is found and decodes, with that user; otherwise 500 with GetUserByID's text |
| Routes.RouteTableAsWritten | routes/routes.go:22-46 | The 20 registrations in order: six static, thirteen API routes, then the index page |
| Routes.UpdateUserUnguarded | routes/routes.go:34 | The user update is registered without AuthMiddleware |
| Routes.RouteTable | routes/routes.go:28-43 | The corrected table registers the same routes, in the same order |
| Routes.RouteTableGuardsExactly | routes/routes.go:28-43 | In the corrected table a route is guarded iff it is neither static, the index, login nor registration |
| Routes.ApiRoutes | routes/routes.go:50-63 | The index lists no more routes than it is given |
| Routes.IndexRoutes | routes/routes.go:47-63 | The nested loop with its flag and break lists exactly the routes whose path has no static prefix, in the order given |
| Routes.ApiRoutesMembers | routes/routes.go:52-63 | A route is listed iff it was given and its path starts with none of `/css`, `/js`, `/images` |
| Routes.ApiRoutesAppend | routes/routes.go:52-63 | The filter keeps order: listing a concatenation concatenates the listings |
| Routes.ApiRoutesIdempotent | routes/routes.go:52-63 | Filtering a listing again changes nothing |
| Routes.PrefixNotSegment | routes/routes.go:55 | Any path beginning `/js`, such as `/jsx`, is left out |
| Routes.StaticRegistrations | routes/routes.go:22-24 | Exactly the first six registrations are static and have static-prefixed paths |
| Routes.IndexListsTheApi | routes/routes.go:46-68 | Whatever order Routes() uses, the index lists every registration except the static ones |

## Left out

- Floating point: the `totalCost` sums and `math.Round(x*100)/100` of the holdings summaries are not modelled. Quantities and costs are carried as reals, with no arithmetic on them.
- bcrypt, JWT signing, segment decoding and signature and expiry checks, and regular-expression evaluation are foreign code, so they are function parameters.
- The clock: the source calls `time.Now()` separately at each use, and the model uses one `now` per request.
- RFC 3339 formatting and parsing of dates are the parameters `formatTime` and `parseTime`. Dates are Unix seconds.
- Request binding of `LoginRequest` and `RegistrationRequest` is not modelled. The handlers take the bound record, or none when binding fails. The holdings handlers bind through `Models.HoldingFromJson`; the user update binds through `UserRoutes.BindUser`. The holding and user-update bodies are passed in as JSON objects; a `null` body, which ShouldBindJSON accepts, is passed in as the empty object, so adding a holding with it stores an all-zero holding and the two updates overwrite the record with zero fields.
- Store.DocumentStore: the collection invariant assumes every stored `_id` is an ObjectID; MongoDB itself only keeps `_id` values distinct, so a collection written by another client with string or numeric `_id` values is outside the model.
- encoding/json's case-insensitive key matching is not modelled; keys match exactly.
- A Go nil slice is written as JSON `null`; the model does not distinguish it from an empty list.
- Models.JsonObjectIdField: a raw JSON value of exactly 12 bytes, such as a 10-character string with its quotes or a 12-digit number, is copied byte for byte by ObjectID.UnmarshalJSON. The model sees the decoded value, not its raw text, and refuses such input unless it is ObjectID hex.
- Models.BsonStringField: binary values of the generic subtypes, which the driver also reads as strings, are counted as undecodable (`BOther`).
- Models.BsonDoubleField: an int64 beyond 2^53 converts exactly here; float64 rounds it.
- Models.BsonObjectIdField: a 12-byte string with non-ASCII characters is refused; the driver copies its UTF-8 bytes.
- Models.BsonDateField: the driver also reads an RFC 3339 string, an int64 of milliseconds and a timestamp as a date. The model reads only a BSON date, null and undefined, so such user documents are counted as undecodable.
- The `json.Marshal` failure branch of AddHoldingsHandler cannot happen for a map decoded from JSON, so it is not modelled.
- gin's Recovery middleware, which turns a panic into a 500 answer, is outside the model. The written gate's crash is the outcome `Panic`.
- HTML templates, static file serving, `LoadHTMLGlob`, contexts and timeouts, connection setup, logging, and `readme.go`, `main.go` and `config/config.go` are not modelled. They contain no logic worth a model.
- The order in which `gin.Engine.Routes()` reports routes is an input of the index handler.
- The check-then-insert race in registration only exists under concurrency; each request is modelled as one atomic step.
- `%q` escaping of the database name is not modelled. The name is quoted without escapes.
- The driver's error texts for duplicate keys, immutable `_id` and decode failures are not modelled. Only the errors whose text reaches a client are.
- Store.DocumentStore.UpdateHoldingById: `modifiedCount` is not stated. The server computes it by comparing the documents' bytes.
- Store.DocumentStore.UpdateUserById: `modifiedCount` is not stated, as for holdings.
- UserRoutes.UpdateUserHandler: the success message for a replaced user is not stated. It prints the update result, including `modifiedCount`.
- UserRoutes.GetAllUsersHandler: the count is stated to equal the number of users listed. The users returned are stated by the listing function.

## Findings

| source | as written | input that shows it | evidently intended | confidence | as-written member | corrected member |
|---|---|---|---|---|---|---|
| auth/auth.go:57-71 | `jwt.Parse` returns a nil token when the string is not three segments, and the middleware then reads `token.Claims`, a nil dereference | header `Bearer abc` (or `Bearer `) | 401 with the parser's error, like every other bad token | high; not executed | Auth.GateAsWritten (shown by Auth.GateNilTokenWitness) | Auth.Gate (Auth.GateAgreesExceptNilToken) |
| models/models.go:15, routes/users.go:194-206 | `json:"-"` hides the password from the body binding as well as from output, so the update handler always hashes the empty string and stores it as the user's password | PUT /users/id/:_id with body `{"password": "new"}` | the supplied password is hashed and stored | high; not executed | UserRoutes.UpdateUserHandler (shown by UserRoutes.BindUserIgnoresPassword and Models.UserFromJsonIgnoresPassword) | Models.UserUpdateFromJson (Models.UserUpdateKeepsPassword) |
| routes/routes.go:34 | the user update is registered without AuthMiddleware, unlike every other user and holdings route except login and registration | any PUT /users/id/:_id without an Authorization header | the update runs behind AuthMiddleware | medium; not executed | Routes.RouteTableAsWritten (shown by Routes.UpdateUserUnguarded) | Routes.RouteTable (Routes.RouteTableGuardsExactly) |
