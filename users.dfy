/** routes/users.go: login, registration and the user endpoints.

    Request bodies arrive already bound (`None` when binding fails); bcrypt is the pair of
    parameters `hash` (GenerateFromPassword) and `matches` (CompareHashAndPassword
    succeeding); the clock is the parameter `now`, in Unix seconds. */
module UserRoutes {
  import opened Wrappers
  import opened Models
  import opened Http
  import opened Store
  import opened Auth

  /** LoginRequest. */
  datatype LoginRequest = LoginRequest(email: string, password: string)

  /** TokenDetails: the tokens and the times the login handler reports for them. */
  datatype TokenDetails = TokenDetails(accessToken: string, refreshToken: string, issuedAt: int, expiresAt: int)

  /** AuthResponse: the login answer, under `response`. */
  datatype AuthResponse = AuthResponse(success: bool, user: User, auth: TokenDetails)

  /** The `user` object of the registration answer, built field by field: it carries the
      password hash and has no profile image. */
  datatype RegisteredUser = RegisteredUser(
    id: string, firstName: string, lastName: string, email: string,
    password: string, timezone: string, date: int)

  /** `accessTokenProperties` of the registration answer. */
  datatype AccessTokenProperties = AccessTokenProperties(id: string, email: string, iat: int, exp: int)

  /** The registration answer, under `response`. */
  datatype Registration = Registration(
    user: RegisteredUser, accessToken: string, refreshToken: string, properties: AccessTokenProperties)

  /** The success payloads of the user endpoints. */
  datatype UsersPayload =
    | LoggedIn(auth: AuthResponse)
    | Registered(registration: Registration)
    | UserList(count: nat, users: seq<User>)
    | OneUser(user: User)

  const InvalidInput: string := "Invalid input data"
  const FailedToCreateTokens: string := "Failed to create tokens"

  // ---------------------------------------------------------------------------
  // Login
  // ---------------------------------------------------------------------------

  /** LoginHandler: an unknown email and a wrong password are refused with 401 and two
      different messages; success reports both tokens, issued now and expiring in 30 days.
      The payload carries the whole stored User, hash included, but it reaches the client
      through Models.UserToJson, which has no password key (`json:"-"`). */
  method LoginHandler(store: DocumentStore, body: Option<LoginRequest>, now: int,
                      accessEnv: string, refreshEnv: string, sign: (Claims, string) -> Result<string, string>,
                      matches: (string, string) -> bool, fault: Option<string>)
    returns (resp: Response<UsersPayload>)
    ensures body.None? ==> resp == Response(StatusBadRequest, Error("Invalid request"))
    ensures body.Some? && (fault.Some? || DocumentStore.FindOne(store.users, FieldIs("email", body.value.email), UserFromBson).Err?) ==>
              resp == Response(StatusUnauthorized, Error("Authentication failed"))
    ensures body.Some? && fault.None? && DocumentStore.FindOne(store.users, FieldIs("email", body.value.email), UserFromBson).Ok? &&
            !matches(DocumentStore.FindOne(store.users, FieldIs("email", body.value.email), UserFromBson).value.password, body.value.password) ==>
              resp == Response(StatusUnauthorized, Error("Invalid credentials"))
    ensures resp.status == StatusInternalServerError ==> resp.body == Error(FailedToCreateTokens)
    ensures resp.status == StatusOK <==>
              body.Some? && fault.None? &&
              DocumentStore.FindOne(store.users, FieldIs("email", body.value.email), UserFromBson).Ok? &&
              var u := DocumentStore.FindOne(store.users, FieldIs("email", body.value.email), UserFromBson).value;
              matches(u.password, body.value.password) && IssuesTokens(u, now, accessEnv, refreshEnv, sign)
    ensures resp.status == StatusOK ==>
              var u := DocumentStore.FindOne(store.users, FieldIs("email", body.value.email), UserFromBson).value;
              u.email == body.value.email &&
              resp.body.Payload? && resp.body.payload.LoggedIn? &&
              var a := resp.body.payload.auth;
              a.success && a.user == u &&
              a.auth.issuedAt == now && a.auth.expiresAt == AccessClaimsFor(u, now).expiresAt &&
              sign(AccessClaimsMap(AccessClaimsFor(u, now)), accessEnv) == Ok(a.auth.accessToken) &&
              sign(RefreshClaimsMap(u, now), refreshEnv) == Ok(a.auth.refreshToken)
    ensures resp.status in {StatusOK, StatusBadRequest, StatusUnauthorized, StatusInternalServerError}
  {
    if body.None? {
      return Response(StatusBadRequest, Error("Invalid request"));
    }
    var req := body.value;
    var user := store.GetUserByEmail(req.email, fault);
    if user.Err? {
      return Response(StatusUnauthorized, Error("Authentication failed"));
    }
    if !matches(user.value.password, req.password) {
      return Response(StatusUnauthorized, Error("Invalid credentials"));
    }
    var accessToken, refreshToken, err := CreateTokens(user.value, now, accessEnv, refreshEnv, sign);
    if err.Some? {
      return Response(StatusInternalServerError, Error(FailedToCreateTokens));
    }
    var details := TokenDetails(accessToken, refreshToken, now, now + AccessTokenLifetime);
    resp := Response(StatusOK, Payload(LoggedIn(AuthResponse(true, user.value, details))));
  }

  // ---------------------------------------------------------------------------
  // Registration
  // ---------------------------------------------------------------------------

  /** The registration's required fields: everything but the timezone and the image. */
  predicate Complete(req: RegistrationRequest) {
    req.firstName != "" && req.lastName != "" && req.email != "" && req.password != "" && req.password2 != ""
  }

  /** The user the registration stores: the request's fields, the password hash in place of
      the password, the registration time, and no ID yet. The confirmation is dropped. */
  function NewUser(req: RegistrationRequest, hashed: string, now: int): (u: User)
    ensures u.id == NilObjectId && u.password == hashed && u.date == now
    ensures u.email == req.email && u.firstName == req.firstName && u.lastName == req.lastName
    ensures u.timezone == req.timezone && u.profileImageUrl == req.profileImageUrl
  {
    User(NilObjectId, req.firstName, req.lastName, req.email, hashed, req.timezone, req.profileImageUrl, now)
  }

  /** The checks the registration makes of its body before touching the store: the message
      of the first that fails, with 400, or none. */
  function RegistrationCheck(body: Option<RegistrationRequest>): (r: Option<string>)
    ensures r.None? <==> body.Some? && Complete(body.value) && body.value.password == body.value.password2
    ensures body.None? ==> r == Some(InvalidInput)
    ensures body.Some? && !Complete(body.value) ==> r == Some("Please fill in all fields")
    ensures body.Some? && Complete(body.value) && body.value.password != body.value.password2 ==>
              r == Some("Passwords do not match")
  {
    if body.None? then Some(InvalidInput)
    else if !Complete(body.value) then Some("Please fill in all fields")
    else if body.value.password != body.value.password2 then Some("Passwords do not match")
    else None
  }

  /** Whether the duplicate-email check stops a registration: only a lookup that finds and
      decodes a user does; a failing lookup, for whatever reason, lets it through. */
  predicate EmailTaken(users: seq<Document>, email: string, lookupFault: Option<string>) {
    lookupFault.None? && DocumentStore.FindOne(users, FieldIs("email", email), UserFromBson).Ok?
  }

  /** Whether a registration reaches the point of storing its user. */
  predicate StoresUser(users: seq<Document>, body: Option<RegistrationRequest>, newId: ObjectId,
                       hash: string -> Result<string, string>, lookupFault: Option<string>, insertFault: Option<string>)
  {
    RegistrationCheck(body).None? && !EmailTaken(users, body.value.email, lookupFault) &&
    hash(body.value.password).Ok? && insertFault.None? && Lookup(users, newId).None?
  }

  /** The user a registration stores, with the identity it is stored under. */
  function StoredUser(body: Option<RegistrationRequest>, hash: string -> Result<string, string>, now: int, newId: ObjectId): User
    requires body.Some? && hash(body.value.password).Ok?
  {
    NewUser(body.value, hash(body.value.password).value, now).(id := newId)
  }

  /** The document a registration inserts: the new user's fields, under the identity the
      driver generated. */
  function StoredDocument(body: Option<RegistrationRequest>, hash: string -> Result<string, string>, now: int, newId: ObjectId): Document
    requires body.Some? && hash(body.value.password).Ok?
  {
    UserToBson(NewUser(body.value, hash(body.value.password).value, now))["_id" := BObjectId(newId)]
  }

  /** RegisterUserHandler. `newId` is the identity the driver generates for the insert. A
      failure to issue tokens is reported after the user has been stored, and the user stays. */
  method RegisterUserHandler(store: DocumentStore, body: Option<RegistrationRequest>, now: int, newId: ObjectId,
                             hash: string -> Result<string, string>,
                             lookupFault: Option<string>, insertFault: Option<string>,
                             accessEnv: string, refreshEnv: string, sign: (Claims, string) -> Result<string, string>)
    returns (resp: Response<UsersPayload>)
    requires store.Valid()
    modifies store
    ensures store.Valid() && store.holdings == old(store.holdings)
    ensures RegistrationCheck(body).Some? ==> resp == Response(StatusBadRequest, Error(RegistrationCheck(body).value))
    ensures RegistrationCheck(body).None? && EmailTaken(old(store.users), body.value.email, lookupFault) ==>
              resp == Response(StatusInternalServerError, Error("Email " + body.value.email + " already exists"))
    ensures RegistrationCheck(body).None? && !EmailTaken(old(store.users), body.value.email, lookupFault) &&
            hash(body.value.password).Err? ==>
              resp == Response(StatusInternalServerError, Error("Failed to encrypt password"))
    ensures RegistrationCheck(body).None? && !EmailTaken(old(store.users), body.value.email, lookupFault) &&
            hash(body.value.password).Ok? && (insertFault.Some? || Lookup(old(store.users), newId).Some?) ==>
              resp == Response(StatusInternalServerError, Error("Failed to register user"))
    ensures StoresUser(old(store.users), body, newId, hash, lookupFault, insertFault) ==>
              store.users == old(store.users) + [StoredDocument(body, hash, now, newId)]
    ensures !StoresUser(old(store.users), body, newId, hash, lookupFault, insertFault) ==>
              store.users == old(store.users) && resp.status != StatusOK
    ensures resp.status == StatusOK <==>
              StoresUser(old(store.users), body, newId, hash, lookupFault, insertFault) &&
              IssuesTokens(StoredUser(body, hash, now, newId), now, accessEnv, refreshEnv, sign)
    ensures StoresUser(old(store.users), body, newId, hash, lookupFault, insertFault) && resp.status != StatusOK ==>
              resp == Response(StatusInternalServerError, Error(FailedToCreateTokens))
    ensures resp.status == StatusOK ==>
              var u := StoredUser(body, hash, now, newId);
              resp.body.Payload? && resp.body.payload.Registered? &&
              var reg := resp.body.payload.registration;
              reg.user == RegisteredUser(ObjectIdHex(newId), u.firstName, u.lastName, u.email, u.password, u.timezone, now) &&
              reg.properties == AccessTokenProperties(ObjectIdHex(newId), u.email, 0, now + AccessTokenLifetime) &&
              sign(AccessClaimsMap(AccessClaimsFor(u, now)), accessEnv) == Ok(reg.accessToken) &&
              sign(RefreshClaimsMap(u, now), refreshEnv) == Ok(reg.refreshToken)
    ensures resp.status in {StatusOK, StatusBadRequest, StatusInternalServerError}
  {
    if body.None? {
      return Response(StatusBadRequest, Error(InvalidInput));
    }
    var req := body.value;
    if req.firstName == "" || req.lastName == "" || req.email == "" || req.password == "" || req.password2 == "" {
      return Response(StatusBadRequest, Error("Please fill in all fields"));
    }
    if req.password != req.password2 {
      return Response(StatusBadRequest, Error("Passwords do not match"));
    }
    var existing := store.GetUserByEmail(req.email, lookupFault);
    if existing.Ok? {
      return Response(StatusInternalServerError, Error("Email " + req.email + " already exists"));
    }
    var hashed := hash(req.password);
    if hashed.Err? {
      return Response(StatusInternalServerError, Error("Failed to encrypt password"));
    }
    var newUser := NewUser(req, hashed.value, now);
    var inserted := store.InsertUser(newUser, newId, insertFault);
    if inserted.Err? {
      return Response(StatusInternalServerError, Error("Failed to register user"));
    }
    newUser := newUser.(id := inserted.value);
    assert newUser == StoredUser(body, hash, now, newId);
    var issued := GenerateTokens(newUser, now, accessEnv, refreshEnv, sign);
    if issued.err.Some? {
      return Response(StatusInternalServerError, Error(FailedToCreateTokens));
    }
    var hex := ObjectIdHex(inserted.value);
    var user := RegisteredUser(hex, newUser.firstName, newUser.lastName, newUser.email,
                               newUser.password, newUser.timezone, newUser.date);
    var properties := AccessTokenProperties(hex, newUser.email, issued.claims.value.issuedAt, issued.claims.value.expiresAt);
    resp := Response(StatusOK, Payload(Registered(Registration(user, issued.accessToken, issued.refreshToken, properties))));
  }

  /** A user document stored under an explicit identity decodes to that user with that
      identity. */
  lemma StoredUserDecodes(u: User, id: ObjectId)
    ensures UserFromBson(UserToBson(u)["_id" := BObjectId(id)]) == Some(u.(id := id))
  {
    var d := UserToBson(u)["_id" := BObjectId(id)];
    assert d["firstName"] == BString(u.firstName) && d["lastName"] == BString(u.lastName);
    assert d["email"] == BString(u.email) && d["password"] == BString(u.password);
    assert d["timezone"] == BString(u.timezone) && d["profileimageurl"] == BString(u.profileImageUrl);
    assert d["date"] == BDateTime(u.date) && d["_id"] == BObjectId(id);
  }

  /** What a registration stores: the confirmation password nowhere, the password hash
      under `password`, and the profile image under its untagged, lower-cased key. */
  lemma ConfirmationNotStored(body: Option<RegistrationRequest>, hash: string -> Result<string, string>, now: int, newId: ObjectId)
    requires body.Some? && hash(body.value.password).Ok?
    ensures "password2" !in StoredDocument(body, hash, now, newId)
    ensures StoredDocument(body, hash, now, newId)["password"] == BString(hash(body.value.password).value)
    ensures StoredDocument(body, hash, now, newId)["profileimageurl"] == BString(body.value.profileImageUrl)
  {
  }

  /** Registration and login fit together: once a registration has stored its user in a
      collection where no user had that email, a lookup by that email finds exactly the
      stored user, with the identity it was stored under and the password hash the login
      handler compares against. */
  lemma RegisteredUserFoundByEmail(users: seq<Document>, body: Option<RegistrationRequest>,
                                   hash: string -> Result<string, string>, now: int, newId: ObjectId)
    requires body.Some? && hash(body.value.password).Ok?
    requires DocumentStore.FindOne(users, FieldIs("email", body.value.email), UserFromBson) == Err(NoDocuments)
    ensures DocumentStore.FindOne(users + [StoredDocument(body, hash, now, newId)], FieldIs("email", body.value.email), UserFromBson) ==
            Ok(StoredUser(body, hash, now, newId))
    ensures StoredUser(body, hash, now, newId).password == hash(body.value.password).value
  {
    var f := FieldIs("email", body.value.email);
    var noRegex := (re, s) => false;
    var d := StoredDocument(body, hash, now, newId);
    SelectAppend(users, [d], f, noRegex);
    SelectEmpty(users, f, noRegex);
    assert Selects(f, d, noRegex);
    assert Select([d], f, noRegex) == [d] by {
      assert [d][1..] == [];
    }
    StoredUserDecodes(NewUser(body.value, hash(body.value.password).value, now), newId);
  }

  // ---------------------------------------------------------------------------
  // The other user endpoints
  // ---------------------------------------------------------------------------

  /** DeleteUserHandler: any failure of DeleteUserByID gives 500; success names the email
      of the user deleted. */
  method DeleteUserHandler(store: DocumentStore, id: string, dbName: string,
                           lookupFault: Option<string>, deleteFault: Option<string>)
    returns (resp: Response<UsersPayload>)
    requires store.Valid()
    modifies store
    ensures store.Valid() && store.holdings == old(store.holdings)
    ensures resp.status in {StatusOK, StatusInternalServerError}
    ensures resp.status == StatusOK <==>
              ObjectIdFromHex(id).Some? && lookupFault.None? && deleteFault.None? &&
              DocumentStore.FindOne(old(store.users), IdIs(ObjectIdFromHex(id).value), UserFromBson).Ok?
    ensures resp.status == StatusOK ==>
              var oid := ObjectIdFromHex(id).value;
              var u := DocumentStore.FindOne(old(store.users), IdIs(oid), UserFromBson).value;
              store.users == DeleteOne(old(store.users), oid) &&
              resp.body == Message("User " + u.email + " deleted successfully!")
    ensures resp.status == StatusInternalServerError ==>
              resp.body == Error("Failed to delete user") && store.users == old(store.users)
  {
    var deleted := store.DeleteUserById(id, dbName, lookupFault, deleteFault);
    if deleted.Err? {
      return Response(StatusInternalServerError, Error("Failed to delete user"));
    }
    resp := Response(StatusOK, Message("User " + deleted.value.email + " deleted successfully!"));
  }

  /** Decimal text of a count, as `%v` prints it. */
  function DecimalText(n: nat): (s: string)
    ensures |s| >= 1
    ensures forall i :: 0 <= i < |s| ==> '0' <= s[i] <= '9'
  {
    var digit := ['0' + (n % 10) as char];
    if n < 10 then digit else DecimalText(n / 10) + digit
  }

  /** `%v` of the *mongo.UpdateResult ReplaceOne returns: matched, modified and upserted
      counts and the upserted ID, which a replacement without upsert never sets. */
  function UpdateResultText(r: UpdateResult): string {
    "&{" + DecimalText(r.matchedCount) + " " + DecimalText(r.modifiedCount) + " 0 <nil>}"
  }

  /** ShouldBindJSON of a request body into a models.User: none when the body is malformed,
      some JSON value other than an object or `null`, or has a field of the wrong type. A
      `null` body is accepted and leaves the zero User; it is passed in as the empty object. The password field is tagged `json:"-"`, so the
      binding never reads it and the bound user's password is always empty. */
  function BindUser(body: Option<map<string, Json>>, parseTime: string -> Option<int>): (r: Option<User>)
    ensures r.Some? ==> r.value.password == ""
    ensures r.Some? <==> body.Some? && UserFromJson(body.value, parseTime).Some?
  {
    if body.None? then None else UserFromJson(body.value, parseTime)
  }

  /** Two update bodies that differ only in the password they send bind to the same user, so
      UpdateUserHandler, whose outcome depends on the body only through BindUser, answers
      and writes the same for both. */
  lemma BindUserIgnoresPassword(m: map<string, Json>, parseTime: string -> Option<int>, p1: string, p2: string)
    ensures BindUser(Some(m["password" := JString(p1)]), parseTime) == BindUser(Some(m["password" := JString(p2)]), parseTime)
    ensures BindUser(Some(m["password" := JString(p1)]), parseTime) == BindUser(Some(m - {"password"}), parseTime)
  {
    UserFromJsonIgnoresPassword(m, parseTime, p1);
    UserFromJsonIgnoresPassword(m, parseTime, p2);
  }

  /** UpdateUserHandler: the bound user's password, which binding always leaves empty, is
      hashed, and the user stored under `id` is replaced by the bound user whole. Whatever
      password the body sends, the stored password is the hash of the empty string. A
      well-formed id that names no user is still answered with 200. */
  method UpdateUserHandler(store: DocumentStore, id: string, body: Option<map<string, Json>>,
                           parseTime: string -> Option<int>, hash: string -> Result<string, string>,
                           fault: Option<string>)
    returns (resp: Response<UsersPayload>)
    requires store.Valid()
    modifies store
    ensures store.Valid() && store.holdings == old(store.holdings)
    ensures resp.status in {StatusOK, StatusBadRequest, StatusInternalServerError}
    ensures BindUser(body, parseTime).None? ==> resp == Response(StatusBadRequest, Error(InvalidInput))
    ensures BindUser(body, parseTime).Some? && hash("").Err? ==>
              resp == Response(StatusInternalServerError, Error("Failed to encrypt password"))
    ensures resp.status != StatusOK ==> store.users == old(store.users)
    ensures resp.status == StatusOK <==>
              BindUser(body, parseTime).Some? && hash("").Ok? && ObjectIdFromHex(id).Some? && fault.None? &&
              var u := BindUser(body, parseTime).value.(password := hash("").value);
              (Lookup(old(store.users), ObjectIdFromHex(id).value).Some? ==>
                 DocumentStore.Replacement(UserToBson(u), u.id, ObjectIdFromHex(id).value).Ok?)
    ensures resp.status == StatusOK ==>
              var oid := ObjectIdFromHex(id).value;
              var u := BindUser(body, parseTime).value.(password := hash("").value);
              (Lookup(old(store.users), oid).None? ==>
                 store.users == old(store.users) &&
                 resp.body == Message("User " + id + " updated successfully!\n" + UpdateResultText(UpdateResult(0, 0)))) &&
              (Lookup(old(store.users), oid).Some? ==>
                 store.users == ReplaceOne(old(store.users), oid, DocumentStore.Replacement(UserToBson(u), u.id, oid).value) &&
                 Lookup(store.users, oid).Some? &&
                 Lookup(store.users, oid).value["password"] == BString(hash("").value))
    ensures resp.status == StatusInternalServerError && BindUser(body, parseTime).Some? && hash("").Ok? ==>
              resp.body == Error("Failed to update user")
  {
    var bound := BindUser(body, parseTime);
    if bound.None? {
      return Response(StatusBadRequest, Error(InvalidInput));
    }
    var updatedUser := bound.value;
    var hashed := hash(updatedUser.password);
    if hashed.Err? {
      return Response(StatusInternalServerError, Error("Failed to encrypt password"));
    }
    updatedUser := updatedUser.(password := hashed.value);
    var result := store.UpdateUserById(id, updatedUser, fault);
    if result.Err? {
      return Response(StatusInternalServerError, Error("Failed to update user"));
    }
    ghost var oid := ObjectIdFromHex(id).value;
    if Lookup(old(store.users), oid).Some? {
      var d := DocumentStore.Replacement(UserToBson(updatedUser), updatedUser.id, oid).value;
      ReplaceEffect(old(store.users), oid, d, oid);
    }
    resp := Response(StatusOK, Message("User " + id + " updated successfully!\n" + UpdateResultText(result.value)));
  }

  /** GetAllUsers: the driver's own error text on failure; otherwise every stored user that
      decodes, with their number. */
  method GetAllUsersHandler(store: DocumentStore, findFault: Option<string>, cursorFault: Option<string>)
    returns (resp: Response<UsersPayload>)
    ensures resp.status in {StatusOK, StatusInternalServerError}
    ensures findFault.Some? ==> resp == Response(StatusInternalServerError, Error(findFault.value))
    ensures findFault.None? && cursorFault.Some? ==> resp == Response(StatusInternalServerError, Error(cursorFault.value))
    ensures resp.status == StatusOK <==> findFault.None? && cursorFault.None?
    ensures resp.status == StatusOK ==>
              resp.body.Payload? && resp.body.payload.UserList? &&
              resp.body.payload.users == DecodeAll(store.users, UserFromBson) &&
              resp.body.payload.count == |resp.body.payload.users| <= |store.users|
  {
    var users := store.GetAllUsers(findFault, cursorFault);
    if users.Err? {
      return Response(StatusInternalServerError, Error(users.error.message));
    }
    DecodeAllLength(store.users, UserFromBson);
    resp := Response(StatusOK, Payload(UserList(|users.value|, users.value)));
  }

  /** GetUserByID: GetUserByID's error text, which says whether the id was malformed or not
      found, is passed to the client with 500. */
  method GetUserByIdHandler(store: DocumentStore, id: string, dbName: string, fault: Option<string>)
    returns (resp: Response<UsersPayload>)
    ensures resp.status in {StatusOK, StatusInternalServerError}
    ensures ObjectIdFromHex(id).None? ==>
              resp == Response(StatusInternalServerError, Error("User ID: " + id + " not found"))
    ensures ObjectIdFromHex(id).Some? && (fault.Some? ||
              DocumentStore.FindOne(store.users, IdIs(ObjectIdFromHex(id).value), UserFromBson).Err?) ==>
              resp == Response(StatusInternalServerError,
                               Error("User ID: " + id + " not found in Database: " + Quote(dbName)))
    ensures resp.status == StatusOK <==>
              ObjectIdFromHex(id).Some? && fault.None? &&
              DocumentStore.FindOne(store.users, IdIs(ObjectIdFromHex(id).value), UserFromBson).Ok?
    ensures resp.status == StatusOK ==>
              ObjectIdFromHex(id).Some? &&
              var found := DocumentStore.FindOne(store.users, IdIs(ObjectIdFromHex(id).value), UserFromBson);
              found.Ok? && resp.body == Payload(OneUser(found.value)) && found.value.id == ObjectIdFromHex(id).value
  {
    var user := store.GetUserById(id, dbName, fault);
    if user.Err? {
      return Response(StatusInternalServerError, Error(user.error.message));
    }
    var oid := ObjectIdFromHex(id).value;
    var d :| d in store.users && Selects(IdIs(oid), d, (re, s) => false) && UserFromBson(d) == Some(user.value);
    resp := Response(StatusOK, Payload(OneUser(user.value)));
  }
}
