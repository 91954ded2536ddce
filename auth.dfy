/** auth/auth.go: the bearer-token gate in front of protected routes, and the issuance of
    access and refresh tokens.

    The JWT library is outside the model. Decoding a token's header and claims
    (`decodeSegments`), checking its signature and expiry against a key (`verify`) and
    producing a signed token (`sign`) are parameters; the segment count that decides whether
    jwt.Parse returns a token at all, and everything auth/auth.go itself decides, are modelled. */
module Auth {
  import opened Wrappers
  import opened Models
  import opened Http

  // ---------------------------------------------------------------------------
  // Claims
  // ---------------------------------------------------------------------------

  /** A claim value as it appears in a token's payload. */
  datatype ClaimValue = CString(s: string) | CNumber(n: int)

  type Claims = map<string, ClaimValue>

  /** AccessClaims: `_id`, `email` and the standard claims, of which only `exp` is ever set. */
  datatype AccessClaims = AccessClaims(id: string, email: string, expiresAt: int, issuedAt: int)

  /** The payload of an access token. StandardClaims leaves zero `exp`/`iat` out. */
  function AccessClaimsMap(c: AccessClaims): (m: Claims)
    ensures "user_id" !in m
    ensures "_id" in m && m["_id"] == CString(c.id) && "email" in m && m["email"] == CString(c.email)
    ensures "exp" in m <==> c.expiresAt != 0
    ensures "iat" in m <==> c.issuedAt != 0
  {
    var base := map["_id" := CString(c.id), "email" := CString(c.email)];
    var withExp := if c.expiresAt != 0 then base["exp" := CNumber(c.expiresAt)] else base;
    if c.issuedAt != 0 then withExp["iat" := CNumber(c.issuedAt)] else withExp
  }

  /** 30 days, in seconds: the lifetime of an access token. */
  const AccessTokenLifetime: int := 30 * 24 * 3600

  /** 7 days, in seconds: the lifetime of a refresh token. */
  const RefreshTokenLifetime: int := 7 * 24 * 3600

  // ---------------------------------------------------------------------------
  // Secrets
  // ---------------------------------------------------------------------------

  /** getAccessSecret: the environment value, which must not be empty. */
  function GetAccessSecret(env: string): (r: Result<string, string>)
    ensures r.Ok? <==> env != ""
    ensures r.Ok? ==> r.value == env
    ensures r.Err? ==> r.error == "ACCESS_TOKEN_SECRET not set"
  {
    if env == "" then Err("ACCESS_TOKEN_SECRET not set") else Ok(env)
  }

  /** getRefreshSecret: the environment value, which must not be empty. */
  function GetRefreshSecret(env: string): (r: Result<string, string>)
    ensures r.Ok? <==> env != ""
    ensures r.Ok? ==> r.value == env
    ensures r.Err? ==> r.error == "REFRESH_TOKEN_SECRET not set"
  {
    if env == "" then Err("REFRESH_TOKEN_SECRET not set") else Ok(env)
  }

  // ---------------------------------------------------------------------------
  // Issuance
  // ---------------------------------------------------------------------------

  /** What createTokensWithAtClaim returns: two signed tokens, the access claims, an error. */
  datatype Issued = Issued(accessToken: string, refreshToken: string, claims: Option<AccessClaims>, err: Option<string>)

  /** The result that stands for an error: empty strings, no claims. */
  function Failed(message: string): Issued {
    Issued("", "", None, Some(message))
  }

  /** The access claims issued to `user` at time `now`: its ObjectID in ObjectID.String form,
      its email, and an expiry 30 days on; no issue time. */
  function AccessClaimsFor(user: User, now: int): (c: AccessClaims)
    ensures c.email == user.email && c.issuedAt == 0
    ensures c.expiresAt == now + AccessTokenLifetime
  {
    AccessClaims(ObjectIdString(user.id), user.email, now + AccessTokenLifetime, 0)
  }

  /** The payload of a refresh token: the user's bare hexadecimal ObjectID under `user_id`,
      its email, and an expiry 7 days on. */
  function RefreshClaimsMap(user: User, now: int): (m: Claims)
    ensures m.Keys == {"user_id", "email", "exp"}
    ensures m["user_id"] == CString(ObjectIdHex(user.id)) && m["email"] == CString(user.email)
    ensures m["exp"] == CNumber(now + RefreshTokenLifetime)
  {
    map["user_id" := CString(ObjectIdHex(user.id)), "email" := CString(user.email),
        "exp" := CNumber(now + RefreshTokenLifetime)]
  }

  /** Whether issuance succeeds: both secrets are set and the signer accepts both payloads. */
  predicate IssuesTokens(user: User, now: int, accessEnv: string, refreshEnv: string,
                         sign: (Claims, string) -> Result<string, string>)
  {
    accessEnv != "" && refreshEnv != "" &&
    sign(AccessClaimsMap(AccessClaimsFor(user, now)), accessEnv).Ok? &&
    sign(RefreshClaimsMap(user, now), refreshEnv).Ok?
  }

  /** createTokensWithAtClaim for a user at time `now` (Unix seconds), with the two secrets
      as the environment holds them and the library's HS256 signer `sign`. The access
      token is signed before the refresh secret is read, and is thrown away when that
      secret is missing. */
  method CreateTokensWithAtClaim(user: User, now: int, accessEnv: string, refreshEnv: string,
                                 sign: (Claims, string) -> Result<string, string>)
    returns (r: Issued)
    ensures r.err.None? <==> IssuesTokens(user, now, accessEnv, refreshEnv, sign)
    ensures r.err.Some? <==> r.claims.None?
    ensures r.err.Some? ==> r.accessToken == "" && r.refreshToken == ""
    ensures accessEnv == "" ==> r == Failed("ACCESS_TOKEN_SECRET not set")
    ensures accessEnv != "" && refreshEnv == "" &&
            sign(AccessClaimsMap(AccessClaimsFor(user, now)), accessEnv).Ok? ==>
              r == Failed("REFRESH_TOKEN_SECRET not set")
    ensures r.err.None? ==>
              r.claims == Some(AccessClaimsFor(user, now)) &&
              sign(AccessClaimsMap(r.claims.value), accessEnv) == Ok(r.accessToken) &&
              sign(RefreshClaimsMap(user, now), refreshEnv) == Ok(r.refreshToken)
  {
    var atClaims := AccessClaims(ObjectIdString(user.id), user.email, now + AccessTokenLifetime, 0);
    var accessSecret := GetAccessSecret(accessEnv);
    if accessSecret.Err? {
      return Failed(accessSecret.error);
    }
    var accessTokenSigned := sign(AccessClaimsMap(atClaims), accessSecret.value);
    if accessTokenSigned.Err? {
      return Failed(accessTokenSigned.error);
    }
    var rtClaims: Claims := map[];
    rtClaims := rtClaims["user_id" := CString(ObjectIdHex(user.id))];
    rtClaims := rtClaims["email" := CString(user.email)];
    rtClaims := rtClaims["exp" := CNumber(now + RefreshTokenLifetime)];
    assert rtClaims == RefreshClaimsMap(user, now);
    var refreshSecret := GetRefreshSecret(refreshEnv);
    if refreshSecret.Err? {
      return Failed(refreshSecret.error);
    }
    var refreshTokenSigned := sign(rtClaims, refreshSecret.value);
    if refreshTokenSigned.Err? {
      return Failed(refreshTokenSigned.error);
    }
    r := Issued(accessTokenSigned.value, refreshTokenSigned.value, Some(atClaims), None);
  }

  /** CreateTokens: the two tokens of createTokensWithAtClaim, or its error and two empty strings. */
  method CreateTokens(user: User, now: int, accessEnv: string, refreshEnv: string,
                      sign: (Claims, string) -> Result<string, string>)
    returns (accessToken: string, refreshToken: string, err: Option<string>)
    ensures err.None? <==> IssuesTokens(user, now, accessEnv, refreshEnv, sign)
    ensures err.Some? ==> accessToken == "" && refreshToken == ""
    ensures err.None? ==>
              sign(AccessClaimsMap(AccessClaimsFor(user, now)), accessEnv) == Ok(accessToken) &&
              sign(RefreshClaimsMap(user, now), refreshEnv) == Ok(refreshToken)
  {
    var issued := CreateTokensWithAtClaim(user, now, accessEnv, refreshEnv, sign);
    if issued.err.Some? {
      return "", "", issued.err;
    }
    return issued.accessToken, issued.refreshToken, None;
  }

  /** GenerateTokens: createTokensWithAtClaim's four results, passed on unchanged. */
  method GenerateTokens(user: User, now: int, accessEnv: string, refreshEnv: string,
                        sign: (Claims, string) -> Result<string, string>)
    returns (r: Issued)
    ensures r.err.None? <==> IssuesTokens(user, now, accessEnv, refreshEnv, sign)
    ensures r.err.Some? ==> r.accessToken == "" && r.refreshToken == "" && r.claims.None?
    ensures r.err.None? ==>
              r.claims == Some(AccessClaimsFor(user, now)) &&
              sign(AccessClaimsMap(AccessClaimsFor(user, now)), accessEnv) == Ok(r.accessToken) &&
              sign(RefreshClaimsMap(user, now), refreshEnv) == Ok(r.refreshToken)
  {
    var issued := CreateTokensWithAtClaim(user, now, accessEnv, refreshEnv, sign);
    if issued.err.Some? {
      return Issued("", "", None, issued.err);
    }
    r := issued;
  }

  /** An issued access token expires 30 days after issuance and never carries an issue time;
      its `_id` is ObjectID.String, not the bare hexadecimal identity. */
  lemma IssuedAccessClaims(user: User, now: int, c: AccessClaims)
    requires c == AccessClaimsFor(user, now)
    ensures c.expiresAt - now == 2592000
    ensures "iat" !in AccessClaimsMap(c) && c.issuedAt == 0
    ensures AccessClaimsMap(c)["_id"] != CString(ObjectIdHex(user.id))
    ensures ObjectIdFromHex(c.id).None?
  {
    assert |ObjectIdString(user.id)| != |ObjectIdHex(user.id)|;
  }

  // ---------------------------------------------------------------------------
  // The gate (AuthMiddleware)
  // ---------------------------------------------------------------------------

  const BearerSchema: string := "Bearer "

  /** strings.HasPrefix: case-sensitive. */
  predicate HasPrefix(s: string, prefix: string) {
    |prefix| <= |s| && s[..|prefix|] == prefix
  }

  /** The token string of an Authorization header: the header with exactly its first seven
      characters, `Bearer `, removed; none when the header does not start that way. */
  function BearerToken(header: string): (r: Option<string>)
    ensures r.Some? <==> HasPrefix(header, BearerSchema)
    ensures r.Some? ==> header == BearerSchema + r.value
  {
    if HasPrefix(header, BearerSchema) then Some(header[|BearerSchema|..]) else None
  }

  /** Whatever follows `Bearer ` is handed to the parser unchanged. */
  lemma BearerTokenRoundTrip(token: string)
    ensures BearerToken(BearerSchema + token) == Some(token)
  {
    assert (BearerSchema + token)[..|BearerSchema|] == BearerSchema;
    assert (BearerSchema + token)[|BearerSchema|..] == token;
  }

  /** Signature algorithm families of the JWT library. */
  datatype Family = HMAC | RSA | RSAPSS | ECDSA | EdDSA | Unsecured

  /** A token header's `alg`, as the library resolved it. */
  datatype SigningMethod = SigningMethod(family: Family, alg: string)

  /** What the library reads from a token with three segments before any key is involved. */
  datatype Segments =
    | BadSegments(message: string)                    // header or claims undecodable, or alg unknown
    | Decoded(signing: SigningMethod, claims: Claims)

  /** A token as jwt.Parse returns it: its claims and whether it validated. */
  datatype Token = Token(claims: Claims, valid: bool)

  /** jwt.Parse's two results: a token (nil when the string is not three segments) and an error. */
  datatype Parsed = Parsed(token: Option<Token>, err: Option<string>)

  function SegmentCount(s: string): (n: nat)
    ensures n >= 1
  {
    if s == [] then 1 else SegmentCount(s[1..]) + (if s[0] == '.' then 1 else 0)
  }

  /** The key function the gate passes to jwt.Parse: only the HMAC family is accepted, and
      the key is the access secret as the environment holds it. */
  function KeyFunc(signing: SigningMethod, accessEnv: string): (r: Result<string, string>)
    ensures r.Ok? <==> signing.family == HMAC
    ensures r.Ok? ==> r.value == accessEnv
  {
    if signing.family != HMAC then Err("unexpected signing method: " + signing.alg) else Ok(accessEnv)
  }

  /** jwt.Parse with the gate's key function. */
  function JwtParse(token: string, accessEnv: string, decodeSegments: string -> Segments,
                    verify: (string, string) -> Option<string>): (p: Parsed)
    ensures p.token.None? <==> SegmentCount(token) != 3
    ensures p.token.Some? ==> (p.token.value.valid <==> p.err.None?)
    ensures p.token.None? ==> p.err.Some?
  {
    if SegmentCount(token) != 3 then Parsed(None, Some("token contains an invalid number of segments"))
    else
      match decodeSegments(token)
      case BadSegments(m) => Parsed(Some(Token(map[], false)), Some(m))
      case Decoded(signing, claims) =>
        match KeyFunc(signing, accessEnv)
        case Err(m) => Parsed(Some(Token(claims, false)), Some(m))
        case Ok(key) =>
          match verify(token, key)
          case Some(m) => Parsed(Some(Token(claims, false)), Some(m))
          case None => Parsed(Some(Token(claims, true)), None)
  }

  /** What the gate does with a request: abort with a status and error message, let it
      through with the context value `userID` (nil, `None`, when the claim is missing), or, as
      written, crash on a nil token. */
  datatype GateOutcome = Abort(status: int, error: string) | Next(userId: Option<ClaimValue>) | Panic

  const NoHeaderMessage: string := "No Authorization header provided"

  function ClaimOf(claims: Claims, key: string): Option<ClaimValue> {
    if key in claims then Some(claims[key]) else None
  }

  /** AuthMiddleware as written: the token's claims are read before its error, so a string
      that jwt.Parse cannot split into three segments reaches a nil token. */
  function GateAsWritten(header: string, accessEnv: string, decodeSegments: string -> Segments,
                         verify: (string, string) -> Option<string>): (g: GateOutcome)
    ensures g.Abort? ==> g.status == StatusUnauthorized
    ensures !HasPrefix(header, BearerSchema) ==> g == Abort(StatusUnauthorized, NoHeaderMessage)
  {
    match BearerToken(header)
    case None => Abort(StatusUnauthorized, NoHeaderMessage)
    case Some(token) =>
      var p := JwtParse(token, accessEnv, decodeSegments, verify);
      match p.token
      case None => Panic
      case Some(t) => if t.valid then Next(ClaimOf(t.claims, "user_id")) else Abort(StatusUnauthorized, p.err.value)
  }

  /** AuthMiddleware with every failure answered by 401 and the parser's error message. */
  function Gate(header: string, accessEnv: string, decodeSegments: string -> Segments,
                verify: (string, string) -> Option<string>): (g: GateOutcome)
    ensures !g.Panic?
    ensures g.Abort? ==> g.status == StatusUnauthorized
    ensures !HasPrefix(header, BearerSchema) ==> g == Abort(StatusUnauthorized, NoHeaderMessage)
  {
    match BearerToken(header)
    case None => Abort(StatusUnauthorized, NoHeaderMessage)
    case Some(token) =>
      var p := JwtParse(token, accessEnv, decodeSegments, verify);
      match p.token
      case Some(t) =>
        if t.valid then Next(ClaimOf(t.claims, "user_id")) else Abort(StatusUnauthorized, p.err.value)
      case None => Abort(StatusUnauthorized, p.err.value)
  }

  /** The gate lets a request through iff its header is `Bearer ` followed by a token of three
      segments whose algorithm is in the HMAC family and which the library verifies with the
      access secret. */
  lemma GatePassesExactly(header: string, accessEnv: string, decodeSegments: string -> Segments,
                          verify: (string, string) -> Option<string>)
    ensures Gate(header, accessEnv, decodeSegments, verify).Next? <==>
              HasPrefix(header, BearerSchema) &&
              var token := header[|BearerSchema|..];
              SegmentCount(token) == 3 &&
              decodeSegments(token).Decoded? &&
              decodeSegments(token).signing.family == HMAC &&
              verify(token, accessEnv).None?
  {
  }

  /** A token whose algorithm is outside the HMAC family is refused with the key function's
      message, whatever its signature. */
  lemma GateRefusesNonHmac(token: string, accessEnv: string, decodeSegments: string -> Segments,
                           verify: (string, string) -> Option<string>)
    requires SegmentCount(token) == 3
    requires decodeSegments(token).Decoded? && decodeSegments(token).signing.family != HMAC
    ensures Gate(BearerSchema + token, accessEnv, decodeSegments, verify) ==
              Abort(StatusUnauthorized, "unexpected signing method: " + decodeSegments(token).signing.alg)
    ensures GateAsWritten(BearerSchema + token, accessEnv, decodeSegments, verify) ==
              Gate(BearerSchema + token, accessEnv, decodeSegments, verify)
  {
    BearerTokenRoundTrip(token);
  }

  /** An access token the gate accepts sets `userID` to nil: access claims carry `_id`, and
      the gate reads `user_id`, so it stores the missing claim's nil under the key. */
  lemma AccessTokenSetsUserIdNil(header: string, accessEnv: string, decodeSegments: string -> Segments,
                                 verify: (string, string) -> Option<string>, c: AccessClaims)
    requires HasPrefix(header, BearerSchema)
    requires decodeSegments(header[|BearerSchema|..]).Decoded?
    requires decodeSegments(header[|BearerSchema|..]).claims == AccessClaimsMap(c)
    ensures Gate(header, accessEnv, decodeSegments, verify).Next? ==>
              Gate(header, accessEnv, decodeSegments, verify).userId == None
  {
  }

  /** The two gates differ only where jwt.Parse returns no token, and there the written
      middleware crashes where the corrected one answers 401. */
  lemma GateAgreesExceptNilToken(header: string, accessEnv: string, decodeSegments: string -> Segments,
                                 verify: (string, string) -> Option<string>)
    ensures GateAsWritten(header, accessEnv, decodeSegments, verify).Panic? <==>
              HasPrefix(header, BearerSchema) && SegmentCount(header[|BearerSchema|..]) != 3
    ensures !GateAsWritten(header, accessEnv, decodeSegments, verify).Panic? ==>
              GateAsWritten(header, accessEnv, decodeSegments, verify) == Gate(header, accessEnv, decodeSegments, verify)
  {
  }

  /** `Bearer ` followed by nothing, or by a token without dots, crashes the written
      middleware and is refused with 401 by the corrected one. */
  lemma GateNilTokenWitness(accessEnv: string, decodeSegments: string -> Segments,
                            verify: (string, string) -> Option<string>)
    ensures GateAsWritten("Bearer ", accessEnv, decodeSegments, verify) == Panic
    ensures GateAsWritten("Bearer abc", accessEnv, decodeSegments, verify) == Panic
    ensures Gate("Bearer abc", accessEnv, decodeSegments, verify) ==
              Abort(StatusUnauthorized, "token contains an invalid number of segments")
  {
    assert BearerToken("Bearer ") == Some("");
    assert BearerToken("Bearer abc") == Some("abc");
    assert SegmentCount("abc") == 1 by {
      assert "abc"[1..] == "bc" && "bc"[1..] == "c" && "c"[1..] == "";
    }
  }

  /** A refresh token, were the gate to accept it, would set `userID` to the user's bare
      hexadecimal ObjectID: refresh claims carry `user_id`. */
  lemma RefreshTokenSetsUserId(header: string, accessEnv: string, decodeSegments: string -> Segments,
                               verify: (string, string) -> Option<string>, user: User, now: int)
    requires HasPrefix(header, BearerSchema)
    requires decodeSegments(header[|BearerSchema|..]).Decoded?
    requires decodeSegments(header[|BearerSchema|..]).claims == RefreshClaimsMap(user, now)
    ensures Gate(header, accessEnv, decodeSegments, verify).Next? ==>
              Gate(header, accessEnv, decodeSegments, verify).userId == Some(CString(ObjectIdHex(user.id)))
  {
  }
}
