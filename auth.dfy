/**
 * Token issuance and the two access middlewares (internal/auth/auth.go).
 *
 * Token claims follow RFC 7519: `exp` (section 4.1.4), `iat` (section 4.1.6) and
 * `iss` (section 4.1.1), with a 24-hour lifetime. HS256 signing and signature
 * checking belong to a cryptographic library and are parameters here (`Signer`,
 * `Verifier`); the library's expiry rule is written out (`Unexpired`). The clock
 * and the JWT_SECRET_KEY environment variable are parameters as well; times are
 * whole seconds, as JWT numeric dates are.
 */
module Auth {
  import opened Outcomes
  import opened ApiErrors
  import Text

  /** Token lifetime: 24 hours, in seconds. */
  const TokenLifetime := 24 * 60 * 60
  const Issuer := "go-firebase-api"
  const SecretMissingMessage := "JWT_SECRET_KEY environment variable not set"

  /** Context keys set by `AuthMiddleware` and read by `RoleAuthMiddleware`. */
  const UserIdKey := "userID"
  const UserRoleKey := "userRole"

  /** The custom claims plus the registered claims a token carries. */
  datatype Claims = Claims(
    userId: string,
    email: string,
    role: string,
    expiresAt: Option<int>,
    issuedAt: Option<int>,
    issuer: string)

  /** HS256 signing of claims with a secret: the compact token, or the library's error text. */
  type Signer = (Claims, string) -> Result<string, string>

  /** Signature check and decoding of a token with a secret: its claims, or `None` when malformed or forged. */
  type Verifier = (string, string) -> Option<Claims>

  /**
   * What signing and verifying promise each other for one secret: a signed token
   * is compact (no spaces) and verifies to exactly the claims that were signed.
   */
  ghost predicate SignerMatches(sign: Signer, verify: Verifier, secret: string)
  {
    forall c: Claims {:trigger sign(c, secret)} ::
      sign(c, secret).Ok? ==>
        ' ' !in sign(c, secret).value && verify(sign(c, secret).value, secret) == Some(c)
  }

  /**
   * `GenerateJWT`: refuses to sign without a secret; otherwise signs the user's
   * id, email and role, issued now, expiring 24 hours later, issued by "go-firebase-api".
   */
  function GenerateJWT(userId: string, email: string, role: string, secret: string, now: int, sign: Signer)
    : (r: Result<string, string>)
    ensures secret == "" ==> r == Err(SecretMissingMessage)
    ensures secret != "" ==>
      r == sign(Claims(userId, email, role, Some(now + TokenLifetime), Some(now), Issuer), secret)
  {
    if secret == "" then Err(SecretMissingMessage)
    else sign(Claims(userId, email, role, Some(now + TokenLifetime), Some(now), Issuer), secret)
  }

  /** The library's time check: a token without `exp` never expires; otherwise it is valid strictly before `exp`. */
  predicate Unexpired(c: Claims, now: int)
  {
    c.expiresAt.None? || now < c.expiresAt.value
  }

  // ----- AuthMiddleware -----

  const HeaderRequired := NewAPIError(StatusUnauthorized, "Authorization header is required")
  const HeaderMalformed := NewAPIError(StatusUnauthorized, "Authorization header format must be Bearer {token}")
  const TokenRejected := NewAPIError(StatusUnauthorized, "Invalid or expired token")

  /** The identity `AuthMiddleware` places in the request context. */
  datatype Identity = Identity(userId: string, role: string)

  /**
   * The header check: split on single spaces, exactly two parts, the first
   * exactly "Bearer". An accepted header is "Bearer " followed by the token, and
   * the token has no space.
   */
  function BearerToken(header: string): (t: Option<string>)
    ensures t.Some? ==> header == "Bearer " + t.value && ' ' !in t.value
  {
    var parts := Text.Split(header, ' ');
    if |parts| != 2 || parts[0] != "Bearer" then None
    else
      Text.SplitJoin(header, ' ');
      Text.SplitPartsFree(header, ' ');
      assert parts[1..] == [parts[1]];
      Some(parts[1])
  }

  /** The accepted headers, stated without splitting: "Bearer ", then a token with no space. */
  predicate WellFormedBearer(header: string)
  {
    |header| >= 7 && header[..7] == "Bearer " && ' ' !in header[7..]
  }

  /** The decision of `AuthMiddleware` for one request. */
  function Authenticate(header: string, secret: string, now: int, verify: Verifier): (r: Result<Identity, APIError>)
    ensures r.Err? ==> r.error.code == StatusUnauthorized
  {
    if header == "" then Err(HeaderRequired)
    else match BearerToken(header)
      case None => Err(HeaderMalformed)
      case Some(token) =>
        match verify(token, secret)
        case None => Err(TokenRejected)
        case Some(c) => if Unexpired(c, now) then Ok(Identity(c.userId, c.role)) else Err(TokenRejected)
  }

  /** "Bearer " followed by a token with no space is accepted, and the token is passed on unchanged. */
  lemma BearerAccepts(token: string)
    requires ' ' !in token
    ensures BearerToken("Bearer " + token) == Some(token)
  {
    Text.SplitAfterPrefix("Bearer", token, ' ');
    Text.SplitWhole(token, ' ');
    assert "Bearer " + token == "Bearer" + [' '] + token;
  }

  /** The header check accepts exactly the well-formed bearer headers, and yields what follows "Bearer ". */
  lemma BearerTokenExact(header: string)
    ensures BearerToken(header) == if WellFormedBearer(header) then Some(header[7..]) else None
  {
    if WellFormedBearer(header) {
      assert header == "Bearer " + header[7..];
      BearerAccepts(header[7..]);
    }
  }

  /** The check is case-sensitive and counts spaces: these three headers are all refused. */
  lemma BearerRejectsNearMisses()
    ensures BearerToken("bearer x") == None
    ensures BearerToken("Bearer") == None
    ensures BearerToken("Bearer  x") == None
  {
  }

  /**
   * The middleware's decision in terms of the header's shape: no header, a
   * malformed header, and a forged, malformed or expired token are each refused
   * with their own 401; otherwise the claims' user id and role are let through.
   */
  lemma AuthenticateCases(header: string, secret: string, now: int, verify: Verifier)
    ensures header == "" ==> Authenticate(header, secret, now, verify) == Err(HeaderRequired)
    ensures header != "" && !WellFormedBearer(header) ==>
      Authenticate(header, secret, now, verify) == Err(HeaderMalformed)
    ensures WellFormedBearer(header) ==>
      Authenticate(header, secret, now, verify) ==
        match verify(header[7..], secret)
        case Some(c) => if Unexpired(c, now) then Ok(Identity(c.userId, c.role)) else Err(TokenRejected)
        case None => Err(TokenRejected)
  {
    BearerTokenExact(header);
  }

  /**
   * A token issued by `GenerateJWT` and presented as "Bearer <token>" identifies
   * the same user and role until 24 hours after issue, and is refused from then on.
   */
  lemma IssuedTokenRoundTrip(
    userId: string, email: string, role: string, secret: string, issuedAt: int, now: int,
    sign: Signer, verify: Verifier, token: string)
    requires SignerMatches(sign, verify, secret)
    requires GenerateJWT(userId, email, role, secret, issuedAt, sign) == Ok(token)
    ensures now < issuedAt + TokenLifetime ==>
      Authenticate("Bearer " + token, secret, now, verify) == Ok(Identity(userId, role))
    ensures now >= issuedAt + TokenLifetime ==>
      Authenticate("Bearer " + token, secret, now, verify) == Err(TokenRejected)
  {
    var c := Claims(userId, email, role, Some(issuedAt + TokenLifetime), Some(issuedAt), Issuer);
    assert sign(c, secret) == Ok(token);
    BearerAccepts(token);
  }

  // ----- RoleAuthMiddleware -----

  const RoleMissing := NewAPIError(StatusForbidden, "User role not found in token")
  const RoleWrongType := NewAPIError(StatusInternalServerError, "User role in context has an invalid type")
  const PermissionDenied := NewAPIError(StatusForbidden, "You do not have permission to access this resource")

  /** A value stored in the request context, with its dynamic type. */
  datatype CtxValue =
    | StringValue(s: string)  // a plain string
    | RoleValue(r: string)    // a role.Role
    | OtherValue              // a value of any other type

  /** Outcome of one middleware: run the next handler, or abort with an error response. */
  datatype Step = Proceed | Halt(error: APIError)

  /** The decision of `RoleAuthMiddleware` for the value stored under "userRole" (if any). */
  function Authorize(stored: Option<CtxValue>, requiredRole: string): (r: Step)
    ensures r == Proceed <==> stored == Some(RoleValue(requiredRole))
    ensures stored.None? ==> r == Halt(RoleMissing)
    ensures stored.Some? && stored.value.RoleValue? && stored.value.r != requiredRole ==> r == Halt(PermissionDenied)
    ensures r.Halt? && r.error.code == StatusInternalServerError <==> stored.Some? && !stored.value.RoleValue?
  {
    match stored
    case None => Halt(RoleMissing)
    case Some(v) =>
      match v
      case RoleValue(role) => if role != requiredRole then Halt(PermissionDenied) else Proceed
      case _ => Halt(RoleWrongType)
  }

  /** Authentication followed, for a protected route, by the role check on what authentication stored. */
  function Gate(header: string, secret: string, now: int, verify: Verifier, requiredRole: Option<string>): (r: Step)
    ensures r.Halt? ==> r.error.code == StatusUnauthorized || r.error.code == StatusForbidden
  {
    match Authenticate(header, secret, now, verify)
    case Err(e) => Halt(e)
    case Ok(id) =>
      match requiredRole
      case None => Proceed
      case Some(required) => Authorize(Some(RoleValue(id.role)), required)
  }

  /**
   * The route guard as a whole: a request passes a role-gated route exactly when
   * its token authenticates with that very role (no hierarchy); it is refused with
   * 401 when authentication fails and with 403 "You do not have permission to
   * access this resource" when the role differs.
   */
  lemma GateDecision(header: string, secret: string, now: int, verify: Verifier, requiredRole: Option<string>)
    ensures Gate(header, secret, now, verify, requiredRole) == Proceed <==>
      Authenticate(header, secret, now, verify).Ok? &&
      (requiredRole.Some? ==> Authenticate(header, secret, now, verify).value.role == requiredRole.value)
    ensures Authenticate(header, secret, now, verify).Err? ==>
      Gate(header, secret, now, verify, requiredRole).Halt? &&
      Gate(header, secret, now, verify, requiredRole).error.code == StatusUnauthorized
    ensures (Authenticate(header, secret, now, verify).Ok? && requiredRole.Some? &&
             Authenticate(header, secret, now, verify).value.role != requiredRole.value) ==>
      Gate(header, secret, now, verify, requiredRole) == Halt(PermissionDenied)
  {
  }

  /** The Gin context of one request, as far as the middlewares use it. */
  class RequestContext {
    /** The Authorization header; "" when the request has none. */
    const header: string
    /** Values set with `c.Set`. */
    var keys: map<string, CtxValue>
    /** The status and body given to `AbortWithStatusJSON`, once the chain is aborted. */
    var aborted: Option<APIError>

    constructor (header: string)
      ensures this.header == header && keys == map[] && aborted == None
    {
      this.header := header;
      keys := map[];
      aborted := None;
    }
  }

  /** `AuthMiddleware`: aborts with the decision's error, or stores the identity and continues. */
  method AuthMiddleware(c: RequestContext, secret: string, now: int, verify: Verifier)
    modifies c
    ensures match Authenticate(c.header, secret, now, verify)
      case Err(e) => c.aborted == Some(e) && c.keys == old(c.keys)
      case Ok(id) =>
        c.aborted == old(c.aborted) &&
        c.keys == old(c.keys)[UserIdKey := StringValue(id.userId)][UserRoleKey := RoleValue(id.role)]
  {
    var decision := Authenticate(c.header, secret, now, verify);
    match decision
    case Err(e) =>
      c.aborted := Some(e);
    case Ok(id) =>
      c.keys := c.keys[UserIdKey := StringValue(id.userId)];
      c.keys := c.keys[UserRoleKey := RoleValue(id.role)];
  }

  /** `RoleAuthMiddleware(requiredRole)`: aborts unless the stored role is exactly `requiredRole`. */
  method RoleAuthMiddleware(c: RequestContext, requiredRole: string)
    modifies c
    ensures c.keys == old(c.keys)
    ensures c.aborted ==
      match Authorize(if UserRoleKey in c.keys then Some(c.keys[UserRoleKey]) else None, requiredRole)
      case Halt(e) => Some(e)
      case Proceed => old(c.aborted)
  {
    var stored := if UserRoleKey in c.keys then Some(c.keys[UserRoleKey]) else None;
    var decision := Authorize(stored, requiredRole);
    if decision.Halt? {
      c.aborted := Some(decision.error);
    }
  }

  /**
   * A protected route's handler chain: `AuthMiddleware`, then `RoleAuthMiddleware`
   * when the route requires a role; an abort stops the chain. The handler runs
   * exactly when the guard lets the request through.
   */
  method RunGuards(c: RequestContext, secret: string, now: int, verify: Verifier, requiredRole: Option<string>)
    returns (handlerRuns: bool)
    requires c.aborted.None?
    modifies c
    ensures handlerRuns <==> Gate(c.header, secret, now, verify, requiredRole) == Proceed
    ensures c.aborted == match Gate(c.header, secret, now, verify, requiredRole)
      case Proceed => None
      case Halt(e) => Some(e)
    ensures c.keys == match Authenticate(c.header, secret, now, verify)
      case Err(_) => old(c.keys)
      case Ok(id) => old(c.keys)[UserIdKey := StringValue(id.userId)][UserRoleKey := RoleValue(id.role)]
  {
    AuthMiddleware(c, secret, now, verify);
    if c.aborted.Some? {
      return false;
    }
    if requiredRole.Some? {
      RoleAuthMiddleware(c, requiredRole.value);
    }
    handlerRuns := c.aborted.None?;
  }
}
