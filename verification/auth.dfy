/** The authentication middleware: picking the session token from the `Authorization` header (the
    `Bearer` scheme of section 2.1 of RFC 6750) or from a cookie, accepting it through the JWT
    verifier, and the role gate `authorizeRoles`. */
module Auth {
  import opened Common
  import opened Domain
  import Text

  /** The parts of an incoming request the middleware looks at. */
  datatype Headers = Headers(authorization: Option<string>, sessionIdCookie: Option<string>, authTokenCookie: Option<string>)

  const BearerPrefix := "Bearer "

  /** What a verified token carries; the role claim may be missing. */
  datatype Payload = Payload(userId: Id, role: Option<Role>)

  /** Whether the middleware hands the request on (`next()`) or answers it with a status. */
  datatype Verdict = Next | Deny(code: nat)

  /** The token candidate: the rest of a `Bearer ` header, otherwise the `session_id` cookie when it
      is non-empty, otherwise the `auth_token` cookie. */
  function PickToken(h: Headers): (token: Option<string>)
    ensures h.authorization.Some? && Text.StartsWith(h.authorization.value, BearerPrefix) ==>
      token.Some? && h.authorization.value == BearerPrefix + token.value
    ensures !(h.authorization.Some? && Text.StartsWith(h.authorization.value, BearerPrefix)) ==>
      token == (if Truthy(h.sessionIdCookie) then h.sessionIdCookie else h.authTokenCookie)
  {
    if h.authorization.Some? && Text.StartsWith(h.authorization.value, BearerPrefix) then
      Some(h.authorization.value[|BearerPrefix|..])
    else if Truthy(h.sessionIdCookie) then h.sessionIdCookie
    else h.authTokenCookie
  }

  /** A bearer header wins over both cookies and yields exactly the credentials after the prefix. */
  lemma BearerTokenRoundTrip(credentials: string, session: Option<string>, authToken: Option<string>)
    ensures PickToken(Headers(Some(BearerPrefix + credentials), session, authToken)) == Some(credentials)
  {
    assert Text.StartsWith(BearerPrefix + credentials, BearerPrefix);
  }

  /** The request as the middleware updates it. */
  class Request {
    const headers: Headers
    var userId: Id
    var userRole: Option<Role>

    constructor (headers: Headers)
      ensures this.headers == headers && userId == [] && userRole == None
    {
      this.headers := headers;
      userId := [];
      userRole := None;
    }
  }

  /** `verifyToken`: `verify` is the JWT check, giving the payload of a valid token and None for an
      invalid one. Without a usable token, or with one `verify` rejects, the answer is 401 and the
      request is left as it was; otherwise the caller's id and role (defaulting to "user") are
      attached and the next handler runs. */
  method VerifyToken(req: Request, verify: string -> Option<Payload>) returns (v: Verdict)
    modifies req
    ensures var token := PickToken(req.headers);
      v == Next <==> Truthy(token) && verify(token.value).Some?
    ensures v != Next ==> v == Deny(401) && unchanged(req)
    ensures v == Next ==>
      var payload := verify(PickToken(req.headers).value).value;
      req.userId == payload.userId && req.userRole == Some(payload.role.GetOr(UserRole))
  {
    var token := PickToken(req.headers);
    if !Truthy(token) {
      return Deny(401);
    }
    var decoded := verify(token.value);
    if decoded.None? {
      return Deny(401);
    }
    req.userId := decoded.value.userId;
    req.userRole := Some(decoded.value.role.GetOr(UserRole));
    v := Next;
  }

  /** `authorizeRoles(...allowed)` applied to the caller's role (a missing role counts as "user"). */
  function AuthorizeRoles(allowed: seq<Role>, role: Option<Role>): (v: Verdict)
    ensures role.GetOr(UserRole) == Admin ==> v == Next
    ensures role.GetOr(UserRole) != Admin ==> (v == Next <==> role.GetOr(UserRole) in allowed)
    ensures v != Next ==> v == Deny(403)
  {
    var r := role.GetOr(UserRole);
    if r == Admin then Next
    else if r !in allowed then Deny(403)
    else Next
  }

  /** An empty bearer value is no token: the header is used and the cookies are not consulted. */
  lemma EmptyBearerIsNoToken(session: Option<string>, authToken: Option<string>)
    ensures !Truthy(PickToken(Headers(Some(BearerPrefix), session, authToken)))
  {
    BearerTokenRoundTrip([], session, authToken);
    assert BearerPrefix + [] == BearerPrefix;
  }
}
