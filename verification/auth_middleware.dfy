/** authenticateToken and authorizeRole. The two copies of the middleware
    (the root server's and the backend's) make the same decisions, so one
    model serves both. `jwt.verify` and the user lookup are oracles. */
module AuthMiddleware {
  import opened Text

  /** A value inside a decoded token. */
  datatype Claim = CNum(n: int) | CStr(s: string)

  /** A decoded JWT payload. */
  type Claims = map<string, Claim>

  /** The payload both user controllers sign: `{userId, email, role}`. */
  function SignedClaims(userId: int, email: string, role: string): (c: Claims)
    ensures c.Keys == {"userId", "email", "role"}
  {
    map["userId" := CNum(userId), "email" := CStr(email), "role" := CStr(role)]
  }

  /** `decoded.userId` */
  function UserIdClaim(c: Claims): Option<int> {
    if "userId" in c && c["userId"].CNum? then Some(c["userId"].n) else None
  }

  /** `req.user.role` */
  function RoleClaim(c: Claims): Option<string> {
    if "role" in c && c["role"].CStr? then Some(c["role"].s) else None
  }

  /** What `jwt.verify` does: decode the payload or throw an error of some name. */
  datatype Verified = Decoded(claims: Claims) | VerifyError(name: string)

  /** What `UserModel.findById` does: find a row, find none, or throw. */
  datatype Lookup = Found | Missing | LookupFailed

  /** The middleware's verdict: pass on with `req.user` set, or answer. */
  datatype Verdict = Next(user: Claims) | Reject(status: int, message: string)

  /** `authHeader && authHeader.split(' ')[1]`, kept only when truthy. */
  function BearerToken(header: Option<string>): (t: Option<string>)
    ensures t.Some? ==> t.value != "" && ' ' !in t.value
    ensures !Truthy(header) ==> t.None?
  {
    if !Truthy(header) then None
    else
      var parts := Split(header.value, ' ');
      if |parts| >= 2 && parts[1] != "" then Some(parts[1]) else None
  }

  /** The token is the second word whatever the first word is: the scheme
      is never checked. */
  lemma BearerTokenOfHeader(scheme: string, token: string)
    requires ' ' !in scheme && ' ' !in token && token != ""
    ensures BearerToken(Some(scheme + " " + token)) == Some(token)
  {
    SplitAfterWord(scheme, ' ', token);
    SplitWithoutSep(token, ' ');
    assert scheme + " " + token == scheme + [' '] + token;
  }

  /** A header with no space carries no token. */
  lemma NoSpaceNoToken(header: string)
    requires ' ' !in header
    ensures BearerToken(Some(header)) == None
  {
    SplitWithoutSep(header, ' ');
  }

  /** The catch block: the error's name picks the answer. */
  function VerifyErrorResponse(name: string): (v: Verdict)
    ensures v.Reject?
    ensures v.status == 401 <==> name == "JsonWebTokenError" || name == "TokenExpiredError"
    ensures name == "JsonWebTokenError" ==> v.message == "Invalid token"
    ensures name == "TokenExpiredError" ==> v.message == "Token expired"
    ensures v.status != 401 ==> v == Reject(500, "Internal server error")
  {
    if name == "JsonWebTokenError" then Reject(401, "Invalid token")
    else if name == "TokenExpiredError" then Reject(401, "Token expired")
    else Reject(500, "Internal server error")
  }

  /** authenticateToken: passes on exactly when a token is present, verifies,
      and names a user that still exists; `req.user` is then the decoded payload. */
  function AuthenticateToken(header: Option<string>, verify: string -> Verified,
                             findById: Option<int> -> Lookup): (v: Verdict)
    ensures v.Next? <==> BearerToken(header).Some? && verify(BearerToken(header).value).Decoded?
                         && findById(UserIdClaim(verify(BearerToken(header).value).claims)) == Found
    ensures v.Next? ==> v.user == verify(BearerToken(header).value).claims
    ensures BearerToken(header).None? ==> v == Reject(401, "Access token required")
    ensures v.Reject? ==> v.status == 401 || v.status == 500
  {
    match BearerToken(header)
    case None => Reject(401, "Access token required")
    case Some(token) =>
      match verify(token)
      case VerifyError(name) => VerifyErrorResponse(name)
      case Decoded(claims) =>
        match findById(UserIdClaim(claims))
        case Found => Next(claims)
        case Missing => Reject(401, "User not found")
        case LookupFailed => Reject(500, "Internal server error")
  }

  /** A token for a deleted user is refused with 'User not found'. */
  lemma UnknownUserRejected(header: Option<string>, verify: string -> Verified, findById: Option<int> -> Lookup)
    requires BearerToken(header).Some? && verify(BearerToken(header).value).Decoded?
    requires findById(UserIdClaim(verify(BearerToken(header).value).claims)) == Missing
    ensures AuthenticateToken(header, verify, findById) == Reject(401, "User not found")
  {
  }

  /** authorizeRole(roles): 401 without a user, 403 when the user's role is
      not listed, otherwise pass on. */
  function AuthorizeRole(user: Option<Claims>, roles: seq<string>): (v: Verdict)
    ensures v.Next? <==> user.Some? && RoleClaim(user.value).Some? && RoleClaim(user.value).value in roles
    ensures user.None? ==> v == Reject(401, "Authentication required")
    ensures user.Some? && v.Reject? ==> v == Reject(403, "Insufficient permissions")
    ensures v.Next? ==> v.user == user.value
  {
    match user
    case None => Reject(401, "Authentication required")
    case Some(c) =>
      if RoleClaim(c).Some? && RoleClaim(c).value in roles then Next(c)
      else Reject(403, "Insufficient permissions")
  }
}
