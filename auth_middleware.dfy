/** The two request guards: `authenticate`, which reads a bearer token from the
    `Authorization` header (a simplified form of section 2.1 of RFC 6750, with
    the scheme name matched case-sensitively) and attaches its claims to the
    request, and `requireRoles`, which admits a request whose attached role is in
    a list. Each guard either passes the request on or answers with a status. */
module AuthMiddleware {
  import opened Wrappers
  import opened Text
  import opened Credentials
  import opened UserStore
  import AuthService
  import UserService

  const AuthenticationRequired := "Authentication required"
  const InvalidOrExpiredToken := "Invalid or expired token"
  const InsufficientPermissions := "Insufficient permissions"

  /** What a guard does with the request: answer it, or call `next()` with the
      user the request now carries. */
  datatype Outcome = Respond(status: int, message: string) | Next(user: Claims)

  const BearerPrefix := "Bearer "

  /** `authHeader.startsWith('Bearer ')`. */
  predicate StartsWithBearer(h: string) {
    |h| >= |BearerPrefix| && h[..|BearerPrefix|] == BearerPrefix
  }

  /** `authHeader.split(' ')[1]`; the header holds at least the space of its prefix. */
  function BearerToken(h: string): (token: string)
    requires StartsWithBearer(h)
  {
    assert h == "Bearer" + [' '] + h[|BearerPrefix|..];
    SplitAfterPrefix("Bearer", ' ', h[|BearerPrefix|..]);
    Split(h, ' ')[1]
  }

  /** A header `Bearer <t>` with no space in `t` yields exactly `t`. */
  lemma BearerTokenOf(t: string)
    requires ' ' !in t
    ensures StartsWithBearer(BearerPrefix + t) && BearerToken(BearerPrefix + t) == t
  {
    var h := BearerPrefix + t;
    assert h[..|BearerPrefix|] == BearerPrefix;
    assert h[|BearerPrefix|..] == t;
    SplitAfterPrefix("Bearer", ' ', t);
  }

  /** `authenticate`: 401 without a bearer header, 401 when the token does not
      verify, otherwise the request goes on carrying the token's claims. */
  function Authenticate(header: Option<string>, jwt: Jwt): (r: Outcome)
    ensures (header.None? || !StartsWithBearer(header.value)) ==> r == Respond(401, AuthenticationRequired)
    ensures header.Some? && StartsWithBearer(header.value) ==>
      match jwt.decode(BearerToken(header.value))
      case Some(claims) => r == Next(claims)
      case None => r == Respond(401, InvalidOrExpiredToken)
  {
    if header.None? || !StartsWithBearer(header.value) then Respond(401, AuthenticationRequired)
    else
      match AuthService.VerifyToken(jwt, BearerToken(header.value))
      case Ok(decoded) => Next(Claims(decoded.userId, decoded.role))
      case Err(_) => Respond(401, InvalidOrExpiredToken)
  }

  /** A token issued by the service, sent as `Bearer <token>`, authenticates as
      the user and role it was issued for. */
  lemma IssuedTokenAuthenticates(jwt: Jwt, userId: int, role: string)
    requires SoundKey(jwt)
    requires ' ' !in AuthService.GenerateToken(jwt, userId, role)
    ensures Authenticate(Some(BearerPrefix + AuthService.GenerateToken(jwt, userId, role)), jwt) == Next(Claims(userId, role))
  {
    BearerTokenOf(AuthService.GenerateToken(jwt, userId, role));
    AuthService.TokenRoundTrip(jwt, userId, role);
  }

  /** `requireRoles(roles)` applied to a request carrying `user`. */
  function RequireRoles(roles: seq<string>, user: Option<Claims>): (r: Outcome)
    ensures user.None? ==> r == Respond(401, AuthenticationRequired)
    ensures user.Some? && user.value.role !in roles ==> r == Respond(403, InsufficientPermissions)
    ensures user.Some? && user.value.role in roles ==> r == Next(user.value)
  {
    if user.None? then Respond(401, AuthenticationRequired)
    else if user.value.role !in roles then Respond(403, InsufficientPermissions)
    else Next(user.value)
  }

  /** The decision depends on the token's role alone, not on the user id. */
  lemma RequireRolesByRole(roles: seq<string>, a: Claims, b: Claims)
    requires a.role == b.role
    ensures RequireRoles(roles, Some(a)).Next? == RequireRoles(roles, Some(b)).Next?
    ensures RequireRoles(roles, Some(a)).Respond? ==> RequireRoles(roles, Some(a)) == RequireRoles(roles, Some(b))
  {
  }

  const AdminRoles := ["admin"]
  const CutterRoles := ["cutter", "admin"]
  const DealerRoles := ["dealer", "admin"]
  const CollectorRoles := ["collector", "admin"]
  const AppraiserRoles := ["appraiser", "admin"]

  /** Each predefined guard admits its named role and `admin`, and nothing else;
      `requireAdmin` admits `admin` alone. */
  lemma PredefinedGuards(user: Claims)
    ensures RequireRoles(AdminRoles, Some(user)).Next? <==> user.role == "admin"
    ensures RequireRoles(CutterRoles, Some(user)).Next? <==> user.role == "cutter" || user.role == "admin"
    ensures RequireRoles(DealerRoles, Some(user)).Next? <==> user.role == "dealer" || user.role == "admin"
    ensures RequireRoles(CollectorRoles, Some(user)).Next? <==> user.role == "collector" || user.role == "admin"
    ensures RequireRoles(AppraiserRoles, Some(user)).Next? <==> user.role == "appraiser" || user.role == "admin"
  {
  }

  /** An administrator gets past `requireCutter`, but adding a portfolio item
      checks the stored role and turns that same administrator away. */
  lemma AdminPassesCutterGuardOnly(db: UserModel, userId: int)
    requires db.Valid()
    requires userId in db.users && db.RecordOf(db.users[userId]).roleName == Some("admin")
    ensures RequireRoles(CutterRoles, Some(Claims(userId, "admin"))) == Next(Claims(userId, "admin"))
    ensures UserService.CutterCheck(db, userId, UserService.OnlyCuttersAdd) == Some(UserService.OnlyCuttersAdd)
  {
  }
}
