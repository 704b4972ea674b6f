/**
 * The authentication routes and middleware: login, refresh, profile, logout and the
 * `x-auth-token` check. A signed token is abstract data: the secret that signed it, its
 * payload, and `iat`/`exp` in whole seconds as the JWT library writes them. The user
 * collection is a sequence in its natural order; `findOne`/`findById` return the first match.
 */
module AuthRoutes {
  import opened Wrappers
  import opened Js
  import opened Http
  import opened Models

  /** `expiresIn: '1h'` and `expiresIn: '7d'`, in seconds. */
  const ACCESS_TOKEN_TTL: int := 60 * 60
  const REFRESH_TOKEN_TTL: int := 7 * 24 * 60 * 60

  /** `process.env.JWT_SECRET` and `process.env.JWT_REFRESH_SECRET`. */
  datatype Config = Config(jwtSecret: string, refreshSecret: string)

  /** The deployment keeps the two signing secrets apart. */
  predicate SecretsDistinct(cfg: Config)
  {
    cfg.jwtSecret != cfg.refreshSecret
  }

  /** A token payload: `{userId, role}` for access tokens, `{userId}` for refresh tokens. */
  datatype Claims = Claims(userId: Id, role: Option<Role>)

  datatype Token = Token(secret: string, claims: Claims, iat: int, exp: int)

  datatype TokenError = InvalidSignature | TokenExpired

  /** The JWT clock: whole seconds, rounded down. */
  function Seconds(now: int): int
  {
    now / 1000
  }

  /** `jwt.sign(claims, secret, {expiresIn: ttl})` at instant `now`. */
  function Sign(secret: string, claims: Claims, now: int, ttl: int): (t: Token)
    ensures t.secret == secret && t.claims == claims
    ensures t.iat * 1000 <= now < (t.iat + 1) * 1000
    ensures t.exp == t.iat + ttl
  {
    Token(secret, claims, Seconds(now), Seconds(now) + ttl)
  }

  /** `jwt.verify(token, secret)`: the signature is checked first, then the expiry. */
  function Verify(t: Token, secret: string, now: int): (r: Result<Claims, TokenError>)
    ensures r.Success? <==> t.secret == secret && now < t.exp * 1000
    ensures r.Success? ==> r.value == t.claims
    ensures t.secret != secret ==> r == Failure(InvalidSignature)
    ensures t.secret == secret && t.exp * 1000 <= now ==> r == Failure(TokenExpired)
  {
    if t.secret != secret then Failure(InvalidSignature)
    else if Seconds(now) >= t.exp then Failure(TokenExpired)
    else Success(t.claims)
  }

  /** The last instant (exclusive) at which a token signed at `issued` is accepted. */
  function ExpiryInstant(issued: int, ttl: int): (e: int)
    ensures issued + ttl * 1000 - 1000 < e <= issued + ttl * 1000
  {
    (Seconds(issued) + ttl) * 1000
  }

  /** A token is accepted under its own secret exactly until its expiry instant. */
  lemma TokenLifetime(secret: string, claims: Claims, issued: int, ttl: int, now: int)
    ensures Verify(Sign(secret, claims, issued, ttl), secret, now).Success? <==> now < ExpiryInstant(issued, ttl)
  {
  }

  /** A token is never accepted under another secret. */
  lemma ForeignSecretRejected(t: Token, secret: string, now: int)
    requires t.secret != secret
    ensures Verify(t, secret, now) == Failure(InvalidSignature)
  {
  }

  // ---------------------------------------------------------------- users

  datatype UserSummary = UserSummary(id: Id, name: string, email: string, role: Role)

  /** The user object of a reply: everything but the password. */
  function Summary(u: User): UserSummary
  {
    UserSummary(u.id, u.name, u.email, u.role)
  }

  function FindUserByEmail(users: seq<User>, email: string): Option<User>
  {
    Find(users, (u: User) => u.email == email)
  }

  function FindUserById(users: seq<User>, id: Id): Option<User>
  {
    Find(users, (u: User) => u.id == id)
  }

  function AccessTokenFor(cfg: Config, u: User, now: int): Token
  {
    Sign(cfg.jwtSecret, Claims(u.id, Some(u.role)), now, ACCESS_TOKEN_TTL)
  }

  function RefreshTokenFor(cfg: Config, u: User, now: int): Token
  {
    Sign(cfg.refreshSecret, Claims(u.id, None), now, REFRESH_TOKEN_TTL)
  }

  // ---------------------------------------------------------------- handlers

  datatype AuthBody =
    | Tokens(accessToken: Token, refreshToken: Token, user: UserSummary)
    | Access(accessToken: Token)
    | Profile(user: UserSummary)
    | LoggedOut(ack: Ack)

  const INVALID_CREDENTIALS := "Invalid credentials"
  const REFRESH_TOKEN_REQUIRED := "Refresh token required"
  const INVALID_REFRESH_TOKEN := "Invalid refresh token"
  const USER_NOT_FOUND := "User not found"
  const LOGGED_OUT := "Logged out successfully"
  const NO_TOKEN := "No token, authorization denied"
  const TOKEN_NOT_VALID := "Token is not valid"

  predicate CredentialsMatch(users: seq<User>, email: string, password: string, hash: string -> string)
  {
    var found := FindUserByEmail(users, email);
    found.Some? && ComparePassword(found.value.password, password, hash)
  }

  /** POST /login. */
  function Login(cfg: Config, users: seq<User>, email: string, password: string, hash: string -> string, now: int)
    : (r: Reply<AuthBody>)
    ensures r.Ok? <==> CredentialsMatch(users, email, password, hash)
    ensures r.Err? ==> r == Err(UNAUTHORIZED, INVALID_CREDENTIALS)
    ensures r.Ok? ==>
      var u := FindUserByEmail(users, email).value;
      && u in users && u.email == email
      && r.status == OK && r.value.Tokens?
      && Verify(r.value.accessToken, cfg.jwtSecret, now) == Success(Claims(u.id, Some(u.role)))
      && Verify(r.value.refreshToken, cfg.refreshSecret, now) == Success(Claims(u.id, None))
      && r.value.accessToken.iat * 1000 <= now < (r.value.accessToken.iat + 1) * 1000
      && r.value.accessToken.exp == r.value.accessToken.iat + ACCESS_TOKEN_TTL
      && r.value.refreshToken.iat * 1000 <= now < (r.value.refreshToken.iat + 1) * 1000
      && r.value.refreshToken.exp == r.value.refreshToken.iat + REFRESH_TOKEN_TTL
      && r.value.user == UserSummary(u.id, u.name, u.email, u.role)
  {
    match FindUserByEmail(users, email)
    case None => Err(UNAUTHORIZED, INVALID_CREDENTIALS)
    case Some(u) =>
      if !ComparePassword(u.password, password, hash) then Err(UNAUTHORIZED, INVALID_CREDENTIALS)
      else Ok(OK, Tokens(AccessTokenFor(cfg, u, now), RefreshTokenFor(cfg, u, now), Summary(u)))
  }

  /** POST /refresh. */
  function Refresh(cfg: Config, users: seq<User>, refreshToken: Option<Token>, now: int): (r: Reply<AuthBody>)
    ensures refreshToken.None? ==> r == Err(UNAUTHORIZED, REFRESH_TOKEN_REQUIRED)
    ensures refreshToken.Some? && Verify(refreshToken.value, cfg.refreshSecret, now).Failure? ==>
      r == Err(UNAUTHORIZED, INVALID_REFRESH_TOKEN)
    ensures refreshToken.Some? && FindUserById(users, refreshToken.value.claims.userId).None? ==>
      r == Err(UNAUTHORIZED, INVALID_REFRESH_TOKEN)
    ensures r.Ok? <==>
      && refreshToken.Some? && Verify(refreshToken.value, cfg.refreshSecret, now).Success?
      && FindUserById(users, refreshToken.value.claims.userId).Some?
    ensures r.Ok? ==>
      var u := FindUserById(users, refreshToken.value.claims.userId).value;
      && u in users
      && r.status == OK && r.value.Access?
      && Verify(r.value.accessToken, cfg.jwtSecret, now) == Success(Claims(u.id, Some(u.role)))
      && r.value.accessToken.iat * 1000 <= now < (r.value.accessToken.iat + 1) * 1000
      && r.value.accessToken.exp == r.value.accessToken.iat + ACCESS_TOKEN_TTL
  {
    if refreshToken.None? then Err(UNAUTHORIZED, REFRESH_TOKEN_REQUIRED)
    else match Verify(refreshToken.value, cfg.refreshSecret, now)
      case Failure(_) => Err(UNAUTHORIZED, INVALID_REFRESH_TOKEN)
      case Success(claims) =>
        match FindUserById(users, claims.userId)
        case None => Err(UNAUTHORIZED, INVALID_REFRESH_TOKEN)
        case Some(u) => Ok(OK, Access(AccessTokenFor(cfg, u, now)))
  }

  /** GET /profile, after the middleware has set `req.userId`. */
  function GetProfile(users: seq<User>, userId: Id): (r: Reply<AuthBody>)
    ensures r.Err? <==> FindUserById(users, userId).None?
    ensures r.Err? ==> r == Err(NOT_FOUND, USER_NOT_FOUND)
    ensures r.Ok? ==>
      && r.status == OK && r.value.Profile? && r.value.user.id == userId
      && r.value.user == Summary(FindUserById(users, userId).value)
  {
    match FindUserById(users, userId)
    case None => Err(NOT_FOUND, USER_NOT_FOUND)
    case Some(u) => Ok(OK, Profile(Summary(u)))
  }

  /** POST /logout: tokens are stateless, so the server only acknowledges. */
  function Logout(): (r: Reply<AuthBody>)
    ensures r.Ok? && r.status == OK && r.value.LoggedOut? && r.value.ack.success
    ensures r.value.ack.message == LOGGED_OUT
  {
    Ok(OK, LoggedOut(Ack(true, LOGGED_OUT)))
  }

  // ---------------------------------------------------------------- middleware

  /** The middleware's verdict: pass on to the route (`next()`) or reply 401. */
  datatype Gate = Next | Deny(status: int, message: string)

  /** The parts of an Express request the middleware reads and writes. */
  class AuthRequest {
    /** The `x-auth-token` header; an empty header reads as absent. */
    const token: Option<Token>
    var userId: Option<Id>
    var userRole: Option<Role>

    constructor (token: Option<Token>)
      ensures this.token == token && userId.None? && userRole.None?
    {
      this.token := token;
      userId := None;
      userRole := None;
    }
  }

  /** The auth middleware. */
  method AuthMiddleware(req: AuthRequest, cfg: Config, now: int) returns (g: Gate)
    modifies req
    ensures req.token.None? ==> g == Deny(UNAUTHORIZED, NO_TOKEN)
    ensures req.token.Some? && Verify(req.token.value, cfg.jwtSecret, now).Failure? ==>
      g == Deny(UNAUTHORIZED, TOKEN_NOT_VALID)
    ensures g.Next? <==> req.token.Some? && Verify(req.token.value, cfg.jwtSecret, now).Success?
    ensures g.Next? ==> req.userId == Some(req.token.value.claims.userId) && req.userRole == req.token.value.claims.role
    ensures g.Deny? ==> req.userId == old(req.userId) && req.userRole == old(req.userRole)
  {
    if req.token.None? {
      return Deny(UNAUTHORIZED, NO_TOKEN);
    }
    var decoded := Verify(req.token.value, cfg.jwtSecret, now);
    if decoded.Failure? {
      return Deny(UNAUTHORIZED, TOKEN_NOT_VALID);
    }
    req.userId := Some(decoded.value.userId);
    req.userRole := decoded.value.role;
    g := Next;
  }

  // ---------------------------------------------------------------- properties

  /** An unknown email and a wrong password get the same reply, so accounts cannot be probed. */
  lemma LoginFailuresIndistinguishable(cfg: Config, users: seq<User>, hash: string -> string, now: int,
                                       unknown: string, p1: string, known: string, wrong: string)
    requires FindUserByEmail(users, unknown).None?
    requires FindUserByEmail(users, known).Some?
    requires !ComparePassword(FindUserByEmail(users, known).value.password, wrong, hash)
    ensures Login(cfg, users, unknown, p1, hash, now) == Login(cfg, users, known, wrong, hash, now)
    ensures Login(cfg, users, unknown, p1, hash, now) == Err(UNAUTHORIZED, INVALID_CREDENTIALS)
  {
  }

  /** The access token from a login lasts one hour, counted from the whole second of issue. */
  lemma LoginAccessTokenLifetime(cfg: Config, users: seq<User>, email: string, password: string,
                                 hash: string -> string, now: int, later: int)
    requires Login(cfg, users, email, password, hash, now).Ok?
    ensures var access := Login(cfg, users, email, password, hash, now).value.accessToken;
      Verify(access, cfg.jwtSecret, later).Success? <==> later < ExpiryInstant(now, ACCESS_TOKEN_TTL)
  {
  }

  /** A refreshed access token lasts one hour, counted from the whole second of the refresh. */
  lemma RefreshAccessTokenLifetime(cfg: Config, users: seq<User>, refreshToken: Option<Token>, now: int, later: int)
    requires Refresh(cfg, users, refreshToken, now).Ok?
    ensures var access := Refresh(cfg, users, refreshToken, now).value.accessToken;
      Verify(access, cfg.jwtSecret, later).Success? <==> later < ExpiryInstant(now, ACCESS_TOKEN_TTL)
  {
  }

  /** A refresh token still works 6 days 23 hours after issue and no longer 7 days 1 hour after. */
  lemma RefreshTokenSevenDays(cfg: Config, u: User, issued: int)
    ensures Verify(RefreshTokenFor(cfg, u, issued), cfg.refreshSecret, issued + (6 * 24 + 23) * 3600 * 1000).Success?
    ensures Verify(RefreshTokenFor(cfg, u, issued), cfg.refreshSecret, issued + (7 * 24 + 1) * 3600 * 1000).Failure?
  {
    var e := ExpiryInstant(issued, REFRESH_TOKEN_TTL);
    TokenLifetime(cfg.refreshSecret, Claims(u.id, None), issued, REFRESH_TOKEN_TTL, issued + (6 * 24 + 23) * 3600 * 1000);
    TokenLifetime(cfg.refreshSecret, Claims(u.id, None), issued, REFRESH_TOKEN_TTL, issued + (7 * 24 + 1) * 3600 * 1000);
  }

  /**
   * A refresh reads the role from the live user record: if the role changed after login,
   * the new access token carries the new role.
   */
  lemma RefreshCarriesLiveRole(cfg: Config, before: seq<User>, after: seq<User>, email: string, password: string,
                               hash: string -> string, loginAt: int, refreshAt: int)
    requires Login(cfg, before, email, password, hash, loginAt).Ok?
    requires loginAt <= refreshAt < ExpiryInstant(loginAt, REFRESH_TOKEN_TTL)
    requires FindUserById(after, FindUserByEmail(before, email).value.id).Some?
    ensures var login := Login(cfg, before, email, password, hash, loginAt).value;
      var live := FindUserById(after, FindUserByEmail(before, email).value.id).value;
      var r := Refresh(cfg, after, Some(login.refreshToken), refreshAt);
      && r.Ok? && r.value.Access?
      && Verify(r.value.accessToken, cfg.jwtSecret, refreshAt) == Success(Claims(live.id, Some(live.role)))
  {
    var login := Login(cfg, before, email, password, hash, loginAt).value;
    TokenLifetime(cfg.refreshSecret, login.refreshToken.claims, loginAt, REFRESH_TOKEN_TTL, refreshAt);
  }

  /** With distinct secrets a refresh token never passes the middleware... */
  lemma RefreshTokenIsNotAnAccessToken(cfg: Config, u: User, issued: int, now: int)
    requires SecretsDistinct(cfg)
    ensures Verify(RefreshTokenFor(cfg, u, issued), cfg.jwtSecret, now) == Failure(InvalidSignature)
  {
  }

  /** ...and an access token is never accepted by the refresh route. */
  lemma AccessTokenIsNotARefreshToken(cfg: Config, users: seq<User>, u: User, issued: int, now: int)
    requires SecretsDistinct(cfg)
    ensures Refresh(cfg, users, Some(AccessTokenFor(cfg, u, issued)), now) == Err(UNAUTHORIZED, INVALID_REFRESH_TOKEN)
  {
  }

  /**
   * Login followed by a request carrying the access token: the middleware lets the
   * request through, with the user's id and role, until the token expires.
   */
  method LoginThenAuthorize(cfg: Config, users: seq<User>, email: string, password: string,
                            hash: string -> string, loginAt: int, requestAt: int)
    returns (g: Gate, userId: Option<Id>, userRole: Option<Role>)
    requires loginAt <= requestAt
    ensures !CredentialsMatch(users, email, password, hash) ==> g == Deny(UNAUTHORIZED, NO_TOKEN)
    ensures CredentialsMatch(users, email, password, hash) && requestAt < ExpiryInstant(loginAt, ACCESS_TOKEN_TTL) ==>
      var u := FindUserByEmail(users, email).value;
      g == Next && userId == Some(u.id) && userRole == Some(u.role)
    ensures CredentialsMatch(users, email, password, hash) && requestAt >= ExpiryInstant(loginAt, ACCESS_TOKEN_TTL) ==>
      g == Deny(UNAUTHORIZED, TOKEN_NOT_VALID)
  {
    var login := Login(cfg, users, email, password, hash, loginAt);
    var header := if login.Ok? then Some(login.value.accessToken) else None;
    var req := new AuthRequest(header);
    g := AuthMiddleware(req, cfg, requestAt);
    userId, userRole := req.userId, req.userRole;
  }

  /** With distinct secrets, presenting the refresh token from a login as access token is refused. */
  method RefreshTokenAsHeader(cfg: Config, users: seq<User>, email: string, password: string,
                              hash: string -> string, loginAt: int, requestAt: int)
    returns (g: Gate)
    requires SecretsDistinct(cfg)
    requires CredentialsMatch(users, email, password, hash)
    ensures g == Deny(UNAUTHORIZED, TOKEN_NOT_VALID)
  {
    var login := Login(cfg, users, email, password, hash, loginAt);
    var req := new AuthRequest(Some(login.value.refreshToken));
    g := AuthMiddleware(req, cfg, requestAt);
  }
}
