/**
 * The earlier snapshot of the authentication middleware (`Middleware`,
 * `Handler`): the same credential selection and scheme dispatch as
 * `AuthMiddleware`, without an admin gate.  Both snapshots declare the
 * same identifiers, so this one is a module of its own.
 */
module LegacyAuth {
  import opened Wrappers
  import opened Errors
  import opened Http
  import opened Text
  import opened Users
  import opened Configuration
  import opened Tokens
  import AuthMiddleware

  type Env = AuthMiddleware.Env
  type Served = AuthMiddleware.Served

  /** A middleware instance: its defaulted configuration. */
  datatype Middleware = Middleware(config: Settings)

  /** `Handler`: defaults the configuration in place and wraps it. */
  method Handler(config: Config, defaultSecretKey: Key) returns (m: Middleware)
    modifies config
    ensures config.Value() == WithDefaults(old(config.Value()), defaultSecretKey)
    ensures m == Middleware(config.Value())
  {
    var c := config.SetDefaults(defaultSecretKey);
    m := Middleware(c.Value());
  }

  /**
   * `basicHandler`, with a payload lacking ':' refused as a bad header
   * (the source indexes the missing half; see `BasicHandlerAsWritten`).
   * Whoever the store accepts is attached.
   */
  function BasicHandler(m: Middleware, env: Env, token: string): (res: Result<User, Error>)
    ensures env.base64(token).Err? ==> res == Err(Foreign(env.base64(token).error))
    ensures env.base64(token).Ok? && ':' !in env.base64(token).value ==>
      res == Err(Sentinel(BadAuthorizationHeader))
    ensures env.base64(token).Ok? && ':' in env.base64(token).value ==>
      res == m.config.userStore.validateCredentials(
        SplitFirst(env.base64(token).value, ':')[0], SplitFirst(env.base64(token).value, ':')[1])
  {
    match env.base64(token)
    case Err(msg) => Err(Foreign(msg))
    case Ok(payload) =>
      var creds := SplitFirst(payload, ':');
      if |creds| < 2 then Err(Sentinel(BadAuthorizationHeader))
      else m.config.userStore.validateCredentials(creds[0], creds[1])
  }

  /** The handler as the source writes it: a payload without ':' reaches an out-of-range index. */
  function BasicHandlerAsWritten(m: Middleware, env: Env, token: string): (o: AuthMiddleware.BasicOutcome)
    ensures o.IndexOutOfRange? <==> env.base64(token).Ok? && ':' !in env.base64(token).value
  {
    match env.base64(token)
    case Err(msg) => AuthMiddleware.Completed(Err(Foreign(msg)))
    case Ok(payload) =>
      var creds := SplitFirst(payload, ':');
      if |creds| < 2 then AuthMiddleware.IndexOutOfRange
      else AuthMiddleware.Completed(m.config.userStore.validateCredentials(creds[0], creds[1]))
  }

  /** `jwtHandler`: a non-expired token bound to this client (or to none), then the user it names. */
  function JwtHandler(m: Middleware, env: Env, r: Request, token: string): (res: Result<User, Error>)
    ensures ParseToken(m.config.secretKey, env.jwt, token, r.clientIP, false).Err? ==>
      res == Err(ParseToken(m.config.secretKey, env.jwt, token, r.clientIP, false).error)
    ensures ParseToken(m.config.secretKey, env.jwt, token, r.clientIP, false).Ok? ==>
      res == m.config.userStore.findUserByID(ParseToken(m.config.secretKey, env.jwt, token, r.clientIP, false).value.userID)
  {
    match ParseToken(m.config.secretKey, env.jwt, token, r.clientIP, false)
    case Err(err) => Err(err)
    case Ok(t) => m.config.userStore.findUserByID(t.userID)
  }

  /** `validateHeader`: exactly two fields, a scheme compared in lower case, and its handler. */
  function ValidateHeader(m: Middleware, env: Env, r: Request, auth: string): (res: Result<User, Error>)
    ensures auth != "" && |Fields(auth)| != 2 ==> res == Err(Sentinel(BadAuthorizationHeader))
  {
    if |auth| == 0 then Err(Sentinel(NoAuthorizationHeader))
    else
      var f := Fields(auth);
      if |f| != 2 then Err(Sentinel(BadAuthorizationHeader))
      else
        var scheme := ToLower(f[0]);
        if scheme == AuthMiddleware.SchemeBasic then BasicHandler(m, env, f[1])
        else if scheme == AuthMiddleware.SchemeBearer then JwtHandler(m, env, r, f[1])
        else Err(Sentinel(UnsupportedAuthScheme))
  }

  /** `authenticate`: the header when present, else a GET request's query token. */
  function Authenticate(m: Middleware, env: Env, r: Request): (res: Result<User, Error>)
    ensures r.authorization == "" && (r.verb != "GET" || QueryGet(r.query, m.config.tokenKey) == "") ==>
      res == Err(Sentinel(NoAuthorizationHeader))
  {
    if |r.authorization| > 0 then ValidateHeader(m, env, r, r.authorization)
    else if r.verb == "GET" && |QueryGet(r.query, m.config.tokenKey)| > 0 then
      JwtHandler(m, env, r, QueryGet(r.query, m.config.tokenKey))
    else Err(Sentinel(NoAuthorizationHeader))
  }

  /** `ServeHTTP`: the next handler runs exactly when authentication succeeds; otherwise the error handler. */
  function ServeHTTP(m: Middleware, env: Env, r: Request): (s: Served)
    requires m.config.errorHandler.Some?
    ensures s.NextCalled? <==> Authenticate(m, env, r).Ok?
    ensures s.NextCalled? ==> s.user == Authenticate(m, env, r).value
    ensures s.ErrorHandled? ==>
      && s.err == Authenticate(m, env, r).error
      && s.response == HandleError(m.config.errorHandler.value, r, s.err)
  {
    match Authenticate(m, env, r)
    case Ok(user) => AuthMiddleware.NextCalled(user)
    case Err(err) => AuthMiddleware.ErrorHandled(err, HandleError(m.config.errorHandler.value, r, err))
  }

  // ---------------------------------------------------------------------
  // Properties

  /**
   * The earlier snapshot decides every request as the later `RequireUser`
   * does: the later file only added the admin gate.
   */
  lemma SameAsRequireUser(config: Settings, env: Env, r: Request)
    ensures Authenticate(Middleware(config), env, r) ==
      AuthMiddleware.Authenticate(AuthMiddleware.Middleware(config, false), env, r)
    ensures config.errorHandler.Some? ==>
      ServeHTTP(Middleware(config), env, r) == AuthMiddleware.ServeHTTP(AuthMiddleware.Middleware(config, false), env, r)
  {
    var m := Middleware(config);
    var later := AuthMiddleware.Middleware(config, false);
    forall u: User ensures AuthMiddleware.ValidateUser(later, u) == Ok(u) {
    }
    if |r.authorization| > 0 {
      var f := Fields(r.authorization);
      if |f| == 2 {
        assert BasicHandler(m, env, f[1]) == AuthMiddleware.BasicHandler(later, env, f[1]);
        assert JwtHandler(m, env, r, f[1]) == AuthMiddleware.JwtHandler(later, env, r, f[1]);
      }
    }
  }

  /** A non-empty header decides alone; without one only a GET's non-empty query token is tried. */
  lemma CredentialSource(m: Middleware, env: Env, r: Request, query: map<string, seq<string>>)
    ensures r.authorization != "" ==>
      Authenticate(m, env, r) == ValidateHeader(m, env, r, r.authorization)
      && Authenticate(m, env, r.(query := query)) == Authenticate(m, env, r)
    ensures r.authorization == "" && r.verb == "GET" && QueryGet(r.query, m.config.tokenKey) != "" ==>
      Authenticate(m, env, r) == JwtHandler(m, env, r, QueryGet(r.query, m.config.tokenKey))
  {
  }

  /** Any casing of "basic" or "bearer" selects its handler; any other scheme is refused. */
  lemma SchemeDispatch(m: Middleware, env: Env, r: Request, scheme: string, credential: string)
    requires IsField(scheme) && IsField(credential)
    ensures var res := ValidateHeader(m, env, r, scheme + " " + credential);
      && (ToLower(scheme) == "basic" ==> res == BasicHandler(m, env, credential))
      && (ToLower(scheme) == "bearer" ==> res == JwtHandler(m, env, r, credential))
      && (ToLower(scheme) != "basic" && ToLower(scheme) != "bearer" ==> res == Err(Sentinel(UnsupportedAuthScheme)))
  {
    FieldsOfPair(scheme, credential);
  }

  /** The missing-colon finding in this snapshot: as written it panics, corrected it refuses the header. */
  lemma BasicHandlerColonFinding(m: Middleware, env: Env, token: string)
    ensures env.base64(token).Ok? && ':' !in env.base64(token).value ==>
      BasicHandlerAsWritten(m, env, token) == AuthMiddleware.IndexOutOfRange
      && BasicHandler(m, env, token) == Err(Sentinel(BadAuthorizationHeader))
    ensures !(env.base64(token).Ok? && ':' !in env.base64(token).value) ==>
      BasicHandlerAsWritten(m, env, token) == AuthMiddleware.Completed(BasicHandler(m, env, token))
  {
  }
}
