/**
 * The authentication middleware (`RequireUser`, `RequireAdmin`): it picks a
 * credential (the Authorization header, else a token in the query of a
 * GET request), dispatches on the header's scheme, authenticates through
 * the user store and, for `RequireAdmin`, admits only administrators.
 * Request handling is a chain of early returns over fixed fields, so it
 * is modelled by functions; the accepted user stands for the request
 * context that carries it.
 */
module AuthMiddleware {
  import opened Wrappers
  import opened Errors
  import opened Http
  import opened Text
  import opened Users
  import opened Configuration
  import opened Tokens

  const SchemeBasic: string := "basic"
  const SchemeBearer: string := "bearer"

  /** A middleware instance: its (defaulted) configuration and whether it requires an administrator. */
  datatype Middleware = Middleware(config: Settings, requireAdmin: bool)

  /** The libraries a request reaches: the base64 decoder and the JWT library. */
  datatype Env = Env(base64: Base64Decoder, jwt: Jwt)

  /** What `ServeHTTP` does: run the next handler for a user, or the error handler. */
  datatype Served = NextCalled(user: User) | ErrorHandled(err: Error, response: Response)

  /** `RequireUser`: defaults the configuration in place, then builds a middleware without the admin gate. */
  method RequireUser(config: Config, defaultSecretKey: Key) returns (m: Middleware)
    modifies config
    ensures config.Value() == WithDefaults(old(config.Value()), defaultSecretKey)
    ensures m == Middleware(config.Value(), false)
  {
    var c := config.SetDefaults(defaultSecretKey);
    m := Middleware(c.Value(), false);
  }

  /** `RequireAdmin`: the same, with the admin gate. */
  method RequireAdmin(config: Config, defaultSecretKey: Key) returns (m: Middleware)
    modifies config
    ensures config.Value() == WithDefaults(old(config.Value()), defaultSecretKey)
    ensures m == Middleware(config.Value(), true)
  {
    var c := config.SetDefaults(defaultSecretKey);
    m := Middleware(c.Value(), true);
  }

  /** `checkUser`: only an admin-requiring instance rejects, and only non-administrators. */
  function CheckUser(m: Middleware, user: User): (err: Option<Error>)
    ensures err.Some? <==> m.requireAdmin && !user.admin
    ensures err.Some? ==> err.value == Sentinel(NotAdmin)
  {
    if m.requireAdmin && !user.admin then Some(Sentinel(NotAdmin)) else None
  }

  /** `validateUser`: the user is attached unchanged when the gate lets it through. */
  function ValidateUser(m: Middleware, user: User): (res: Result<User, Error>)
    ensures res.Ok? <==> !m.requireAdmin || user.admin
    ensures res.Ok? ==> res.value == user
    ensures res.Err? ==> res.error == Sentinel(NotAdmin)
  {
    match CheckUser(m, user)
    case Some(err) => Err(err)
    case None => Ok(user)
  }

  /**
   * `basicHandler`, with a payload lacking ':' refused as a bad header
   * (the source indexes the missing half; see `BasicHandlerAsWritten`).
   */
  function BasicHandler(m: Middleware, env: Env, token: string): (res: Result<User, Error>)
    ensures env.base64(token).Err? ==> res == Err(Foreign(env.base64(token).error))
    ensures env.base64(token).Ok? && ':' !in env.base64(token).value ==>
      res == Err(Sentinel(BadAuthorizationHeader))
    ensures env.base64(token).Ok? && ':' in env.base64(token).value ==>
      res == (match m.config.userStore.validateCredentials(
                      SplitFirst(env.base64(token).value, ':')[0], SplitFirst(env.base64(token).value, ':')[1])
              case Err(e) => Err(e)
              case Ok(u) => ValidateUser(m, u))
    ensures res.Ok? ==>
      && env.base64(token).Ok? && ':' in env.base64(token).value
      && m.config.userStore.validateCredentials(
           SplitFirst(env.base64(token).value, ':')[0], SplitFirst(env.base64(token).value, ':')[1]) == Ok(res.value)
      && (m.requireAdmin ==> res.value.admin)
  {
    match env.base64(token)
    case Err(msg) => Err(Foreign(msg))
    case Ok(payload) =>
      var creds := SplitFirst(payload, ':');
      if |creds| < 2 then Err(Sentinel(BadAuthorizationHeader))
      else
        match m.config.userStore.validateCredentials(creds[0], creds[1])
        case Err(err) => Err(err)
        case Ok(user) => ValidateUser(m, user)
  }

  /** The handler as the source writes it: a payload without ':' reaches an out-of-range index. */
  datatype BasicOutcome = Completed(res: Result<User, Error>) | IndexOutOfRange

  function BasicHandlerAsWritten(m: Middleware, env: Env, token: string): (o: BasicOutcome)
    ensures o.IndexOutOfRange? <==> env.base64(token).Ok? && ':' !in env.base64(token).value
  {
    match env.base64(token)
    case Err(msg) => Completed(Err(Foreign(msg)))
    case Ok(payload) =>
      var creds := SplitFirst(payload, ':');
      if |creds| < 2 then IndexOutOfRange
      else
        match m.config.userStore.validateCredentials(creds[0], creds[1])
        case Err(err) => Completed(Err(err))
        case Ok(user) => Completed(ValidateUser(m, user))
  }

  /**
   * `jwtHandler`: a token that parses without allowing expiry and is bound
   * to this client (or to none), then the user it names.
   */
  function JwtHandler(m: Middleware, env: Env, r: Request, token: string): (res: Result<User, Error>)
    ensures ParseToken(m.config.secretKey, env.jwt, token, r.clientIP, false).Err? ==>
      res == Err(ParseToken(m.config.secretKey, env.jwt, token, r.clientIP, false).error)
    ensures ParseToken(m.config.secretKey, env.jwt, token, r.clientIP, false).Ok? ==>
      res == (match m.config.userStore.findUserByID(ParseToken(m.config.secretKey, env.jwt, token, r.clientIP, false).value.userID)
              case Err(e) => Err(e)
              case Ok(u) => ValidateUser(m, u))
    ensures res.Ok? ==>
      && ParseToken(m.config.secretKey, env.jwt, token, r.clientIP, false).Ok?
      && m.config.userStore.findUserByID(ParseToken(m.config.secretKey, env.jwt, token, r.clientIP, false).value.userID)
           == Ok(res.value)
      && (m.requireAdmin ==> res.value.admin)
  {
    match ParseToken(m.config.secretKey, env.jwt, token, r.clientIP, false)
    case Err(err) => Err(err)
    case Ok(t) =>
      match m.config.userStore.findUserByID(t.userID)
      case Err(err) => Err(err)
      case Ok(user) => ValidateUser(m, user)
  }

  /** `validateHeader`: exactly two fields, a scheme compared in lower case, and its handler. */
  function ValidateHeader(m: Middleware, env: Env, r: Request, auth: string): (res: Result<User, Error>)
    ensures res.Ok? && m.requireAdmin ==> res.value.admin
  {
    if |auth| == 0 then Err(Sentinel(NoAuthorizationHeader))
    else
      var f := Fields(auth);
      if |f| != 2 then Err(Sentinel(BadAuthorizationHeader))
      else
        var scheme := ToLower(f[0]);
        if scheme == SchemeBasic then BasicHandler(m, env, f[1])
        else if scheme == SchemeBearer then JwtHandler(m, env, r, f[1])
        else Err(Sentinel(UnsupportedAuthScheme))
  }

  /** `authenticate`: the header when present, else a GET request's query token. */
  function Authenticate(m: Middleware, env: Env, r: Request): (res: Result<User, Error>)
    ensures res.Ok? && m.requireAdmin ==> res.value.admin
    ensures r.authorization == "" && (r.verb != "GET" || QueryGet(r.query, m.config.tokenKey) == "") ==>
      res == Err(Sentinel(NoAuthorizationHeader))
  {
    if |r.authorization| > 0 then ValidateHeader(m, env, r, r.authorization)
    else if r.verb == "GET" && |QueryGet(r.query, m.config.tokenKey)| > 0 then
      JwtHandler(m, env, r, QueryGet(r.query, m.config.tokenKey))
    else Err(Sentinel(NoAuthorizationHeader))
  }

  /** `ServeHTTP`: the next handler runs exactly when authentication succeeds; otherwise the error handler. */
  function ServeHTTP(m: Middleware, env: Env, r: Request): (s: Served)
    requires m.config.errorHandler.Some?
    ensures s.NextCalled? <==> Authenticate(m, env, r).Ok?
    ensures s.NextCalled? ==> s.user == Authenticate(m, env, r).value
    ensures s.ErrorHandled? ==>
      && s.err == Authenticate(m, env, r).error
      && s.response == HandleError(m.config.errorHandler.value, r, s.err)
  {
    match Authenticate(m, env, r)
    case Ok(user) => NextCalled(user)
    case Err(err) => ErrorHandled(err, HandleError(m.config.errorHandler.value, r, err))
  }

  // ---------------------------------------------------------------------
  // Credential source

  /** A non-empty header decides alone: the query is never consulted. */
  lemma HeaderTakesPrecedence(m: Middleware, env: Env, r: Request, query: map<string, seq<string>>)
    requires r.authorization != ""
    ensures Authenticate(m, env, r) == ValidateHeader(m, env, r, r.authorization)
    ensures Authenticate(m, env, r.(query := query)) == Authenticate(m, env, r)
  {
  }

  /** Without a header, only a non-empty query token of a GET request is tried, and as a bearer token. */
  lemma QueryTokenOnlyForGet(m: Middleware, env: Env, r: Request)
    requires r.authorization == ""
    ensures r.verb != "GET" ==> Authenticate(m, env, r) == Err(Sentinel(NoAuthorizationHeader))
    ensures QueryGet(r.query, m.config.tokenKey) == "" ==> Authenticate(m, env, r) == Err(Sentinel(NoAuthorizationHeader))
    ensures r.verb == "GET" && QueryGet(r.query, m.config.tokenKey) != "" ==>
      Authenticate(m, env, r) == JwtHandler(m, env, r, QueryGet(r.query, m.config.tokenKey))
    ensures r.verb == "GET" && IsField(QueryGet(r.query, m.config.tokenKey)) ==>
      Authenticate(m, env, r) == ValidateHeader(m, env, r, "Bearer " + QueryGet(r.query, m.config.tokenKey))
  {
    var token := QueryGet(r.query, m.config.tokenKey);
    if r.verb == "GET" && token != "" && IsField(token) {
      assert "Bearer " + token == "Bearer" + " " + token;
      FieldsOfPair("Bearer", token);
      LowerIsBasic("Bearer");
      LowerIsBearer("Bearer");
    }
  }

  // ---------------------------------------------------------------------
  // Header parsing and scheme dispatch

  /** A header that is not exactly two fields is refused before any scheme is looked at. */
  lemma MalformedHeaderRefused(m: Middleware, env: Env, r: Request, auth: string)
    requires auth != "" && |Fields(auth)| != 2
    ensures ValidateHeader(m, env, r, auth) == Err(Sentinel(BadAuthorizationHeader))
  {
  }

  /**
   * A scheme and a credential: any casing of "basic" goes to the basic
   * handler, any casing of "bearer" to the token handler, anything else is
   * an unsupported scheme.
   */
  lemma SchemeDispatch(m: Middleware, env: Env, r: Request, scheme: string, credential: string)
    requires IsField(scheme) && IsField(credential)
    ensures var res := ValidateHeader(m, env, r, scheme + " " + credential);
      && ((|scheme| == 5 && scheme[0] in "bB" && scheme[1] in "aA" && scheme[2] in "sS"
           && scheme[3] in "iI\U{130}" && scheme[4] in "cC")
          ==> res == BasicHandler(m, env, credential))
      && ((|scheme| == 6 && scheme[0] in "bB" && scheme[1] in "eE" && scheme[2] in "aA"
           && scheme[3] in "rR" && scheme[4] in "eE" && scheme[5] in "rR")
          ==> res == JwtHandler(m, env, r, credential))
      && (ToLower(scheme) != "basic" && ToLower(scheme) != "bearer" ==> res == Err(Sentinel(UnsupportedAuthScheme)))
  {
    FieldsOfPair(scheme, credential);
    LowerIsBasic(scheme);
    LowerIsBearer(scheme);
  }

  /**
   * No custom validator is ever consulted: changing it changes nothing, so
   * a scheme other than basic and bearer is always refused.
   */
  lemma CustomValidatorIgnored(m: Middleware, env: Env, r: Request, v: Option<CustomValidator>)
    ensures Authenticate(m.(config := m.config.(validateCustom := v)), env, r) == Authenticate(m, env, r)
  {
  }

  // ---------------------------------------------------------------------
  // The admin gate

  /**
   * `RequireAdmin` accepts exactly the administrators `RequireUser` accepts,
   * refuses the other users it accepts with `errNotAdmin`, and fails
   * alike on every other request.
   */
  lemma AdminGateFilters(config: Settings, env: Env, r: Request)
    ensures var user := Authenticate(Middleware(config, false), env, r);
      var admin := Authenticate(Middleware(config, true), env, r);
      && (user.Err? ==> admin == user)
      && (user.Ok? && user.value.admin ==> admin == user)
      && (user.Ok? && !user.value.admin ==> admin == Err(Sentinel(NotAdmin)))
  {
  }

  // ---------------------------------------------------------------------
  // The missing-colon finding

  /**
   * A decoded payload without ':' makes the handler as written index past
   * the end of the split; the corrected handler refuses the header.  With
   * a ':' the two agree.
   */
  lemma BasicHandlerColonFinding(m: Middleware, env: Env, token: string)
    ensures env.base64(token).Ok? && ':' !in env.base64(token).value ==>
      BasicHandlerAsWritten(m, env, token) == IndexOutOfRange
      && BasicHandler(m, env, token) == Err(Sentinel(BadAuthorizationHeader))
    ensures !(env.base64(token).Ok? && ':' !in env.base64(token).value) ==>
      BasicHandlerAsWritten(m, env, token) == Completed(BasicHandler(m, env, token))
  {
  }

  /** A "Basic" header hands its credential to the basic handler. */
  lemma BasicSchemeSelected(m: Middleware, env: Env, r: Request, credential: string)
    requires IsField(credential)
    ensures ValidateHeader(m, env, r, "Basic " + credential) == BasicHandler(m, env, credential)
  {
    assert "Basic " + credential == "Basic" + " " + credential;
    FieldsOfPair("Basic", credential);
    LowerIsBasic("Basic");
  }

  /** "Basic Ym9i" carries the base64 of "bob", which has no ':'. */
  lemma BasicWithoutColonExample(m: Middleware, env: Env, r: Request)
    requires env.base64("Ym9i") == Ok("bob")
    ensures BasicHandlerAsWritten(m, env, "Ym9i") == IndexOutOfRange
    ensures ValidateHeader(m, env, r, "Basic Ym9i") == Err(Sentinel(BadAuthorizationHeader))
  {
    BasicSchemeSelected(m, env, r, "Ym9i");
    assert "Basic " + "Ym9i" == "Basic Ym9i";
    assert ':' !in "bob";
    BasicHandlerColonFinding(m, env, "Ym9i");
  }

  // ---------------------------------------------------------------------
  // Two requests against a store holding bob with password b0b

  function BobStore(bob: User): UserStore {
    UserStore(
      (name, password) => if name == "bob" && password == "b0b" then Ok(bob) else Err(Foreign("user not found")),
      id => if id == bob.id then Ok(bob) else Err(Foreign("user not found")))
  }

  /** A GET without credentials gets the default 401 response, with no user admitted. */
  lemma NoCredentialsUnauthorized(bob: User, env: Env, key: Key)
    ensures var m := Middleware(WithDefaults(Settings(None, None, "", None, None, BobStore(bob), 0), key), false);
      ServeHTTP(m, env, Request("GET", "", "", map[], "127.0.0.1")) ==
        ErrorHandled(Sentinel(NoAuthorizationHeader),
                     Response(401, "Unauthorized: Authorization header is not set\n"))
  {
    var m := Middleware(WithDefaults(Settings(None, None, "", None, None, BobStore(bob), 0), key), false);
    var r := Request("GET", "", "", map[], "127.0.0.1");
    assert m.config.errorHandler == Some(DefaultErrorHandler);
    assert QueryGet(r.query, m.config.tokenKey) == "";
    assert Authenticate(m, env, r) == Err(Sentinel(NoAuthorizationHeader));
    var err := Sentinel(NoAuthorizationHeader);
    assert Message(err) == "Authorization header is not set";
    assert "Unauthorized: " + Message(err) + "\n" == "Unauthorized: Authorization header is not set\n";
    assert ServeHTTP(m, env, r) == ErrorHandled(err, DefaultErrorResponse(Some(err)));
  }

  lemma BobHeaderFields()
    ensures Fields("Basic Ym9iOmIwYg==") == ["Basic", "Ym9iOmIwYg=="]
  {
    assert "Basic Ym9iOmIwYg==" == "Basic" + " " + "Ym9iOmIwYg==";
    FieldsOfPair("Basic", "Ym9iOmIwYg==");
  }

  lemma BobCredentialsSplit()
    ensures SplitFirst("bob:b0b", ':') == ["bob", "b0b"]
  {
    assert IndexOf("bob:b0b", ':') == Some(3);
    assert "bob:b0b"[..3] == "bob" && "bob:b0b"[4..] == "b0b";
  }

  /** Basic credentials bob:b0b reach the next handler with bob. */
  lemma ValidCredentialsAccepted(bob: User, jwt: Jwt, key: Key)
    ensures var dec: Base64Decoder := s => if s == "Ym9iOmIwYg==" then Ok("bob:b0b") else Err("illegal base64 data");
      var m := Middleware(WithDefaults(Settings(None, None, "", None, None, BobStore(bob), 0), key), false);
      ServeHTTP(m, Env(dec, jwt), Request("GET", "Basic Ym9iOmIwYg==", "", map[], "127.0.0.1")) == NextCalled(bob)
  {
    var dec: Base64Decoder := s => if s == "Ym9iOmIwYg==" then Ok("bob:b0b") else Err("illegal base64 data");
    var m := Middleware(WithDefaults(Settings(None, None, "", None, None, BobStore(bob), 0), key), false);
    var env := Env(dec, jwt);
    var header := "Basic Ym9iOmIwYg==";
    var r := Request("GET", header, "", map[], "127.0.0.1");
    BobHeaderFields();
    BobCredentialsSplit();
    LowerIsBasic("Basic");
    assert env.base64("Ym9iOmIwYg==") == Ok("bob:b0b");
    assert m.config.userStore.validateCredentials("bob", "b0b") == Ok(bob);
    assert BasicHandler(m, env, "Ym9iOmIwYg==") == Ok(bob);
    assert ValidateHeader(m, env, r, header) == Ok(bob);
  }
}
