/**
 * The stand-alone HTTP Basic authentication middleware (`Basic`,
 * `BasicNegroni`): a header that starts with "Basic ", decodes as base64
 * and holds a ':' is handed to the caller's `Validate`; the request goes
 * on when that says yes and to the unauthorized handler otherwise.
 */
module BasicAuth {
  import opened Wrappers
  import opened Http
  import opened Text

  /** The exact, case-sensitive prefix of a Basic authorization header. */
  const BasicScheme: string := "Basic "

  /** The unauthorized handler: the package's 401 response or the caller's handler. */
  datatype UnauthorizedHandler =
    | DefaultUnauthorizedHandler
    | CustomUnauthorizedHandler(serve: Request -> Response)

  datatype BasicConfig = BasicConfig(
    validate: (Request, string, string) -> bool,
    unauthorizedHandler: Option<UnauthorizedHandler>)

  /** The two adapters; each holds its own copy of the configuration. */
  datatype BasicMiddleware = GohttpBasicAuth(config: BasicConfig) | NegroniBasicAuth(config: BasicConfig)

  /** What a request leads to: the next handler, or the unauthorized handler's response. */
  datatype Outcome = NextServed | Unauthorized(response: Response)

  /** The configuration a constructor keeps: a missing unauthorized handler becomes the default one. */
  function WithDefaultHandler(config: BasicConfig): (c: BasicConfig)
    ensures c.unauthorizedHandler.Some?
    ensures config.unauthorizedHandler.Some? ==> c == config
    ensures config.unauthorizedHandler.None? ==> c.unauthorizedHandler == Some(DefaultUnauthorizedHandler)
    ensures c.validate == config.validate
  {
    if config.unauthorizedHandler.None? then config.(unauthorizedHandler := Some(DefaultUnauthorizedHandler))
    else config
  }

  /** `Basic`: the gohttp adapter over the defaulted copy. */
  function Basic(config: BasicConfig): (m: BasicMiddleware)
    ensures m.GohttpBasicAuth? && m.config == WithDefaultHandler(config)
  {
    GohttpBasicAuth(WithDefaultHandler(config))
  }

  /** `BasicNegroni`: the negroni adapter over the defaulted copy. */
  function BasicNegroni(config: BasicConfig): (m: BasicMiddleware)
    ensures m.NegroniBasicAuth? && m.config == WithDefaultHandler(config)
  {
    NegroniBasicAuth(WithDefaultHandler(config))
  }

  /** `defaultUnauthorizedHandler`: status 401 with its status text. */
  function DefaultUnauthorizedResponse(): (r: Response)
    ensures r.status == 401 && r.body == "Unauthorized\n"
  {
    HttpError(UnauthorizedText, StatusUnauthorized)
  }

  /** How far a header gets through the structural checks of `validateBasicAuth`. */
  datatype BasicCheck = NoBasicPrefix | BadBase64 | NoColon | Credentials(user: string, password: string)

  /**
   * The structural checks: the prefix, the decoding of what follows it,
   * and the split of the payload at its first ':'.
   */
  function CheckHeader(dec: Base64Decoder, header: string): (c: BasicCheck)
    ensures c.NoBasicPrefix? <==> !HasPrefix(header, BasicScheme)
    ensures c.BadBase64? <==> HasPrefix(header, BasicScheme) && dec(header[|BasicScheme|..]).Err?
    ensures c.NoColon? <==>
      HasPrefix(header, BasicScheme) && dec(header[|BasicScheme|..]).Ok? && ':' !in dec(header[|BasicScheme|..]).value
    ensures c.Credentials? ==>
      && HasPrefix(header, BasicScheme)
      && dec(header[|BasicScheme|..]) == Ok(c.user + ":" + c.password)
      && ':' !in c.user
  {
    if !HasPrefix(header, BasicScheme) then NoBasicPrefix
    else
      match dec(header[|BasicScheme|..])
      case Err(_) => BadBase64
      case Ok(payload) =>
        var creds := SplitFirst(payload, ':');
        if |creds| != 2 then NoColon
        else Credentials(creds[0], creds[1])
  }

  /** `validateBasicAuth`: the caller's `Validate` decides, once the structural checks pass. */
  function ValidateBasicAuth(config: BasicConfig, dec: Base64Decoder, r: Request): (ok: bool)
    ensures ok ==> CheckHeader(dec, r.authorization).Credentials?
    ensures CheckHeader(dec, r.authorization).Credentials? ==>
      (ok <==> config.validate(r, CheckHeader(dec, r.authorization).user, CheckHeader(dec, r.authorization).password))
  {
    match CheckHeader(dec, r.authorization)
    case Credentials(user, password) => config.validate(r, user, password)
    case _ => false
  }

  /** `basicAuthImpl`: the next handler exactly when validation succeeds, else the unauthorized handler. */
  function BasicAuthImpl(config: BasicConfig, dec: Base64Decoder, r: Request): (o: Outcome)
    requires config.unauthorizedHandler.Some?
    ensures o.NextServed? <==> ValidateBasicAuth(config, dec, r)
    ensures o.Unauthorized? && config.unauthorizedHandler.value.DefaultUnauthorizedHandler? ==>
      o.response == Response(401, "Unauthorized\n")
    ensures o.Unauthorized? && config.unauthorizedHandler.value.CustomUnauthorizedHandler? ==>
      o.response == config.unauthorizedHandler.value.serve(r)
  {
    if ValidateBasicAuth(config, dec, r) then NextServed
    else
      match config.unauthorizedHandler.value
      case DefaultUnauthorizedHandler => Unauthorized(DefaultUnauthorizedResponse())
      case CustomUnauthorizedHandler(serve) => Unauthorized(serve(r))
  }

  /** Both adapters' `ServeHTTP` run `basicAuthImpl` on their configuration. */
  function ServeHTTP(m: BasicMiddleware, dec: Base64Decoder, r: Request): (o: Outcome)
    requires m.config.unauthorizedHandler.Some?
    ensures o.NextServed? <==> ValidateBasicAuth(m.config, dec, r)
  {
    BasicAuthImpl(m.config, dec, r)
  }

  // ---------------------------------------------------------------------
  // Properties

  /**
   * A header built from a user without ':' and any password is handed to
   * `Validate` as exactly that pair: the password keeps its own colons.
   */
  lemma CredentialsRoundTrip(dec: Base64Decoder, token: string, user: string, password: string)
    requires ':' !in user
    requires dec(token) == Ok(user + ":" + password)
    ensures CheckHeader(dec, BasicScheme + token) == Credentials(user, password)
  {
    var header := BasicScheme + token;
    assert header[..|BasicScheme|] == BasicScheme;
    assert header[|BasicScheme|..] == token;
    SplitFirstJoin(user, ':', password);
    assert user + [':'] + password == user + ":" + password;
  }

  /** The prefix is case-sensitive: any header not starting with 'B' (a lower-case "basic " too) fails. */
  lemma PrefixIsCaseSensitive(config: BasicConfig, dec: Base64Decoder, r: Request)
    requires r.authorization == [] || r.authorization[0] != 'B'
    ensures !ValidateBasicAuth(config, dec, r)
  {
  }

  /**
   * `Validate` is consulted only once every structural check passed: any
   * other validator gives the same verdict on a header that fails one.
   */
  lemma ValidateOnlyAfterChecks(config: BasicConfig, dec: Base64Decoder, r: Request,
                                other: (Request, string, string) -> bool)
    requires !CheckHeader(dec, r.authorization).Credentials?
    ensures !ValidateBasicAuth(config, dec, r)
    ensures ValidateBasicAuth(config.(validate := other), dec, r) == ValidateBasicAuth(config, dec, r)
  {
  }

  /** Without an unauthorized handler of their own, both constructors answer a refusal with 401 "Unauthorized". */
  lemma DefaultRefusal(validate: (Request, string, string) -> bool, dec: Base64Decoder, r: Request)
    requires !ValidateBasicAuth(BasicConfig(validate, None), dec, r)
    ensures ServeHTTP(Basic(BasicConfig(validate, None)), dec, r) == Unauthorized(Response(401, "Unauthorized\n"))
    ensures ServeHTTP(BasicNegroni(BasicConfig(validate, None)), dec, r) == Unauthorized(Response(401, "Unauthorized\n"))
  {
  }

  /** A handler the caller supplied is kept and answers every refusal. */
  lemma CustomRefusal(validate: (Request, string, string) -> bool, serve: Request -> Response,
                      dec: Base64Decoder, r: Request)
    requires !ValidateBasicAuth(BasicConfig(validate, Some(CustomUnauthorizedHandler(serve))), dec, r)
    ensures ServeHTTP(Basic(BasicConfig(validate, Some(CustomUnauthorizedHandler(serve)))), dec, r) == Unauthorized(serve(r))
  {
  }

  /** The bob:b0b validator of the package's tests. */
  function BobConfig(): BasicConfig {
    BasicConfig((r, user, password) => user == "bob" && password == "b0b", None)
  }

  /** A request without credentials is refused with the default response. */
  lemma NoCredentialsRefused(dec: Base64Decoder)
    ensures ServeHTTP(Basic(BobConfig()), dec, Request("GET", "", "", map[], "")) ==
      Unauthorized(Response(401, "Unauthorized\n"))
  {
    assert CheckHeader(dec, "") == NoBasicPrefix;
  }

  /** The header "Basic " followed by the base64 of "bob:b0b" goes through. */
  lemma BobAccepted(dec: Base64Decoder)
    requires dec("Ym9iOmIwYg==") == Ok("bob:b0b")
    ensures ServeHTTP(Basic(BobConfig()), dec, Request("GET", BasicScheme + "Ym9iOmIwYg==", "", map[], "")) == NextServed
  {
    assert "bob" + ":" + "b0b" == "bob:b0b";
    assert ':' !in "bob";
    CredentialsRoundTrip(dec, "Ym9iOmIwYg==", "bob", "b0b");
  }
}
