/**
 * The login endpoint (`LoginHandler`): it decodes credentials from a JSON
 * or form body, checks them with the user store and answers with a signed
 * token for the user.  Parsing the media type and decoding the body are
 * library calls, taken as given; so are the clock readings and the
 * client address.
 */
module Login {
  import opened Wrappers
  import opened Errors
  import opened Http
  import opened Users
  import opened Timestamps
  import opened Configuration
  import opened Tokens

  const ContentJSON: string := "application/json"

  /** The form media type (the constant is declared outside the modelled files). */
  const ContentForm: string := "application/x-www-form-urlencoded"

  /** `mime.ParseMediaType`, reduced to the media type, or None on a parse error. */
  type MediaTypeParser = string -> Option<string>

  /**
   * What a decoder makes of the body: a decode error, or the credential
   * fields it found (a field absent from the body is left as it was).
   */
  datatype Decoded = Malformed | Decoded(username: Option<string>, password: Option<string>)

  /** The body as each decoder sees it; `form` is None when `ParseForm` fails. */
  datatype Body = Body(json: Decoded, form: Option<Decoded>)

  datatype LoginResponse = LoginResponse(token: string, userID: string, userName: string, expiredAt: Time)

  /** What the handler sends: an error, or the token response. */
  datatype LoginOutcome = SentError(err: Error) | SentToken(response: LoginResponse)

  /**
   * `decodePayload`'s choice of decoder and the error it sends: a media
   * type that does not parse or is neither JSON nor form is unsupported,
   * a body its decoder rejects is malformed (a form that does not parse is
   * unsupported).
   */
  function SelectDecoding(contentType: string, parseMediaType: MediaTypeParser, body: Body): (r: Result<Decoded, Error>)
    ensures r.Ok? ==> r.value.Decoded?
    ensures r.Ok? ==> parseMediaType(contentType) in {Some(ContentJSON), Some(ContentForm)}
    ensures parseMediaType(contentType).None? ==> r == Err(Sentinel(UnsupportedContentType))
    ensures parseMediaType(contentType) == Some(ContentJSON) ==>
      r == if body.json.Malformed? then Err(Sentinel(MalformedContent)) else Ok(body.json)
    ensures parseMediaType(contentType) == Some(ContentForm) ==>
      r == if body.form.None? then Err(Sentinel(UnsupportedContentType))
           else if body.form.value.Malformed? then Err(Sentinel(MalformedContent))
           else Ok(body.form.value)
  {
    match parseMediaType(contentType)
    case None => Err(Sentinel(UnsupportedContentType))
    case Some(mediaType) =>
      if mediaType == ContentJSON then
        if body.json.Malformed? then Err(Sentinel(MalformedContent)) else Ok(body.json)
      else if mediaType == ContentForm then
        match body.form
        case None => Err(Sentinel(UnsupportedContentType))
        case Some(d) => if d.Malformed? then Err(Sentinel(MalformedContent)) else Ok(d)
      else Err(Sentinel(UnsupportedContentType))
  }

  /** A field after decoding: the decoded value if the body had one, else the old value. */
  function Overlay(old_: string, found: Option<string>): (v: string)
    ensures found.Some? ==> v == found.value
    ensures found.None? ==> v == old_
  {
    if found.Some? then found.value else old_
  }

  /** `Credentials`, which `decodePayload` fills in place. */
  class Credentials {
    var userName: string
    var password: string

    constructor ()
      ensures userName == "" && password == ""
    {
      userName, password := "", "";
    }

    /**
     * `decodePayload`: the fields the body carries overwrite.  On an error
     * the model writes nothing; the caller discards the credentials then.
     */
    method DecodePayload(contentType: string, parseMediaType: MediaTypeParser, body: Body)
      returns (err: Option<Error>)
      modifies this
      ensures SelectDecoding(contentType, parseMediaType, body).Err? ==>
        err == Some(SelectDecoding(contentType, parseMediaType, body).error)
        && userName == old(userName) && password == old(password)
      ensures SelectDecoding(contentType, parseMediaType, body).Ok? ==>
        var d := SelectDecoding(contentType, parseMediaType, body).value;
        err.None? && userName == Overlay(old(userName), d.username) && password == Overlay(old(password), d.password)
    {
      var mediaType := parseMediaType(contentType);
      if mediaType.None? {
        return Some(Sentinel(UnsupportedContentType));
      }
      var d: Decoded;
      if mediaType.value == ContentJSON {
        d := body.json;
      } else if mediaType.value == ContentForm {
        if body.form.None? {
          return Some(Sentinel(UnsupportedContentType));
        }
        d := body.form.value;
      } else {
        return Some(Sentinel(UnsupportedContentType));
      }
      if d.Malformed? {
        return Some(Sentinel(MalformedContent));
      }
      userName := Overlay(userName, d.username);
      password := Overlay(password, d.password);
      err := None;
    }
  }

  /** The token issued to a user at `issuedAt`, valid for `ttl` nanoseconds, bound to the client address. */
  function IssuedToken(user: User, issuedAt: Time, ttl: int, clientIP: string): (t: Token)
    ensures t.userID == user.id && t.userName == user.name && t.clientIP == clientIP
    ensures t.issuedAt == issuedAt
    ensures UnixNano(t.expiredAt) == UnixNano(issuedAt) + ttl
    ensures t.issuer == "" && t.domain == "" && t.claims.None?
  {
    Token(user.id, user.name, "", issuedAt, Add(issuedAt, ttl), "", clientIP, None)
  }

  /** `LoginHandler`: defaults the configuration in place; requests are then served by `Login`. */
  method LoginHandler(config: Config, defaultSecretKey: Key) returns (settings: Settings)
    modifies config
    ensures config.Value() == WithDefaults(old(config.Value()), defaultSecretKey)
    ensures settings == config.Value() && HasDefaults(settings)
  {
    var c := config.SetDefaults(defaultSecretKey);
    settings := c.Value();
    DefaultsFilled(old(config.Value()), defaultSecretKey);
  }

  /**
   * One login request.  `issuedAt` is the handler's clock reading,
   * `encodeNow` the one `Encode` takes for `iat`.
   */
  method Login(config: Settings, jwt: Jwt, r: Request, parseMediaType: MediaTypeParser, body: Body,
               issuedAt: Time, encodeNow: Time, hostIssuer: string)
    returns (o: LoginOutcome)
    requires config.signingMethod.Some?
    ensures SelectDecoding(r.contentType, parseMediaType, body).Err? ==>
      o == SentError(SelectDecoding(r.contentType, parseMediaType, body).error)
    ensures SelectDecoding(r.contentType, parseMediaType, body).Ok? ==>
      var d := SelectDecoding(r.contentType, parseMediaType, body).value;
      var checked := config.userStore.validateCredentials(Overlay("", d.username), Overlay("", d.password));
      && (checked.Err? ==> o == SentError(Caused(BadCredentials, Message(checked.error))))
      && (checked.Ok? ==>
            var t := IssuedToken(checked.value, issuedAt, config.tokenExpiration, r.clientIP);
            var signed := EncodeToken(EncodeClaims(t, encodeNow, hostIssuer), config, jwt);
            && (signed.Err? ==> o == SentError(signed.error))
            && (signed.Ok? ==> o == SentToken(LoginResponse(signed.value, checked.value.id, checked.value.name, t.expiredAt))))
  {
    var cred := new Credentials();
    var err := cred.DecodePayload(r.contentType, parseMediaType, body);
    if err.Some? {
      return SentError(err.value);
    }
    var checked := config.userStore.validateCredentials(cred.userName, cred.password);
    if checked.Err? {
      return SentError(WithCause(BadCredentials, Message(checked.error)));
    }
    var user := checked.value;
    var token := Token(user.id, user.name, "", issuedAt, Add(issuedAt, config.tokenExpiration), "", r.clientIP, None);
    var signed := Encode(token, config, jwt, encodeNow, hostIssuer);
    if signed.Err? {
      return SentError(signed.error);
    }
    o := SentToken(LoginResponse(signed.value, token.userID, token.userName, token.expiredAt));
  }

  // ---------------------------------------------------------------------
  // Properties

  /** With a non-negative lifetime a token never expires before it is issued. */
  lemma ExpiryNotBeforeIssue(user: User, issuedAt: Time, ttl: int, clientIP: string)
    requires ttl >= 0
    ensures var t := IssuedToken(user, issuedAt, ttl, clientIP);
      UnixNano(t.issuedAt) <= UnixNano(t.expiredAt) && Unix(t.issuedAt) <= Unix(t.expiredAt)
  {
    AddNotEarlier(issuedAt, ttl);
  }

  /**
   * An issued token, once its signature is accepted, authenticates the
   * same user from the same address: `parseToken` gives back the user's
   * id and name, the host as issuer and the address.
   */
  lemma IssuedTokenParses(config: Settings, jwt: Jwt, user: User, issuedAt: Time, encodeNow: Time,
                          hostIssuer: string, clientIP: string, s: string)
    requires config.signingMethod.Some?
    requires user.id != "" && hostIssuer != ""
    requires var t := IssuedToken(user, issuedAt, config.tokenExpiration, clientIP);
      && EncodeToken(EncodeClaims(t, encodeNow, hostIssuer), config, jwt) == Ok(s)
      && jwt.parse(s, config.secretKey, false) == Verified(EncodeClaims(t, encodeNow, hostIssuer))
    ensures ParseToken(config.secretKey, jwt, s, clientIP, false).Ok?
    ensures var t := ParseToken(config.secretKey, jwt, s, clientIP, false).value;
      t.userID == user.id && t.userName == user.name && t.issuer == hostIssuer && t.clientIP == clientIP
  {
    var t := IssuedToken(user, issuedAt, config.tokenExpiration, clientIP);
    EncodeParseRoundTrip(t, config, jwt, encodeNow, hostIssuer, s, clientIP, false);
  }
}
