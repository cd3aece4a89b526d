/**
 * Session tokens: `Token.Encode` builds the claim map and has it signed;
 * `parseToken` checks a signed string and rebuilds a `Token` from its
 * claims.  Signing and signature checking belong to the JWT library and
 * are taken as given (the `Jwt` parameter); so are the clock reading and
 * the host name used as default issuer.
 */
module Tokens {
  import opened Wrappers
  import opened Errors
  import opened Timestamps
  import opened Claims
  import opened Configuration

  datatype Token = Token(
    userID: string,
    userName: string,
    domain: string,
    issuedAt: Time,
    expiredAt: Time,
    issuer: string,
    clientIP: string,
    claims: Option<ClaimMap>)

  datatype SignResult = Signed(text: string) | SignFailed(cause: string)

  /** What the library's `ParseWithClaims` reports: an error, a token it marks invalid, or its claims. */
  datatype ParseOutcome = Malformed(cause: string) | NotValid | Verified(claims: ClaimMap)

  /**
   * The JWT library.  `sign` is `NewWithClaims(method, claims).SignedString(key)`;
   * `parse(text, key, skipClaimsValidation)` is `ParseWithClaims` with a key
   * function returning `key`; expiry is among the claims it validates unless
   * told to skip them.
   */
  datatype Jwt = Jwt(
    sign: (ClaimMap, SigningMethod, Option<Key>) -> SignResult,
    parse: (string, Option<Key>, bool) -> ParseOutcome)

  const StandardClaims: set<string> := {"iss", "iat", "user_id", "user_name", "domain", "exp"}

  /** The issuer written into a token: its own, else the host's identity. */
  function IssuerOf(t: Token, hostIssuer: string): (iss: string)
    ensures t.issuer != "" ==> iss == t.issuer
    ensures t.issuer == "" ==> iss == hostIssuer
  {
    if |t.issuer| == 0 then hostIssuer else t.issuer
  }

  /** The caller's custom claims; a nil map contributes nothing. */
  function CustomClaims(t: Token): ClaimMap {
    if t.claims.Some? then t.claims.value else map[]
  }

  /**
   * The claim map `Encode` hands to the signer, `now` being the clock
   * reading it takes: custom claims first, standard claims written over
   * them, and `aud` when a client address is bound.
   */
  function EncodeClaims(t: Token, now: Time, hostIssuer: string): (c: ClaimMap)
    ensures StandardClaims <= c.Keys
    ensures "aud" in c <==> t.clientIP != "" || "aud" in CustomClaims(t)
    ensures c["user_id"] == Str(t.userID) && c["exp"] == Int64(Unix(t.expiredAt))
  {
    var withStandard := CustomClaims(t)
      ["iss" := Str(IssuerOf(t, hostIssuer))]
      ["iat" := Int64(Unix(now))]
      ["user_id" := Str(t.userID)]
      ["user_name" := Str(t.userName)]
      ["domain" := Str(t.domain)]
      ["exp" := Int64(Unix(t.expiredAt))];
    if |t.clientIP| > 0 then withStandard["aud" := Str(t.clientIP)] else withStandard
  }

  /** `encodeToken`: a signing failure becomes `ErrEncodeTokenFailed` with the cause. */
  function EncodeToken(claims: ClaimMap, config: Settings, jwt: Jwt): (r: Result<string, Error>)
    requires config.signingMethod.Some?
    ensures jwt.sign(claims, config.signingMethod.value, config.secretKey).Signed? ==>
      r == Ok(jwt.sign(claims, config.signingMethod.value, config.secretKey).text)
    ensures jwt.sign(claims, config.signingMethod.value, config.secretKey).SignFailed? ==>
      r == Err(Caused(EncodeTokenFailed, jwt.sign(claims, config.signingMethod.value, config.secretKey).cause))
  {
    match jwt.sign(claims, config.signingMethod.value, config.secretKey)
    case Signed(text) => Ok(text)
    case SignFailed(cause) => Err(WithCause(EncodeTokenFailed, cause))
  }

  /** `Token.Encode`: copies the custom claims, writes the standard ones, signs. */
  method Encode(t: Token, config: Settings, jwt: Jwt, now: Time, hostIssuer: string)
    returns (r: Result<string, Error>)
    requires config.signingMethod.Some?
    ensures r == EncodeToken(EncodeClaims(t, now, hostIssuer), config, jwt)
  {
    var issuer := t.issuer;
    if |issuer| == 0 {
      issuer := hostIssuer;
    }
    var claims: ClaimMap := map[];
    if t.claims.Some? {
      var custom := t.claims.value;
      var pending := custom.Keys;
      while pending != {}
        invariant pending <= custom.Keys
        invariant claims == map k | k in custom.Keys - pending :: custom[k]
        decreases pending
      {
        var k :| k in pending;
        claims := claims[k := custom[k]];
        pending := pending - {k};
      }
      assert claims == custom;
    }
    claims := claims["iss" := Str(issuer)];
    claims := claims["iat" := Int64(Unix(now))];
    claims := claims["user_id" := Str(t.userID)];
    claims := claims["user_name" := Str(t.userName)];
    claims := claims["domain" := Str(t.domain)];
    claims := claims["exp" := Int64(Unix(t.expiredAt))];
    if |t.clientIP| > 0 {
      claims := claims["aud" := Str(t.clientIP)];
    }
    r := EncodeToken(claims, config, jwt);
  }

  /**
   * The library's `MapClaims.VerifyIssuer(cmp, required)`: an empty or
   * non-string `iss` passes only when not required; otherwise it must
   * equal `cmp`.
   */
  function VerifyIssuer(claims: ClaimMap, cmp: string, required: bool): (ok: bool)
    ensures ok && required ==> "iss" in claims && claims["iss"] == Str(cmp) && cmp != ""
    ensures GetString(claims, "iss") == "" ==> (ok <==> !required)
    ensures "iss" in claims && claims["iss"] == Str(cmp) && cmp != "" ==> ok
  {
    var iss := GetString(claims, "iss");
    if iss == "" then !required else iss == cmp
  }

  /**
   * `parseToken`: signature and structure first, then issuer, client
   * address, user id and expiry, each failing on its own error; a missing
   * `iat` becomes the zero time and custom claims are not carried over.
   */
  function ParseToken(secretKey: Option<Key>, jwt: Jwt, tokenString: string,
                      expectedAudience: string, allowExpired: bool): (r: Result<Token, Error>)
    ensures jwt.parse(tokenString, secretKey, allowExpired).Malformed? ==>
      r == Err(Caused(InvalidToken, jwt.parse(tokenString, secretKey, allowExpired).cause))
    ensures jwt.parse(tokenString, secretKey, allowExpired).NotValid? ==> r == Err(Sentinel(InvalidToken))
    ensures r.Ok? ==> jwt.parse(tokenString, secretKey, allowExpired).Verified?
    ensures r.Ok? ==>
      var c := jwt.parse(tokenString, secretKey, allowExpired).claims;
      && r.value.userID == GetString(c, "user_id") && r.value.userID != ""
      && r.value.issuer == GetString(c, "iss") && r.value.issuer != ""
      && r.value.clientIP == GetString(c, "aud")
      && (expectedAudience == "" || r.value.clientIP == "" || r.value.clientIP == expectedAudience)
      && GetTime(c, "exp") == Some(r.value.expiredAt)
      && r.value.issuedAt == GetTime(c, "iat").GetOr(ZeroTime)
      && r.value.userName == GetString(c, "user_name")
      && r.value.domain == GetString(c, "domain")
      && r.value.claims.None?
  {
    match jwt.parse(tokenString, secretKey, allowExpired)
    case Malformed(cause) => Err(WithCause(InvalidToken, cause))
    case NotValid => Err(Sentinel(InvalidToken))
    case Verified(claims) =>
      var issuer := GetString(claims, "iss");
      if !VerifyIssuer(claims, issuer, true) then Err(Sentinel(InvalidIssuer))
      else
        var clientIP := GetString(claims, "aud");
        if |expectedAudience| > 0 && |clientIP| > 0 && clientIP != expectedAudience then
          Err(Sentinel(InvalidClientIP))
        else
          var userID := GetString(claims, "user_id");
          if |userID| == 0 then Err(Sentinel(MissingUserID))
          else
            var exp := GetTime(claims, "exp");
            if exp.None? then Err(Sentinel(MissingExp))
            else
              var issuedAt := GetTime(claims, "iat").GetOr(ZeroTime);
              Ok(Token(userID, GetString(claims, "user_name"), GetString(claims, "domain"),
                       issuedAt, exp.value, issuer, clientIP, None))
  }

  // ---------------------------------------------------------------------
  // Properties of Encode

  /**
   * Standard claims override custom claims of the same name; other custom
   * claims survive; `aud` is the bound client address when there is one
   * and is otherwise whatever custom `aud` there was.
   */
  lemma StandardClaimsWin(t: Token, now: Time, hostIssuer: string)
    ensures var c := EncodeClaims(t, now, hostIssuer);
      && c.Keys == CustomClaims(t).Keys + StandardClaims + (if |t.clientIP| > 0 then {"aud"} else {})
      && c["iss"] == Str(IssuerOf(t, hostIssuer))
      && c["iat"] == Int64(Unix(now))
      && c["user_id"] == Str(t.userID)
      && c["user_name"] == Str(t.userName)
      && c["domain"] == Str(t.domain)
      && c["exp"] == Int64(Unix(t.expiredAt))
      && (|t.clientIP| > 0 ==> c["aud"] == Str(t.clientIP))
      && (forall k | k in CustomClaims(t) && k !in StandardClaims && (k != "aud" || |t.clientIP| == 0) ::
            c[k] == CustomClaims(t)[k])
  {
  }

  /** `iat` comes from the clock: the token's own issued-at time is never read. */
  lemma IssuedAtIgnored(t: Token, other: Time, now: Time, hostIssuer: string)
    ensures EncodeClaims(t.(issuedAt := other), now, hostIssuer) == EncodeClaims(t, now, hostIssuer)
  {
  }

  /** The client address a token encoded from `t` carries. */
  function BoundAddress(t: Token): (a: string)
    ensures t.clientIP != "" ==> a == t.clientIP
  {
    if |t.clientIP| > 0 then t.clientIP else GetString(CustomClaims(t), "aud")
  }

  /**
   * The `aud` claim an encoded token carries is its bound address: the
   * client address when there is one, else whatever custom `aud` it had.
   */
  lemma BoundAddressIsAud(t: Token, now: Time, hostIssuer: string)
    ensures GetString(EncodeClaims(t, now, hostIssuer), "aud") == BoundAddress(t)
    ensures t.clientIP != "" ==> EncodeClaims(t, now, hostIssuer)["aud"] == Str(t.clientIP)
  {
  }

  // ---------------------------------------------------------------------
  // Properties of parseToken

  /**
   * The checks after signature verification run in a fixed order: each
   * error is returned exactly when its own check fails and every earlier
   * one passed.
   */
  lemma ParseChecksInOrder(secretKey: Option<Key>, jwt: Jwt, s: string, expected: string,
                           allowExpired: bool, c: ClaimMap)
    requires jwt.parse(s, secretKey, allowExpired) == Verified(c)
    ensures var r := ParseToken(secretKey, jwt, s, expected, allowExpired);
      var issuerOk := GetString(c, "iss") != "";
      var addressOk := expected == "" || GetString(c, "aud") == "" || GetString(c, "aud") == expected;
      var userOk := GetString(c, "user_id") != "";
      && (r == Err(Sentinel(InvalidIssuer)) <==> !issuerOk)
      && (r == Err(Sentinel(InvalidClientIP)) <==> issuerOk && !addressOk)
      && (r == Err(Sentinel(MissingUserID)) <==> issuerOk && addressOk && !userOk)
      && (r == Err(Sentinel(MissingExp)) <==> issuerOk && addressOk && userOk && GetTime(c, "exp").None?)
      && (r.Ok? <==> issuerOk && addressOk && userOk && GetTime(c, "exp").Some?)
  {
  }

  /**
   * The issuer check compares a token's `iss` with itself, so it rejects
   * only a missing, empty or non-string `iss`; any other issuer passes.
   */
  lemma IssuerCheckOnlyRejectsEmpty(c: ClaimMap)
    ensures VerifyIssuer(c, GetString(c, "iss"), true) <==> GetString(c, "iss") != ""
    ensures VerifyIssuer(c, GetString(c, "iss"), true) <==> "iss" in c && c["iss"].Str? && c["iss"].s != ""
  {
  }

  /** `allowExpired` reaches only the library call: its verdict is all that differs. */
  lemma AllowExpiredOnlySkipsValidation(secretKey: Option<Key>, jwt: Jwt, s: string, expected: string)
    requires jwt.parse(s, secretKey, true) == jwt.parse(s, secretKey, false)
    ensures ParseToken(secretKey, jwt, s, expected, true) == ParseToken(secretKey, jwt, s, expected, false)
  {
  }

  // ---------------------------------------------------------------------
  // Encode followed by parseToken

  /**
   * A token encoded and signed, whose signature the library accepts, parses
   * back to the same user, name, domain, issuer and address, with both
   * instants truncated to the second and `iat` from the encoding clock.
   */
  lemma EncodeParseRoundTrip(t: Token, config: Settings, jwt: Jwt, now: Time, hostIssuer: string,
                             s: string, expected: string, allowExpired: bool)
    requires config.signingMethod.Some?
    requires EncodeToken(EncodeClaims(t, now, hostIssuer), config, jwt) == Ok(s)
    requires jwt.parse(s, config.secretKey, allowExpired) == Verified(EncodeClaims(t, now, hostIssuer))
    requires t.userID != "" && IssuerOf(t, hostIssuer) != ""
    requires expected == "" || BoundAddress(t) == "" || expected == BoundAddress(t)
    ensures ParseToken(config.secretKey, jwt, s, expected, allowExpired) ==
      Ok(Token(t.userID, t.userName, t.domain, TruncateSecond(now), TruncateSecond(t.expiredAt),
               IssuerOf(t, hostIssuer), BoundAddress(t), None))
  {
    BoundAddressIsAud(t, now, hostIssuer);
  }

  /**
   * The same encoded token is refused with the first failing check: no
   * issuer, then a different bound address, then no user id.
   */
  lemma EncodeParseRejects(t: Token, config: Settings, jwt: Jwt, now: Time, hostIssuer: string,
                           s: string, expected: string, allowExpired: bool)
    requires config.signingMethod.Some?
    requires EncodeToken(EncodeClaims(t, now, hostIssuer), config, jwt) == Ok(s)
    requires jwt.parse(s, config.secretKey, allowExpired) == Verified(EncodeClaims(t, now, hostIssuer))
    ensures var r := ParseToken(config.secretKey, jwt, s, expected, allowExpired);
      && (IssuerOf(t, hostIssuer) == "" ==> r == Err(Sentinel(InvalidIssuer)))
      && (IssuerOf(t, hostIssuer) != "" && expected != "" && BoundAddress(t) != "" && expected != BoundAddress(t) ==>
            r == Err(Sentinel(InvalidClientIP)))
      && ((IssuerOf(t, hostIssuer) != "" && t.userID == ""
           && (expected == "" || BoundAddress(t) == "" || expected == BoundAddress(t)))
          ==> r == Err(Sentinel(MissingUserID)))
  {
    BoundAddressIsAud(t, now, hostIssuer);
  }
}
