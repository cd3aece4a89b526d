# gocontrib/auth in Dafny

A Dafny model of the authentication layer of gocontrib/auth, a Go package of
HTTP middleware. The middleware reads a credential from a request: the
Authorization header, or a token in the query of a GET request. It
dispatches on the header's scheme. A Basic header is checked against a user
store by user name and password. A Bearer token is checked by parsing and
verifying a signed JWT session token and looking its user up by id. The
middleware then either runs the next handler with the user or answers
through an error handler. `RequireAdmin` also admits only administrators.

The model covers the following parts of the package:

- The session token. `Token.Encode` builds the claim map and has it
  signed. `parseToken` checks a signed string in a fixed order (signature,
  issuer, client address, user id, expiry) and rebuilds a token from its
  claims.
- The claim readers `getString` and `getTime`, and the JSON form of
  `Timestamp`.
- The configuration and its `setDefaults`, and the default error handler.
- Both snapshots of the middleware: `RequireUser`/`RequireAdmin`
  (middleware.go) and the older `Middleware`/`Handler` (auth.go).
- The stand-alone Basic authentication middleware (basic.go).
- The login endpoint, which decodes credentials from a JSON or form body
  and answers with a signed token.
- The LDAP connection pool and the LDAP user store.
- OAuth provider registration: the base URL, the callback URLs and
  `WithProviders`.

## How the model is built

Each Go file is one Dafny module, and its shape follows the Go code:

- Request handling is a chain of early returns over fixed values, so it is
  made of functions over datatypes.
- Code that mutates objects becomes classes with `modifies` clauses:
  - `Config.setDefaults`;
  - `Timestamp.UnmarshalJSON`;
  - the LDAP pools and the user store;
  - `decodePayload` filling `Credentials`;
  - the package-level provider registry.
- The buffered channel of the LDAP pool is a ring buffer over an array. Its
  ghost state records:
  - the idle connections, oldest first;
  - the set of connections closed so far;
  - a log of checkouts and releases.

Go's standard library is modelled where the package's behaviour depends on
its details:

- `strconv.ParseInt` with base 10, including its syntax and range errors.
- `fmt.Sprint` of an integer.
- `strings.Fields`, `ToLower`, `ToUpper`, `HasPrefix` and `TrimRight`.
- `bytes.SplitN(s, ":", 2)`.
- `http.Error`, which appends a newline.

Everything that reaches outside the package is a parameter of the model:

- the JWT library's signing and parsing;
- base64 decoding;
- `mime.ParseMediaType` and the JSON and form decoders;
- the clock and the host name;
- the real-IP helper;
- the process environment;
- the LDAP directory's bind and search, and the pool's liveness probe.

Where a property depends on such a collaborator, the collaborator's
behaviour is a `requires` of the lemma, not an axiom. For example, the
round-trip lemmas require that the JWT library accepts its own signature.

Several behaviours of the code are worth stating outright, since a reader
might expect otherwise:

- **Issuer check.** token.go:73-74 compares the token's `iss` with itself,
  so only a missing, empty or non-string issuer is rejected; a token from
  another issuer that shares the signing key passes
  (`Tokens.IssuerCheckOnlyRejectsEmpty`).
- **Issued-at before expiry.** Neither `Encode` nor `parseToken` checks
  that a token is issued before it expires. Tokens that `LoginHandler`
  issues with a non-negative lifetime satisfy it
  (`Login.ExpiryNotBeforeIssue`).
- **Custom schemes.** middleware.go:88-98 never reads
  `Config.ValidateCustom`, so every scheme other than basic and bearer is
  refused (`AuthMiddleware.CustomValidatorIgnored`).
- **Credential sources.** Only the Authorization header and, for a GET, the
  query parameter named by `TokenKey` are read; there is no cookie.
- **`json.Number` claims.** A `json.Number` `exp` or `iat` claim never
  reads as missing. A malformed number is the epoch. One outside the
  64-bit range is clamped to the nearest bound, as `Int64()` does
  (`Claims.NumberNeverNil`).
- **The `aud` claim.** It carries the bound client address. A custom
  `aud` claim survives encoding when no client address is bound
  (`Tokens.BoundAddressIsAud`).

## Model

| member | source | states |
|---|---|---|
| Decimal.FormatInt | timestamp.go:15-19 | `fmt.Sprint` of an integer is non-empty and starts with '-' exactly for negatives |
| Decimal.ScanUint | timestamp.go:22 | the base-10 digit loop: success stays within the bound; a range error yields the bound; a syntax error yields 0 |
| Decimal.ParseUint | timestamp.go:22 | a value without syntax error lies within the unsigned range of the width |
| Decimal.ParseInt | timestamp.go:22 | success lies in the signed range of the bit size; a syntax error yields 0; a range error yields the clamped bound |
| Decimal.FormatNatValue | timestamp.go:15-19 | reading back the decimal spelling of a natural number gives the number |
| Decimal.ScanDigits | timestamp.go:22 | on digits, the loop succeeds exactly when the number fits and otherwise reports a range error |
| Decimal.ParseFormatInt | timestamp.go:15-28 | ParseInt inverts FormatInt on the signed range of the width and reports a clamped range error outside it |
| Decimal.ParsedMeansDecimal | util.go:59-62 | what ParseInt accepts is an optional sign followed by one or more digits, read as that signed number |
| Text.Fields | middleware.go:83 | `strings.Fields` yields only non-empty runs without white space |
| Text.ToLower | middleware.go:88 | lower-casing keeps the length and maps every character by `unicode.ToLower` |
| Text.ToUpper | oauth/oauth.go:64 | upper-casing keeps the length and maps every character by `unicode.ToUpper` |
| Text.SplitFirst | middleware.go:107 | `SplitN(s, sep, 2)` gives one part exactly when `sep` is absent; otherwise the two parts rejoin to `s` and the first has no `sep` |
| Text.TrimRight | oauth/oauth.go:74 | the result is a prefix not ending in the character, and only that character was dropped |
| Text.FieldsOfField | middleware.go:83 | a non-empty run without white space is its own single field |
| Text.FieldsSplitAtSpace | middleware.go:83 | white space separates fields: a blank splits the fields of a string into those of either side, which with `FieldsOfField` determines `strings.Fields` on every string |
| Text.FieldsOfPair | middleware.go:83-84 | "scheme credential" with one blank splits into exactly those two fields |
| Text.SplitFirstJoin | basic.go:83-88 | splitting at the first ':' undoes joining a colon-free user and any password |
| Text.LowerIsBasic | middleware.go:88-93 | the scheme selects basic exactly for every casing of "basic" (and U+0130 for the 'i') |
| Text.LowerIsBearer | middleware.go:88-95 | the scheme selects bearer exactly for every casing of "bearer" |
| Errors.WithCause | token.go:53 | attaching a cause gives an error of the same kind carrying the cause, distinct from the bare sentinel |
| Http.HttpError | config.go:61 | `http.Error` answers with the status and the text followed by a newline |
| Http.QueryGet | middleware.go:68 | a query lookup gives the first value under the key, or "" when there is none |
| Timestamps.Unix | timestamp.go:11-13 | `Unix()` gives the whole seconds of the instant, rounded down |
| Timestamps.FromUnix | timestamp.go:26 | `time.Unix(sec, 0)` is exactly `sec` seconds after the epoch |
| Timestamps.Add | login.go:46 | `Add(d)` moves the instant by exactly `d` nanoseconds |
| Timestamps.TruncateSecond | timestamp.go:11-19 | truncation keeps the seconds and drops less than one second |
| Timestamps.MarshalJSON | timestamp.go:15-19 | the JSON form is the decimal Unix seconds, signed exactly for instants before the epoch |
| Timestamps.DecodeTimestamp | timestamp.go:21-28 | decoding succeeds exactly when the text parses as a 32-bit decimal, giving a whole-second instant in that range |
| Timestamps.TimestampVar.UnmarshalJSON | timestamp.go:21-28 | returns the parse error and leaves the receiver unchanged on error, else stores those seconds |
| Timestamps.MarshalRoundTrip | timestamp.go:15-28 | unmarshal after marshal gives the instant truncated to the second exactly when its seconds fit in 32 bits, else fails |
| Timestamps.AddNotEarlier | login.go:46 | adding a non-negative duration never moves an instant earlier |
| Claims.GetString | util.go:28-38 | a non-empty result is the text of a string claim under the key |
| Claims.GetTime | util.go:40-68 | an absent key is nil; a `time.Time` is returned as is; a float64 or int64 claim is that many Unix seconds; a `json.Number` is the seconds `Int64()` gives, within 64 bits; a string that parses as a 32-bit decimal is those seconds |
| Claims.GetStringSpec | util.go:28-38 | `getString` is non-empty only for a string claim holding that text; absent and non-string claims read as "" |
| Claims.GetTimeNil | util.go:40-68 | `getTime` is nil exactly for an absent key, an unsupported type, or a string that is not a 32-bit decimal |
| Claims.NumberNeverNil | util.go:54-57 | a `json.Number` claim always gives an instant: epoch 0 when malformed, the clamped bound when out of range |
| Claims.StringSecondsRoundTrip | util.go:58-64 | a string claim of decimal seconds reads back as those seconds exactly when they fit in 32 bits |
| Configuration.DefaultErrorResponse | config.go:56-62 | the default error handler always answers 401 with "Unauthorized", then ": " and the error when there is one |
| Configuration.Config.SetDefaults | config.go:39-53 | setDefaults fills the missing token key, signing method, secret key and error handler in place and returns its receiver |
| Configuration.DefaultsFilled | config.go:39-53 | after defaulting every defaulted field is set, a present value is kept, and the other fields are untouched |
| Configuration.DefaultsIdempotent | config.go:39-53 | defaulting leaves complete settings unchanged, so applying it twice equals applying it once |
| Tokens.IssuerOf | token.go:21-24 | the issuer written is the token's own, or the host identity when that is empty |
| Tokens.EncodeClaims | token.go:20-47 | the claim map holds every standard claim, the user id and the expiry seconds, and `aud` exactly when an address is bound or a custom `aud` exists |
| Tokens.VerifyIssuer | token.go:74 | jwt-go's `VerifyIssuer`: an empty or non-string `iss` passes exactly when not required; a required check passes only for a non-empty `iss` equal to the expected one |
| Tokens.EncodeToken | token.go:49-56 | a signed string is returned as is; a signing failure becomes EncodeTokenFailed carrying the cause |
| Tokens.Encode | token.go:20-47 | the copy loop and standard claims produce the claim map EncodeClaims describes, which is then signed |
| Tokens.StandardClaimsWin | token.go:26-44 | the encoded keys are custom plus standard (plus aud when bound); standard claims override custom ones; other custom claims survive |
| Tokens.IssuedAtIgnored | token.go:36 | `iat` comes from the clock; the token's own issued-at time is never encoded |
| Tokens.BoundAddressIsAud | token.go:42-44 | the `aud` claim of an encoded token is its client address when it has one, else the custom `aud` |
| Tokens.ParseToken | token.go:58-111 | library errors become InvalidToken; a parsed token has a non-empty user id and issuer, an address matching the expected one, the claims' expiry, `iat` or the zero time, and no custom claims |
| Tokens.ParseChecksInOrder | token.go:73-92 | each of InvalidIssuer, InvalidClientIP, MissingUserID, MissingExp is returned exactly when its check fails after the earlier ones pass |
| Tokens.IssuerCheckOnlyRejectsEmpty | token.go:73-76 | comparing `iss` with itself passes exactly when `iss` is a non-empty string |
| Tokens.AllowExpiredOnlySkipsValidation | token.go:58-60 | `allowExpired` changes the result only through the library's verdict |
| Tokens.EncodeParseRoundTrip | token.go:20-111 | an encoded token whose signature is accepted parses back to the same user, name, domain, issuer and address, with both instants truncated to the second |
| Tokens.EncodeParseRejects | token.go:20-111 | an encoded token is refused with the first failing check: no issuer, then a foreign address, then no user id |
| AuthMiddleware.RequireUser | middleware.go:18-26 | defaults the configuration in place and builds a middleware without the admin gate over it |
| AuthMiddleware.RequireAdmin | middleware.go:29-38 | defaults the configuration in place and builds a middleware with the admin gate |
| AuthMiddleware.CheckUser | middleware.go:139-144 | errNotAdmin exactly when the gate is on and the user is not an administrator |
| AuthMiddleware.ValidateUser | middleware.go:131-137 | the user passes unchanged exactly when the gate lets it through, otherwise errNotAdmin |
| AuthMiddleware.BasicHandler | middleware.go:101-115 | decode errors pass through; a payload without ':' is a bad header; otherwise a store error passes through unchanged and a user the store accepts on the first-colon split goes through the admin gate |
| AuthMiddleware.BasicHandlerAsWritten | middleware.go:101-115 | as written, the handler indexes past the split exactly when the decoded payload has no ':' |
| AuthMiddleware.JwtHandler | middleware.go:117-129 | parse errors (against the client address, expiry not allowed) pass through; otherwise a lookup error passes through unchanged and the user found for the token's id goes through the admin gate |
| AuthMiddleware.ValidateHeader | middleware.go:78-99 | a user accepted under the admin gate is an administrator |
| AuthMiddleware.Authenticate | middleware.go:60-75 | without a header and without a GET query token the request fails with errNoAuthorizationHeader; admin gate holds |
| AuthMiddleware.ServeHTTP | middleware.go:47-57 | the next handler runs exactly when authentication succeeds, with that user; otherwise the error handler answers that error |
| AuthMiddleware.HeaderTakesPrecedence | middleware.go:60-64 | a non-empty header alone decides; the query is never consulted |
| AuthMiddleware.QueryTokenOnlyForGet | middleware.go:66-74 | without a header only a non-empty query token of a GET is tried, exactly as a Bearer header with that token |
| AuthMiddleware.MalformedHeaderRefused | middleware.go:83-86 | a header that is not exactly two fields is a bad header |
| AuthMiddleware.SchemeDispatch | middleware.go:88-98 | every casing of basic selects the basic handler, of bearer the token handler; any other scheme is unsupported |
| AuthMiddleware.CustomValidatorIgnored | middleware.go:91-98 | the configured custom validator never changes the outcome |
| AuthMiddleware.AdminGateFilters | middleware.go:131-144 | RequireAdmin accepts exactly the administrators RequireUser accepts, refuses its other users with errNotAdmin, and fails alike otherwise |
| AuthMiddleware.BasicHandlerColonFinding | middleware.go:107-109 | without ':' the handler as written is out of range and the corrected one refuses the header; otherwise they agree |
| AuthMiddleware.BasicWithoutColonExample | middleware.go:107-109 | "Basic Ym9i" (base64 of "bob") reaches the out-of-range index as written and is a bad header when corrected |
| AuthMiddleware.NoCredentialsUnauthorized | middleware.go:47-75 | a GET without credentials gets 401 "Unauthorized: Authorization header is not set" |
| AuthMiddleware.ValidCredentialsAccepted | middleware.go:47-115 | Basic bob:b0b against a store holding bob runs the next handler with bob |
| LegacyAuth.Handler | auth.go:18-27 | defaults the configuration in place and wraps it |
| LegacyAuth.BasicHandler | auth.go:89-103 | decode errors pass through; a payload without ':' is a bad header; otherwise the store's verdict on the first-colon split |
| LegacyAuth.BasicHandlerAsWritten | auth.go:89-103 | as written, the handler indexes past the split exactly when the decoded payload has no ':' |
| LegacyAuth.JwtHandler | auth.go:105-117 | parse errors pass through; otherwise the store's lookup of the token's user id |
| LegacyAuth.ValidateHeader | auth.go:66-87 | a non-empty header that is not exactly two fields is a bad header |
| LegacyAuth.Authenticate | auth.go:48-63 | without a header and without a GET query token the request fails with errNoAuthorizationHeader |
| LegacyAuth.ServeHTTP | auth.go:35-45 | the next handler runs exactly when authentication succeeds; otherwise the error handler answers that error |
| LegacyAuth.SameAsRequireUser | auth.go:35-117 | the older middleware decides every request exactly as RequireUser does |
| LegacyAuth.CredentialSource | auth.go:48-63 | a non-empty header alone decides; without one a GET's non-empty query token goes to the token handler |
| LegacyAuth.SchemeDispatch | auth.go:66-87 | lower-cased basic and bearer select their handlers; any other scheme is unsupported |
| LegacyAuth.BasicHandlerColonFinding | auth.go:95-97 | without ':' the handler as written is out of range and the corrected one refuses the header; otherwise they agree |
| BasicAuth.WithDefaultHandler | basic.go:21-24 | a missing unauthorized handler becomes the default one; a given one and the validator are kept |
| BasicAuth.Basic | basic.go:21-28 | the gohttp adapter holds the defaulted configuration |
| BasicAuth.BasicNegroni | basic.go:31-36 | the negroni adapter holds the defaulted configuration |
| BasicAuth.DefaultUnauthorizedResponse | basic.go:92-94 | the default refusal is 401 with body "Unauthorized\n" |
| BasicAuth.CheckHeader | basic.go:70-86 | exactly one structural failure (prefix, base64, colon) per header; credentials rejoin with ':' to the decoded payload and the user has no ':' |
| BasicAuth.ValidateBasicAuth | basic.go:70-89 | true only after every structural check passes, and then exactly the validator's verdict |
| BasicAuth.BasicAuthImpl | basic.go:60-67 | the next handler runs exactly when validation succeeds; otherwise the configured unauthorized handler answers |
| BasicAuth.ServeHTTP | basic.go:45-57 | both adapters serve the next handler exactly when validation succeeds |
| BasicAuth.CredentialsRoundTrip | basic.go:78-88 | a header encoding user:password with a colon-free user hands exactly that pair to the validator |
| BasicAuth.PrefixIsCaseSensitive | basic.go:71-76 | a header not starting with 'B' is refused, so lower-case "basic " is refused |
| BasicAuth.ValidateOnlyAfterChecks | basic.go:70-89 | the validator is not consulted for a header that fails a structural check |
| BasicAuth.DefaultRefusal | basic.go:21-36 | without a handler of their own both constructors refuse with 401 "Unauthorized" |
| BasicAuth.CustomRefusal | basic.go:60-67 | a caller's unauthorized handler answers every refusal |
| BasicAuth.NoCredentialsRefused | basic.go:70-76 | a request without credentials is refused with the default response |
| BasicAuth.BobAccepted | basic.go:70-89 | "Basic " followed by the base64 of bob:b0b reaches the next handler |
| LdapPool.ClientSettingsOf | ldap/pool.go:136-150 | a client copies every connection setting (host, port, base, bind, filters, attributes, certificate check) and uses TLS on every port but 389 |
| LdapPool.ChanPool.Get | ldap/pool.go:57-80 | a closed pool fails; otherwise the oldest idle connection if alive, else a dead one is closed and a fresh one dialled, and a checkout is logged |
| LdapPool.ChanPool.Put | ldap/pool.go:97-119 | nil is refused; a closed or full pool closes the connection; otherwise it queues behind the idle ones; a release is logged |
| LdapPool.ChanPool.Close | ldap/pool.go:40-55 | the pool becomes closed and every idle connection is closed; closing again changes nothing |
| LdapPool.DummyPool.Get | ldap/pool.go:127-129 | always a freshly made client |
| LdapPool.DummyPool.Put | ldap/pool.go:131-134 | always closes the connection |
| LdapPool.DummyPool.Close | ldap/pool.go:125 | changes nothing |
| LdapPool.NewPool | ldap/pool.go:21-31 | a capacity of zero or less gives the non-pooling variant, else an empty open pool of that capacity |
| LdapPool.Get | ldap/pool.go:15-19 | through the interface only a closed pooling pool fails; otherwise the oldest idle connection when alive, else (closing a dead one) a fresh dial, and a checkout is logged |
| LdapPool.Put | ldap/pool.go:15-19 | through the interface every release is logged; an open pooling pool with room queues the connection, otherwise it is closed |
| LdapPool.Close | ldap/pool.go:15-19 | through the interface a pooling pool ends closed and empty with every idle connection closed; a non-pooling pool closes nothing |
| LdapStore.AttributeOrDefault | ldap/store.go:23-30 | an empty attribute name becomes its default |
| LdapStore.AuthFailedError | ldap/store.go:50 | a refused bind names the user in "ldap auth failed for user '…'" |
| LdapStore.Merge | ldap/store.go:83-87 | the copy loop yields every key of either map, the extra value winning |
| LdapStore.UserStore.constructor | ldap/store.go:22-37 | empty attribute names become "displayName" and "mail" |
| LdapStore.UserStore.UserOf | ldap/store.go:75-96 | name and e-mail come from the entry; extra attributes are merged over it; the extra-information error travels with the user |
| LdapStore.UserStore.MakeUser | ldap/store.go:75-96 | the loop-based makeUser returns what UserOf describes |
| LdapStore.UserStore.AfterAuthenticate | ldap/store.go:45-52 | a directory error, then a refused bind, then the user made from the entry |
| LdapStore.UserStore.ValidateCredentials | ldap/store.go:39-53 | the pool's error is returned as is, which happens exactly for a closed pooling pool; otherwise the connection checked out is released whatever the directory answered: the pool stays open, a pooling pool queues it last among the idle ones, and a non-pooling pool closes it |
| LdapStore.UserStore.AfterFind | ldap/store.go:61-65 | a directory error, else the user made from the entry |
| LdapStore.UserStore.FindUserByID | ldap/store.go:55-66 | the same checkout-and-release discipline around a search by id: failing exactly for a closed pooling pool, and otherwise leaving the pool open with the connection queued last (pooling) or closed (non-pooling) |
| LdapStore.UserStore.Close | ldap/store.go:68-73 | closes the pool once (closing every idle connection) and forgets it; later calls change nothing |
| LdapStore.MakeUserMerges | ldap/store.go:80-95 | extra attributes override, the entry's others survive, name and e-mail keep the entry's values |
| Login.SelectDecoding | login.go:66-99 | an unparsable or unknown media type is unsupported; a body its decoder rejects is malformed; only JSON and form decode |
| Login.Overlay | login.go:75 | a decoded field overwrites the old value; an absent one keeps it |
| Login.Credentials.DecodePayload | login.go:66-99 | on error the error is returned; otherwise the fields the body carries overwrite the credentials |
| Login.IssuedToken | login.go:41-48 | the token is for the user's id and name, bound to the client address, and expires the lifetime after issue |
| Login.LoginHandler | login.go:25-26 | defaults the configuration in place, leaving every default set |
| Login.Login | login.go:25-64 | decode errors, then a credential failure as errBadCredentials with its cause, then signing errors are sent; otherwise the signed token with the user's id, name and expiry |
| Login.ExpiryNotBeforeIssue | login.go:41-46 | with a non-negative lifetime a token never expires before it is issued |
| Login.IssuedTokenParses | login.go:41-50 | an issued token whose signature is accepted parses back to the same user, name, host issuer and address |
| OAuth.Getenv | oauth/oauth.go:65-66 | an unset variable reads as "" |
| OAuth.Hostname | oauth/oauth.go:100-110 | HOSTNAME, else the system's host name, else "localhost" |
| OAuth.GetBaseURL | oauth/oauth.go:82-97 | scheme and host, with ":port" exactly when the port variable parses as a 64-bit integer other than the scheme's default |
| OAuth.CallbackURL | oauth/oauth.go:74-75 | the base URL without trailing '/', then "/api/oauth/callback/", then the provider |
| OAuth.MakeProvider | oauth/oauth.go:63-80 | no provider exactly when the upper-cased KEY or SECRET variable is empty; else the factory's provider for the https callback URL |
| OAuth.PairCount | oauth/oauth.go:30 | the loop visits exactly the complete (name, factory) pairs |
| OAuth.Registry.WithProviders | oauth/oauth.go:27-44 | the names are reset to the names of the pairs that made a provider, in argument order, and exactly those providers are registered |
| OAuth.PairsMeaning | oauth/oauth.go:30-33 | each complete pair is a name then a factory, and its entry is the name with what `makeProvider` makes of it |
| OAuth.BaseURLPort | oauth/oauth.go:90-95 | a decimal port is dropped when it is the scheme's default and appended otherwise |
| OAuth.BaseURLWithoutPort | oauth/oauth.go:90-96 | without a port variable the base URL is scheme and host alone |
| OAuth.CallbackURLOnDefaultPort | oauth/oauth.go:73-75 | with HOSTNAME set and no HTTPS_PORT the callback is "https://host/api/oauth/callback/provider" |
| OAuth.EnabledNamesBound | oauth/oauth.go:30-38 | at most one name per pair, and as many names as registered providers |
| OAuth.EnabledNamesAreEnabledPairs | oauth/oauth.go:30-38 | every registered name belongs to a pair whose provider was made; when no pair makes a provider no name is registered |
| OAuth.TrailingArgumentIgnored | oauth/oauth.go:30 | an odd trailing argument changes none of the pairs |

## Left out

- HTTP plumbing is reduced to the fields the package reads. Headers,
  query, method and client address are request fields. Responses are status
  and body. The request context is stood for by the user it would carry
  (context.go is not part of this model).
- JWT signing and signature verification, base64 decoding,
  `mime.ParseMediaType`, and the JSON and form decoders belong to
  libraries. They are parameters, and their behaviour is assumed only in
  the `requires` of the lemmas that need it.
- LDAP network operations are oracles passed in by the caller. This covers
  the directory's bind and search, closing a connection (recorded in a ghost
  set) and the `isAlive` search.
- The mutexes of `chanPool` and any concurrency: each operation is atomic
  in the model.
- The receive branch of `chanPool.Get` that finds a nil connection cannot
  be reached, because `Put` refuses nil, so the model has no such branch.
- LdapPool.DummyPool.Put: requires a non-nil connection, since the source
  would dereference nil.
- LdapStore.UserStore.ValidateCredentials: requires that the store still
  has a pool. The source dereferences a nil pool after `Close`.
- LdapStore.UserStore.FindUserByID: requires that the store still has a
  pool, for the same reason.
- `makeUser` writes the extra attributes into the caller's `attrs` map in
  place. The model returns the merged map and does not capture that
  aliasing.
- A middleware holds a pointer to its `Config`, so later writes to that
  `Config` would be seen by requests. The model takes the defaulted
  settings as a value when the middleware is built.
- AuthMiddleware.ServeHTTP: requires an error handler, which the
  constructors always set through `setDefaults`.
- LegacyAuth.ServeHTTP: requires an error handler, for the same reason.
- Text.ToLower: only ASCII and the two non-ASCII code points whose lower
  case is ASCII are mapped. Other characters are unchanged, which cannot
  affect a comparison with "basic" or "bearer".
- Text.ToUpper: only ASCII and the two non-ASCII code points whose upper
  case is ASCII are mapped. Other characters are unchanged.
- A float64 claim is taken as already truncated toward zero. Floating
  point itself is not modelled.
- The time zone of a Go time is not modelled, only its instant.
- The package's `Error` type with its `WithCause` and `cause` methods is
  declared outside the modelled files. It is taken to return a new value of
  the same kind that carries the cause.
- The texts of the sentinel errors that errors.go does not spell out are
  their Go identifiers. That includes `ErrInvalidToken`, which token.go
  returns; errors.go's own `errInvalidToken` is not used by the modelled
  code.
- Tokens.Encode: requires a signing method. A `Config` that was never
  defaulted has none, and the JWT library would then fail on a nil method;
  every constructor of the package defaults the configuration first.
- Tokens.EncodeToken: requires a signing method, for the same reason.
- Login.Login: requires a signing method, which `LoginHandler` sets
  through `setDefaults`.
- Tokens.EncodeParseRoundTrip: assumes the JWT library hands back the
  claim map it was given, with `iat` and `exp` as int64. token.go parses
  without `UseJSONNumber`, so the library actually yields float64 numbers.
  `getTime` reads a float64 and an int64 alike, so the conclusion is the
  same for seconds that a float64 holds exactly (below 2^53).
- Tokens.EncodeParseRejects: the same assumption about the numeric claims.
- Login.IssuedTokenParses: the same assumption about the numeric claims.
- OAuth.Registry.WithProviders: requires that names and factories
  alternate. A non-string at a name position makes the source's type
  assertion panic, and the model excludes it. The requires also excludes a
  non-function at a factory position whose keys are missing, which the
  source accepts because it never calls that value.
- Login.Credentials.DecodePayload: on a decode error the model writes
  nothing. Go's JSON decoder may have filled some fields before failing.
  The difference cannot be observed, because login.go:31-33 discards the
  credentials on error.
- `sendError`'s status code: login.go calls it with two arguments while
  util.go declares three. The model records the error sent, not its
  status.
- The value of `contentForm` is declared outside the modelled files. It is
  taken as "application/x-www-form-urlencoded".
- The following parts of oauth.go are not part of this model:
  - `makeProviderFactory` (reflection: a factory is a function in the
    model);
  - the call into goth's `UseProviders` (recorded as the `registered`
    sequence);
  - log output;
  - `RegisterAPI` and `completeOAuthFlow`.
- The following files are not part of this model: register.go,
  checktoken.go, userstore.go, ldap.go, ldap/config.go and the oauth-server
  example.

## Findings

| source | as written | input that shows it | evidently intended | confidence | as-written member | corrected member |
|---|---|---|---|---|---|---|
| middleware.go:107-109 | `creds[1]` is read without checking that `SplitN` found a ':' | header "Basic Ym9i" (base64 of "bob") | refuse the header as errBadAuthorizationHeader, as basic.go:84-86 does | not executed | AuthMiddleware.BasicHandlerAsWritten | AuthMiddleware.BasicHandler |
| auth.go:95-97 | `creds[1]` is read without checking that `SplitN` found a ':' | header "Basic Ym9i" (base64 of "bob") | refuse the header as errBadAuthorizationHeader | not executed | LegacyAuth.BasicHandlerAsWritten | LegacyAuth.BasicHandler |
