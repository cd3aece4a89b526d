/**
 * The middleware configuration.  The `Config` class holds the fields the
 * package reads (the union of those named across its files) and
 * `SetDefaults` fills the missing ones in place; `Settings` is the value
 * of those fields, which request handling reads.
 */
module Configuration {
  import opened Wrappers
  import opened Errors
  import opened Http
  import opened Users

  newtype byte = b: int | 0 <= b < 256

  type Key = seq<byte>

  datatype SigningMethod = HS256 | OtherSigningMethod(alg: string)

  /** The error handler: the package default or a function of the caller's. */
  datatype ErrorHandler =
    | DefaultErrorHandler
    | CustomErrorHandler(respond: (Request, Error) -> Response)

  /** A validator for an authorization scheme other than basic and bearer. */
  type CustomValidator = (Request, string, string) -> Result<User, Error>

  const DefaultTokenKey: string := "auth_token"

  datatype Settings = Settings(
    validateCustom: Option<CustomValidator>,
    errorHandler: Option<ErrorHandler>,
    tokenKey: string,
    signingMethod: Option<SigningMethod>,
    secretKey: Option<Key>,
    userStore: UserStore,
    tokenExpiration: int)

  /** Every field that `setDefaults` fills is set. */
  predicate HasDefaults(s: Settings) {
    s.tokenKey != "" && s.signingMethod.Some? && s.secretKey.Some? && s.errorHandler.Some?
  }

  /**
   * The settings after `setDefaults`; `defaultSecretKey` is the random key
   * the process generated at start-up.
   */
  function WithDefaults(s: Settings, defaultSecretKey: Key): Settings {
    s.(tokenKey := if |s.tokenKey| == 0 then DefaultTokenKey else s.tokenKey,
       signingMethod := if s.signingMethod.None? then Some(HS256) else s.signingMethod,
       secretKey := if s.secretKey.None? then Some(defaultSecretKey) else s.secretKey,
       errorHandler := if s.errorHandler.None? then Some(DefaultErrorHandler) else s.errorHandler)
  }

  /** `defaultErrorHandler`: always 401, the status text, then the error if there is one. */
  function DefaultErrorResponse(err: Option<Error>): (r: Response)
    ensures r.status == StatusUnauthorized
    ensures err.None? ==> r.body == "Unauthorized\n"
    ensures err.Some? ==> r.body == "Unauthorized: " + Message(err.value) + "\n"
  {
    var text := if err.Some? then UnauthorizedText + ": " + Message(err.value) else UnauthorizedText;
    HttpError(text, StatusUnauthorized)
  }

  /** Running the configured error handler on a rejected request. */
  function HandleError(h: ErrorHandler, r: Request, err: Error): Response {
    match h
    case DefaultErrorHandler => DefaultErrorResponse(Some(err))
    case CustomErrorHandler(respond) => respond(r, err)
  }

  class Config {
    var validateCustom: Option<CustomValidator>
    var errorHandler: Option<ErrorHandler>
    var tokenKey: string
    var signingMethod: Option<SigningMethod>
    var secretKey: Option<Key>
    var userStore: UserStore
    var tokenExpiration: int

    function Value(): Settings
      reads this
    {
      Settings(validateCustom, errorHandler, tokenKey, signingMethod, secretKey, userStore, tokenExpiration)
    }

    constructor (s: Settings)
      ensures Value() == s
    {
      validateCustom := s.validateCustom;
      errorHandler := s.errorHandler;
      tokenKey := s.tokenKey;
      signingMethod := s.signingMethod;
      secretKey := s.secretKey;
      userStore := s.userStore;
      tokenExpiration := s.tokenExpiration;
    }

    /** `setDefaults`: fills the missing fields in place and returns its receiver. */
    method SetDefaults(defaultSecretKey: Key) returns (c: Config)
      modifies this
      ensures c == this
      ensures Value() == WithDefaults(old(Value()), defaultSecretKey)
    {
      if |tokenKey| == 0 {
        tokenKey := DefaultTokenKey;
      }
      if signingMethod.None? {
        signingMethod := Some(HS256);
      }
      if secretKey.None? {
        secretKey := Some(defaultSecretKey);
      }
      if errorHandler.None? {
        errorHandler := Some(DefaultErrorHandler);
      }
      c := this;
    }
  }

  // ---------------------------------------------------------------------
  // Properties

  /**
   * After `setDefaults` every defaulted field is set: a missing one to its
   * default, a present one to its old value; the others are untouched.
   */
  lemma DefaultsFilled(s: Settings, key: Key)
    ensures HasDefaults(WithDefaults(s, key))
    ensures s.tokenKey != "" ==> WithDefaults(s, key).tokenKey == s.tokenKey
    ensures s.tokenKey == "" ==> WithDefaults(s, key).tokenKey == "auth_token"
    ensures s.signingMethod.Some? ==> WithDefaults(s, key).signingMethod == s.signingMethod
    ensures s.signingMethod.None? ==> WithDefaults(s, key).signingMethod == Some(HS256)
    ensures s.secretKey.Some? ==> WithDefaults(s, key).secretKey == s.secretKey
    ensures s.secretKey.None? ==> WithDefaults(s, key).secretKey == Some(key)
    ensures s.errorHandler.Some? ==> WithDefaults(s, key).errorHandler == s.errorHandler
    ensures s.errorHandler.None? ==> WithDefaults(s, key).errorHandler == Some(DefaultErrorHandler)
    ensures WithDefaults(s, key).userStore == s.userStore
    ensures WithDefaults(s, key).validateCustom == s.validateCustom
    ensures WithDefaults(s, key).tokenExpiration == s.tokenExpiration
  {
  }

  /** Settings that already have every default are left as they are; so defaulting is idempotent. */
  lemma DefaultsIdempotent(s: Settings, key: Key)
    ensures HasDefaults(s) ==> WithDefaults(s, key) == s
    ensures WithDefaults(WithDefaults(s, key), key) == WithDefaults(s, key)
  {
  }
}
