/**
 * The parts of an HTTP exchange the package looks at (`verb` is
 * `r.Method`).  Header lookups and
 * the client address are already resolved into fields: `authorization`
 * is `r.Header.Get("Authorization")` ("" when absent), `contentType` is
 * `r.Header.Get("Content-Type")` and `clientIP` is what the real-IP
 * helper derives from the request.
 */
module Http {
  import opened Wrappers

  datatype Request = Request(
    verb: string,
    authorization: string,
    contentType: string,
    query: map<string, seq<string>>,
    clientIP: string)

  datatype Response = Response(status: int, body: string)

  const StatusUnauthorized: int := 401

  /** `http.StatusText(http.StatusUnauthorized)`. */
  const UnauthorizedText: string := "Unauthorized"

  /** `http.Error(w, text, code)`: the text followed by a newline. */
  function HttpError(text: string, code: int): (r: Response)
    ensures r.status == code && r.body == text + "\n"
  {
    Response(code, text + "\n")
  }

  /** `r.URL.Query().Get(key)`: the first value under `key`, or "". */
  function QueryGet(query: map<string, seq<string>>, key: string): (v: string)
    ensures key !in query || query[key] == [] ==> v == ""
    ensures key in query && query[key] != [] ==> v == query[key][0]
  {
    if key in query && query[key] != [] then query[key][0] else ""
  }

  /**
   * `base64.StdEncoding.DecodeString` (section 4 of RFC 4648), taken as
   * given: the decoded text, or the decoder's error message.
   */
  type Base64Decoder = string -> Result<string, string>
}
