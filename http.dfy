/**
 * The HTTP client of src/api/http.ts: the process-wide access-token store, the
 * request hook that attaches `Authorization: Bearer <token>` (section 2.1 of
 * RFC 6750) and the pass-through response hook.
 */
module Http {
  import opened Wrappers

  const AuthorizationHeader := "Authorization"

  /** The header value of section 2.1 of RFC 6750. */
  function BearerCredentials(token: string): string
  {
    "Bearer " + token
  }

  /**
   * The headers after the request hook: `{...headers, Authorization: "Bearer " + token}`
   * when the stored token is truthy, the headers as they were otherwise.
   */
  function WithBearer(headers: map<string, string>, token: Option<string>): (r: map<string, string>)
    ensures forall k :: k != AuthorizationHeader ==> (k in r <==> k in headers)
    ensures forall k :: k != AuthorizationHeader && k in headers ==> r[k] == headers[k]
    ensures Truthy(token) ==> AuthorizationHeader in r && r[AuthorizationHeader] == BearerCredentials(token.value)
    ensures !Truthy(token) ==> r == headers
  {
    if Truthy(token) then headers[AuthorizationHeader := BearerCredentials(token.value)] else headers
  }

  /** A request was sent with a bearer credential exactly when the token was truthy. */
  lemma BearerAttachedIff(headers: map<string, string>, token: Option<string>)
    requires AuthorizationHeader !in headers
    ensures AuthorizationHeader in WithBearer(headers, token) <==> Truthy(token)
    ensures Truthy(token) ==> WithBearer(headers, token)[AuthorizationHeader] == "Bearer " + token.value
  {
  }

  datatype Verb = Get | Post

  /** What an API call puts on the wire: method, path, JSON body (if any) and headers. */
  datatype Call = Call(verb: Verb, path: string, body: Option<map<string, string>>, headers: map<string, string>)

  /** A rejected request: an `Error` with its message, or a rejection with a non-`Error` value. */
  datatype HttpError = RequestFailed(message: string) | NonErrorRejection

  /** The request configuration object that axios hands to the request hook. */
  class RequestConfig {
    const verb: Verb
    const url: string
    const body: Option<map<string, string>>
    var headers: map<string, string>

    constructor (verb: Verb, url: string, body: Option<map<string, string>>, headers: map<string, string>)
      ensures this.verb == verb && this.url == url && this.body == body && this.headers == headers
    {
      this.verb := verb;
      this.url := url;
      this.body := body;
      this.headers := headers;
    }
  }

  /** The module-level `currentAccessToken`, in memory only. */
  class TokenStore {
    var token: Option<string>

    /** `let currentAccessToken = null` */
    constructor ()
      ensures token == None
    {
      token := None;
    }

    /** `getAccessToken()` */
    function GetAccessToken(): Option<string>
      reads this
    {
      token
    }

    /** `setAccessToken(t)`: the next `getAccessToken()` returns `t`. */
    method SetAccessToken(t: Option<string>)
      modifies this
      ensures GetAccessToken() == t
    {
      token := t;
    }

    /**
     * The request hook: reassigns `config.headers` when a token is stored and
     * returns the same config object, otherwise untouched.
     */
    method InterceptRequest(config: RequestConfig) returns (r: RequestConfig)
      modifies config`headers
      ensures r == config
      ensures config.headers == WithBearer(old(config.headers), token)
    {
      if Truthy(token) {
        config.headers := config.headers[AuthorizationHeader := BearerCredentials(token.value)];
      }
      r := config;
    }
  }

  /**
   * The response hook: a response passes through and a rejection is re-rejected
   * with the same error; nothing is retried.
   */
  function InterceptResponse<T>(outcome: Result<T, HttpError>): (r: Result<T, HttpError>)
    ensures r == outcome
  {
    match outcome
    case Success(response) => Success(response)
    case Failure(error) => Failure(error)
  }
}
