/**
 * The browser's request helper: `apiRequest` builds the URL and the headers
 * (JSON content type, caller headers, and a Bearer token when one is
 * stored), and `apiCall` turns the response into data, `null` or a thrown
 * error. The network call itself is not modelled; a response is an input.
 */
module ApiClient {
  import opened JsValues
  import opened JsText

  const ContentTypeHeader := "Content-Type"
  const AuthorizationHeader := "Authorization"
  const JsonMediaType := "application/json"
  const BearerPrefix := "Bearer "

  /** `getToken()`: no token outside a browser window, else what storage holds under `token`. */
  function GetToken(hasWindow: bool, storedToken: Option<string>): (t: Option<string>)
    ensures !hasWindow ==> t == None
    ensures hasWindow ==> t == storedToken
  {
    if hasWindow then storedToken else None
  }

  /** `if (token)`: a token is used only when it is a non-empty string. */
  predicate HasToken(token: Option<string>) {
    token.Some? && token.value != ""
  }

  /**
   * The headers of `apiRequest`: JSON content type unless the caller gives
   * one, every caller header, and `Authorization: Bearer <token>` over any
   * caller value when a token is present. With no token the merge is left
   * untouched.
   */
  function MergeHeaders(given: map<string, string>, token: Option<string>): (h: map<string, string>)
    ensures HasToken(token) ==> h.Keys == {ContentTypeHeader, AuthorizationHeader} + given.Keys
    ensures !HasToken(token) ==> h.Keys == {ContentTypeHeader} + given.Keys
    ensures ContentTypeHeader !in given ==> h[ContentTypeHeader] == JsonMediaType
    ensures forall k :: k in given && k != AuthorizationHeader ==> h[k] == given[k]
    ensures HasToken(token) ==> h[AuthorizationHeader] == BearerPrefix + token.value
    ensures !HasToken(token) && AuthorizationHeader in given ==> h[AuthorizationHeader] == given[AuthorizationHeader]
  {
    var merged := map[ContentTypeHeader := JsonMediaType] + given;
    if HasToken(token) then merged[AuthorizationHeader := BearerPrefix + token.value] else merged
  }

  /**
   * The URL of `apiRequest`: an endpoint starting with `http` is used as is;
   * any other is appended to the API base with exactly one `/` between them
   * when it does not start with one.
   */
  function BuildUrl(apiUrl: string, endpoint: string): (url: string)
    ensures "http" <= endpoint ==> url == endpoint
    ensures !("http" <= endpoint) ==>
      && apiUrl <= url
      && url[|apiUrl|..] == (if "/" <= endpoint then endpoint else "/" + endpoint)
  {
    if "http" <= endpoint then endpoint
    else apiUrl + (if "/" <= endpoint then endpoint else "/" + endpoint)
  }

  /** A leading slash on a relative endpoint makes no difference to the URL. */
  lemma LeadingSlashOptional(apiUrl: string, endpoint: string)
    requires !("http" <= endpoint) && !("/" <= endpoint)
    ensures BuildUrl(apiUrl, "/" + endpoint) == BuildUrl(apiUrl, endpoint)
  {
    assert !("http" <= "/" + endpoint) by {
      assert ("/" + endpoint)[0] == '/';
    }
    assert "/" <= "/" + endpoint;
  }

  datatype Request = Request(url: string, headers: map<string, string>)

  /**
   * What `apiRequest(endpoint, { headers })` passes to `fetch`, with the
   * token read by `getToken`. A request carries an `Authorization` header
   * exactly when the caller gave one or a non-empty token is stored in a
   * browser window, and then the stored token wins.
   */
  function BuildRequest(apiUrl: string, endpoint: string, given: map<string, string>,
                        hasWindow: bool, storedToken: Option<string>): (r: Request)
    ensures r.url == BuildUrl(apiUrl, endpoint)
    ensures AuthorizationHeader in r.headers <==>
      (hasWindow && HasToken(storedToken)) || AuthorizationHeader in given
    ensures hasWindow && HasToken(storedToken) ==>
      r.headers[AuthorizationHeader] == BearerPrefix + storedToken.value
    ensures !hasWindow ==> r.headers == MergeHeaders(given, None)
    ensures forall k :: k in given && k != AuthorizationHeader ==> k in r.headers && r.headers[k] == given[k]
  {
    Request(BuildUrl(apiUrl, endpoint), MergeHeaders(given, GetToken(hasWindow, storedToken)))
  }

  /** The body as `response.json()` reads it: parsed JSON, or a rejection with a SyntaxError. */
  datatype Body = JsonText(value: Json) | Unparseable

  /** The parts of a fetch `Response` that `apiCall` reads; `contentType` is the header, if sent. */
  datatype Response = Response(ok: bool, status: nat, statusText: string, contentType: Option<string>, body: Body)

  /**
   * Why `apiCall` throws: an `Error` whose message is `String(cause)`, a
   * TypeError from reading `error` of a null body, or the SyntaxError of an
   * unparseable body.
   */
  datatype Failure = ErrorMessage(cause: Json) | TypeError | SyntaxError

  datatype ApiResult = Returned(data: Json) | Threw(failure: Failure)

  /** `contentType && contentType.includes('application/json')`. */
  predicate IsJson(r: Response) {
    r.contentType.Some? && r.contentType.value != "" && ContainsFrom(r.contentType.value, JsonMediaType, 0)
  }

  function StatusMessage(status: nat): string {
    "Request failed: " + NatToString(status)
  }

  /**
   * `apiCall` once the response has arrived. It returns only for an ok
   * response: `null` when the body is not JSON, the parsed body otherwise.
   * A failed JSON response throws with the body's `error` when that is
   * truthy, else with the status.
   */
  function CallResult(r: Response): (res: ApiResult)
    ensures res.Returned? <==> r.ok && (!IsJson(r) || r.body.JsonText?)
    ensures res.Returned? && !IsJson(r) ==> res.data == JNull
    ensures res.Returned? && IsJson(r) ==> res.data == r.body.value
    ensures !r.ok && !IsJson(r) ==>
      res == Threw(ErrorMessage(JStr(StatusMessage(r.status) + " " + r.statusText)))
    ensures !r.ok && IsJson(r) && r.body.JsonText? && r.body.value != JNull ==>
      res == Threw(ErrorMessage(
        if TruthyOpt(Field(r.body.value, "error")) then Field(r.body.value, "error").value
        else JStr(StatusMessage(r.status))))
    ensures !r.ok && IsJson(r) && r.body == JsonText(JNull) ==> res == Threw(TypeError)
    ensures IsJson(r) && r.body.Unparseable? ==> res == Threw(SyntaxError)
  {
    if !IsJson(r) then
      if !r.ok then Threw(ErrorMessage(JStr(StatusMessage(r.status) + " " + r.statusText))) else Returned(JNull)
    else
      match r.body
      case Unparseable => Threw(SyntaxError)
      case JsonText(data) =>
        if !r.ok then
          if data == JNull then Threw(TypeError)
          else
            var error := Field(data, "error");
            Threw(ErrorMessage(if TruthyOpt(error) then error.value else JStr(StatusMessage(r.status))))
        else Returned(data)
  }
}
