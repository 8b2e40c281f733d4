/**
 * The `authenticate` middleware of the API server. It reads the
 * `Authorization` header, verifies the Bearer token and checks that the user
 * still exists. On success it sets `req.user` and calls `next()` once;
 * otherwise it answers with a status and an `{ error }` body. Token
 * verification and the user query are outside the model: each is a
 * function-typed parameter that gives the outcome the middleware reacts to.
 */
module AuthMiddleware {
  import opened JsValues
  import opened JsText
  import ApiClient

  const NoHeaderMessage := "No authorization header provided"
  const BadFormatMessage := "Invalid authorization header format. Expected: Bearer <token>"
  const NoTokenMessage := "No token provided"
  const ExpiredMessage := "Token has expired"
  const InvalidTokenMessage := "Invalid token"
  const UserNotFoundMessage := "User not found"
  const FailedMessage := "Authentication failed"

  /**
   * What `jwt.verify` does with a token: returns a payload (of which only
   * `id` is read, `None` when absent), or throws a `TokenExpiredError`, a
   * `JsonWebTokenError`, or any other error.
   */
  datatype VerifyOutcome = Decoded(id: Option<Json>) | ExpiredError | MalformedError | OtherError

  /** A row of `SELECT id, name, email, role FROM users WHERE id = $1`. */
  datatype UserRow = UserRow(id: Json, name: Json, email: Json, role: Json)

  /** The user query: its rows, or a rejected query. */
  datatype LookupOutcome = Rows(rows: seq<UserRow>) | QueryFailed

  /** What the middleware does: send `status` with `{ error: message }`, or set `req.user` and call `next()`. */
  datatype Decision = Reject(status: nat, message: string) | Accept(user: UserRow)

  /** The header checks that come before verification. */
  datatype HeaderCheck = TokenFound(token: string) | HeaderRejected(message: string)

  /**
   * The three 401 checks on the header: it must be present and non-empty,
   * split on spaces into exactly `Bearer` and one more piece, and that piece
   * must be non-empty.
   */
  function CheckHeader(header: Option<string>): (c: HeaderCheck)
    ensures c == HeaderRejected(NoHeaderMessage) <==> header.None? || header == Some("")
    ensures c == HeaderRejected(NoTokenMessage) ==> header == Some(ApiClient.BearerPrefix)
    ensures c.HeaderRejected? ==> c.message in {NoHeaderMessage, BadFormatMessage, NoTokenMessage}
    ensures c.TokenFound? ==>
      header == Some(ApiClient.BearerPrefix + c.token) && c.token != "" && ' ' !in c.token
  {
    if header.None? || header.value == "" then HeaderRejected(NoHeaderMessage)
    else
      var parts := Split(header.value, ' ');
      if |parts| != 2 || parts[0] != "Bearer" then HeaderRejected(BadFormatMessage)
      else
        assert Join(parts[1..], ' ') == parts[1];
        assert "Bearer" + [' '] == ApiClient.BearerPrefix;
        assert header.value == ApiClient.BearerPrefix + parts[1];
        if parts[1] == "" then
          assert header.value == ApiClient.BearerPrefix;
          HeaderRejected(NoTokenMessage)
        else TokenFound(parts[1])
  }

  /** `Bearer <token>` splits into exactly those two pieces when the token has no space. */
  lemma BearerSplit(token: string)
    requires ' ' !in token
    ensures Split(ApiClient.BearerPrefix + token, ' ') == ["Bearer", token]
  {
    var parts := ["Bearer", token];
    assert Join(parts, ' ') == ApiClient.BearerPrefix + token;
    SplitUnique(parts, ' ');
  }

  /**
   * The header every client token produces: accepted exactly when the token
   * is non-empty and free of spaces, "No token provided" for the empty one,
   * and a format error for a token with a space in it.
   */
  lemma {:induction false} CheckBearerHeader(token: string)
    ensures CheckHeader(Some(ApiClient.BearerPrefix + token)) ==
      if token == "" then HeaderRejected(NoTokenMessage)
      else if ' ' in token then HeaderRejected(BadFormatMessage)
      else TokenFound(token)
  {
    if ' ' !in token {
      BearerSplit(token);
    } else {
      var h := ApiClient.BearerPrefix + token;
      assert |h| > |ApiClient.BearerPrefix|;
      assert forall t :: h == ApiClient.BearerPrefix + t ==> t == h[|ApiClient.BearerPrefix|..] == token;
    }
  }

  /** Every accepted header is the one the client builds for the token found in it. */
  lemma AcceptedHeaderIsBearer(header: Option<string>)
    requires CheckHeader(header).TokenFound?
    ensures var t := CheckHeader(header).token;
      ApiClient.HasToken(Some(t)) &&
      ApiClient.MergeHeaders(map[], Some(t))[ApiClient.AuthorizationHeader] == header.value
  {
  }

  /**
   * Round trip with the browser client: the `Authorization` header it sends
   * for a stored token without spaces, whatever the caller's own headers,
   * yields that same token here.
   */
  lemma BearerRoundTrip(given: map<string, string>, token: string)
    requires token != "" && ' ' !in token
    ensures var h := ApiClient.MergeHeaders(given, Some(token));
      && ApiClient.AuthorizationHeader in h
      && CheckHeader(Some(h[ApiClient.AuthorizationHeader])) == TokenFound(token)
  {
    CheckBearerHeader(token);
  }

  /** The user `authenticate` accepts for a token: verified payload, then the first row found for its `id`. */
  ghost predicate AcceptsWith(header: Option<string>, verify: string -> VerifyOutcome,
                              lookup: Option<Json> -> LookupOutcome, row: UserRow)
  {
    var c := CheckHeader(header);
    && c.TokenFound?
    && verify(c.token).Decoded?
    && lookup(verify(c.token).id).Rows?
    && |lookup(verify(c.token).id).rows| > 0
    && lookup(verify(c.token).id).rows[0] == row
  }

  /** A failure of the verifier or of the query that the outer `catch` turns into a 500. */
  ghost predicate ServerFailure(header: Option<string>, verify: string -> VerifyOutcome,
                                lookup: Option<Json> -> LookupOutcome)
  {
    var c := CheckHeader(header);
    && c.TokenFound?
    && (verify(c.token).OtherError? || (verify(c.token).Decoded? && lookup(verify(c.token).id).QueryFailed?))
  }

  /**
   * The whole decision of `authenticate`. A request passes only with a
   * well-formed, verified token whose user row exists, and then carries
   * exactly that row; a failing verifier or query gives 500, every other
   * refusal 401 with the message of the check that failed.
   */
  function Decide(header: Option<string>, verify: string -> VerifyOutcome,
                  lookup: Option<Json> -> LookupOutcome): (d: Decision)
    ensures d.Accept? <==> exists row :: AcceptsWith(header, verify, lookup, row)
    ensures d.Accept? ==> AcceptsWith(header, verify, lookup, d.user)
    ensures d.Reject? ==> (d.status == 500 <==> ServerFailure(header, verify, lookup))
    ensures d.Reject? ==> d.status == 401 || d.message == FailedMessage
    ensures d.Reject? && d.status == 500 ==> d.message == FailedMessage
    ensures CheckHeader(header).HeaderRejected? ==> d == Reject(401, CheckHeader(header).message)
    ensures CheckHeader(header).TokenFound? && verify(CheckHeader(header).token).ExpiredError? ==>
      d == Reject(401, ExpiredMessage)
    ensures CheckHeader(header).TokenFound? && verify(CheckHeader(header).token).MalformedError? ==>
      d == Reject(401, InvalidTokenMessage)
    ensures CheckHeader(header).TokenFound? && verify(CheckHeader(header).token).Decoded? &&
            lookup(verify(CheckHeader(header).token).id) == Rows([]) ==>
      d == Reject(401, UserNotFoundMessage)
  {
    match CheckHeader(header)
    case HeaderRejected(message) => Reject(401, message)
    case TokenFound(token) =>
      match verify(token)
      case ExpiredError => Reject(401, ExpiredMessage)
      case MalformedError => Reject(401, InvalidTokenMessage)
      case OtherError => Reject(500, FailedMessage)
      case Decoded(id) =>
        match lookup(id)
        case QueryFailed => Reject(500, FailedMessage)
        case Rows(rows) =>
          if |rows| == 0 then Reject(401, UserNotFoundMessage)
          else assert AcceptsWith(header, verify, lookup, rows[0]); Accept(rows[0])
  }

  /** A rejected header is answered without consulting the verifier or the database. */
  lemma RejectedHeaderSkipsOracles(header: Option<string>,
                                   verify1: string -> VerifyOutcome, lookup1: Option<Json> -> LookupOutcome,
                                   verify2: string -> VerifyOutcome, lookup2: Option<Json> -> LookupOutcome)
    requires CheckHeader(header).HeaderRejected?
    ensures Decide(header, verify1, lookup1) == Decide(header, verify2, lookup2)
  {
  }

  /** The verifier is asked about the header's token alone, and the database only about the verified `id`. */
  lemma OnlyTokenAndIdMatter(header: Option<string>,
                             verify1: string -> VerifyOutcome, lookup1: Option<Json> -> LookupOutcome,
                             verify2: string -> VerifyOutcome, lookup2: Option<Json> -> LookupOutcome)
    requires CheckHeader(header).TokenFound?
    requires verify1(CheckHeader(header).token) == verify2(CheckHeader(header).token)
    requires verify1(CheckHeader(header).token).Decoded? ==>
      lookup1(verify1(CheckHeader(header).token).id) == lookup2(verify1(CheckHeader(header).token).id)
    ensures Decide(header, verify1, lookup1) == Decide(header, verify2, lookup2)
  {
  }

  /** The request and response of one call to `authenticate`. */
  class Exchange {
    /** `req.user`, set only on success. */
    var user: Option<UserRow>
    /** The status sent with `res.status(...)`, if any. */
    var status: Option<nat>
    /** The `error` of the JSON body sent, if any. */
    var errorBody: Option<string>
    /** How many times `next()` was called. */
    var nextCalls: nat

    constructor()
      ensures user == None && status == None && errorBody == None && nextCalls == 0
    {
      user := None;
      status := None;
      errorBody := None;
      nextCalls := 0;
    }

    /**
     * `authenticate(req, res, next)`, step by step. Either it answers, leaving
     * `req.user` and `next` alone, or it sets `req.user` and calls `next()`
     * once without answering; which one is what `Decide` says.
     */
    method Authenticate(header: Option<string>, verify: string -> VerifyOutcome,
                        lookup: Option<Json> -> LookupOutcome)
      modifies this`user, this`status, this`errorBody, this`nextCalls
      ensures Decide(header, verify, lookup).Accept? ==>
        && user == Some(Decide(header, verify, lookup).user)
        && nextCalls == old(nextCalls) + 1
        && status == old(status) && errorBody == old(errorBody)
      ensures Decide(header, verify, lookup).Reject? ==>
        && status == Some(Decide(header, verify, lookup).status)
        && errorBody == Some(Decide(header, verify, lookup).message)
        && user == old(user) && nextCalls == old(nextCalls)
    {
      if header.None? || header.value == "" {
        status, errorBody := Some(401), Some(NoHeaderMessage);
        return;
      }
      var parts := Split(header.value, ' ');
      if |parts| != 2 || parts[0] != "Bearer" {
        status, errorBody := Some(401), Some(BadFormatMessage);
        return;
      }
      var token := parts[1];
      if token == "" {
        status, errorBody := Some(401), Some(NoTokenMessage);
        return;
      }
      var decoded := verify(token);
      if decoded.ExpiredError? {
        status, errorBody := Some(401), Some(ExpiredMessage);
        return;
      }
      if decoded.MalformedError? {
        status, errorBody := Some(401), Some(InvalidTokenMessage);
        return;
      }
      if decoded.OtherError? {
        status, errorBody := Some(500), Some(FailedMessage);
        return;
      }
      var result := lookup(decoded.id);
      if result.QueryFailed? {
        status, errorBody := Some(500), Some(FailedMessage);
        return;
      }
      if |result.rows| == 0 {
        status, errorBody := Some(401), Some(UserNotFoundMessage);
        return;
      }
      var first := result.rows[0];
      user := Some(UserRow(first.id, first.name, first.email, first.role));
      nextCalls := nextCalls + 1;
    }
  }
}
