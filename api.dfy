/** The desktop client's HTTP layer: how an answer of the server becomes a
    value or an exception, the URL and query parameters of each call, and
    the authorization header. What travels over the network is a parameter:
    a Transport value says how one attempt ended. */
module Api {
  import opened Wrappers
  import opened PyText
  import opened Json
  import opened Ledger

  /** The body of an answer: its text and, when that text is a JSON
      document, the parsed value. */
  datatype Body = Body(text: string, parsed: Option<Json>)

  datatype Response = Response(status: nat, body: Body)

  /** How one request ended: the transport raised (refused, timed out), or
      the server answered. */
  datatype Transport = TransportFailed(reason: string) | Answered(response: Response)

  /** What _extract_error reports after the status code. */
  datatype ErrorDetail = RawText(text: string) | DetailValue(value: Json)

  /** The exceptions a call raises. ClientError is ApiClientError,
      ConnectionError its subclass ApiConnectionError; Crash is any other
      exception (a 2xx body that is not JSON, an answer that from_dict
      cannot read), which no handler of ApiClientError catches. */
  datatype Raised =
    | ClientError(status: nat, detail: ErrorDetail)
    | ConnectionError(reason: string)
    | Crash(failure: Failure)

  /** isinstance(e, ApiClientError): the subclass ApiConnectionError is one. */
  predicate IsApiClientError(e: Raised) {
    e.ClientError? || e.ConnectionError?
  }

  /** _extract_error: the detail of a dict body, any other JSON body as it
      is, or the raw text when the body is not JSON. */
  function ExtractError(r: Response): (d: ErrorDetail)
    ensures r.body.parsed.None? <==> d == RawText(r.body.text)
    ensures (r.body.parsed.Some? && r.body.parsed.value.JObj?)
            ==> d == DetailValue(Lookup(r.body.parsed.value.fields, "detail", JNull))
    ensures (r.body.parsed.Some? && !r.body.parsed.value.JObj?) ==> d == DetailValue(r.body.parsed.value)
  {
    match r.body.parsed
    case None => RawText(r.body.text)
    case Some(payload) =>
      if payload.JObj? then DetailValue(Lookup(payload.fields, "detail", JNull)) else DetailValue(payload)
  }

  /** The message of an ApiClientError: "HTTP {status}: {detail}". A detail
      whose str() the model does not render gives NotModelled. */
  function ErrorMessage(status: nat, d: ErrorDetail): (r: Result<string, Failure>)
    ensures d.RawText? ==> r == Ok("HTTP " + NatText(status) + ": " + d.text)
  {
    var text :- match d
      case RawText(t) => Ok(t)
      case DetailValue(v) => PyStr(v);
    Ok("HTTP " + NatText(status) + ": " + text)
  }

  /** The status code can be read back from the front of the message. */
  lemma ErrorMessageStatus(status: nat, d: ErrorDetail, m: string)
    requires ErrorMessage(status, d) == Ok(m)
    ensures m[..5] == "HTTP "
    ensures ParseInt(m[5..5 + |NatText(status)|]) == Ok(status)
    ensures m[5 + |NatText(status)|..7 + |NatText(status)|] == ": "
  {
    var text: string := if d.RawText? then d.text else PyStr(d.value).value;
    assert m == "HTTP " + NatText(status) + ": " + text;
    MessageParts(NatText(status), text, m);
    ParseIntNatText(status);
  }

  /** "HTTP ", the digits and ": " can be cut back out of a message. */
  lemma MessageParts(digits: string, text: string, m: string)
    requires m == "HTTP " + digits + ": " + text
    ensures m[..5] == "HTTP "
    ensures m[5..5 + |digits|] == digits
    ensures m[5 + |digits|..7 + |digits|] == ": "
  {
  }

  /** _request after the transport: a transport exception becomes
      ApiConnectionError; a status of 400 or more becomes ApiClientError;
      204 or an empty body is None; any other body is parsed, and a body
      that is not JSON raises ValueError. */
  function Classify(t: Transport): (r: Result<Json, Raised>)
    ensures t.TransportFailed? ==> r == Err(ConnectionError(t.reason))
    ensures r.Err? && r.error.ConnectionError? ==> t.TransportFailed?
    ensures (r.Err? && r.error.ClientError?) <==> (t.Answered? && t.response.status >= 400)
    ensures r.Err? && r.error.ClientError? ==>
      r.error.status == t.response.status && r.error.detail == ExtractError(t.response)
    ensures (t.Answered? && t.response.status < 400 && (t.response.status == 204 || t.response.body.text == []))
            ==> r == Ok(JNull)
    ensures r.Err? ==> IsApiClientError(r.error) || r.error == Crash(ValueError)
  {
    match t
    case TransportFailed(reason) => Err(ConnectionError(reason))
    case Answered(resp) =>
      if resp.status >= 400 then Err(ClientError(resp.status, ExtractError(resp)))
      else if resp.status == 204 then Ok(JNull)
      else if resp.body.text == [] then Ok(JNull)
      else match resp.body.parsed
        case Some(v) => Ok(v)
        case None => Err(Crash(ValueError))
  }

  /** A successful answer with a JSON body returns exactly that body. */
  lemma ClassifyBody(resp: Response)
    requires resp.status < 400 && resp.status != 204 && resp.body.text != []
    ensures resp.body.parsed.Some? ==> Classify(Answered(resp)) == Ok(resp.body.parsed.value)
    ensures resp.body.parsed.None? ==> Classify(Answered(resp)) == Err(Crash(ValueError))
  {
  }

  /** _build_url: the base without its trailing slashes, then the path with
      one leading slash added if it has none. */
  function BuildUrl(base: string, path: string): (url: string)
    ensures var root := RStripChar(base, '/');
      && |root| <= |url| && url[..|root|] == root
      && url[|root|..] == (if StartsWith(path, '/') then path else "/" + path)
      && url[|root|] == '/'
  {
    var root := RStripChar(base, '/');
    var p := if StartsWith(path, '/') then path else "/" + path;
    assert (root + p)[..|root|] == root && (root + p)[|root|..] == p;
    root + p
  }

  /** A missing leading slash in the path and extra trailing slashes in the
      base do not change the URL. */
  lemma BuildUrlNormalises(base: string, path: string)
    ensures !StartsWith(path, '/') ==> BuildUrl(base, path) == BuildUrl(base, "/" + path)
    ensures BuildUrl(base + "/", path) == BuildUrl(base, path)
  {
    assert (base + "/")[..|base + "/"| - 1] == base;
  }

  /** The headers after set_auth: without credentials the Authorization
      header is popped (absent or not), with them it is "Bearer " and the
      token. */
  function AuthHeaders(headers: map<string, string>, token: Option<string>): (r: map<string, string>)
    ensures token.None? ==> "Authorization" !in r
    ensures token.Some? ==> "Authorization" in r && r["Authorization"] == "Bearer " + token.value
    ensures forall k :: k != "Authorization" ==> (k in r <==> k in headers)
    ensures forall k :: k != "Authorization" && k in r ==> r[k] == headers[k]
  {
    match token
    case None => headers - {"Authorization"}
    case Some(t) => headers["Authorization" := "Bearer " + t]
  }

  /** Signing out after signing in leaves the headers as they were apart
      from the Authorization header. */
  lemma SignOutAfterSignIn(headers: map<string, string>, token: string)
    ensures AuthHeaders(AuthHeaders(headers, Some(token)), None) == headers - {"Authorization"}
    ensures AuthHeaders(AuthHeaders(headers, None), Some(token)) == AuthHeaders(headers, Some(token))
  {
  }

  /** The client's session: the configured base URL, the token and the
      session headers. */
  class ApiClient {
    const apiUrl: string
    var token: Option<string>
    var headers: map<string, string>

    /** A fresh client sends Accept: application/json and no credentials. */
    constructor (apiUrl: string)
      ensures this.apiUrl == apiUrl
      ensures token == None && headers == map["Accept" := "application/json"]
    {
      this.apiUrl := apiUrl;
      token := None;
      headers := map["Accept" := "application/json"];
    }

    /** set_auth: the access token of the login answer, or None to sign out. */
    method SetAuth(auth: Option<string>)
      modifies this
      ensures token == auth
      ensures headers == AuthHeaders(old(headers), auth)
    {
      match auth
      case None =>
        token := None;
        headers := headers - {"Authorization"};
      case Some(t) =>
        token := Some(t);
        headers := headers["Authorization" := "Bearer " + t];
    }
  }

  /** One request: verb, full URL, query parameters and JSON body. */
  datatype Request = Request(verb: string, url: string, params: map<string, string>, body: Option<Json>)

  /** The query of list_bets: each bound only when given and not empty. */
  function ListParams(start: Option<string>, end: Option<string>): (r: map<string, string>)
    ensures "start" in r <==> start.Some? && start.value != []
    ensures "end" in r <==> end.Some? && end.value != []
    ensures "start" in r ==> r["start"] == start.value
    ensures "end" in r ==> r["end"] == end.value
    ensures r.Keys <= {"start", "end"}
  {
    var withStart := if start.Some? && start.value != [] then map["start" := start.value] else map[];
    if end.Some? && end.value != [] then withStart["end" := end.value] else withStart
  }

  /** The query of sync: since, in ISO form, whenever it is given (a
      datetime is always true). */
  function SyncParams(since: Option<Timestamp>): (r: map<string, string>)
    ensures "since" in r <==> since.Some?
    ensures since.Some? ==> r["since"] == TimestampText(since.value)
    ensures r.Keys <= {"since"}
  {
    match since
    case None => map[]
    case Some(t) => map["since" := TimestampText(t)]
  }

  function ListBetsRequest(base: string, start: Option<string>, end: Option<string>): Request {
    Request("GET", BuildUrl(base, "/bets"), ListParams(start, end), None)
  }

  function CreateBetRequest(base: string, b: Bet): Request {
    Request("POST", BuildUrl(base, "/bets"), map[], Some(BetToPayload(b)))
  }

  function UpdateBetRequest(base: string, betId: string, patch: Json): Request {
    Request("PATCH", BuildUrl(base, "/bets/" + betId), map[], Some(patch))
  }

  function DeleteBetRequest(base: string, betId: string): Request {
    Request("DELETE", BuildUrl(base, "/bets/" + betId), map[], None)
  }

  function SyncRequest(base: string, since: Option<Timestamp>): Request {
    Request("GET", BuildUrl(base, "/sync"), SyncParams(since), None)
  }

  /** What each call sends, with the URL written out: the base without its
      trailing slashes, then the path. Only create_bet and update_bet send a
      body, and only list_bets and sync a query. */
  lemma RequestTargets(base: string, start: Option<string>, end: Option<string>,
                       b: Bet, betId: string, patch: Json, since: Option<Timestamp>)
    ensures var root := RStripChar(base, '/');
      ListBetsRequest(base, start, end) == Request("GET", root + "/bets", ListParams(start, end), None)
    ensures var root := RStripChar(base, '/');
      CreateBetRequest(base, b) == Request("POST", root + "/bets", map[], Some(BetToPayload(b)))
    ensures var root := RStripChar(base, '/');
      UpdateBetRequest(base, betId, patch) == Request("PATCH", root + "/bets/" + betId, map[], Some(patch))
    ensures var root := RStripChar(base, '/');
      DeleteBetRequest(base, betId) == Request("DELETE", root + "/bets/" + betId, map[], None)
    ensures var root := RStripChar(base, '/');
      SyncRequest(base, since) == Request("GET", root + "/sync", SyncParams(since), None)
  {
    var root := RStripChar(base, '/');
    UrlUnder(base, "/bets");
    UrlUnder(base, "/bets/" + betId);
    assert root + "/bets/" + betId == root + ("/bets/" + betId);
    UrlUnder(base, "/sync");
  }

  /** A path with its leading slash is appended to the stripped base as it is. */
  lemma UrlUnder(base: string, path: string)
    requires StartsWith(path, '/')
    ensures BuildUrl(base, path) == RStripChar(base, '/') + path
  {
    var url, root := BuildUrl(base, path), RStripChar(base, '/');
    assert url == url[..|root|] + url[|root|..];
  }

  /** create_bet and update_bet after the answer: the returned dict read as
      a bet; an answer from_dict cannot read raises its exception. */
  function BetReply(t: Transport, now: Timestamp): (r: Result<Bet, Raised>)
    ensures r.Ok? ==> exists v :: Classify(t) == Ok(v) && BetFromDict(v, now) == Ok(r.value)
    ensures Classify(t).Err? ==> r == Err(Classify(t).error)
  {
    match Classify(t)
    case Err(e) => Err(e)
    case Ok(v) =>
      match BetFromDict(v, now)
      case Err(f) => Err(Crash(f))
      case Ok(b) => Ok(b)
  }

  /** list_bets after the answer: each item of the returned list read as a
      bet, in order. */
  function BetsReply(t: Transport, now: Timestamp): (r: Result<seq<Bet>, Raised>)
    ensures Classify(t).Err? ==> r == Err(Classify(t).error)
    ensures (Classify(t).Ok? && Classify(t).value.JArr?) ==>
      (r.Ok? <==> TryMap(Classify(t).value.items, BetReader(now)).Ok?)
  {
    match Classify(t)
    case Err(e) => Err(e)
    case Ok(v) =>
      match BetsOf(v, now)
      case Err(f) => Err(Crash(f))
      case Ok(bs) => Ok(bs)
  }

  /** delete_bet after the answer: the value is discarded. */
  function DeleteReply(t: Transport): (r: Result<(), Raised>)
    ensures r.Ok? <==> Classify(t).Ok?
    ensures r.Err? ==> r.error == Classify(t).error
  {
    match Classify(t)
    case Err(e) => Err(e)
    case Ok(_) => Ok(())
  }

  /** A create answered with the payload echoed back returns the very bet
      that was sent when the server also echoes the timestamps. */
  lemma CreateEcho(b: Bet, resp: Response, now: Timestamp)
    requires resp.status < 400 && resp.status != 204 && resp.body.text != []
    requires resp.body.parsed == Some(BetToDict(b))
    ensures BetReply(Answered(resp), now) == Ok(b)
  {
    BetRoundTrip(b, now);
  }
}
