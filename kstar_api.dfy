/** The vendor-cloud client of the integration (custom_components/kstar_solar/kstar_api.py).

    The client holds an access token, a refresh token, a header dictionary
    and a session slot. It can exchange the refresh token for a new access
    token, and it can fetch the station snapshot with a single GET that is
    retried once, after one refresh, when the GET fails at the client or
    HTTP level.

    Nothing here talks to a network. The reply each request would receive is
    an input (`GetOutcome`, `TokenOutcome`), and every request the client
    makes is appended to a log (`sent`), so that "how many requests, of which
    kind, carrying which headers" is part of the state.

    The pure functions `Init`, `SessionFor`, `Refresh`, `Fetch` and
    `CloseSession` are the specification; the class `KstarSolarApi` runs the
    same steps imperatively on its fields and proves that it agrees with them. */
module KstarApi {
  import opened Basics
  import opened Text

  type Headers = map<string, string>

  /** A JSON value as it sits in the station snapshot. */
  datatype Raw =
    | JsonNull
    | JsonNumber(x: real)
    | JsonString(s: string)
    | JsonBool(b: bool)
    | JsonComposite          // a list or an object

  /** The `data` object of a station reply: metric key to raw value. */
  type Snapshot = map<string, Raw>

  const StationDetailUrl := "/prod-api/station/detail/earn"
  const TokenPath := "/prod-api/oauth/token"

  /** Base64 (section 4 of RFC 4648) of the fixed client credential
      "kstar:kstarSecret", kept as an opaque constant. */
  const BasicCredential := "a3N0YXI6a3N0YXJTZWNyZXQ="

  /** The header dictionary every new client starts with. */
  const DefaultHeaders: Headers := map[
    "Accept" := "application/json, text/plain, */*",
    "Accept-Language" := "zh-CN,zh;q=0.9",
    "Cache-Control" := "no-cache",
    "Pragma" := "no-cache",
    "User-Agent" := "Mozilla/5.0 (Windows NT 10.0; Win64; x64) AppleWebKit/537.36 (KHTML, like Gecko) Chrome/138.0.0.0 Safari/537.36"
  ]

  /** An HTTP session. Its default headers are a copy of the client's header
      dictionary taken when the session was created; later changes to the
      dictionary do not reach it. `id` tells sessions apart. */
  datatype Session = Session(id: nat, headers: Headers, closed: bool)

  /** A request as it leaves the client, with the headers it carries (the
      session's defaults overridden by the per-request headers). */
  datatype Request =
    | StationGet(url: string, stationId: string, headers: Headers)
    | TokenPost(url: string, form: map<string, string>, headers: Headers)

  /** Why a request failed below the application level: the transport
      failed, or the reply status made `raise_for_status` raise (400 and up). */
  datatype ClientFailure = Transport | HttpStatus(status: int)

  /** The decoded body of a station reply. */
  datatype StationBody = StationBody(code: Field<int>, data: Field<Snapshot>, message: Field<string>)

  /** What a station GET receives. */
  datatype GetOutcome = GetUnreachable | GetReply(status: int, body: StationBody)

  /** The `refreshToken` key of a token reply: missing; a value that
      `"value" in ...` cannot search (null or a number), which raises a
      TypeError; or a searchable value whose own `value` key is given. */
  datatype RotatedToken = NotOffered | Unsearchable | Offered(value: Field<string>)

  /** The decoded body of a token reply. */
  datatype TokenBody = TokenBody(value: Field<string>, refreshToken: RotatedToken, errorDescription: Field<string>)

  /** What the token POST receives. */
  datatype TokenOutcome = TokenUnreachable | TokenReply(status: int, body: TokenBody)

  /** The exceptions the client lets escape. */
  datatype ApiError =
    | MissingRefreshToken                 // no refresh token held
    | RequestFailed(failure: ClientFailure) // a client error raised by the token POST, re-raised
    | TokenRejected(description: string)  // token reply without `value`
    | MalformedTokenReply                 // TypeError on an unsearchable `refreshToken`
    | StationFailed(message: string)      // station reply whose `code` is not 200
    | RetryFailed(cause: ApiError)        // whatever the retried GET raised, wrapped

  /** The client's state: the fields of the Python object plus the number of
      sessions opened so far and the log of requests sent. */
  datatype Client = Client(
    host: string,
    stationId: string,
    accessToken: Option<string>,
    refreshToken: Option<string>,
    headers: Headers,
    session: Option<Session>,
    sessionsOpened: nat,
    sent: seq<Request>)

  /** The client as the constructor leaves it: trailing slashes stripped from
      the host, no access token, no session, nothing sent. */
  function Init(host: string, stationId: string, refreshToken: string): (c: Client)
    ensures c.host == StripTrailingSlashes(host) && !EndsWith(c.host, "/")
    ensures c.stationId == stationId && c.refreshToken == Some(refreshToken)
    ensures c.accessToken == None && "Authorization" !in c.headers
    ensures c.session == None && c.sent == []
  {
    Client(StripTrailingSlashes(host), stationId, None, Some(refreshToken), DefaultHeaders, None, 0, [])
  }

  /** The session slot holds a session nobody has closed. */
  predicate HasOpenSession(c: Client) {
    c.session.Some? && !c.session.value.closed
  }

  /** `_get_session`: reuse the open session, or open a new one whose
      default headers are a copy of the current header dictionary. */
  function SessionFor(c: Client): (r: (Client, Session))
    ensures r.0.session == Some(r.1) && !r.1.closed
    ensures HasOpenSession(c) ==> r == (c, c.session.value)
    ensures !HasOpenSession(c) ==>
      r.1 == Session(c.sessionsOpened, c.headers, false) && r.0.sessionsOpened == c.sessionsOpened + 1
    ensures r.0 == c.(session := r.0.session, sessionsOpened := r.0.sessionsOpened)
  {
    if c.session.None? || c.session.value.closed then
      var s := Session(c.sessionsOpened, c.headers, false);
      (c.(session := Some(s), sessionsOpened := c.sessionsOpened + 1), s)
    else
      (c, c.session.value)
  }

  /** `close`: close the session only when one is open. */
  function CloseSession(c: Client): (c': Client)
    ensures !HasOpenSession(c')
    ensures HasOpenSession(c) ==> c' == c.(session := Some(c.session.value.(closed := true)))
    ensures !HasOpenSession(c) ==> c' == c
  {
    if c.session.Some? && !c.session.value.closed then
      c.(session := Some(c.session.value.(closed := true)))
    else
      c
  }

  /** `if not self.refresh_token`: neither None nor the empty string. */
  predicate HasRefreshToken(c: Client) {
    c.refreshToken.Some? && c.refreshToken.value != ""
  }

  /** The Authorization header value for an access token; Python formats a
      missing token as "None". */
  function Bearer(token: Option<string>): string {
    "bearer " + (if token.Some? then token.value else "None")
  }

  /** The per-request headers of the token POST: the current header
      dictionary with the Basic credential, the form content type, and the
      host as Origin and Referer. */
  function TokenHeaders(c: Client): Headers {
    c.headers + map[
      "Authorization" := "Basic " + BasicCredential,
      "Content-Type" := "application/x-www-form-urlencoded",
      "Origin" := c.host,
      "Referer" := c.host + "/"
    ]
  }

  /** The token POST sent over session `s`. */
  function TokenRequest(c: Client, s: Session): Request
    requires c.refreshToken.Some?
  {
    TokenPost(c.host + TokenPath,
              map["grant_type" := "refresh_token", "refresh_token" := c.refreshToken.value],
              s.headers + TokenHeaders(c))
  }

  /** The station GET sent over session `s`: it carries the session's
      default headers only. */
  function StationRequest(c: Client, s: Session): Request {
    StationGet(c.host + StationDetailUrl, c.stationId, s.headers)
  }

  /** `_get_access_token_from_refresh_token`. */
  function Refresh(c: Client, reply: TokenOutcome): (r: (Client, Outcome<ApiError>))
    ensures r.0.host == c.host && r.0.stationId == c.stationId
    ensures |c.sent| <= |r.0.sent| <= |c.sent| + 1 && r.0.sent[..|c.sent|] == c.sent
    ensures r.1.Pass? ==> r.0.headers == c.headers["Authorization" := Bearer(r.0.accessToken)]
  {
    if !HasRefreshToken(c) then (c, Fail(MissingRefreshToken))
    else
      var (c1, s) := SessionFor(c);
      var c2 := c1.(sent := c1.sent + [TokenRequest(c1, s)]);
      match reply
      case TokenUnreachable => (c2, Fail(RequestFailed(Transport)))
      case TokenReply(status, body) =>
        if status >= 400 then (c2, Fail(RequestFailed(HttpStatus(status))))
        else if body.value.Absent? then (c2, Fail(TokenRejected(TextOr(body.errorDescription, "Unknown error"))))
        else
          var token := if body.value.Present? then Some(body.value.v) else None;
          var c3 := c2.(accessToken := token);
          match body.refreshToken
          case Unsearchable => (c3, Fail(MalformedTokenReply))
          case NotOffered => (c3.(headers := c3.headers["Authorization" := Bearer(token)]), Pass)
          case Offered(v) =>
            var rotated := if v.Present? then Some(v.v) else if v.Null? then None else c3.refreshToken;
            (c3.(refreshToken := rotated, headers := c3.headers["Authorization" := Bearer(token)]), Pass)
  }

  /** What the body of a station reply makes of it: a client failure for an
      unreachable host or a status of 400 and up, a `StationFailed` for a
      `code` other than 200, and otherwise the `data` field. */
  function StationResult(o: GetOutcome): (r: Result<Option<Snapshot>, ApiError>)
    ensures r.Failure? && r.error.RequestFailed? <==> IsClientFailure(o)
    ensures r.Failure? ==> r.error.RequestFailed? || r.error.StationFailed?
    ensures o.GetReply? && o.status < 400 && o.body.code == Present(200) ==>
      r == Success(DataOf(o.body.data))
    ensures o.GetReply? && o.status < 400 && o.body.code != Present(200) ==>
      r == Failure(StationFailed(TextOr(o.body.message, "Unknown error")))
  {
    match o
    case GetUnreachable => Failure(RequestFailed(Transport))
    case GetReply(status, body) =>
      if status >= 400 then Failure(RequestFailed(HttpStatus(status)))
      else if body.code != Present(200) then Failure(StationFailed(TextOr(body.message, "Unknown error")))
      else Success(DataOf(body.data))
  }

  /** The GET failed in a way `except aiohttp.ClientError` catches. */
  predicate IsClientFailure(o: GetOutcome) {
    o.GetUnreachable? || o.status >= 400
  }

  /** `data.get("data", {})`: a missing key gives the empty snapshot, a
      `null` gives no snapshot at all. */
  function DataOf(f: Field<Snapshot>): (r: Option<Snapshot>)
    ensures f.Absent? ==> r == Some(map[])
    ensures f.Null? ==> r == None
    ensures f.Present? ==> r == Some(f.v)
  {
    match f
    case Absent => Some(map[])
    case Null => None
    case Present(d) => Some(d)
  }

  /** `get_station_data`: one GET; on a client failure one refresh and one
      retried GET, whose failure is wrapped in `RetryFailed`. The replies
      `token` and `retry` are consumed only when those requests are made. */
  function Fetch(c: Client, first: GetOutcome, token: TokenOutcome, retry: GetOutcome)
    : (r: (Client, Result<Option<Snapshot>, ApiError>))
    ensures r.0.host == c.host && r.0.stationId == c.stationId
    ensures |c.sent| + 1 <= |r.0.sent| <= |c.sent| + 3 && r.0.sent[..|c.sent|] == c.sent
    ensures r.1.Success? ==> r.1 == StationResult(first) || r.1 == StationResult(retry)
  {
    var (c1, s) := SessionFor(c);
    var c2 := c1.(sent := c1.sent + [StationRequest(c1, s)]);
    if !IsClientFailure(first) then (c2, StationResult(first))
    else
      var (c3, o) := Refresh(c2, token);
      if o.Fail? then (c3, Failure(o.error))
      else
        var (c4, s2) := SessionFor(c3);
        var c5 := c4.(sent := c4.sent + [StationRequest(c4, s2)]);
        var again := StationResult(retry);
        (c5, if again.Success? then again else Failure(RetryFailed(again.error)))
  }

  // ---------------------------------------------------------------------
  // Properties of the refresh step

  /** Without a refresh token the refresh fails before any request and
      leaves the whole state as it was. */
  lemma RefreshWithoutToken(c: Client, reply: TokenOutcome)
    requires !HasRefreshToken(c)
    ensures Refresh(c, reply) == (c, Fail(MissingRefreshToken))
  {
  }

  /** With a refresh token the refresh sends exactly one POST to the token
      endpoint, over the (possibly new) session, carrying the refresh token
      in the form and the Basic credential in the Authorization header. */
  lemma RefreshSendsOnePost(c: Client, reply: TokenOutcome)
    requires HasRefreshToken(c)
    ensures var (c', _) := Refresh(c, reply);
      && |c'.sent| == |c.sent| + 1 && c'.sent[..|c.sent|] == c.sent
      && var post := c'.sent[|c.sent|];
      && post.TokenPost?
      && post.url == c.host + TokenPath
      && post.form == map["grant_type" := "refresh_token", "refresh_token" := c.refreshToken.value]
      && post.headers["Authorization"] == "Basic " + BasicCredential
      && HasOpenSession(c')
  {
  }

  /** A reply with `value` makes that value the access token and sets the
      Authorization header to "bearer " plus it, touching no other header
      (unless the rotated token cannot be searched, see below). */
  lemma RefreshAdoptsValue(c: Client, status: int, body: TokenBody)
    requires HasRefreshToken(c) && status < 400
    requires body.value.Present? && !body.refreshToken.Unsearchable?
    ensures var (c', o) := Refresh(c, TokenReply(status, body));
      && o == Pass
      && c'.accessToken == Some(body.value.v)
      && c'.headers == c.headers["Authorization" := "bearer " + body.value.v]
      && c'.headers.Keys == c.headers.Keys + {"Authorization"}
      && (forall k :: k in c.headers && k != "Authorization" ==> c'.headers[k] == c.headers[k])
  {
  }

  /** The refresh token changes only when a successful reply offers
      `refreshToken.value`; it then becomes that value. */
  lemma RefreshRotation(c: Client, reply: TokenOutcome)
    ensures var (c', o) := Refresh(c, reply);
      c'.refreshToken != c.refreshToken ==>
        && o == Pass
        && reply.TokenReply? && reply.body.refreshToken.Offered?
        && !reply.body.refreshToken.value.Absent?
        && c'.refreshToken == (if reply.body.refreshToken.value.Present? then Some(reply.body.refreshToken.value.v) else None)
    ensures var (c', o) := Refresh(c, reply);
      o == Pass && reply.body.refreshToken.Offered? && reply.body.refreshToken.value.Present? ==>
        c'.refreshToken == Some(reply.body.refreshToken.value.v)
  {
  }

  /** The refresh fails exactly when there is no refresh token, the POST
      fails at the client or HTTP level, the reply has no `value`, or the
      reply's `refreshToken` cannot be searched. */
  lemma RefreshFailsIff(c: Client, reply: TokenOutcome)
    ensures Refresh(c, reply).1.Fail? <==>
      || !HasRefreshToken(c)
      || reply.TokenUnreachable?
      || reply.status >= 400
      || reply.body.value.Absent?
      || reply.body.refreshToken.Unsearchable?
  {
  }

  /** A failed refresh leaves the refresh token and the header dictionary as
      they were, and the access token too, except when the TypeError on an
      unsearchable `refreshToken` strikes after the access token was taken. */
  lemma RefreshFailureKeepsCredentials(c: Client, reply: TokenOutcome)
    ensures var (c', o) := Refresh(c, reply);
      o.Fail? ==>
        && c'.refreshToken == c.refreshToken
        && c'.headers == c.headers
        && (o.error != MalformedTokenReply ==> c'.accessToken == c.accessToken)
    ensures var (c', o) := Refresh(c, reply);
      o == Fail(MalformedTokenReply) ==>
        && reply.TokenReply? && reply.body.refreshToken.Unsearchable?
        && c'.accessToken == (if reply.body.value.Present? then Some(reply.body.value.v) else None)
  {
  }

  // ---------------------------------------------------------------------
  // Properties of the fetch

  /** Every fetch keeps the earlier log and makes one GET, optionally
      followed by one POST, optionally followed by one more GET: at most
      two GETs and one refresh per call. A refresh happens exactly when the
      first GET fails at the client or HTTP level and a refresh token is
      held. */
  lemma FetchRequestShape(c: Client, first: GetOutcome, token: TokenOutcome, retry: GetOutcome)
    ensures var (c', _) := Fetch(c, first, token, retry);
      && |c.sent| + 1 <= |c'.sent| <= |c.sent| + 3
      && c'.sent[..|c.sent|] == c.sent
      && c'.sent[|c.sent|].StationGet?
      && (|c'.sent| >= |c.sent| + 2 ==> c'.sent[|c.sent| + 1].TokenPost?)
      && (|c'.sent| == |c.sent| + 3 ==> c'.sent[|c.sent| + 2].StationGet?)
      && (|c'.sent| >= |c.sent| + 2 <==> IsClientFailure(first) && HasRefreshToken(c))
  {
    var (c1, s) := SessionFor(c);
    var c2 := c1.(sent := c1.sent + [StationRequest(c1, s)]);
    if IsClientFailure(first) && HasRefreshToken(c) {
      RefreshSendsOnePost(c2, token);
    }
  }

  /** A first GET answered with status below 400 and `code == 200` returns
      its `data` (the empty snapshot when missing) after that single request,
      with no refresh: the credentials are untouched. */
  lemma FetchFirstSuccess(c: Client, status: int, body: StationBody, token: TokenOutcome, retry: GetOutcome)
    requires status < 400 && body.code == Present(200)
    ensures var (c', r) := Fetch(c, GetReply(status, body), token, retry);
      && r == Success(DataOf(body.data))
      && |c'.sent| == |c.sent| + 1
      && c'.accessToken == c.accessToken && c'.refreshToken == c.refreshToken
      && c'.headers == c.headers
  {
  }

  /** A first GET answered with status below 400 and another `code` fails
      with the reply's message ("Unknown error" when missing), after that
      single request and with no refresh. */
  lemma FetchBodyError(c: Client, status: int, body: StationBody, token: TokenOutcome, retry: GetOutcome)
    requires status < 400 && body.code != Present(200)
    ensures var (c', r) := Fetch(c, GetReply(status, body), token, retry);
      && r == Failure(StationFailed(TextOr(body.message, "Unknown error")))
      && |c'.sent| == |c.sent| + 1
      && c'.accessToken == c.accessToken && c'.refreshToken == c.refreshToken
      && c'.headers == c.headers
  {
  }

  /** After a client failure of the first GET, a failed refresh escapes as
      it is, with no retry; a successful one is followed by exactly one
      retried GET, whose success is returned and whose failure of any kind is
      wrapped once in `RetryFailed`. */
  lemma FetchRetriesOnce(c: Client, first: GetOutcome, token: TokenOutcome, retry: GetOutcome)
    requires IsClientFailure(first)
    ensures var (c', r) := Fetch(c, first, token, retry);
      var (_, o) := Refresh(SessionFor(c).0.(sent := c.sent + [StationRequest(c, SessionFor(c).1)]), token);
      && (o.Fail? ==> r == Failure(o.error) && |c'.sent| <= |c.sent| + 2)
      && (o.Pass? ==> |c'.sent| == |c.sent| + 3)
      && (o.Pass? && StationResult(retry).Success? ==> r == StationResult(retry))
      && (o.Pass? && StationResult(retry).Failure? ==> r == Failure(RetryFailed(StationResult(retry).error)))
  {
    FetchRequestShape(c, first, token, retry);
  }

  /** No error escapes wrapped twice, and a bare client failure escapes only
      from the token POST: at most one retry cycle per call. */
  lemma FetchErrorKinds(c: Client, first: GetOutcome, token: TokenOutcome, retry: GetOutcome)
    ensures var (c', r) := Fetch(c, first, token, retry);
      && (r.Failure? && r.error.RetryFailed? ==>
            r.error.cause.RequestFailed? || r.error.cause.StationFailed?)
      && (r.Failure? && r.error.RequestFailed? ==> |c'.sent| == |c.sent| + 2 && c'.sent[|c.sent| + 1].TokenPost?)
  {
    FetchRequestShape(c, first, token, retry);
  }

  /** The retried GET goes out over the same session as the first GET, so it
      carries the same headers: the Authorization set by the refresh does not
      reach it. */
  lemma FetchRetryReusesSession(c: Client, first: GetOutcome, token: TokenOutcome, retry: GetOutcome)
    ensures var (c', _) := Fetch(c, first, token, retry);
      |c'.sent| == |c.sent| + 3 ==>
        && c'.sent[|c.sent| + 2].headers == c'.sent[|c.sent|].headers
        && c'.session == SessionFor(c).0.session
  {
  }

  /** A freshly constructed client sends no Authorization header on its
      first fetch, neither on the first GET nor on the retry. */
  lemma FreshClientSendsNoBearer(host: string, stationId: string, refreshToken: string,
                                 first: GetOutcome, token: TokenOutcome, retry: GetOutcome)
    ensures var (c', _) := Fetch(Init(host, stationId, refreshToken), first, token, retry);
      && "Authorization" !in c'.sent[0].headers
      && (|c'.sent| == 3 ==> "Authorization" !in c'.sent[2].headers)
  {
    FetchRequestShape(Init(host, stationId, refreshToken), first, token, retry);
    FetchRetryReusesSession(Init(host, stationId, refreshToken), first, token, retry);
  }

  // ---------------------------------------------------------------------
  // Properties of the session slot

  /** Closing twice is closing once, and closing touches neither the
      credentials nor the log. */
  lemma CloseIdempotent(c: Client)
    ensures CloseSession(CloseSession(c)) == CloseSession(c)
    ensures var c' := CloseSession(c);
      && c'.accessToken == c.accessToken && c'.refreshToken == c.refreshToken
      && c'.headers == c.headers && c'.sent == c.sent
  {
  }

  /** After a close the next fetch opens a new session built from the
      current header dictionary, so a token set by an earlier refresh is
      carried from then on. */
  lemma CloseThenFetchReopens(c: Client, first: GetOutcome, token: TokenOutcome, retry: GetOutcome)
    ensures var shut := CloseSession(c);
      var (c', _) := Fetch(shut, first, token, retry);
      && c'.sessionsOpened >= c.sessionsOpened + 1
      && c'.sent[|c.sent|].headers == c.headers
  {
  }

  // ---------------------------------------------------------------------
  // The header dictionary and the access token stay in step

  /** The Authorization entry of the header dictionary is the bearer form of
      the access token; before any refresh there is neither. */
  predicate BearerInSync(c: Client) {
    if "Authorization" in c.headers then c.headers["Authorization"] == Bearer(c.accessToken)
    else c.accessToken.None?
  }

  /** A new client is in step. */
  lemma BearerInSyncInitially(host: string, stationId: string, refreshToken: string)
    ensures BearerInSync(Init(host, stationId, refreshToken))
  {
  }

  /** Opening or closing a session keeps the client in step. */
  lemma SessionKeepsBearerInSync(c: Client)
    requires BearerInSync(c)
    ensures BearerInSync(SessionFor(c).0) && BearerInSync(CloseSession(c))
  {
  }

  /** A refresh keeps the client in step, except one that stores the access
      token and then raises on an unsearchable `refreshToken`. */
  lemma RefreshKeepsBearerInSync(c: Client, token: TokenOutcome)
    requires BearerInSync(c)
    ensures Refresh(c, token).1 != Fail(MalformedTokenReply) ==> BearerInSync(Refresh(c, token).0)
    ensures Refresh(c, token).1 == Fail(MalformedTokenReply) && "Authorization" in c.headers ==>
      Refresh(c, token).0.headers["Authorization"] == c.headers["Authorization"]
  {
    if HasRefreshToken(c) {
      SessionKeepsBearerInSync(c);
    }
  }

  /** A fetch keeps the client in step unless its refresh raised on an
      unsearchable `refreshToken`. */
  lemma FetchKeepsBearerInSync(c: Client, first: GetOutcome, token: TokenOutcome, retry: GetOutcome)
    requires BearerInSync(c)
    ensures Fetch(c, first, token, retry).1 != Failure(MalformedTokenReply) ==>
      BearerInSync(Fetch(c, first, token, retry).0)
  {
    var (c1, s) := SessionFor(c);
    SessionKeepsBearerInSync(c);
    var c2 := c1.(sent := c1.sent + [StationRequest(c1, s)]);
    if IsClientFailure(first) {
      RefreshKeepsBearerInSync(c2, token);
      var (c3, o) := Refresh(c2, token);
      if o.Pass? {
        SessionKeepsBearerInSync(c3);
      }
    }
  }

  // ---------------------------------------------------------------------
  // A series of calls, as the periodic caller makes them

  /** One call the owner of the client makes, with the replies it meets. */
  datatype Call = FetchCall(first: GetOutcome, token: TokenOutcome, retry: GetOutcome) | CloseCall

  /** The client after `calls`, made one after the other. */
  function Run(c: Client, calls: seq<Call>): Client
    decreases |calls|
  {
    if calls == [] then c
    else
      var before := Run(c, calls[..|calls| - 1]);
      match calls[|calls| - 1]
      case FetchCall(first, token, retry) => Fetch(before, first, token, retry).0
      case CloseCall => CloseSession(before)
  }

  /** The number of fetches among `calls`. */
  function Fetches(calls: seq<Call>): nat
    decreases |calls|
  {
    if calls == [] then 0
    else Fetches(calls[..|calls| - 1]) + (if calls[|calls| - 1].FetchCall? then 1 else 0)
  }

  /** The number of station GETs (`gets`) or token POSTs (`!gets`) in a log. */
  function Count(rs: seq<Request>, gets: bool): nat
    decreases |rs|
  {
    if rs == [] then 0
    else Count(rs[..|rs| - 1], gets) + (if rs[|rs| - 1].StationGet? == gets then 1 else 0)
  }

  /** Appending one request adds one to the count of its own kind. */
  lemma CountSnoc(rs: seq<Request>, r: Request, gets: bool)
    ensures Count(rs + [r], gets) == Count(rs, gets) + (if r.StationGet? == gets then 1 else 0)
  {
    assert (rs + [r])[..|rs|] == rs;
  }

  /** One fetch keeps the log, adds one or two GETs to it and at most one
      POST. */
  lemma FetchCounts(c: Client, first: GetOutcome, token: TokenOutcome, retry: GetOutcome)
    ensures var c' := Fetch(c, first, token, retry).0;
      && |c.sent| <= |c'.sent| && c'.sent[..|c.sent|] == c.sent
      && Count(c.sent, true) + 1 <= Count(c'.sent, true) <= Count(c.sent, true) + 2
      && Count(c'.sent, false) <= Count(c.sent, false) + 1
  {
    FetchRequestShape(c, first, token, retry);
    var (c1, s) := SessionFor(c);
    var get := StationRequest(c1, s);
    var c2 := c1.(sent := c1.sent + [get]);
    CountSnoc(c.sent, get, true);
    CountSnoc(c.sent, get, false);
    if IsClientFailure(first) {
      var (c3, o) := Refresh(c2, token);
      if HasRefreshToken(c2) {
        var (c2', s') := SessionFor(c2);
        CountSnoc(c2.sent, TokenRequest(c2', s'), true);
        CountSnoc(c2.sent, TokenRequest(c2', s'), false);
      }
      if o.Pass? {
        var (c4, s2) := SessionFor(c3);
        CountSnoc(c3.sent, StationRequest(c4, s2), true);
        CountSnoc(c3.sent, StationRequest(c4, s2), false);
      }
    }
  }

  /** However many calls the owner makes, and whatever replies they meet,
      the log only grows, and it gains at least one and at most two GETs per
      fetch and at most one POST (one refresh) per fetch; closes send
      nothing. */
  lemma {:induction false} RunBounds(c: Client, calls: seq<Call>)
    ensures var c' := Run(c, calls);
      && |c.sent| <= |c'.sent| && c'.sent[..|c.sent|] == c.sent
      && Count(c.sent, true) + Fetches(calls) <= Count(c'.sent, true) <= Count(c.sent, true) + 2 * Fetches(calls)
      && Count(c'.sent, false) <= Count(c.sent, false) + Fetches(calls)
    decreases |calls|
  {
    if calls != [] {
      var prior := calls[..|calls| - 1];
      RunBounds(c, prior);
      var before := Run(c, prior);
      var after := Run(c, calls);
      match calls[|calls| - 1]
      case FetchCall(first, token, retry) =>
        FetchCounts(before, first, token, retry);
        assert after.sent[..|c.sent|] == after.sent[..|before.sent|][..|c.sent|];
      case CloseCall =>
    }
  }

  // ---------------------------------------------------------------------
  // The client object

  /** `KstarSolarAPI`. The request log `sent` and the session counter
      `sessionsOpened` make the client's traffic observable. */
  class KstarSolarApi {
    var host: string
    var stationId: string
    var accessToken: Option<string>
    var refreshToken: Option<string>
    var headers: Headers
    var session: Option<Session>
    var sessionsOpened: nat
    var sent: seq<Request>

    /** The abstract state of the object. */
    function State(): Client
      reads this
    {
      Client(host, stationId, accessToken, refreshToken, headers, session, sessionsOpened, sent)
    }

    constructor (host: string, stationId: string, refreshToken: string)
      ensures State() == Init(host, stationId, refreshToken)
    {
      this.host := StripTrailingSlashes(host);
      this.stationId := stationId;
      this.refreshToken := Some(refreshToken);
      this.accessToken := None;
      this.session := None;
      this.sessionsOpened := 0;
      this.headers := DefaultHeaders;
      this.sent := [];
    }

    /** `_get_session`. */
    method GetSession() returns (s: Session)
      modifies this
      ensures (State(), s) == SessionFor(old(State()))
    {
      if session.None? || session.value.closed {
        s := Session(sessionsOpened, headers, false);
        session := Some(s);
        sessionsOpened := sessionsOpened + 1;
      } else {
        s := session.value;
      }
    }

    /** `_get_access_token_from_refresh_token`, receiving `reply` to its POST. */
    method RefreshAccessToken(reply: TokenOutcome) returns (o: Outcome<ApiError>)
      modifies this
      ensures (State(), o) == Refresh(old(State()), reply)
    {
      if refreshToken.None? || refreshToken.value == "" {
        return Fail(MissingRefreshToken);
      }
      var s := GetSession();
      sent := sent + [TokenRequest(State(), s)];
      match reply {
        case TokenUnreachable =>
          return Fail(RequestFailed(Transport));
        case TokenReply(status, body) =>
          if status >= 400 {
            return Fail(RequestFailed(HttpStatus(status)));
          }
          if body.value.Absent? {
            return Fail(TokenRejected(TextOr(body.errorDescription, "Unknown error")));
          }
          accessToken := if body.value.Present? then Some(body.value.v) else None;
          match body.refreshToken {
            case Unsearchable =>
              return Fail(MalformedTokenReply);
            case NotOffered =>
            case Offered(v) =>
              if v.Present? {
                refreshToken := Some(v.v);
              } else if v.Null? {
                refreshToken := None;
              }
          }
          headers := headers["Authorization" := Bearer(accessToken)];
          return Pass;
      }
    }

    /** `get_station_data`, receiving `first` to its GET and, when they are
        made, `token` to the refresh POST and `retry` to the second GET. */
    method GetStationData(first: GetOutcome, token: TokenOutcome, retry: GetOutcome)
      returns (r: Result<Option<Snapshot>, ApiError>)
      modifies this
      ensures (State(), r) == Fetch(old(State()), first, token, retry)
    {
      var s := GetSession();
      sent := sent + [StationRequest(State(), s)];
      if !IsClientFailure(first) {
        return StationResult(first);
      }
      var o := RefreshAccessToken(token);
      if o.Fail? {
        return Failure(o.error);
      }
      s := GetSession();
      sent := sent + [StationRequest(State(), s)];
      var again := StationResult(retry);
      r := if again.Success? then again else Failure(RetryFailed(again.error));
    }

    /** `close`. */
    method Close()
      modifies this
      ensures State() == CloseSession(old(State()))
    {
      if session.Some? && !session.value.closed {
        session := Some(session.value.(closed := true));
      }
    }
  }
}
