/** `TimeTree::CalendarApp::Client` (lib/timetree/calendar_app/client.rb) and
    its `AccessToken` (lib/timetree/calendar_app/access_token.rb): the
    client authorised as an installed calendar app.

    Before each operation the client makes sure it holds an access token
    that has not expired, exchanging a JWT for a new one when it does not.
    The clock is the parameter `now` (whole seconds), and the server's
    answer to that exchange is the parameter `tokenResp`.
 */
module CalendarApp {
  import opened Text
  import opened JsonData
  import opened Outcomes
  import opened Resources
  import opened Transport
  import UserClient

  /** `AccessToken`: the token and its expiry as the server sent them. */
  datatype AccessToken = AccessToken(token: Json, expireAt: Json)

  /** `expired?`: strictly past the expiry. Comparing the clock with an
      expiry that is not a number raises. */
  function Expired(t: AccessToken, now: int): (r: Result<bool>)
    ensures r.Ok? <==> t.expireAt.JNum?
    ensures r.Ok? ==> (r.value <==> now > t.expireAt.n)
    ensures r.Fail? ==> r.failure == Comparison
  {
    match t.expireAt
    case JNum(n) => Ok(now > n)
    case _ => Fail(Comparison)
  }

  datatype App = App(installationId: Json, applicationId: Json, cached: Option<AccessToken>, token: Json, rate: RateLimit)

  /** `Client.new`: the application id falls back to the configured one when
      `nil` or `false`; no token is held yet. */
  function New(installationId: Json, applicationId: Json, configured: Json): (a: App)
    ensures a.installationId == installationId && a.cached.None? && a.token == JNull && a.rate == NoRateLimit
    ensures Truthy(applicationId) ==> a.applicationId == applicationId
    ensures !Truthy(applicationId) ==> a.applicationId == configured
  {
    App(installationId, if Truthy(applicationId) then applicationId else configured, None, JNull, NoRateLimit)
  }

  /** `access_token?`: a token is held and has not expired. */
  function HasValidToken(a: App, now: int): (r: Result<bool>)
    ensures r.Fail? <==> a.cached.Some? && !a.cached.value.expireAt.JNum?
    ensures r.Fail? ==> r.failure == Comparison
    ensures r == Ok(true) <==> a.cached.Some? && a.cached.value.expireAt.JNum? && now <= a.cached.value.expireAt.n
  {
    match a.cached
    case None => Ok(false)
    case Some(t) =>
      var e :- Expired(t, now);
      Ok(!e)
  }

  /** A JWT lives ten minutes. */
  const JwtLifetime := 10 * 60

  /** The claims of the JWT `jwt` signs at `now`. */
  function Claims(now: int, applicationId: Json): Json {
    JObj(map["iat" := JNum(now), "exp" := JNum(now + JwtLifetime), "iss" := applicationId])
  }

  /** The token exchange as evidently intended: authorised by the app's
      JWT. */
  function TokenRequest(a: App, now: int): Request {
    Request(POST, AccessTokens(a.installationId), map[], JObj(map[]), SignedJwt(Claims(now, a.applicationId)))
  }

  /** The token exchange as written: the block that sets the JWT header is
      passed to a `post` that never yields, so the request carries the
      default `Bearer <token>` header of whatever token the client holds. */
  function TokenRequestAsWritten(a: App): Request {
    Request(POST, AccessTokens(a.installationId), map[], JObj(map[]), Bearer(ToS(a.token)))
  }

  /** `get_access_token`, given the exchange request `req` it sends: the
      rate limit is recorded whatever the status; a status other than 200
      raises and keeps the old token; otherwise the token from the body is
      cached and used from now on. */
  function ExchangeToken(a: App, req: Request, resp: Response): (r: Exchange<App, ()>)
    ensures r.sent == [req]
    ensures r.state.rate == UpdateRatelimit(a.rate, resp.headers)
    ensures r.result.Fail? ==> r.state == a.(rate := r.state.rate)
    ensures resp.status != 200 ==> r.result == Fail(Raise(resp))
    ensures r.result.Ok? <==> resp.status == 200 && resp.body.JObj?
    ensures r.result.Ok? ==>
              r.state.cached == Some(AccessToken(Get(resp.body, "access_token"), Get(resp.body, "expire_at")))
              && r.state.token == Get(resp.body, "access_token")
              && r.state.installationId == a.installationId && r.state.applicationId == a.applicationId
  {
    var a1 := a.(rate := UpdateRatelimit(a.rate, resp.headers));
    if resp.status != 200 then Exchange(a1, [req], Fail(Raise(resp)))
    else if !resp.body.JObj? then Exchange(a1, [req], Fail(NoMethod("[]")))
    else
      var t := AccessToken(Get(resp.body, "access_token"), Get(resp.body, "expire_at"));
      Exchange(a1.(cached := Some(t), token := t.token), [req], Ok(()))
  }

  /** `get_access_token` as written: the exchange goes out with the token
      the client already holds (none, or the expired one). */
  function GetAccessToken(a: App, resp: Response): (r: Exchange<App, ()>)
    ensures r.sent == [TokenRequestAsWritten(a)]
    ensures r.sent[0].auth == Bearer(ToS(a.token))
    ensures r.state.rate == UpdateRatelimit(a.rate, resp.headers)
    ensures r.result.Fail? ==> r.state == a.(rate := r.state.rate)
    ensures resp.status != 200 ==> r.result == Fail(Raise(resp))
    ensures r.result.Ok? <==> resp.status == 200 && resp.body.JObj?
    ensures r.result.Ok? ==>
              r.state.cached == Some(AccessToken(Get(resp.body, "access_token"), Get(resp.body, "expire_at")))
              && r.state.token == Get(resp.body, "access_token")
              && r.state.installationId == a.installationId && r.state.applicationId == a.applicationId
  {
    ExchangeToken(a, TokenRequestAsWritten(a), resp)
  }

  /** `get_access_token` as evidently intended: the exchange is authorised
      by a JWT signed at `now`. It ends in the same state and outcome as
      the exchange as written; only the credential it sends differs. */
  function GetAccessTokenIntended(a: App, now: int, resp: Response): (r: Exchange<App, ()>)
    ensures r.sent == [TokenRequest(a, now)]
    ensures r.sent[0].auth == SignedJwt(Claims(now, a.applicationId))
    ensures r.state == GetAccessToken(a, resp).state && r.result == GetAccessToken(a, resp).result
  {
    ExchangeToken(a, TokenRequest(a, now), resp)
  }

  /** `check_access_token`: keep a valid token, otherwise exchange. */
  function CheckAccessToken(a: App, now: int, tokenResp: Response): (r: Exchange<App, ()>)
    ensures HasValidToken(a, now) == Ok(true) ==> r == Exchange(a, [], Ok(()))
    ensures HasValidToken(a, now) == Ok(false) ==> r == GetAccessToken(a, tokenResp)
    ensures HasValidToken(a, now).Fail? ==> r == Exchange(a, [], Fail(Comparison))
  {
    match HasValidToken(a, now)
    case Fail(f) => Exchange(a, [], Fail(f))
    case Ok(valid) => if valid then Exchange(a, [], Ok(())) else GetAccessToken(a, tokenResp)
  }

  /** Duplicate-free. */
  predicate NoDup(xs: seq<string>) {
    forall i, j :: 0 <= i < j < |xs| ==> xs[i] != xs[j]
  }

  /** `Array#&`: the elements of `xs` that are in `allowed`, in the order of
      their first occurrence in `xs`, each once. */
  function Intersect(xs: seq<string>, allowed: seq<string>): (r: seq<string>)
    ensures forall s :: s in r <==> s in xs && s in allowed
    ensures NoDup(r)
    decreases |xs|
  {
    if |xs| == 0 then []
    else
      var front := Intersect(xs[..|xs| - 1], allowed);
      var x := xs[|xs| - 1];
      assert forall s :: s in xs <==> s in xs[..|xs| - 1] || s == x by {
        assert xs == xs[..|xs| - 1] + [x];
      }
      if x in allowed && x !in front then front + [x] else front
  }

  /** The elements of `xs` that are in `allowed`, in order, duplicates kept. */
  function Filter(xs: seq<string>, allowed: seq<string>): seq<string>
    decreases |xs|
  {
    if |xs| == 0 then []
    else
      var front := Filter(xs[..|xs| - 1], allowed);
      if xs[|xs| - 1] in allowed then front + [xs[|xs| - 1]] else front
  }

  /** `xs` with every repeat of an earlier element dropped. */
  function Dedup(xs: seq<string>): (r: seq<string>)
    ensures forall s :: s in r <==> s in xs
    ensures NoDup(r)
    decreases |xs|
  {
    if |xs| == 0 then []
    else
      var front := Dedup(xs[..|xs| - 1]);
      var x := xs[|xs| - 1];
      assert forall s :: s in xs <==> s in xs[..|xs| - 1] || s == x by {
        assert xs == xs[..|xs| - 1] + [x];
      }
      if x in front then front else front + [x]
  }

  /** `(Array(include_relationships).map(&:to_sym) & RELATIONSHIPS).join(',')`:
      `nil` and an empty hash give no names, a lone name is wrapped in an
      array, and a value without `to_sym` raises. Unlike the user client
      there is no default: without the argument nothing is included. */
  function IncludeParam(arg: UserClient.IncludeArg, rels: seq<string>): (r: Result<string>)
    ensures r.Fail? <==> arg.OtherValue?
    ensures r.Fail? ==> r.failure == NoMethod("to_sym")
    ensures arg.Omitted? || arg.EmptyHash? ==> r == Ok("")
    ensures arg.NameList? ==> r == Ok(Join(Intersect(arg.names, rels), ','))
    ensures arg.OneName? ==> r == Ok(if arg.name in rels then arg.name else "")
  {
    match arg
    case Omitted => Ok("")
    case EmptyHash => Ok("")
    case NameList(ns) => Ok(Join(Intersect(ns, rels), ','))
    case OneName(n) =>
      assert Intersect([n], rels) == (if n in rels then [n] else []) by {
        assert [n][..0] == [];
      }
      Ok(Join(Intersect([n], rels), ','))
    case OtherValue => Fail(NoMethod("to_sym"))
  }

  /** One public operation of the app client with its arguments. */
  datatype AppCall =
    | CalendarGet(rels: UserClient.IncludeArg)
    | MembersGet
    | EventGet(eventId: Json, rels: UserClient.IncludeArg)
    | UpcomingGet(days: Option<Json>, timezone: Option<Json>, rels: UserClient.IncludeArg)
    | EventCreate(params: Json)
    | EventUpdate(eventId: Json, params: Json)
    | EventDelete(eventId: Json)
    | ActivityCreate(eventId: Json, params: Json)

  /** The query of an operation, with the include list it computed. */
  function QueryOf(call: AppCall): (r: Result<map<string, Json>>)
    ensures r.Fail? <==> (call.CalendarGet? || call.EventGet? || call.UpcomingGet?) && call.rels.OtherValue?
    ensures r.Ok? && (call.CalendarGet? || call.EventGet? || call.UpcomingGet?) ==> "include" in r.value
  {
    match call
    case CalendarGet(rels) =>
      var inc :- IncludeParam(rels, RelationshipKeys(Calendar));
      Ok(map["include" := JStr(inc)])
    case EventGet(_, rels) =>
      var inc :- IncludeParam(rels, RelationshipKeys(Event));
      Ok(map["include" := JStr(inc)])
    case UpcomingGet(days, tz, rels) =>
      var inc :- IncludeParam(rels, RelationshipKeys(Event));
      Ok(map["days" := UserClient.OrDefault(days, UserClient.DefaultDays),
             "timezone" := UserClient.OrDefault(tz, UserClient.DefaultTimezone),
             "include" := JStr(inc)])
    case _ => Ok(map[])
  }

  /** The request an operation sends, authorised by the current token. */
  function AppRequestOf(a: App, call: AppCall, query: map<string, Json>): Request {
    var auth := Bearer(ToS(a.token));
    match call
    case CalendarGet(_) => Request(GET, AppCalendar, query, JObj(map[]), auth)
    case MembersGet => Request(GET, AppMembers, query, JObj(map[]), auth)
    case EventGet(ev, _) => Request(GET, AppEventOf(ev), query, JObj(map[]), auth)
    case UpcomingGet(_, _, _) => Request(GET, AppUpcomingEvents, query, JObj(map[]), auth)
    case EventCreate(params) => Request(POST, AppEvents, query, params, auth)
    case EventUpdate(ev, params) => Request(PUT, AppEventOf(ev), query, params, auth)
    case EventDelete(ev) => Request(DELETE, AppEventOf(ev), query, JObj(map[]), auth)
    case ActivityCreate(ev, params) => Request(POST, AppActivities(ev), query, params, auth)
  }

  /** The status each operation accepts: the same table as the user client. */
  function AppExpected(call: AppCall): int {
    match call
    case EventCreate(_) => 201
    case ActivityCreate(_, _) => 201
    case EventDelete(_) => 204
    case _ => 200
  }

  /** What an operation makes of the body of an accepted response. No id is
      patched onto the decoded models. */
  function AppFinish(call: AppCall, body: Json, parse: string -> Option<int>): Result<UserClient.Reply> {
    var client := Some(CalendarAppClient);
    if call.EventDelete? then Ok(UserClient.Deleted)
    else
      var data :- UserClient.DataOf(body);
      match call
      case CalendarGet(_) =>
        var m :- Decode(data, Get(body, "included"), client, parse);
        Ok(UserClient.Single(m))
      case EventGet(_, _) =>
        var m :- Decode(data, Get(body, "included"), client, parse);
        Ok(UserClient.Single(m))
      case MembersGet =>
        var items :- UserClient.Elements(data);
        var ms :- UserClient.DecodeEach(items, JNull, client, parse, None);
        Ok(UserClient.Listed(ms))
      case UpcomingGet(_, _, _) =>
        var items :- UserClient.Elements(data);
        var ms :- UserClient.DecodeEach(items, Get(body, "included"), client, parse, None);
        Ok(UserClient.Listed(ms))
      case EventCreate(_) =>
        var m :- Decode(data, JNull, client, parse);
        Ok(UserClient.Single(m))
      case EventUpdate(_, _) =>
        var m :- Decode(data, JNull, client, parse);
        Ok(UserClient.Single(m))
      case ActivityCreate(_, _) =>
        var m :- Decode(data, JNull, client, parse);
        Ok(UserClient.Single(m))
  }

  /** Runs one operation at time `now`: the token check (and exchange, given
      the answer `tokenResp`), then the operation's own request, answered by
      `resp`. */
  function Perform(a: App, call: AppCall, now: int, tokenResp: Response, resp: Response, parse: string -> Option<int>)
    : (r: Exchange<App, UserClient.Reply>)
    ensures r.state.installationId == a.installationId && r.state.applicationId == a.applicationId
    ensures 1 <= |r.sent| <= 2 || (r.sent == [] && r.result.Fail?)
  {
    var t := CheckAccessToken(a, now, tokenResp);
    if t.result.Fail? then Exchange(t.state, t.sent, Fail(t.result.failure))
    else
      var a1 := t.state;
      match QueryOf(call)
      case Fail(f) => Exchange(a1, t.sent, Fail(f))
      case Ok(query) =>
        Exchange(a1.(rate := UpdateRatelimit(a1.rate, resp.headers)), t.sent + [AppRequestOf(a1, call, query)],
                 if resp.status != AppExpected(call) then Fail(Raise(resp)) else AppFinish(call, resp.body, parse))
  }
}
