/** What the clients send and receive (lib/timetree/http_command.rb is not
    part of this model; its observable effect is): requests, responses, the
    rate-limit bookkeeping every response triggers, and the `ApiError`
    raised for an unexpected status.
 */
module Transport {
  import opened Text
  import opened JsonData
  import opened Outcomes

  datatype Verb = GET | POST | PUT | DELETE

  /** The API routes both clients use; ids are whatever the caller passed. */
  datatype Endpoint =
    | CurrentUser
    | Calendars
    | CalendarOf(calId: Json)
    | CalendarLabels(calId: Json)
    | CalendarMembers(calId: Json)
    | Events(calId: Json)
    | EventOf(calId: Json, eventId: Json)
    | UpcomingEvents(calId: Json)
    | Activities(calId: Json, eventId: Json)
    | AppCalendar
    | AppMembers
    | AppEvents
    | AppEventOf(eventId: Json)
    | AppUpcomingEvents
    | AppActivities(eventId: Json)
    | AccessTokens(installationId: Json)

  /** The path segments of a route; ids are interpolated with `to_s`. */
  function Segments(e: Endpoint): seq<string> {
    match e
    case CurrentUser => ["", "user"]
    case Calendars => ["", "calendars"]
    case CalendarOf(c) => ["", "calendars", ToS(c)]
    case CalendarLabels(c) => ["", "calendars", ToS(c), "labels"]
    case CalendarMembers(c) => ["", "calendars", ToS(c), "members"]
    case Events(c) => ["", "calendars", ToS(c), "events"]
    case EventOf(c, ev) => ["", "calendars", ToS(c), "events", ToS(ev)]
    case UpcomingEvents(c) => ["", "calendars", ToS(c), "upcoming_events"]
    case Activities(c, ev) => ["", "calendars", ToS(c), "events", ToS(ev), "activities"]
    case AppCalendar => ["", "calendar"]
    case AppMembers => ["", "calendar", "members"]
    case AppEvents => ["", "calendar", "events"]
    case AppEventOf(ev) => ["", "calendar", "events", ToS(ev)]
    case AppUpcomingEvents => ["", "calendar", "upcoming_events"]
    case AppActivities(ev) => ["", "calendar", "events", ToS(ev), "activities"]
    case AccessTokens(i) => ["", "installations", ToS(i), "access_tokens"]
  }

  function Path(e: Endpoint): string {
    Join(Segments(e), '/')
  }

  /** The route a list of path segments names, reading each id segment as a
      string: the inverse of `Segments`. */
  function Route(segs: seq<string>): Option<Endpoint> {
    if |segs| < 2 || segs[0] != "" then None
    else if |segs| == 2 then
      if segs[1] == "user" then Some(CurrentUser)
      else if segs[1] == "calendars" then Some(Calendars)
      else if segs[1] == "calendar" then Some(AppCalendar)
      else None
    else if segs[1] == "calendars" then
      var c := JStr(segs[2]);
      if |segs| == 3 then Some(CalendarOf(c))
      else if |segs| == 4 then
        if segs[3] == "labels" then Some(CalendarLabels(c))
        else if segs[3] == "members" then Some(CalendarMembers(c))
        else if segs[3] == "events" then Some(Events(c))
        else if segs[3] == "upcoming_events" then Some(UpcomingEvents(c))
        else None
      else if segs[3] != "events" then None
      else if |segs| == 5 then Some(EventOf(c, JStr(segs[4])))
      else if |segs| == 6 && segs[5] == "activities" then Some(Activities(c, JStr(segs[4])))
      else None
    else if segs[1] == "calendar" then
      if |segs| == 3 then
        if segs[2] == "members" then Some(AppMembers)
        else if segs[2] == "events" then Some(AppEvents)
        else if segs[2] == "upcoming_events" then Some(AppUpcomingEvents)
        else None
      else if segs[2] != "events" then None
      else if |segs| == 4 then Some(AppEventOf(JStr(segs[3])))
      else if |segs| == 5 && segs[4] == "activities" then Some(AppActivities(JStr(segs[3])))
      else None
    else if segs[1] == "installations" && |segs| == 4 && segs[3] == "access_tokens" then
      Some(AccessTokens(JStr(segs[2])))
    else None
  }

  /** The ids a route interpolates. */
  function Ids(e: Endpoint): seq<Json> {
    match e
    case CalendarOf(c) => [c]
    case CalendarLabels(c) => [c]
    case CalendarMembers(c) => [c]
    case Events(c) => [c]
    case EventOf(c, ev) => [c, ev]
    case UpcomingEvents(c) => [c]
    case Activities(c, ev) => [c, ev]
    case AppEventOf(ev) => [ev]
    case AppActivities(ev) => [ev]
    case AccessTokens(i) => [i]
    case _ => []
  }

  /** The `Authorization` header: `Bearer <token>`, or a signed JWT whose
      claims are given (the signature itself is not modelled). */
  datatype Auth = Bearer(token: string) | SignedJwt(claims: Json)

  /** A request: query parameters for GET and DELETE, a JSON body for POST
      and PUT (`{}` when the caller passes none). */
  datatype Request = Request(verb: Verb, endpoint: Endpoint, query: map<string, Json>, body: Json, auth: Auth)

  /** A response: the status, the parsed body, and the headers, whose names
      are taken to be lower case. */
  datatype Response = Response(status: int, body: Json, headers: map<string, string>)

  /** `ratelimit_limit`, `ratelimit_remaining` and `ratelimit_reset_at` (as
      seconds since the epoch); `None` until a response carried the header. */
  datatype RateLimit = RateLimit(limit: Option<int>, remaining: Option<int>, resetAt: Option<int>)

  const NoRateLimit := RateLimit(None, None, None)

  /** `update_ratelimit`: each header that is present overwrites its field,
      read with `String#to_i`; a missing header leaves its field alone. */
  function UpdateRatelimit(rate: RateLimit, headers: map<string, string>): (r: RateLimit)
    ensures "x-ratelimit-limit" !in headers ==> r.limit == rate.limit
    ensures "x-ratelimit-remaining" !in headers ==> r.remaining == rate.remaining
    ensures "x-ratelimit-reset" !in headers ==> r.resetAt == rate.resetAt
    ensures "x-ratelimit-limit" in headers ==> r.limit.Some?
    ensures "x-ratelimit-remaining" in headers ==> r.remaining.Some?
    ensures "x-ratelimit-reset" in headers ==> r.resetAt.Some?
  {
    RateLimit(
      if "x-ratelimit-limit" in headers then Some(ToI(headers["x-ratelimit-limit"])) else rate.limit,
      if "x-ratelimit-remaining" in headers then Some(ToI(headers["x-ratelimit-remaining"])) else rate.remaining,
      if "x-ratelimit-reset" in headers then Some(ToI(headers["x-ratelimit-reset"])) else rate.resetAt)
  }

  /** The three headers as a server writes them, in decimal. */
  function RateHeaders(limit: int, remaining: int, reset: int): map<string, string> {
    map["x-ratelimit-limit" := Decimal(limit), "x-ratelimit-remaining" := Decimal(remaining),
        "x-ratelimit-reset" := Decimal(reset)]
  }

  /** `ApiError.new(res)`: `type`, `title` and `errors` come from the body and
      `status` from the response. Reading them from a body that is not an
      object raises instead. */
  function Raise(resp: Response): (f: Failure)
    ensures resp.body.JObj? <==> f.Api?
    ensures f.Api? ==> f.err.status == resp.status && f.err.title == Get(resp.body, "title")
    ensures f.Api? ==> f.err.errType == Get(resp.body, "type") && f.err.errors == Get(resp.body, "errors")
  {
    if resp.body.JObj? then
      Api(ApiError(Get(resp.body, "type"), Get(resp.body, "title"), Get(resp.body, "errors"), resp.status))
    else NoMethod("[]")
  }

  /** `ApiError#inspect`, for an object whose `object_id` is `oid`. */
  function Inspect(e: ApiError, oid: nat): string {
    "#<TimeTree::ApiError:" + Decimal(oid) + " title:" + ToS(e.title) + ", status:" + Decimal(e.status) + ">"
  }

  /** The outcome of a client call: the client's state afterwards, the
      requests it sent in order, and what it returned or raised. */
  datatype Exchange<S, T> = Exchange(state: S, sent: seq<Request>, result: Result<T>)
}
