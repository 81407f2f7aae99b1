/** `TimeTree::Client` (lib/timetree/client.rb), the client authorised by a
    user's access token.

    Every public operation has the same shape: check the required ids,
    send one request, record the rate-limit headers of the response,
    raise `ApiError` unless the status is the one the operation expects,
    then decode the body. `Perform` is that shape; the per-operation
    tables `Checks`, `RequestOf`, `Expected` and `Finish` hold what differs.
 */
module UserClient {
  import opened Text
  import opened JsonData
  import opened Outcomes
  import opened Resources
  import opened Transport

  datatype Client = Client(token: Json, rate: RateLimit)

  /** `check_required_property`: `nil`, or a value whose `to_s` is empty. */
  predicate Blank(v: Json) {
    v == JNull || ToS(v) == ""
  }

  function RequiredMessage(name: string): string {
    name + " is required."
  }

  function CheckRequired(v: Json, name: string): (r: Result<()>)
    ensures r.Ok? <==> !Blank(v)
    ensures r.Fail? ==> r.failure == Error(RequiredMessage(name))
  {
    if Blank(v) then Fail(Error(RequiredMessage(name))) else Ok(())
  }

  /** `Client.new(token)`: the argument unless it is `nil` or `false`, else
      the configured token; a blank token is refused. */
  function New(token: Json, configured: Json): (r: Result<Client>)
    ensures r.Fail? ==> r.failure == Error("token is required.")
    ensures r.Ok? ==> r.value.rate == NoRateLimit && !Blank(r.value.token)
    ensures r.Ok? ==> r.value.token == token || (!Truthy(token) && r.value.token == configured)
  {
    var t := if Truthy(token) then token else configured;
    var _ :- CheckRequired(t, "token");
    Ok(Client(t, NoRateLimit))
  }

  /** The `include_relationships:` argument. `NameList` is an array of names
      (strings or symbols); `OneName` a lone name; `EmptyHash` an empty hash;
      `OtherValue` any other value. */
  datatype IncludeArg = Omitted | NameList(names: seq<string>) | OneName(name: string) | EmptyHash | OtherValue

  /** `relationships_params`: a missing argument takes the variant's default
      relationships, an array is joined with commas, and anything else adds
      no `include` parameter. */
  function IncludeQuery(arg: IncludeArg, default: seq<string>): (q: map<string, Json>)
    ensures q.Keys <= {"include"}
    ensures "include" in q <==> arg.Omitted? || arg.NameList?
    ensures "include" in q ==> q["include"].JStr?
  {
    match arg
    case Omitted => map["include" := JStr(Join(default, ','))]
    case NameList(ns) => map["include" := JStr(Join(ns, ','))]
    case _ => map[]
  }

  /** The defaults of `upcoming_events`: seven days, in UTC. */
  const DefaultDays := JNum(7)
  const DefaultTimezone := JStr("UTC")

  /** A keyword argument: the value given, or the default when omitted. */
  function OrDefault(arg: Option<Json>, default: Json): Json {
    if arg.Some? then arg.value else default
  }

  /** One public operation with its arguments. */
  datatype Call =
    | CurrentUserCall
    | CalendarCall(calId: Json, rels: IncludeArg)
    | CalendarsCall(rels: IncludeArg)
    | LabelsCall(calId: Json)
    | MembersCall(calId: Json)
    | EventCall(calId: Json, eventId: Json, rels: IncludeArg)
    | UpcomingCall(calId: Json, days: Option<Json>, timezone: Option<Json>, rels: IncludeArg)
    | CreateEventCall(calId: Json, params: Json)
    | UpdateEventCall(calId: Json, eventId: Json, params: Json)
    | DeleteEventCall(calId: Json, eventId: Json)
    | CreateActivityCall(calId: Json, eventId: Json, params: Json)

  /** What an operation returns: one model, a list of models, or `true`. */
  datatype Reply = Single(model: Model) | Listed(models: seq<Model>) | Deleted

  /** The ids an operation checks before sending anything, in order. */
  function Checks(call: Call): seq<(Json, string)> {
    match call
    case CalendarCall(c, _) => [(c, "calendar_id")]
    case LabelsCall(c) => [(c, "calendar_id")]
    case MembersCall(c) => [(c, "calendar_id")]
    case EventCall(c, e, _) => [(c, "calendar_id"), (e, "event_id")]
    case UpcomingCall(c, _, _, _) => [(c, "calendar_id")]
    case CreateEventCall(c, _) => [(c, "calendar_id")]
    case UpdateEventCall(c, e, _) => [(c, "calendar_id"), (e, "event_id")]
    case DeleteEventCall(c, e) => [(c, "calendar_id"), (e, "event_id")]
    case CreateActivityCall(c, e, _) => [(c, "calendar_id"), (e, "event_id")]
    case _ => []
  }

  /** The first check that fails, if any. */
  function FirstBlank(checks: seq<(Json, string)>): (r: Option<string>)
    ensures r.None? <==> forall i :: 0 <= i < |checks| ==> !Blank(checks[i].0)
    ensures r.Some? ==> exists i :: 0 <= i < |checks| && Blank(checks[i].0) && r.value == checks[i].1
                                    && forall j :: 0 <= j < i ==> !Blank(checks[j].0)
  {
    if |checks| == 0 then None
    else if Blank(checks[0].0) then Some(checks[0].1)
    else
      var r := FirstBlank(checks[1..]);
      assert forall i :: 1 <= i < |checks| ==> checks[i] == checks[1..][i - 1];
      r
  }

  /** The request an operation sends. */
  function RequestOf(c: Client, call: Call): Request {
    var auth := Bearer(ToS(c.token));
    match call
    case CurrentUserCall => Request(GET, CurrentUser, map[], JObj(map[]), auth)
    case CalendarCall(cal, inc) =>
      Request(GET, CalendarOf(cal), IncludeQuery(inc, RelationshipKeys(Calendar)), JObj(map[]), auth)
    case CalendarsCall(inc) =>
      Request(GET, Calendars, IncludeQuery(inc, RelationshipKeys(Calendar)), JObj(map[]), auth)
    case LabelsCall(cal) => Request(GET, CalendarLabels(cal), map[], JObj(map[]), auth)
    case MembersCall(cal) => Request(GET, CalendarMembers(cal), map[], JObj(map[]), auth)
    case EventCall(cal, ev, inc) =>
      Request(GET, EventOf(cal, ev), IncludeQuery(inc, RelationshipKeys(Event)), JObj(map[]), auth)
    case UpcomingCall(cal, days, tz, inc) =>
      Request(GET, UpcomingEvents(cal),
              IncludeQuery(inc, RelationshipKeys(Event))["days" := OrDefault(days, DefaultDays)]
                                                        ["timezone" := OrDefault(tz, DefaultTimezone)],
              JObj(map[]), auth)
    case CreateEventCall(cal, params) => Request(POST, Events(cal), map[], params, auth)
    case UpdateEventCall(cal, ev, params) => Request(PUT, EventOf(cal, ev), map[], params, auth)
    case DeleteEventCall(cal, ev) => Request(DELETE, EventOf(cal, ev), map[], JObj(map[]), auth)
    case CreateActivityCall(cal, ev, params) => Request(POST, Activities(cal, ev), map[], params, auth)
  }

  /** The status each operation accepts. */
  function Expected(call: Call): int {
    match call
    case CreateEventCall(_, _) => 201
    case CreateActivityCall(_, _, _) => 201
    case DeleteEventCall(_, _) => 204
    case _ => 200
  }

  /** `res.body[:data]`: reading a key of a body that is not an object raises. */
  function DataOf(body: Json): (r: Result<Json>)
    ensures r.Ok? <==> body.JObj?
    ensures r.Ok? ==> r.value == Get(body, "data")
  {
    if body.JObj? then Ok(Get(body, "data")) else Fail(NoMethod("[]"))
  }

  /** The elements `data.map` iterates: an array's items; an empty object has
      none; a non-empty object yields pairs, which `to_model` cannot read;
      any other value has no `map`. */
  function Elements(data: Json): (r: Result<seq<Json>>)
    ensures data.JArr? ==> r == Ok(data.items)
    ensures r.Ok? ==> data.JArr? || data == JObj(map[])
  {
    match data
    case JArr(items) => Ok(items)
    case JObj(fields) => if |fields| == 0 then Ok([]) else Fail(NoMethod("[]"))
    case _ => Fail(NoMethod("map"))
  }

  /** `model.calendar_id = cal_id`: only events and activities have the setter. */
  function PatchCalendarId(m: Model, calId: Json): (r: Result<Model>)
    ensures r.Ok? <==> m.kind in {Event, Activity}
    ensures r.Fail? ==> r.failure == NoMethod("calendar_id=")
    ensures r.Ok? ==> r.value.slots == m.slots["calendar_id" := Raw(calId)]
    ensures r.Ok? ==> r.value.(slots := m.slots) == m
  {
    if "calendar_id" in Setters(m.kind) then Ok(m.(slots := m.slots["calendar_id" := Raw(calId)]))
    else Fail(NoMethod("calendar_id="))
  }

  /** `activity.event_id = event_id`: only activities have the setter. */
  function PatchEventId(m: Model, eventId: Json): (r: Result<Model>)
    ensures r.Ok? <==> m.kind == Activity
    ensures r.Fail? ==> r.failure == NoMethod("event_id=")
    ensures r.Ok? ==> r.value.slots == m.slots["event_id" := Raw(eventId)]
    ensures r.Ok? ==> r.value.(slots := m.slots) == m
  {
    if "event_id" in Setters(m.kind) then Ok(m.(slots := m.slots["event_id" := Raw(eventId)]))
    else Fail(NoMethod("event_id="))
  }

  /** Applies `f` to each element in order, stopping at the first failure
      (`items.map { ... }` with an exception escaping the block). */
  function MapAll<A, B>(xs: seq<A>, f: A -> Result<B>): (r: Result<seq<B>>)
    ensures r.Ok? ==> |r.value| == |xs|
    decreases |xs|
  {
    if |xs| == 0 then Ok([])
    else
      var y :- f(xs[0]);
      var rest :- MapAll(xs[1..], f);
      Ok([y] + rest)
  }

  /** One element of a list reply: decoded against the shared included
      array and, with `calId` present, given that calendar id. */
  function DecodeElement(item: Json, included: Json, client: Option<ClientKind>, parse: string -> Option<int>, calId: Option<Json>): Result<Model> {
    var m :- Decode(item, included, client, parse);
    if calId.Some? then PatchCalendarId(m, calId.value) else Ok(m)
  }

  function ElementDecoder(included: Json, client: Option<ClientKind>, parse: string -> Option<int>, calId: Option<Json>): Json -> Result<Model> {
    item => DecodeElement(item, included, client, parse, calId)
  }

  /** Decodes each element in order, stopping at the first failure; with
      `calId` present each decoded model also gets its `calendar_id`. */
  function DecodeEach(items: seq<Json>, included: Json, client: Option<ClientKind>, parse: string -> Option<int>, calId: Option<Json>): (r: Result<seq<Model>>)
    ensures r.Ok? ==> |r.value| == |items|
  {
    MapAll(items, ElementDecoder(included, client, parse, calId))
  }

  /** What an operation makes of the body of an accepted response. */
  function Finish(call: Call, body: Json, parse: string -> Option<int>): Result<Reply> {
    var client := Some(UserTokenClient);
    if call.DeleteEventCall? then Ok(Deleted)
    else
      var data :- DataOf(body);
      match call
      case CurrentUserCall =>
        var m :- Decode(data, JNull, client, parse);
        Ok(Single(m))
      case CalendarCall(_, _) =>
        var m :- Decode(data, Get(body, "included"), client, parse);
        Ok(Single(m))
      case CalendarsCall(_) =>
        var items :- Elements(data);
        var ms :- DecodeEach(items, Get(body, "included"), client, parse, None);
        Ok(Listed(ms))
      case LabelsCall(_) =>
        var items :- Elements(data);
        var ms :- DecodeEach(items, JNull, client, parse, None);
        Ok(Listed(ms))
      case MembersCall(_) =>
        var items :- Elements(data);
        var ms :- DecodeEach(items, JNull, client, parse, None);
        Ok(Listed(ms))
      case EventCall(cal, _, _) =>
        var m :- Decode(data, Get(body, "included"), client, parse);
        var ev :- PatchCalendarId(m, cal);
        Ok(Single(ev))
      case UpcomingCall(cal, _, _, _) =>
        var items :- Elements(data);
        var ms :- DecodeEach(items, Get(body, "included"), client, parse, Some(cal));
        Ok(Listed(ms))
      case CreateEventCall(cal, _) =>
        var m :- Decode(data, JNull, client, parse);
        var ev :- PatchCalendarId(m, cal);
        Ok(Single(ev))
      case UpdateEventCall(cal, _, _) =>
        var m :- Decode(data, JNull, client, parse);
        var ev :- PatchCalendarId(m, cal);
        Ok(Single(ev))
      case CreateActivityCall(cal, ev, _) =>
        var m :- Decode(data, JNull, client, parse);
        var a :- PatchCalendarId(m, cal);
        var b :- PatchEventId(a, ev);
        Ok(Single(b))
  }

  /** Runs one operation against the response `resp` the server gives to
      its request. */
  function Perform(c: Client, call: Call, resp: Response, parse: string -> Option<int>): (r: Exchange<Client, Reply>)
    ensures r.state.token == c.token
    ensures |r.sent| <= 1
  {
    match FirstBlank(Checks(call))
    case Some(name) => Exchange(c, [], Fail(Error(RequiredMessage(name))))
    case None =>
      Exchange(c.(rate := UpdateRatelimit(c.rate, resp.headers)), [RequestOf(c, call)],
               if resp.status != Expected(call) then Fail(Raise(resp)) else Finish(call, resp.body, parse))
  }
}
