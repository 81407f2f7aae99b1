/** The operations a decoded model offers (lib/timetree/models/event.rb,
    calendar.rb and activity.rb): request bodies built from the model, and
    calls delegated to the client bound in `@client`.

    The bound client is the `Backend` parameter: the user-token client with
    its state, or the calendar-app client with its state, the clock and the
    answer to a token exchange. A model records only which kind of client it
    is bound to, and the backend passed must be of that kind.
 */
module ModelOps {
  import opened JsonData
  import opened Outcomes
  import opened Resources
  import opened Transport
  import UserClient
  import CalendarApp

  datatype Backend =
    | UserBackend(user: UserClient.Client)
    | AppBackend(app: CalendarApp.App, now: int, tokenResp: Response)

  function KindOfBackend(b: Backend): ClientKind {
    if b.UserBackend? then UserTokenClient else CalendarAppClient
  }

  /** The model is unbound, or bound to this backend's kind of client. */
  predicate BoundTo(m: Model, b: Backend) {
    m.client.None? || m.client == Some(KindOfBackend(b))
  }

  /** A user-client exchange seen from the model. */
  function Lift<T>(e: Exchange<UserClient.Client, T>): (r: Exchange<Backend, T>)
    ensures r.state == UserBackend(e.state) && r.sent == e.sent && r.result == e.result
  {
    Exchange(UserBackend(e.state), e.sent, e.result)
  }

  /** An app-client exchange seen from the model; the clock and the token
      answer stay as they were. */
  function LiftApp<T>(b: Backend, e: Exchange<CalendarApp.App, T>): (r: Exchange<Backend, T>)
    requires b.AppBackend?
    ensures r.state == b.(app := e.state) && r.sent == e.sent && r.result == e.result
  {
    Exchange(b.(app := e.state), e.sent, e.result)
  }

  /** A call that raises before anything is sent. */
  function Refused<T>(b: Backend, f: Failure): (r: Exchange<Backend, T>)
    ensures r.state == b && r.sent == [] && r.result == Fail(f)
  {
    Exchange(b, [], Fail(f))
  }

  /** Ruby truthiness of an instance variable; an unset one reads as `nil`. */
  predicate SlotTruthy(m: Model, key: string) {
    key in m.slots && (m.slots[key].Raw? ==> Truthy(m.slots[key].json))
  }

  /** `start_at.iso8601`: only a parsed time can be formatted. */
  function TimeText(m: Model, key: string, format: int -> string): (r: Result<Json>)
    ensures r.Ok? <==> key in m.slots && m.slots[key].At?
    ensures r.Ok? ==> r.value == JStr(format(m.slots[key].seconds))
    ensures r.Fail? ==> r.failure == NoMethod("iso8601")
  {
    if key in m.slots && m.slots[key].At? then Ok(JStr(format(m.slots[key].seconds)))
    else Fail(NoMethod("iso8601"))
  }

  /** `relationships[key]`, which raises while `@relationships` is `nil`. */
  function RecordedReference(m: Model, key: string): (r: Result<Json>)
    ensures r.Fail? <==> m.relationships.None?
    ensures r.Fail? ==> r.failure == NoMethod("[]")
    ensures r.Ok? ==> r.value == (if key in m.relationships.value then m.relationships.value[key] else JNull)
  {
    match m.relationships
    case None => Fail(NoMethod("[]"))
    case Some(rels) => Ok(if key in rels then rels[key] else JNull)
  }

  /** A `{type, id}` reference. */
  function Reference(tag: string, id: Json): Json {
    Pair("type", JStr(tag), "id", id)
  }

  /** The label sent with an event: the resolved label's reference when the
      accessor holds one, else the recorded raw reference. A truthy value
      that is not a model has no `id`. */
  function CurrentLabel(m: Model): (r: Result<Json>)
    ensures !SlotTruthy(m, "label") ==> r == RecordedReference(m, "label")
    ensures SlotTruthy(m, "label") ==> (r.Ok? <==> m.slots["label"].One?)
    ensures r.Ok? && SlotTruthy(m, "label") ==> r.value == Reference("label", m.slots["label"].model.id)
    ensures r.Fail? && SlotTruthy(m, "label") ==> r.failure == NoMethod("id")
  {
    if !SlotTruthy(m, "label") then RecordedReference(m, "label")
    else match m.slots["label"]
      case One(l) => Ok(Reference("label", l.id))
      case _ => Fail(NoMethod("id"))
  }

  /** The attendees sent with an event: one user reference per resolved
      attendee when the accessor holds a list, else the recorded raw
      references. Mapping over raw JSON works only when there is nothing to
      map: an element would need an `id` method. */
  function CurrentAttendees(m: Model): (r: Result<Json>)
    ensures !SlotTruthy(m, "attendees") ==> r == RecordedReference(m, "attendees")
    ensures SlotTruthy(m, "attendees") && m.slots["attendees"].Many? ==>
              r.Ok? && r.value.JArr? && |r.value.items| == |m.slots["attendees"].models|
              && forall i :: 0 <= i < |r.value.items| ==>
                   r.value.items[i] == Reference("user", m.slots["attendees"].models[i].id)
    ensures SlotTruthy(m, "attendees") && (m.slots["attendees"].One? || m.slots["attendees"].At?) ==> r == Fail(NoMethod("map"))
  {
    if !SlotTruthy(m, "attendees") then RecordedReference(m, "attendees")
    else match m.slots["attendees"]
      case Many(users) => Ok(JArr(seq(|users|, i requires 0 <= i < |users| => Reference("user", users[i].id))))
      case Raw(j) =>
        (match j
         case JArr(items) => if |items| == 0 then Ok(JArr([])) else Fail(NoMethod("id"))
         case JObj(fields) => if |fields| == 0 then Ok(JArr([])) else Fail(NoMethod("id"))
         case _ => Fail(NoMethod("map")))
      case _ => Fail(NoMethod("map"))
  }

  /** `Event#relationships_params`: the label is evaluated before the
      attendees. */
  function RelationshipsParams(m: Model): (r: Result<Json>)
    ensures r.Ok? <==> CurrentLabel(m).Ok? && CurrentAttendees(m).Ok?
    ensures r.Fail? ==> r.failure == (if CurrentLabel(m).Fail? then CurrentLabel(m).failure else CurrentAttendees(m).failure)
    ensures r.Ok? ==> r.value.JObj? && r.value.fields.Keys == {"label", "attendees"}
    ensures r.Ok? ==> r.value.fields["label"] == JObj(map["data" := CurrentLabel(m).value])
    ensures r.Ok? ==> r.value.fields["attendees"] == JObj(map["data" := CurrentAttendees(m).value])
  {
    var current :- CurrentLabel(m);
    var others :- CurrentAttendees(m);
    Ok(JObj(map["label" := JObj(map["data" := current]), "attendees" := JObj(map["data" := others])]))
  }

  /** The attribute keys an event sends, of which two are times. */
  const EventParamKeys: set<string> :=
    {"category", "title", "all_day", "start_at", "start_timezone", "end_at", "end_timezone",
     "description", "location", "url"}

  /** The attributes `Event#data_params` sends, in Ruby's evaluation order. */
  function EventAttributes(m: Model, format: int -> string): (r: Result<map<string, Json>>)
    ensures r.Ok? ==> r.value.Keys == EventParamKeys
    ensures r.Ok? ==> TimeText(m, "start_at", format).Ok? && TimeText(m, "end_at", format).Ok?
    ensures r.Ok? ==> r.value["start_at"] == JStr(format(m.slots["start_at"].seconds))
                      && r.value["end_at"] == JStr(format(m.slots["end_at"].seconds))
    ensures r.Ok? ==> forall key | key in EventParamKeys - {"start_at", "end_at"} :: Ok(r.value[key]) == Value(m, key)
    ensures TimeText(m, "start_at", format).Fail? ==> r.Fail?
    ensures TimeText(m, "end_at", format).Fail? ==> r.Fail?
  {
    var category :- Value(m, "category");
    var title :- Value(m, "title");
    var allDay :- Value(m, "all_day");
    var startAt :- TimeText(m, "start_at", format);
    var startTz :- Value(m, "start_timezone");
    var endAt :- TimeText(m, "end_at", format);
    var endTz :- Value(m, "end_timezone");
    var description :- Value(m, "description");
    var location :- Value(m, "location");
    var url :- Value(m, "url");
    Ok(map["category" := category, "title" := title, "all_day" := allDay, "start_at" := startAt,
           "start_timezone" := startTz, "end_at" := endAt, "end_timezone" := endTz,
           "description" := description, "location" := location, "url" := url])
  }

  /** `Event#data_params`: the request body of a create or an update. */
  function EventDataParams(m: Model, format: int -> string): (r: Result<Json>)
    ensures r.Ok? <==> EventAttributes(m, format).Ok? && RelationshipsParams(m).Ok?
    ensures r.Ok? ==> r.value == JObj(map["data" := JObj(map["attributes" := JObj(EventAttributes(m, format).value),
                                                             "relationships" := RelationshipsParams(m).value])])
  {
    var attrs :- EventAttributes(m, format);
    var rels :- RelationshipsParams(m);
    Ok(JObj(map["data" := JObj(map["attributes" := JObj(attrs), "relationships" := rels])]))
  }

  /** `Event#create`: posts the event to its calendar. The app client's
      `create_event` takes one argument, so the two-argument call raises. */
  function EventCreate(m: Model, b: Backend, resp: Response, codec: TimeCodec): (r: Exchange<Backend, UserClient.Reply>)
    requires BoundTo(m, b)
    ensures m.client.None? ==> r == Refused(b, Error("@client is nil."))
    ensures m.client.Some? && b.AppBackend? ==> r.sent == [] && r.result.Fail?
  {
    if m.client.None? then Refused(b, Error("@client is nil."))
    else match Value(m, "calendar_id")
      case Fail(f) => Refused(b, f)
      case Ok(calId) =>
        match EventDataParams(m, codec.format)
        case Fail(f) => Refused(b, f)
        case Ok(params) =>
          match b
          case UserBackend(c) => Lift(UserClient.Perform(c, UserClient.CreateEventCall(calId, params), resp, codec.parse))
          case AppBackend(_, _, _) => Refused(b, Arity("create_event"))
  }

  /** `Event#update`. */
  function EventUpdate(m: Model, b: Backend, resp: Response, codec: TimeCodec): (r: Exchange<Backend, UserClient.Reply>)
    requires BoundTo(m, b)
    ensures m.client.None? ==> r == Refused(b, Error("@client is nil."))
    ensures m.client.Some? && b.AppBackend? ==> r.sent == [] && r.result.Fail?
  {
    if m.client.None? then Refused(b, Error("@client is nil."))
    else match Value(m, "calendar_id")
      case Fail(f) => Refused(b, f)
      case Ok(calId) =>
        match EventDataParams(m, codec.format)
        case Fail(f) => Refused(b, f)
        case Ok(params) =>
          match b
          case UserBackend(c) => Lift(UserClient.Perform(c, UserClient.UpdateEventCall(calId, m.id, params), resp, codec.parse))
          case AppBackend(_, _, _) => Refused(b, Arity("update_event"))
  }

  /** `Event#delete`. */
  function EventDelete(m: Model, b: Backend, resp: Response, codec: TimeCodec): (r: Exchange<Backend, UserClient.Reply>)
    requires BoundTo(m, b)
    ensures m.client.None? ==> r == Refused(b, Error("@client is nil."))
    ensures m.client.Some? && b.AppBackend? && Value(m, "calendar_id").Ok? ==> r == Refused(b, Arity("delete_event"))
  {
    if m.client.None? then Refused(b, Error("@client is nil."))
    else match Value(m, "calendar_id")
      case Fail(f) => Refused(b, f)
      case Ok(calId) =>
        match b
        case UserBackend(c) => Lift(UserClient.Perform(c, UserClient.DeleteEventCall(calId, m.id), resp, codec.parse))
        case AppBackend(_, _, _) => Refused(b, Arity("delete_event"))
  }

  /** `Activity#data_params`. */
  function ActivityDataParams(m: Model): (r: Result<Json>)
    ensures r.Ok? <==> Value(m, "content").Ok?
    ensures r.Ok? ==> r.value == JObj(map["data" := JObj(map["attributes" := JObj(map["content" := Value(m, "content").value])])])
  {
    var content :- Value(m, "content");
    Ok(JObj(map["data" := JObj(map["attributes" := JObj(map["content" := content])])]))
  }

  /** `Activity#create` as written: `_create` tests `@cilent`, an instance
      variable that is never set, so it always makes the three-argument
      call, which the app client's two-argument `create_activity` refuses. */
  function ActivityCreateAsWritten(m: Model, b: Backend, resp: Response, codec: TimeCodec): (r: Exchange<Backend, UserClient.Reply>)
    requires BoundTo(m, b)
    ensures m.client.None? ==> r == Refused(b, Error("@client is nil."))
  {
    if m.client.None? then Refused(b, Error("@client is nil."))
    else
      match Value(m, "calendar_id")
      case Fail(f) => Refused(b, f)
      case Ok(calId) =>
        match Value(m, "event_id")
        case Fail(f) => Refused(b, f)
        case Ok(eventId) =>
          match ActivityDataParams(m)
          case Fail(f) => Refused(b, f)
          case Ok(params) =>
            match b
            case UserBackend(c) =>
              Lift(UserClient.Perform(c, UserClient.CreateActivityCall(calId, eventId, params), resp, codec.parse))
            case AppBackend(_, _, _) => Refused(b, Arity("create_activity"))
  }

  /** `Activity#create` as evidently intended: testing `@client`, so that an
      app-bound comment makes the app client's two-argument call. */
  function ActivityCreate(m: Model, b: Backend, resp: Response, codec: TimeCodec): (r: Exchange<Backend, UserClient.Reply>)
    requires BoundTo(m, b)
    ensures m.client.None? ==> r == Refused(b, Error("@client is nil."))
    ensures b.UserBackend? ==> r == ActivityCreateAsWritten(m, b, resp, codec)
  {
    if m.client.None? then Refused(b, Error("@client is nil."))
    else
      match b
      case UserBackend(_) => ActivityCreateAsWritten(m, b, resp, codec)
      case AppBackend(app, now, tokenResp) =>
        match Value(m, "event_id")
        case Fail(f) => Refused(b, f)
        case Ok(eventId) =>
          match ActivityDataParams(m)
          case Fail(f) => Refused(b, f)
          case Ok(params) =>
            LiftApp(b, CalendarApp.Perform(app, CalendarApp.ActivityCreate(eventId, params), now, tokenResp, resp, codec.parse))
  }

  /** The activity `Event#create_comment` builds: the event's calendar id,
      its id as the event id, and the message as content. */
  function CommentPayload(m: Model, message: Json): (r: Result<Json>)
    ensures r.Ok? <==> Value(m, "calendar_id").Ok?
  {
    var calId :- Value(m, "calendar_id");
    Ok(JObj(map["type" := JStr("activity"),
                "attributes" := JObj(map["calendar_id" := calId, "event_id" := m.id, "content" := message])]))
  }

  /** `Event#create_comment`: builds the activity bound to the same client
      and creates it through `Activity#create` as written. */
  function CreateComment(m: Model, message: Json, b: Backend, resp: Response, codec: TimeCodec): (r: Exchange<Backend, UserClient.Reply>)
    requires BoundTo(m, b)
    ensures m.client.None? ==> r == Refused(b, Error("@client is nil."))
    ensures Value(m, "calendar_id").Fail? ==> r.sent == [] && r.state == b && r.result.Fail?
  {
    if m.client.None? then Refused(b, Error("@client is nil."))
    else
      match CommentPayload(m, message)
      case Fail(f) => Refused(b, f)
      case Ok(payload) =>
        match Build(payload, m.client, codec.parse)
        case Fail(f) => Refused(b, f)
        case Ok(activity) => ActivityCreateAsWritten(activity, b, resp, codec)
  }

  /** `Event#create_comment` over the corrected `Activity#create`: the same
      as written for the user client; the app client gets its own call. */
  function CreateCommentIntended(m: Model, message: Json, b: Backend, resp: Response, codec: TimeCodec): (r: Exchange<Backend, UserClient.Reply>)
    requires BoundTo(m, b)
    ensures m.client.None? ==> r == Refused(b, Error("@client is nil."))
    ensures b.UserBackend? ==> r == CreateComment(m, message, b, resp, codec)
  {
    if m.client.None? then Refused(b, Error("@client is nil."))
    else
      match CommentPayload(m, message)
      case Fail(f) => Refused(b, f)
      case Ok(payload) =>
        match Build(payload, m.client, codec.parse)
        case Fail(f) => Refused(b, f)
        case Ok(activity) => ActivityCreate(activity, b, resp, codec)
  }

  /** `Calendar#event(event_id)`. The app client's `event` takes one
      positional argument, so the two-argument call raises. */
  function CalendarEvent(m: Model, eventId: Json, b: Backend, resp: Response, codec: TimeCodec): (r: Exchange<Backend, UserClient.Reply>)
    requires BoundTo(m, b)
    ensures m.client.None? ==> r == Refused(b, Error("@client is nil."))
    ensures m.client.Some? && b.AppBackend? ==> r == Refused(b, Arity("event"))
    ensures m.client.Some? && b.UserBackend? ==>
              r == Lift(UserClient.Perform(b.user, UserClient.EventCall(m.id, eventId, UserClient.Omitted), resp, codec.parse))
  {
    if m.client.None? then Refused(b, Error("@client is nil."))
    else match b
      case UserBackend(c) => Lift(UserClient.Perform(c, UserClient.EventCall(m.id, eventId, UserClient.Omitted), resp, codec.parse))
      case AppBackend(_, _, _) => Refused(b, Arity("event"))
  }

  /** `Calendar#upcoming_events(days: 7, timezone: 'UTC')`; `None` stands
      for an omitted keyword argument and is passed on as such, so the
      client's defaults, which are the same, apply. */
  function CalendarUpcomingEvents(m: Model, days: Option<Json>, timezone: Option<Json>, b: Backend, resp: Response, codec: TimeCodec)
    : (r: Exchange<Backend, UserClient.Reply>)
    requires BoundTo(m, b)
    ensures m.client.None? ==> r == Refused(b, Error("@client is nil."))
    ensures m.client.Some? && b.AppBackend? ==> r == Refused(b, Arity("upcoming_events"))
    ensures m.client.Some? && b.UserBackend? ==>
              r == Lift(UserClient.Perform(b.user, UserClient.UpcomingCall(m.id, days, timezone, UserClient.Omitted), resp, codec.parse))
  {
    if m.client.None? then Refused(b, Error("@client is nil."))
    else match b
      case UserBackend(c) =>
        Lift(UserClient.Perform(c, UserClient.UpcomingCall(m.id, days, timezone, UserClient.Omitted), resp, codec.parse))
      case AppBackend(_, _, _) => Refused(b, Arity("upcoming_events"))
  }


  /** `Calendar#members` and `Calendar#labels`: the instance variable when it
      is set (by an earlier call, or by resolving an included relationship),
      else one request whose list is stored for next time. The app client
      has no `calendar_labels`, and its `calendar_members` takes no
      argument. */
  function Memoised(m: Model, key: string, b: Backend, resp: Response, codec: TimeCodec): (r: (Model, Exchange<Backend, Slot>))
    requires key in {"members", "labels"}
    requires BoundTo(m, b)
    ensures key in m.slots ==> r == (m, Exchange(b, [], Ok(m.slots[key])))
    ensures key !in m.slots && m.client.None? ==> r == (m, Refused(b, Error("@client is nil.")))
    ensures r.1.result.Ok? ==> key in r.0.slots && r.0.slots[key] == r.1.result.value
    ensures r.0.(slots := m.slots) == m
    ensures forall k | k != key :: (k in r.0.slots <==> k in m.slots) && (k in m.slots ==> r.0.slots[k] == m.slots[k])
  {
    if key in m.slots then (m, Exchange(b, [], Ok(m.slots[key])))
    else if m.client.None? then (m, Refused(b, Error("@client is nil.")))
    else match b
      case AppBackend(_, _, _) =>
        (m, Refused(b, if key == "labels" then NoMethod("calendar_labels") else Arity("calendar_members")))
      case UserBackend(c) =>
        var call := if key == "labels" then UserClient.LabelsCall(m.id) else UserClient.MembersCall(m.id);
        var e := UserClient.Perform(c, call, resp, codec.parse);
        if e.result.Fail? then (m, Exchange(UserBackend(e.state), e.sent, Fail(e.result.failure)))
        else if e.result.value.Listed? then
          var ms := e.result.value.models;
          (m.(slots := m.slots[key := Many(ms)]), Exchange(UserBackend(e.state), e.sent, Ok(Many(ms))))
        else (m, Exchange(UserBackend(e.state), e.sent, Fail(NoMethod("map"))))
  }
}
