/** Properties of the operations a decoded model offers. */
module ModelOpsFacts {
  import opened JsonData
  import opened Outcomes
  import opened Resources
  import opened Transport
  import opened ModelOps
  import UserClient
  import CalendarApp
  import ResourceFacts
  import UserClientFacts

  /** An event payload whose attributes are those a request body carried,
      as the server echoes them back. */
  function Echo(id: Json, attrs: map<string, Json>): Json {
    JObj(map["type" := JStr("event"), "id" := id, "attributes" := JObj(attrs)])
  }

  /** The event decoded from the echo of the attributes `m` sends. */
  function Echoed(m: Model, codec: TimeCodec, client: Option<ClientKind>): Result<Model>
    requires EventAttributes(m, codec.format).Ok?
  {
    Build(Echo(m.id, EventAttributes(m, codec.format).value), client, codec.parse)
  }

  /** The attributes of an echoed event are all copied: the two instants
      parsed, the rest verbatim. */
  lemma {:induction false} EchoAttributes(attrs: map<string, Json>, parse: string -> Option<int>)
    requires attrs.Keys == EventParamKeys
    requires attrs["start_at"].JStr? && parse(attrs["start_at"].s).Some?
    requires attrs["end_at"].JStr? && parse(attrs["end_at"].s).Some?
    ensures SetAttributes(Event, attrs, parse).Ok?
    ensures forall key | key in EventParamKeys ::
              key in SetAttributes(Event, attrs, parse).value
              && SetAttributes(Event, attrs, parse).value[key] ==
                   (if key in {"start_at", "end_at"} then At(parse(attrs[key].s).value) else Raw(attrs[key]))
  {
    assert EventParamKeys * TimeFields(Event) == {"start_at", "end_at"};
    assert EventParamKeys <= Setters(Event);
    forall key | key in attrs && key in TimeFields(Event)
      ensures ParseTime(attrs[key], parse).Some?
    {
      assert key == "start_at" || key == "end_at";
    }
  }

  /** An echoed event payload decodes to an event holding the parsed
      instants and the other attributes verbatim. */
  lemma {:induction false} EchoDecodes(id: Json, attrs: map<string, Json>, client: Option<ClientKind>, parse: string -> Option<int>)
    requires attrs.Keys == EventParamKeys
    requires attrs["start_at"].JStr? && parse(attrs["start_at"].s).Some?
    requires attrs["end_at"].JStr? && parse(attrs["end_at"].s).Some?
    ensures Build(Echo(id, attrs), client, parse) ==
              Ok(Model(Event, id, client, SetAttributes(Event, attrs, parse).value, None))
  {
    var data := Echo(id, attrs);
    assert Get(data, "type") == JStr("event");
    assert KindOf(Get(data, "type")) == Some(Event);
    assert Get(data, "id") == id;
    assert AttributesOf(data) == attrs;
    assert RelationshipsOf(data) == map[];
    assert Record(Event, map[]) == Ok(None);
    EchoAttributes(attrs, parse);
  }

  /** Sending an event and decoding what was sent gives back the same
      instants and the same attribute values, provided the time format
      parses back to the instant it was made from. */
  lemma {:induction false} DataParamsRoundTrip(m: Model, codec: TimeCodec, client: Option<ClientKind>)
    requires Coherent(codec)
    requires EventAttributes(m, codec.format).Ok?
    ensures Echoed(m, codec, client).Ok?
    ensures Echoed(m, codec, client).value.kind == Event && Echoed(m, codec, client).value.id == m.id
    ensures "start_at" in Echoed(m, codec, client).value.slots && Echoed(m, codec, client).value.slots["start_at"] == m.slots["start_at"]
    ensures "end_at" in Echoed(m, codec, client).value.slots && Echoed(m, codec, client).value.slots["end_at"] == m.slots["end_at"]
    ensures forall key | key in EventParamKeys - {"start_at", "end_at"} :: Value(Echoed(m, codec, client).value, key) == Value(m, key)
  {
    var attrs := EventAttributes(m, codec.format).value;
    var start := m.slots["start_at"].seconds;
    var finish := m.slots["end_at"].seconds;
    assert codec.parse(codec.format(start)) == Some(start);
    assert codec.parse(codec.format(finish)) == Some(finish);
    EchoDecodes(m.id, attrs, client, codec.parse);
    EchoAttributes(attrs, codec.parse);
    var e := Echoed(m, codec, client).value;
    forall key | key in EventParamKeys - {"start_at", "end_at"}
      ensures Value(e, key) == Value(m, key)
    {
      assert e.slots[key] == Raw(attrs[key]);
    }
  }

  /** What a decoded event records for a relationship: the `data` of a
      declared entry that is an object with a truthy `data`, else nothing. */
  function RecordedData(rels: map<string, Json>, key: string): Json {
    if key in rels && rels[key].JObj? && Truthy(Get(rels[key], "data")) then Get(rels[key], "data") else JNull
  }

  /** A decoded event whose references were not resolved sends back exactly
      the references it was decoded from. */
  lemma {:induction false} RawReferencesSentBack(data: Json, client: Option<ClientKind>, parse: string -> Option<int>)
    requires Build(data, client, parse).Ok? && Build(data, client, parse).value.kind == Event
    requires "label" !in AttributesOf(data) && "attendees" !in AttributesOf(data)
    requires Build(data, client, parse).value.relationships.Some?
    ensures RelationshipsParams(Build(data, client, parse).value) ==
              Ok(JObj(map["label" := JObj(map["data" := RecordedData(RelationshipsOf(data), "label")]),
                          "attendees" := JObj(map["data" := RecordedData(RelationshipsOf(data), "attendees")])]))
  {
    var m := Build(data, client, parse).value;
    var rels := RelationshipsOf(data);
    ResourceFacts.AttributesCopied(data, client, parse);
    ResourceFacts.BuildRecords(data, client, parse);
    ResourceFacts.RecordContents(Event, rels);
    assert "label" in RelationshipKeys(Event) && "attendees" in RelationshipKeys(Event);
    assert !SlotTruthy(m, "label") && !SlotTruthy(m, "attendees");
    var recorded := m.relationships.value;
    assert ("label" in recorded ==> recorded["label"] == RecordedData(rels, "label"))
        && ("label" !in recorded ==> RecordedData(rels, "label") == JNull);
    assert ("attendees" in recorded ==> recorded["attendees"] == RecordedData(rels, "attendees"))
        && ("attendees" !in recorded ==> RecordedData(rels, "attendees") == JNull);
  }

  /** A decoded event whose payload had no relationships and no label
      cannot be sent: `relationships` is `nil`, and reading the label
      reference from it raises before anything is sent. */
  lemma {:induction false} EventWithoutRelationshipsIsNotSent(data: Json, b: Backend, resp: Response, codec: TimeCodec)
    requires Build(data, Some(KindOfBackend(b)), codec.parse).Ok?
    requires Build(data, Some(KindOfBackend(b)), codec.parse).value.kind == Event
    requires RelationshipsOf(data) == map[] && "label" !in AttributesOf(data)
    ensures RelationshipsParams(Build(data, Some(KindOfBackend(b)), codec.parse).value) == Fail(NoMethod("[]"))
    ensures EventCreate(Build(data, Some(KindOfBackend(b)), codec.parse).value, b, resp, codec).sent == []
    ensures EventCreate(Build(data, Some(KindOfBackend(b)), codec.parse).value, b, resp, codec).result.Fail?
    ensures EventUpdate(Build(data, Some(KindOfBackend(b)), codec.parse).value, b, resp, codec).sent == []
  {
    var m := Build(data, Some(KindOfBackend(b)), codec.parse).value;
    ResourceFacts.AttributesCopied(data, Some(KindOfBackend(b)), codec.parse);
    ResourceFacts.BuildRecords(data, Some(KindOfBackend(b)), codec.parse);
    ResourceFacts.RecordContents(Event, RelationshipsOf(data));
    assert m.relationships.None?;
    assert !SlotTruthy(m, "label");
    assert EventDataParams(m, codec.format).Fail?;
  }

  /** Creating an event with the user client posts its data params to its
      calendar's events. */
  lemma EventCreatePostsDataParams(m: Model, c: UserClient.Client, resp: Response, codec: TimeCodec, calId: Json)
    requires m.client == Some(UserTokenClient)
    requires Value(m, "calendar_id") == Ok(calId) && !UserClient.Blank(calId)
    requires EventDataParams(m, codec.format).Ok?
    ensures EventCreate(m, UserBackend(c), resp, codec).sent ==
              [Request(POST, Events(calId), map[], EventDataParams(m, codec.format).value, Bearer(ToS(c.token)))]
  {
  }

  /** Once `members` or `labels` has been fetched, asking again returns the
      same list and sends nothing, whichever client is passed. */
  lemma MemoReused(m: Model, key: string, b: Backend, resp: Response, b2: Backend, resp2: Response, codec: TimeCodec)
    requires key in {"members", "labels"}
    requires BoundTo(m, b) && BoundTo(m, b2)
    requires Memoised(m, key, b, resp, codec).1.result.Ok?
    ensures Memoised(Memoised(m, key, b, resp, codec).0, key, b2, resp2, codec) ==
              (Memoised(m, key, b, resp, codec).0, Exchange(b2, [], Memoised(m, key, b, resp, codec).1.result))
  {
  }

  /** A calendar decoded with its members or labels included already holds
      them: no request is made for them. */
  lemma {:induction false} IncludedMembersNeedNoRequest(m: Model, key: string, b: Backend, resp: Response, codec: TimeCodec)
    requires key in {"members", "labels"}
    requires BoundTo(m, b)
    requires key in m.slots
    ensures Memoised(m, key, b, resp, codec).1.sent == []
    ensures Memoised(m, key, b, resp, codec).1.result == Ok(m.slots[key])
  {
  }

  /** A first fetch with the user client asks for the calendar's members or
      labels and stores the list it gets. */
  lemma FirstFetchStoresList(m: Model, key: string, c: UserClient.Client, resp: Response, codec: TimeCodec)
    requires key in {"members", "labels"}
    requires m.client == Some(UserTokenClient) && key !in m.slots && !UserClient.Blank(m.id)
    ensures var r := Memoised(m, key, UserBackend(c), resp, codec);
            |r.1.sent| == 1
            && r.1.sent[0].endpoint == (if key == "labels" then CalendarLabels(m.id) else CalendarMembers(m.id))
            && (r.1.result.Ok? ==> r.1.result.value.Many?)
  {
  }

  /** The calendar-app client has no `calendar_labels`, and the other
      delegations pass it more positional arguments than it takes: each
      raises before anything is sent. */
  lemma AppBoundCalendarRaises(m: Model, eventId: Json, days: Option<Json>, timezone: Option<Json>, b: Backend, resp: Response, codec: TimeCodec)
    requires b.AppBackend? && m.client == Some(CalendarAppClient)
    requires "members" !in m.slots && "labels" !in m.slots
    ensures Memoised(m, "labels", b, resp, codec) == (m, Refused(b, NoMethod("calendar_labels")))
    ensures Memoised(m, "members", b, resp, codec) == (m, Refused(b, Arity("calendar_members")))
    ensures CalendarEvent(m, eventId, b, resp, codec) == Refused(b, Arity("event"))
    ensures CalendarUpcomingEvents(m, days, timezone, b, resp, codec) == Refused(b, Arity("upcoming_events"))
  {
  }

  /** As written, commenting through the calendar-app client always makes
      the three-argument call, which that client refuses. */
  lemma {:induction false} CommentAsWrittenRefusedByApp(m: Model, b: Backend, resp: Response, codec: TimeCodec)
    requires b.AppBackend? && m.client == Some(CalendarAppClient)
    requires Value(m, "calendar_id").Ok? && Value(m, "event_id").Ok? && Value(m, "content").Ok?
    ensures ActivityCreateAsWritten(m, b, resp, codec) == Refused(b, Arity("create_activity"))
  {
  }

  /** Corrected, an app-bound activity with a valid cached token is posted
      once, to the event's activities, carrying its data params. */
  lemma {:induction false} CommentReachesApp(m: Model, b: Backend, resp: Response, codec: TimeCodec)
    requires b.AppBackend? && m.client == Some(CalendarAppClient)
    requires CalendarApp.HasValidToken(b.app, b.now) == Ok(true)
    requires Value(m, "event_id").Ok? && Value(m, "content").Ok?
    ensures ActivityCreate(m, b, resp, codec).sent ==
              [Request(POST, AppActivities(Value(m, "event_id").value), map[], ActivityDataParams(m).value, Bearer(ToS(b.app.token)))]
  {
    var a := b.app;
    assert CalendarApp.CheckAccessToken(a, b.now, b.tokenResp) == Exchange(a, [], Ok(()));
    var call := CalendarApp.ActivityCreate(Value(m, "event_id").value, ActivityDataParams(m).value);
    assert CalendarApp.QueryOf(call) == Ok(map[]);
  }

  /** The activity a comment creates is bound to the event's client and
      carries the event's calendar id, the event's id and the message. */
  lemma {:induction false} CommentActivity(m: Model, message: Json, codec: TimeCodec)
    requires Value(m, "calendar_id").Ok?
    ensures CommentPayload(m, message).Ok?
    ensures Build(CommentPayload(m, message).value, m.client, codec.parse).Ok?
    ensures var act := Build(CommentPayload(m, message).value, m.client, codec.parse).value;
            && act.kind == Activity && act.client == m.client
            && Value(act, "calendar_id") == Value(m, "calendar_id")
            && Value(act, "event_id") == Ok(m.id)
            && Value(act, "content") == Ok(message)
  {
    CommentPayloadBuilds(m, message, codec);
  }

  lemma CommentPayloadBuilds(m: Model, message: Json, codec: TimeCodec)
    requires Value(m, "calendar_id").Ok?
    ensures CommentPayload(m, message).Ok?
    ensures AttributesOf(CommentPayload(m, message).value) ==
              map["calendar_id" := Value(m, "calendar_id").value, "event_id" := m.id, "content" := message]
    ensures Build(CommentPayload(m, message).value, m.client, codec.parse).Ok?
    ensures var act := Build(CommentPayload(m, message).value, m.client, codec.parse).value;
            && act.kind == Activity
            && "calendar_id" in act.slots && act.slots["calendar_id"] == Raw(Value(m, "calendar_id").value)
            && "event_id" in act.slots && act.slots["event_id"] == Raw(m.id)
            && "content" in act.slots && act.slots["content"] == Raw(message)
  {
    CommentPayloadShape(m, message);
    var attrs := map["calendar_id" := Value(m, "calendar_id").value, "event_id" := m.id, "content" := message];
    assert SetAttributes(Activity, attrs, codec.parse).Ok?;
  }

  lemma CommentPayloadShape(m: Model, message: Json)
    requires Value(m, "calendar_id").Ok?
    ensures CommentPayload(m, message).Ok?
    ensures KindOf(Get(CommentPayload(m, message).value, "type")) == Some(Activity)
    ensures AttributesOf(CommentPayload(m, message).value) ==
              map["calendar_id" := Value(m, "calendar_id").value, "event_id" := m.id, "content" := message]
    ensures RelationshipsOf(CommentPayload(m, message).value) == map[]
  {
    var data := CommentPayload(m, message).value;
    assert Get(data, "type") == JStr("activity");
  }

  /** Commenting with the user client posts the message to the event's
      activities on the event's calendar. */
  lemma {:induction false} CommentPostedToEvent(m: Model, message: Json, c: UserClient.Client, resp: Response, codec: TimeCodec)
    requires m.client == Some(UserTokenClient)
    requires Value(m, "calendar_id").Ok? && !UserClient.Blank(Value(m, "calendar_id").value) && !UserClient.Blank(m.id)
    ensures CreateComment(m, message, UserBackend(c), resp, codec).sent ==
              [Request(POST, Activities(Value(m, "calendar_id").value, m.id), map[],
                       JObj(map["data" := JObj(map["attributes" := JObj(map["content" := message])])]), Bearer(ToS(c.token)))]
    ensures CreateCommentIntended(m, message, UserBackend(c), resp, codec) == CreateComment(m, message, UserBackend(c), resp, codec)
  {
    CommentActivity(m, message, codec);
    var act := Build(CommentPayload(m, message).value, m.client, codec.parse).value;
    assert CreateComment(m, message, UserBackend(c), resp, codec) == ActivityCreateAsWritten(act, UserBackend(c), resp, codec);
    assert CreateCommentIntended(m, message, UserBackend(c), resp, codec) == CreateComment(m, message, UserBackend(c), resp, codec);
    UserActivityPosted(act, c, resp, codec);
  }

  /** As written, commenting on an app-bound event whose calendar id is
      known raises an arity error before any request is sent. */
  lemma {:induction false} CommentRefusedByApp(m: Model, message: Json, b: Backend, resp: Response, codec: TimeCodec)
    requires b.AppBackend? && m.client == Some(CalendarAppClient)
    requires Value(m, "calendar_id").Ok?
    ensures CreateComment(m, message, b, resp, codec) == Refused(b, Arity("create_activity"))
    ensures CreateComment(m, message, b, resp, codec).sent == []
  {
    CommentActivity(m, message, codec);
    var act := Build(CommentPayload(m, message).value, m.client, codec.parse).value;
    assert CreateComment(m, message, b, resp, codec) == ActivityCreateAsWritten(act, b, resp, codec);
    CommentAsWrittenRefusedByApp(act, b, resp, codec);
  }

  /** Corrected, commenting on an app-bound event with a valid cached token
      posts the message once, to the event's activities. */
  lemma {:induction false} CommentIntendedReachesApp(m: Model, message: Json, b: Backend, resp: Response, codec: TimeCodec)
    requires b.AppBackend? && m.client == Some(CalendarAppClient)
    requires CalendarApp.HasValidToken(b.app, b.now) == Ok(true)
    requires Value(m, "calendar_id").Ok?
    ensures CreateCommentIntended(m, message, b, resp, codec).sent ==
              [Request(POST, AppActivities(m.id), map[],
                       JObj(map["data" := JObj(map["attributes" := JObj(map["content" := message])])]), Bearer(ToS(b.app.token)))]
  {
    CommentActivity(m, message, codec);
    var act := Build(CommentPayload(m, message).value, m.client, codec.parse).value;
    assert CreateCommentIntended(m, message, b, resp, codec) == ActivityCreate(act, b, resp, codec);
    CommentReachesApp(act, b, resp, codec);
  }

  /** Called without arguments, user-bound `upcoming_events` asks for seven
      days in UTC, on the calendar's upcoming-events endpoint. */
  lemma UpcomingDefaults(m: Model, c: UserClient.Client, resp: Response, codec: TimeCodec)
    requires m.client == Some(UserTokenClient) && !UserClient.Blank(m.id)
    ensures var r := CalendarUpcomingEvents(m, None, None, UserBackend(c), resp, codec);
            && |r.sent| == 1
            && r.sent[0].endpoint == UpcomingEvents(m.id)
            && r.sent[0].query["days"] == JNum(7)
            && r.sent[0].query["timezone"] == JStr("UTC")
  {
    var call := UserClient.UpcomingCall(m.id, None, None, UserClient.Omitted);
    UserClientFacts.OneRequestPerCall(c, call, resp, codec.parse);
    UserClientFacts.UpcomingQuery(c, m.id, None, None, UserClient.Omitted);
  }

  /** A user-bound activity with both ids present is posted once, to its
      event's activities, carrying its data params. */
  lemma UserActivityPosted(a: Model, c: UserClient.Client, resp: Response, codec: TimeCodec)
    requires a.client == Some(UserTokenClient)
    requires Value(a, "calendar_id").Ok? && !UserClient.Blank(Value(a, "calendar_id").value)
    requires Value(a, "event_id").Ok? && !UserClient.Blank(Value(a, "event_id").value)
    requires Value(a, "content").Ok?
    ensures ActivityCreateAsWritten(a, UserBackend(c), resp, codec).sent ==
              [Request(POST, Activities(Value(a, "calendar_id").value, Value(a, "event_id").value), map[],
                       ActivityDataParams(a).value, Bearer(ToS(c.token)))]
  {
  }
}
