/** Properties of the user-token client: what is checked before anything is
    sent, what every sent request carries, the status table, and what the
    decoded replies hold.
 */
module UserClientFacts {
  import opened Text
  import opened JsonData
  import opened Outcomes
  import opened Resources
  import opened Transport
  import opened UserClient
  import ResourceFacts

  /** `check_required_property` refuses exactly `nil` and the empty string;
      `false`, `0`, arrays and hashes all pass. */
  lemma BlankExactly(v: Json)
    ensures Blank(v) <==> v == JNull || v == JStr("")
  {
  }

  /** A usable token argument is kept; a `nil` or `false` one defers to the
      configured token; a blank result is refused. */
  lemma TokenChoice(token: Json, configured: Json)
    ensures Truthy(token) && token != JStr("") ==> New(token, configured) == Ok(Client(token, NoRateLimit))
    ensures !Truthy(token) ==> New(token, configured) == New(configured, configured)
    ensures token == JStr("") ==> New(token, configured) == Fail(Error("token is required."))
  {
    BlankExactly(token);
    BlankExactly(configured);
  }

  /** An array of names without commas is sent so that the server can split
      it back into the same names. */
  lemma {:induction false} IncludeRoundTrip(names: seq<string>, default: seq<string>)
    requires |names| > 0
    requires forall i :: 0 <= i < |names| ==> ',' !in names[i]
    ensures Split(IncludeQuery(NameList(names), default)["include"].s, ',') == names
  {
    SplitJoin(names, ',');
  }

  /** Without the argument, calendars include their labels and members and
      events their creator, label and attendees. */
  lemma DefaultIncludes()
    ensures IncludeQuery(Omitted, RelationshipKeys(Calendar)) == map["include" := JStr("labels,members")]
    ensures IncludeQuery(Omitted, RelationshipKeys(Event)) == map["include" := JStr("creator,label,attendees")]
  {
    var cal: seq<string> := ["labels", "members"];
    assert cal[1..] == ["members"];
    assert Join(cal, ',') == "labels,members";
    var ev: seq<string> := ["creator", "label", "attendees"];
    assert ev[1..] == ["label", "attendees"];
    assert ev[1..][1..] == ["attendees"];
    assert Join(ev[1..], ',') == "label,attendees";
    assert Join(ev, ',') == "creator,label,attendees";
  }

  /** A blank id fails the call before anything is sent, and the calendar id
      is checked before the event id. */
  lemma ChecksComeFirst(c: Client, call: Call, resp: Response, parse: string -> Option<int>)
    requires exists i :: 0 <= i < |Checks(call)| && Blank(Checks(call)[i].0)
    ensures Perform(c, call, resp, parse).sent == []
    ensures Perform(c, call, resp, parse).state == c
    ensures Blank(Checks(call)[0].0) ==> Perform(c, call, resp, parse).result == Fail(Error("calendar_id is required."))
    ensures !Blank(Checks(call)[0].0) ==> Perform(c, call, resp, parse).result == Fail(Error("event_id is required."))
  {
    var cs := Checks(call);
    assert |cs| > 0;
    assert cs[0].1 == "calendar_id";
    assert RequiredMessage("calendar_id") == "calendar_id is required.";
    assert RequiredMessage("event_id") == "event_id is required.";
    if Blank(cs[0].0) {
      assert FirstBlank(cs) == Some("calendar_id");
    } else {
      assert |cs| == 2 && cs[1].1 == "event_id" && Blank(cs[1].0);
      assert cs[1..][0] == cs[1];
      assert FirstBlank(cs[1..]) == Some("event_id");
      assert FirstBlank(cs) == Some("event_id");
    }
  }

  /** With every id present exactly one request is sent, carrying the
      client's token, and the rate-limit headers of its response are
      recorded whatever its status. */
  lemma OneRequestPerCall(c: Client, call: Call, resp: Response, parse: string -> Option<int>)
    requires forall i :: 0 <= i < |Checks(call)| ==> !Blank(Checks(call)[i].0)
    ensures Perform(c, call, resp, parse).sent == [RequestOf(c, call)]
    ensures Perform(c, call, resp, parse).state == Client(c.token, UpdateRatelimit(c.rate, resp.headers))
    ensures RequestOf(c, call).auth == Bearer(ToS(c.token))
  {
  }

  /** The failures decoding can raise: never an `ApiError`. */
  predicate DecodeFailure(f: Failure) {
    f.NoMethod? || f.Error? || f.UnknownType? || f.InvalidTime?
  }

  lemma BuildFailures(data: Json, client: Option<ClientKind>, parse: string -> Option<int>)
    ensures Build(data, client, parse).Fail? ==> DecodeFailure(Build(data, client, parse).failure)
  {
  }

  lemma DecodeFailures(data: Json, included: Json, client: Option<ClientKind>, parse: string -> Option<int>)
    ensures Decode(data, included, client, parse).Fail? ==> DecodeFailure(Decode(data, included, client, parse).failure)
  {
    BuildFailures(data, client, parse);
    var b := Build(data, client, parse);
    if b.Ok? && ResolutionRuns(data, b.value.kind, included) {
      var items := included.items;
      if Index(items, b.value.client, parse).Fail? {
        ResourceFacts.IndexFailure(items, b.value.client, parse);
        var i :| 0 <= i < |items| && Build(items[i], b.value.client, parse) == Fail(Index(items, b.value.client, parse).failure);
        BuildFailures(items[i], b.value.client, parse);
      }
    }
  }

  lemma DecodeEachFailures(items: seq<Json>, included: Json, client: Option<ClientKind>, parse: string -> Option<int>, calId: Option<Json>)
    ensures DecodeEach(items, included, client, parse, calId).Fail? ==> DecodeFailure(DecodeEach(items, included, client, parse, calId).failure)
  {
    var f := ElementDecoder(included, client, parse, calId);
    if MapAll(items, f).Fail? {
      MapAllFailure(items, f);
      var i :| 0 <= i < |items| && f(items[i]) == Fail(MapAll(items, f).failure);
      DecodeFailures(items[i], included, client, parse);
    }
  }

  lemma FinishFailures(call: Call, body: Json, parse: string -> Option<int>)
    ensures Finish(call, body, parse).Fail? ==> DecodeFailure(Finish(call, body, parse).failure)
  {
    if call.CalendarsCall? || call.LabelsCall? || call.MembersCall? || call.UpcomingCall? {
      ListFinishFailures(call, body, parse);
    } else {
      SingleFinishFailures(call, body, parse);
    }
  }

  lemma SingleFinishFailures(call: Call, body: Json, parse: string -> Option<int>)
    requires !(call.CalendarsCall? || call.LabelsCall? || call.MembersCall? || call.UpcomingCall?)
    ensures Finish(call, body, parse).Fail? ==> DecodeFailure(Finish(call, body, parse).failure)
  {
    if body.JObj? {
      var data := Get(body, "data");
      if call.CalendarCall? || call.EventCall? {
        DecodeFailures(data, Get(body, "included"), Some(UserTokenClient), parse);
      } else {
        DecodeFailures(data, JNull, Some(UserTokenClient), parse);
      }
    }
  }

  lemma ListFinishFailures(call: Call, body: Json, parse: string -> Option<int>)
    requires call.CalendarsCall? || call.LabelsCall? || call.MembersCall? || call.UpcomingCall?
    ensures Finish(call, body, parse).Fail? ==> DecodeFailure(Finish(call, body, parse).failure)
  {
    if body.JObj? {
      var data := Get(body, "data");
      var inc := Get(body, "included");
      var client := Some(UserTokenClient);
      match call
      case CalendarsCall(_) => ListFailures(data, inc, client, parse, None);
      case LabelsCall(_) => ListFailures(data, JNull, client, parse, None);
      case MembersCall(_) => ListFailures(data, JNull, client, parse, None);
      case UpcomingCall(cal, _, _, _) => ListFailures(data, inc, client, parse, Some(cal));
    }
  }

  lemma ListFailures(data: Json, included: Json, client: Option<ClientKind>, parse: string -> Option<int>, calId: Option<Json>)
    ensures Elements(data).Ok? && DecodeEach(Elements(data).value, included, client, parse, calId).Fail? ==>
              DecodeFailure(DecodeEach(Elements(data).value, included, client, parse, calId).failure)
  {
    if Elements(data).Ok? {
      DecodeEachFailures(Elements(data).value, included, client, parse, calId);
    }
  }

  /** The status table: with every id present and an error body that is an
      object, a call raises `ApiError` exactly when the status is not the
      one it expects (201 for the two creates, 204 for delete, 200 for the
      rest), and the error carries that status. */
  lemma ApiErrorIffUnexpectedStatus(c: Client, call: Call, resp: Response, parse: string -> Option<int>)
    requires forall i :: 0 <= i < |Checks(call)| ==> !Blank(Checks(call)[i].0)
    requires resp.body.JObj?
    ensures var r := Perform(c, call, resp, parse).result;
            (r.Fail? && r.failure.Api?) <==> resp.status != Expected(call)
    ensures var r := Perform(c, call, resp, parse).result;
            r.Fail? && r.failure.Api? ==> r.failure.err.status == resp.status
    ensures Expected(call) == (if call.CreateEventCall? || call.CreateActivityCall? then 201
                               else if call.DeleteEventCall? then 204 else 200)
  {
    FinishFailures(call, resp.body, parse);
  }

  /** `delete_event` returns `true` on 204 whatever the body holds. */
  lemma DeleteReturnsTrue(c: Client, calId: Json, eventId: Json, body: Json, headers: map<string, string>, parse: string -> Option<int>)
    requires !Blank(calId) && !Blank(eventId)
    ensures Perform(c, DeleteEventCall(calId, eventId), Response(204, body, headers), parse).result == Ok(Deleted)
    ensures Perform(c, DeleteEventCall(calId, eventId), Response(204, body, headers), parse).sent ==
              [Request(DELETE, EventOf(calId, eventId), map[], JObj(map[]), Bearer(ToS(c.token)))]
  {
  }

  /** A fetched, created or updated event comes back with the calendar id
      the caller passed, whatever the server's payload said. */
  lemma EventsGetCalendarId(c: Client, call: Call, resp: Response, parse: string -> Option<int>)
    requires call.EventCall? || call.CreateEventCall? || call.UpdateEventCall?
    requires Perform(c, call, resp, parse).result.Ok?
    ensures Perform(c, call, resp, parse).result.value.Single?
    ensures var m := Perform(c, call, resp, parse).result.value.model;
            m.kind in {Event, Activity} && Value(m, "calendar_id") == Ok(call.calId)
  {
  }

  /** A created comment comes back with both ids the caller passed. */
  lemma ActivitiesGetBothIds(c: Client, calId: Json, eventId: Json, params: Json, resp: Response, parse: string -> Option<int>)
    requires Perform(c, CreateActivityCall(calId, eventId, params), resp, parse).result.Ok?
    ensures Perform(c, CreateActivityCall(calId, eventId, params), resp, parse).result.value.Single?
    ensures var m := Perform(c, CreateActivityCall(calId, eventId, params), resp, parse).result.value.model;
            m.kind == Activity && Value(m, "calendar_id") == Ok(calId) && Value(m, "event_id") == Ok(eventId)
  {
  }

  /** `upcoming_events` sends `days` and `timezone` next to the `include`
      parameter; omitted, they default to 7 and "UTC". */
  lemma UpcomingQuery(c: Client, calId: Json, days: Option<Json>, tz: Option<Json>, rels: IncludeArg)
    ensures var q := RequestOf(c, UpcomingCall(calId, days, tz, rels)).query;
            && (days.Some? ==> q["days"] == days.value)
            && (days.None? ==> q["days"] == JNum(7))
            && (tz.Some? ==> q["timezone"] == tz.value)
            && (tz.None? ==> q["timezone"] == JStr("UTC"))
            && q.Keys == {"days", "timezone"} + (if rels.Omitted? || rels.NameList? then {"include"} else {})
  {
  }

  /** `MapAll` keeps positions: the i-th result is `f` of the i-th element. */
  lemma {:induction false} MapAllElementwise<A, B>(xs: seq<A>, f: A -> Result<B>, i: int)
    requires MapAll(xs, f).Ok?
    requires 0 <= i < |xs|
    ensures f(xs[i]).Ok?
    ensures MapAll(xs, f).value[i] == f(xs[i]).value
    decreases |xs|
  {
    if i > 0 {
      MapAllElementwise(xs[1..], f, i - 1);
      assert xs[1..][i - 1] == xs[i];
    }
  }

  /** `MapAll` succeeds exactly when `f` succeeds on every element. */
  lemma {:induction false} MapAllOk<A, B>(xs: seq<A>, f: A -> Result<B>)
    ensures MapAll(xs, f).Ok? <==> forall i :: 0 <= i < |xs| ==> f(xs[i]).Ok?
    decreases |xs|
  {
    if |xs| > 0 {
      MapAllOk(xs[1..], f);
      assert forall i :: 1 <= i < |xs| ==> xs[1..][i - 1] == xs[i];
    }
  }

  /** A failed `MapAll` reports the failure of the first failing element. */
  lemma {:induction false} MapAllFailure<A, B>(xs: seq<A>, f: A -> Result<B>)
    requires MapAll(xs, f).Fail?
    ensures exists i :: 0 <= i < |xs| && (forall j :: 0 <= j < i ==> f(xs[j]).Ok?) && f(xs[i]) == Fail(MapAll(xs, f).failure)
    decreases |xs|
  {
    if f(xs[0]).Ok? {
      MapAllFailure(xs[1..], f);
      var k :| 0 <= k < |xs| - 1 && (forall j :: 0 <= j < k ==> f(xs[1..][j]).Ok?) && f(xs[1..][k]) == Fail(MapAll(xs[1..], f).failure);
      assert forall j :: 0 < j < k + 1 ==> xs[j] == xs[1..][j - 1];
      assert xs[k + 1] == xs[1..][k];
    }
  }

  /** A list reply decodes every element, in order: the i-th model is the
      decode of the i-th element, with its calendar id set when asked. */
  lemma DecodeEachElementwise(items: seq<Json>, included: Json, client: Option<ClientKind>, parse: string -> Option<int>, calId: Option<Json>, i: int)
    requires DecodeEach(items, included, client, parse, calId).Ok?
    requires 0 <= i < |items|
    ensures Decode(items[i], included, client, parse).Ok?
    ensures var m := Decode(items[i], included, client, parse).value;
            DecodeEach(items, included, client, parse, calId).value[i] ==
              (if calId.Some? then m.(slots := m.slots["calendar_id" := Raw(calId.value)]) else m)
  {
    MapAllElementwise(items, ElementDecoder(included, client, parse, calId), i);
  }

  /** A list reply fails exactly when some element fails to decode or, for
      upcoming events, is not an event or activity. */
  lemma DecodeEachOk(items: seq<Json>, included: Json, client: Option<ClientKind>, parse: string -> Option<int>, calId: Option<Json>)
    ensures DecodeEach(items, included, client, parse, calId).Ok? <==>
              forall i :: 0 <= i < |items| ==> ElementDecodes(items[i], included, client, parse, calId)
  {
    var f := ElementDecoder(included, client, parse, calId);
    MapAllOk(items, f);
    forall i | 0 <= i < |items|
      ensures f(items[i]).Ok? <==> ElementDecodes(items[i], included, client, parse, calId)
    {
    }
  }

  predicate ElementDecodes(item: Json, included: Json, client: Option<ClientKind>, parse: string -> Option<int>, calId: Option<Json>) {
    var d := Decode(item, included, client, parse);
    d.Ok? && (calId.Some? ==> d.value.kind in {Event, Activity})
  }
}
