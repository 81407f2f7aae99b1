/** Properties of the request, response and rate-limit layer. */
module TransportFacts {
  import opened Text
  import opened JsonData
  import opened Outcomes
  import opened Transport

  /** Headers written in decimal are read back exactly, whatever was known
      before. */
  lemma {:induction false} RateHeadersRoundTrip(rate: RateLimit, limit: int, remaining: int, reset: int)
    ensures UpdateRatelimit(rate, RateHeaders(limit, remaining, reset)) == RateLimit(Some(limit), Some(remaining), Some(reset))
  {
    ToIDecimal(limit);
    ToIDecimal(remaining);
    ToIDecimal(reset);
  }

  /** A response without rate-limit headers changes nothing, and applying the
      same headers twice is the same as applying them once. */
  lemma RatelimitStable(rate: RateLimit, headers: map<string, string>)
    ensures UpdateRatelimit(rate, map[]) == rate
    ensures UpdateRatelimit(UpdateRatelimit(rate, headers), headers) == UpdateRatelimit(rate, headers)
  {
  }

  /** Only the three rate-limit headers matter. */
  lemma RatelimitIgnoresOtherHeaders(rate: RateLimit, headers: map<string, string>, name: string, value: string)
    requires name !in {"x-ratelimit-limit", "x-ratelimit-remaining", "x-ratelimit-reset"}
    ensures UpdateRatelimit(rate, headers[name := value]) == UpdateRatelimit(rate, headers)
  {
  }

  /** An id is a plain path segment: a string without a slash. */
  predicate PlainId(j: Json) {
    j.JStr? && '/' !in j.s
  }

  predicate PlainIds(e: Endpoint) {
    forall i :: 0 <= i < |Ids(e)| ==> PlainId(Ids(e)[i])
  }

  lemma {:induction false} SegmentsHaveNoSlash(e: Endpoint)
    requires PlainIds(e)
    ensures |Segments(e)| > 0
    ensures forall i :: 0 <= i < |Segments(e)| ==> '/' !in Segments(e)[i]
  {
    match e
    case EventOf(c, ev) =>
      assert PlainId(Ids(e)[0]) && PlainId(Ids(e)[1]);
    case Activities(c, ev) =>
      assert PlainId(Ids(e)[0]) && PlainId(Ids(e)[1]);
    case CalendarOf(c) => assert PlainId(Ids(e)[0]);
    case CalendarLabels(c) => assert PlainId(Ids(e)[0]);
    case CalendarMembers(c) => assert PlainId(Ids(e)[0]);
    case Events(c) => assert PlainId(Ids(e)[0]);
    case UpcomingEvents(c) => assert PlainId(Ids(e)[0]);
    case AppEventOf(ev) => assert PlainId(Ids(e)[0]);
    case AppActivities(ev) => assert PlainId(Ids(e)[0]);
    case AccessTokens(i) => assert PlainId(Ids(e)[0]);
    case _ =>
  }

  /** Cutting a path at its slashes gives back its segments. */
  lemma {:induction false} PathSegments(e: Endpoint)
    requires PlainIds(e)
    ensures Split(Path(e), '/') == Segments(e)
  {
    SegmentsHaveNoSlash(e);
    SplitJoin(Segments(e), '/');
  }

  /** Routes with plain ids are never confused: two different routes have
      different paths. */
  lemma {:induction false} PathInjective(e1: Endpoint, e2: Endpoint)
    requires PlainIds(e1) && PlainIds(e2)
    requires Path(e1) == Path(e2)
    ensures e1 == e2
  {
    PathSegments(e1);
    PathSegments(e2);
    SegmentsInjective(e1, e2);
  }

  /** Reading the segments of a route with string ids gives the route back. */
  lemma {:induction false} RouteOfSegments(e: Endpoint)
    requires forall i :: 0 <= i < |Ids(e)| ==> Ids(e)[i].JStr?
    ensures Route(Segments(e)) == Some(e)
  {
    match e
    case CalendarOf(c) => assert Ids(e)[0].JStr?;
    case CalendarLabels(c) => assert Ids(e)[0].JStr?;
    case CalendarMembers(c) => assert Ids(e)[0].JStr?;
    case Events(c) => assert Ids(e)[0].JStr?;
    case UpcomingEvents(c) => assert Ids(e)[0].JStr?;
    case AppEventOf(ev) => assert Ids(e)[0].JStr?;
    case AppActivities(ev) => assert Ids(e)[0].JStr?;
    case AccessTokens(i) => assert Ids(e)[0].JStr?;
    case EventOf(c, ev) => assert Ids(e)[0].JStr? && Ids(e)[1].JStr?;
    case Activities(c, ev) => assert Ids(e)[0].JStr? && Ids(e)[1].JStr?;
    case _ =>
  }

  lemma SegmentsInjective(e1: Endpoint, e2: Endpoint)
    requires PlainIds(e1) && PlainIds(e2)
    requires Segments(e1) == Segments(e2)
    ensures e1 == e2
  {
    RouteOfSegments(e1);
    RouteOfSegments(e2);
  }

  /** The status can be read back from the end of `inspect`'s text. */
  lemma {:induction false} InspectShowsStatus(e: ApiError, oid: nat)
    ensures var s := Inspect(e, oid);
            var d := Decimal(e.status);
            |s| > |d| && s[|s| - 1] == '>' && ToI(s[|s| - 1 - |d|..|s| - 1]) == e.status
  {
    var d := Decimal(e.status);
    var head := "#<TimeTree::ApiError:" + Decimal(oid) + " title:" + ToS(e.title) + ", status:";
    var s := Inspect(e, oid);
    assert s == head + d + ">";
    assert s[|s| - 1 - |d|..|s| - 1] == d;
    ToIDecimal(e.status);
  }

  lemma Decimal401()
    ensures Decimal(401) == "401"
  {
    assert NatDigits(4) == "4";
    assert NatDigits(40) == "40" by {
      assert DigitChar(0) == '0';
    }
    assert DigitChar(1) == '1';
  }

  /** An unauthorised response raises an `ApiError` carrying the body's
      fields, and its `inspect` shows the title and the status. */
  lemma UnauthorizedExample(oid: nat)
    ensures Raise(Response(401, JObj(map["type" := JStr("unauthorized"), "title" := JStr("Unauthorized")]), map[])) ==
              Api(ApiError(JStr("unauthorized"), JStr("Unauthorized"), JNull, 401))
    ensures Inspect(ApiError(JStr("unauthorized"), JStr("Unauthorized"), JNull, 401), oid) ==
              "#<TimeTree::ApiError:" + Decimal(oid) + " title:Unauthorized, status:401>"
  {
    var body := JObj(map["type" := JStr("unauthorized"), "title" := JStr("Unauthorized")]);
    assert Get(body, "errors") == JNull;
    UnauthorizedInspect(oid);
  }

  lemma UnauthorizedInspect(oid: nat)
    ensures Inspect(ApiError(JStr("unauthorized"), JStr("Unauthorized"), JNull, 401), oid) ==
              "#<TimeTree::ApiError:" + Decimal(oid) + " title:Unauthorized, status:401>"
  {
    Decimal401();
    var e := ApiError(JStr("unauthorized"), JStr("Unauthorized"), JNull, 401);
    var head := "#<TimeTree::ApiError:" + Decimal(oid);
    var tail := " title:" + "Unauthorized" + ", status:" + "401" + ">";
    assert tail == " title:Unauthorized, status:401>";
    assert Inspect(e, oid) == head + tail;
  }
}
