/** Properties of the calendar-app client: when the access token is
    exchanged, what an exchange changes, how the `include` list is computed,
    and its status table.
 */
module CalendarAppFacts {
  import opened Text
  import opened JsonData
  import opened Outcomes
  import opened Resources
  import opened Transport
  import UserClient
  import UserClientFacts
  import opened CalendarApp

  /** A token is still good at the very second it expires and stale one
      second later. */
  lemma ExpiryIsStrict(token: Json, n: int)
    ensures Expired(AccessToken(token, JNum(n)), n) == Ok(false)
    ensures Expired(AccessToken(token, JNum(n)), n + 1) == Ok(true)
  {
  }

  /** Once expired, a token stays expired. */
  lemma ExpiryIsMonotone(t: AccessToken, now: int, later: int)
    requires now <= later
    requires Expired(t, now) == Ok(true)
    ensures Expired(t, later) == Ok(true)
  {
  }

  /** With a valid token held, an operation sends no exchange: at most its
      own request, and the cached token is untouched. */
  lemma ValidTokenIsReused(a: App, call: AppCall, now: int, tokenResp: Response, resp: Response, parse: string -> Option<int>)
    requires HasValidToken(a, now) == Ok(true)
    ensures var r := Perform(a, call, now, tokenResp, resp, parse);
            && |r.sent| <= 1
            && (forall i :: 0 <= i < |r.sent| ==> !r.sent[i].endpoint.AccessTokens?)
            && r.state.cached == a.cached && r.state.token == a.token
  {
  }

  /** Without a token, or with an expired one, the first request is the
      exchange, and it carries the token the client already holds. */
  lemma MissingOrExpiredTokenIsExchanged(a: App, call: AppCall, now: int, tokenResp: Response, resp: Response, parse: string -> Option<int>)
    requires HasValidToken(a, now) == Ok(false)
    ensures var r := Perform(a, call, now, tokenResp, resp, parse);
            && |r.sent| >= 1 && r.sent[0] == TokenRequestAsWritten(a)
            && r.sent[0].endpoint == AccessTokens(a.installationId)
            && r.sent[0].auth == Bearer(ToS(a.token))
  {
  }

  /** A refused exchange raises with the response's status, sends nothing
      more, and keeps the old token; its rate-limit headers are still
      recorded. */
  lemma FailedExchangeKeepsToken(a: App, call: AppCall, now: int, tokenResp: Response, resp: Response, parse: string -> Option<int>)
    requires HasValidToken(a, now) == Ok(false)
    requires tokenResp.status != 200
    ensures var r := Perform(a, call, now, tokenResp, resp, parse);
            && r.result == Fail(Raise(tokenResp))
            && r.sent == [TokenRequestAsWritten(a)]
            && r.state == a.(rate := UpdateRatelimit(a.rate, tokenResp.headers))
  {
  }

  /** After a successful exchange the new token is cached and authorises the
      operation's own request. */
  lemma ExchangedTokenAuthorisesCall(a: App, call: AppCall, now: int, tokenResp: Response, resp: Response, parse: string -> Option<int>)
    requires HasValidToken(a, now) == Ok(false)
    requires tokenResp.status == 200 && tokenResp.body.JObj?
    requires QueryOf(call).Ok?
    ensures var r := Perform(a, call, now, tokenResp, resp, parse);
            && |r.sent| == 2
            && r.sent[1].auth == Bearer(ToS(Get(tokenResp.body, "access_token")))
            && r.state.cached == Some(AccessToken(Get(tokenResp.body, "access_token"), Get(tokenResp.body, "expire_at")))
  {
  }

  /** A token obtained at `now` that expires at `n` is reused by every later
      operation up to and including second `n`. */
  lemma CachedTokenServesUntilExpiry(a: App, call1: AppCall, call2: AppCall, now: int, later: int, n: int,
                                     tokenResp: Response, resp1: Response, tokenResp2: Response, resp2: Response,
                                     parse: string -> Option<int>)
    requires HasValidToken(a, now) == Ok(false)
    requires tokenResp.status == 200 && tokenResp.body.JObj? && Get(tokenResp.body, "expire_at") == JNum(n)
    requires now <= later <= n
    ensures var a2 := Perform(a, call1, now, tokenResp, resp1, parse).state;
            var r := Perform(a2, call2, later, tokenResp2, resp2, parse);
            |r.sent| <= 1 && (forall i :: 0 <= i < |r.sent| ==> !r.sent[i].endpoint.AccessTokens?)
  {
    var a2 := Perform(a, call1, now, tokenResp, resp1, parse).state;
    assert a2.cached == Some(AccessToken(Get(tokenResp.body, "access_token"), JNum(n)));
    assert HasValidToken(a2, later) == Ok(true);
    ValidTokenIsReused(a2, call2, later, tokenResp2, resp2, parse);
  }

  /** The intended exchange is signed with claims issued at the time of the
      call, valid for ten minutes, and issued by the app. */
  lemma TokenRequestClaims(a: App, now: int)
    ensures TokenRequest(a, now).endpoint == AccessTokens(a.installationId)
    ensures var c := TokenRequest(a, now).auth.claims;
            c.JObj? && Get(c, "iat") == JNum(now) && Get(c, "exp") == JNum(now + 600) && Get(c, "iss") == a.applicationId
  {
  }

  /** The intended `get_access_token` sends one signed exchange to the
      installation's endpoint and otherwise ends where the one as written
      does. */
  lemma IntendedExchangeIsSigned(a: App, now: int, resp: Response)
    ensures var r := GetAccessTokenIntended(a, now, resp);
            && r.sent == [TokenRequest(a, now)]
            && r.sent[0].endpoint == AccessTokens(a.installationId)
            && r.sent[0].auth.SignedJwt?
            && Get(r.sent[0].auth.claims, "iat") == JNum(now)
            && Get(r.sent[0].auth.claims, "exp") == JNum(now + 600)
            && Get(r.sent[0].auth.claims, "iss") == a.applicationId
            && r.state == GetAccessToken(a, resp).state
            && r.result == GetAccessToken(a, resp).result
  {
    TokenRequestClaims(a, now);
  }

  /** As written, the first operation of a new client exchanges a token
      with an empty `Bearer` header and no JWT at all, and no exchange as
      written ever carries a JWT. */
  lemma FirstExchangeAsWrittenHasNoCredential(installationId: Json, applicationId: Json, configured: Json,
                                              call: AppCall, now: int, tokenResp: Response, resp: Response,
                                              parse: string -> Option<int>)
    ensures var r := Perform(New(installationId, applicationId, configured), call, now, tokenResp, resp, parse);
            && |r.sent| >= 1
            && r.sent[0].endpoint == AccessTokens(installationId)
            && r.sent[0].auth == Bearer("")
    ensures forall a: App :: !TokenRequestAsWritten(a).auth.SignedJwt?
  {
  }

  lemma IntersectStep(xs: seq<string>, allowed: seq<string>)
    requires |xs| > 0
    ensures Intersect(xs, allowed) ==
              (var front := Intersect(xs[..|xs| - 1], allowed);
               if xs[|xs| - 1] in allowed && xs[|xs| - 1] !in front then front + [xs[|xs| - 1]] else front)
  {
  }

  /** For a list without repetitions, `Array#&` keeps exactly the allowed
      names in their original order. */
  lemma {:induction false} IntersectFilters(xs: seq<string>, allowed: seq<string>)
    requires NoDup(xs)
    ensures Intersect(xs, allowed) == Filter(xs, allowed)
    decreases |xs|
  {
    if |xs| > 0 {
      var n := |xs|;
      var front := xs[..n - 1];
      assert NoDup(front) by {
        forall i, j | 0 <= i < j < |front| ensures front[i] != front[j] {
          assert front[i] == xs[i] && front[j] == xs[j];
        }
      }
      IntersectFilters(front, allowed);
      IntersectStep(xs, allowed);
      assert xs[n - 1] !in front by {
        forall i | 0 <= i < |front| ensures front[i] != xs[n - 1] {
          assert front[i] == xs[i];
        }
      }
      assert xs[n - 1] !in Intersect(front, allowed);
    }
  }

  /** `Array#&` on any list: the allowed names of `xs` with every repeat
      dropped, in the order of their first occurrence. */
  lemma {:induction false} IntersectIsFilterOfDedup(xs: seq<string>, allowed: seq<string>)
    ensures Intersect(xs, allowed) == Filter(Dedup(xs), allowed)
    decreases |xs|
  {
    if |xs| > 0 {
      var front := xs[..|xs| - 1];
      var x := xs[|xs| - 1];
      IntersectIsFilterOfDedup(front, allowed);
      IntersectStep(xs, allowed);
      var d := Dedup(front);
      if x in d {
        assert Dedup(xs) == d;
      } else {
        assert Dedup(xs) == d + [x];
        assert (d + [x])[..|d + [x]| - 1] == d;
        assert x !in Intersect(front, allowed);
      }
    }
  }

  /** Repetitions and unknown names are dropped, and the caller's order is
      kept rather than the declaration order. */
  lemma IntersectExample()
    ensures Intersect(["attendees", "notes", "creator", "attendees"], RelationshipKeys(Event)) == ["attendees", "creator"]
  {
    var x4: seq<string> := ["attendees", "notes", "creator", "attendees"];
    IntersectExample3();
    IntersectStep(x4, RelationshipKeys(Event));
    assert x4[..3] == ["attendees", "notes", "creator"];
  }

  lemma IntersectExample3()
    ensures Intersect(["attendees", "notes", "creator"], RelationshipKeys(Event)) == ["attendees", "creator"]
  {
    var x3: seq<string> := ["attendees", "notes", "creator"];
    IntersectExample2();
    IntersectStep(x3, RelationshipKeys(Event));
    assert x3[..2] == ["attendees", "notes"];
  }

  lemma IntersectExample2()
    ensures Intersect(["attendees", "notes"], RelationshipKeys(Event)) == ["attendees"]
  {
    var x2: seq<string> := ["attendees", "notes"];
    var x1: seq<string> := ["attendees"];
    IntersectStep(x1, RelationshipKeys(Event));
    assert x1[..0] == [];
    IntersectStep(x2, RelationshipKeys(Event));
    assert x2[..1] == x1;
    assert "notes" !in RelationshipKeys(Event);
  }

  /** The app client's `upcoming_events` sends `days`, `timezone` and
      `include`; omitted, `days` and `timezone` default to 7 and "UTC". */
  lemma AppUpcomingQuery(days: Option<Json>, tz: Option<Json>, rels: UserClient.IncludeArg)
    requires !rels.OtherValue?
    ensures QueryOf(UpcomingGet(days, tz, rels)).Ok?
    ensures var q := QueryOf(UpcomingGet(days, tz, rels)).value;
            && (days.Some? ==> q["days"] == days.value)
            && (days.None? ==> q["days"] == JNum(7))
            && (tz.Some? ==> q["timezone"] == tz.value)
            && (tz.None? ==> q["timezone"] == JStr("UTC"))
            && q.Keys == {"days", "timezone", "include"}
  {
  }

  /** Unlike the user client, the app client includes nothing by default,
      yet always sends the `include` parameter. */
  lemma NoDefaultInclude(a: App, now: int, tokenResp: Response, resp: Response, parse: string -> Option<int>)
    requires CheckAccessToken(a, now, tokenResp).result.Ok?
    ensures var r := Perform(a, CalendarGet(UserClient.Omitted), now, tokenResp, resp, parse);
            r.sent[|r.sent| - 1].endpoint == AppCalendar && r.sent[|r.sent| - 1].query == map["include" := JStr("")]
  {
  }

  /** A malformed `include` argument raises only after the token check, so
      an exchange it needed has already happened. */
  lemma BadIncludeAfterExchange(a: App, eventId: Json, now: int, tokenResp: Response, resp: Response, parse: string -> Option<int>)
    requires CheckAccessToken(a, now, tokenResp).result.Ok?
    ensures var r := Perform(a, EventGet(eventId, UserClient.OtherValue), now, tokenResp, resp, parse);
            && r.result == Fail(NoMethod("to_sym"))
            && r.sent == CheckAccessToken(a, now, tokenResp).sent
            && r.state == CheckAccessToken(a, now, tokenResp).state
  {
  }

  lemma AppFinishFailures(call: AppCall, body: Json, parse: string -> Option<int>)
    ensures AppFinish(call, body, parse).Fail? ==> UserClientFacts.DecodeFailure(AppFinish(call, body, parse).failure)
  {
    if body.JObj? {
      var data := Get(body, "data");
      var inc := Get(body, "included");
      var client := Some(CalendarAppClient);
      UserClientFacts.DecodeFailures(data, JNull, client, parse);
      UserClientFacts.DecodeFailures(data, inc, client, parse);
      if UserClient.Elements(data).Ok? {
        UserClientFacts.DecodeEachFailures(UserClient.Elements(data).value, JNull, client, parse, None);
        UserClientFacts.DecodeEachFailures(UserClient.Elements(data).value, inc, client, parse, None);
      }
    }
  }

  /** The status table of the app client, once the token is in hand: with an
      error body that is an object, an operation raises `ApiError` exactly
      when the status is not the one it expects. */
  lemma AppApiErrorIffUnexpectedStatus(a: App, call: AppCall, now: int, tokenResp: Response, resp: Response, parse: string -> Option<int>)
    requires HasValidToken(a, now) == Ok(true)
    requires QueryOf(call).Ok?
    requires resp.body.JObj?
    ensures var r := Perform(a, call, now, tokenResp, resp, parse).result;
            (r.Fail? && r.failure.Api?) <==> resp.status != AppExpected(call)
    ensures AppExpected(call) == (if call.EventCreate? || call.ActivityCreate? then 201
                                  else if call.EventDelete? then 204 else 200)
  {
    AppFinishFailures(call, resp.body, parse);
  }
}
