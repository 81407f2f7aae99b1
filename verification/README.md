# TimeTree API client — a Dafny model

This project models the core of the `timetree` Ruby gem, a client for the
TimeTree calendar service's REST API, and proves properties of the model.
It covers the following parts of the gem:

- **Resource decoder** (`TimeTree::BaseModel.to_model`). It turns a JSON:API
  resource object into one of five variants: user, label, calendar, event or
  activity.
  - Only the attributes the variant declares are copied.
  - The variant's `TIME_FIELDS` are parsed.
  - The raw references of its declared `RELATIONSHIPS` are recorded.
  - Those references are then resolved against a side-loaded `included`
    array, which is itself decoded one level deep.
- **Model operations**:
  - the request bodies `Event#data_params` and `Activity#data_params`;
  - the delegations from a model to the client bound in `@client`: event
    create, update, delete and comment; calendar `event` and
    `upcoming_events`;
  - the memoised `Calendar#labels` and `Calendar#members`.
- **User-token client** (`TimeTree::Client`):
  - required-id checks and the order they run in;
  - the `include` query;
  - the request of each operation and the status it expects;
  - decoding of the reply, and patching of the calendar and event ids onto
    the returned models;
  - the rate-limit bookkeeping.
- **Calendar-app client** (`TimeTree::CalendarApp::Client`):
  - the installation-token cache and its check-then-exchange cycle;
  - the token exchange as the code sends it, with the token already held,
    beside the intended exchange signed by a JWT, and that JWT's claims;
  - the `include` parameter built by intersection;
  - its request and status tables.
- **`TimeTree::ApiError`**: the fields copied from an error body, and its
  `inspect` text.

The model is functional:

- A JSON value is the `Json` datatype.
- A decoded resource is one `Model` record. It carries a variant tag, its
  instance variables (`slots`), the raw relationship references (`None`
  where the gem's `@relationships` is `nil`) and the kind of client it is
  bound to.
- Every Ruby exception that can be raised becomes a `Failure` of a `Result`.
  - `Error` is an `Error` raised by the gem.
  - `UnknownType` is the "type '…' is unknown." error.
  - `InvalidTime` is a `Time.parse` failure.
  - `Api` is an `ApiError`.
  - `NoMethod` is a `NoMethodError` or `TypeError` raised by Ruby itself.
  - `Arity` is an `ArgumentError` raised by a call with the wrong number of
    arguments.
  - `Comparison` is a failed comparison with `nil`.
- A client operation is a pure function from the client's state, the
  operation and the server's response to an `Exchange`. The exchange holds
  the new state, the requests sent in order, and the result.
- The clock (`now`) and the response to a token exchange are parameters.
- `Time.parse` and `Time#iso8601` are a `TimeCodec` parameter. Instants are
  whole seconds, and `Coherent(codec)` says that formatting and parsing are
  inverse.

Files and modules:

- `outcomes.dfy`: `Outcomes`.
- `text.dfy`: `Text`. This is `String#to_i`, `Integer#to_s`, `Array#join`
  and its inverse.
- `json.dfy`: `JsonData`.
- `resources.dfy` and `resource_facts.dfy`: `Resources` and
  `ResourceFacts`.
- `transport.dfy` and `transport_facts.dfy`: `Transport` and
  `TransportFacts`. These hold requests, responses, rate limits and
  `ApiError`.
- `user_client.dfy` and `user_client_facts.dfy`: `UserClient` and
  `UserClientFacts`.
- `calendar_app.dfy` and `calendar_app_facts.dfy`: `CalendarApp` and
  `CalendarAppFacts`.
- `model_ops.dfy` and `model_ops_facts.dfy`: `ModelOps` and
  `ModelOpsFacts`.

Behaviour kept as the code has it (see also Findings):

- **The token exchange carries no JWT.** `get_access_token` passes a block
  to `HttpCommand#post`, which takes none, so the exchange is sent with
  `Bearer` and the token the client already holds. `CalendarApp.Perform`
  uses this exchange; the signed one is `CalendarApp.GetAccessTokenIntended`.
- **Comments fail on the calendar-app client.** `Activity#create` tests
  `@cilent`, so `ModelOps.CreateComment` always makes the three-argument
  call; the corrected path is `ModelOps.CreateCommentIntended`.

- **No `application` type.** The dispatch in `to_model` has no arm for
  "application", although `lib/timetree/models/application.rb` defines the
  class. An event whose included creator is an application therefore fails
  to decode: `ResourceFacts.UnknownTypeExactly` and
  `ResourceFacts.IncludedUnknownTypeFails`.
- **Resolution needs recorded relationships.** Resolution iterates
  `@relationships`, which is `nil` when nothing was recorded. A payload with
  a non-empty relationships object but no recorded reference fails
  (`NoMethod("each")`) when `included` is non-empty.
- **`relationships_params` needs recorded relationships too.** It reads
  `relationships[...]` when no label or attendee object is set, so an event
  that recorded no relationships cannot be created or updated:
  `ModelOpsFacts.EventWithoutRelationshipsIsNotSent`.
- **App-bound model delegations fail.** A model bound to the calendar-app
  client passes that client more positional arguments than its methods
  take. The exception is `labels`, which calls a method that client does
  not have. So event create, update and delete, event `create_comment`,
  and calendar `event`, `upcoming_events`, `members` and `labels`, raise
  before anything is sent: `ModelOpsFacts.AppBoundCalendarRaises`,
  `ModelOpsFacts.CommentRefusedByApp` and the contracts of
  `ModelOps.EventCreate`, `ModelOps.EventUpdate` and `ModelOps.EventDelete`.

## Model

| member | source | states |
|---|---|---|
| Resources.KindOf | lib/timetree/models/base_model.rb:39-52 | a tag is recognised exactly when it is one of "user", "label", "calendar", "event", "activity", and the variant chosen carries that tag |
| Resources.SetAttributes | lib/timetree/models/base_model.rb:77-91 | succeeds exactly when every time field present parses (else the whole decode fails with InvalidTime); the variables set are exactly the payload keys the variant has a setter for |
| Resources.Record | lib/timetree/models/base_model.rb:93-106 | a recorded relationship map is never empty, and a truthy entry that is not an object raises on `relation[:data]` |
| Resources.Build | lib/timetree/models/base_model.rb:23-61 | a non-object payload raises; a nil type fails with "type is required."; any other unrecognised tag fails as unknown; a decoded model carries the payload's tag and id and the given client, and holds no resolved resource |
| Resources.IndexWith | lib/timetree/models/base_model.rb:115-123 | every entry of the index is stored under its own (type, id) and is the decode of some item |
| Resources.Index | lib/timetree/models/base_model.rb:115-123 | every entry of the included index is stored under its own (type, id) and is itself unresolved |
| Resources.Matches | lib/timetree/models/base_model.rb:131-136 | a list reference yields at most one model per element, each taken from the index |
| Resources.ResolveAll | lib/timetree/models/base_model.rb:129-141 | succeeds exactly when no list reference has a non-object element, and assigns only recorded keys |
| Resources.Resolve | lib/timetree/models/base_model.rb:108-142 | resolution keeps the variant, id, client and the raw relationship references |
| Resources.Decode | lib/timetree/models/base_model.rb:23-61 | the same failures as Build for the payload itself; success implies the one-level decode succeeds with the same tag, id and client |
| Resources.CheckClient | lib/timetree/models/base_model.rb:69-71 | fails with "@client is nil." exactly when no client is bound |
| Resources.Value | lib/timetree/models/event.rb:7-43 | an unset attribute reads as nil and a stored one reads as the value the server sent |
| ResourceFacts.MinimalPayload | lib/timetree/models/base_model.rb:23-61 | a payload with only a known type and an id decodes to that variant with nothing set and nothing recorded |
| ResourceFacts.UnknownTypeExactly | lib/timetree/models/base_model.rb:39-52 | decoding fails as unknown type exactly when the non-nil tag is not one of the five, so "application" is unknown |
| ResourceFacts.BuildFailureOfKnownTag | lib/timetree/models/base_model.rb:77-106 | once the tag is known, decoding can only fail on an unparsable time or an unreadable relationship |
| ResourceFacts.ResolveNeverUnknownOwnTag | lib/timetree/models/base_model.rb:115-123 | resolution never fails as unknown with the decoded model's own tag |
| ResourceFacts.IndexFailure | lib/timetree/models/base_model.rb:117-118 | a failing index fails with the failure of some included item |
| ResourceFacts.IndexWithFailure | lib/timetree/models/base_model.rb:117-118 | for any item decoder, a failing index fails with the failure of some item that does not decode |
| ResourceFacts.IndexWithOk | lib/timetree/models/base_model.rb:116-123 | for any item decoder, the index succeeds exactly when every item decodes |
| ResourceFacts.IndexWithKeys | lib/timetree/models/base_model.rb:117-122 | for any item decoder, every item of a successful index is stored under its (type, id) |
| ResourceFacts.IndexWithLastWins | lib/timetree/models/base_model.rb:117-122 | for any item decoder, an item that no later item shares a key with is the one the index holds |
| ResourceFacts.IndexOkIffAllBuild | lib/timetree/models/base_model.rb:116-123 | the index succeeds exactly when every included item decodes |
| ResourceFacts.AttributesCopied | lib/timetree/models/base_model.rb:81-90 | undeclared attribute keys are ignored, declared keys are stored verbatim, and time fields are stored parsed |
| ResourceFacts.RecordContents | lib/timetree/models/base_model.rb:94-106 | exactly the declared keys whose entry is an object with a truthy data are recorded, with data unchanged; variants without relationships record nothing |
| ResourceFacts.MissingSectionsDefaultToEmpty | lib/timetree/models/base_model.rb:28-29 | a payload without attributes and relationships sets nothing and records nothing |
| ResourceFacts.IncludedItemsAreFlat | lib/timetree/models/base_model.rb:73-75 | an included item is decoded without its own included array, so resolution is one level deep |
| ResourceFacts.NoResolutionWithoutIncluded | lib/timetree/models/base_model.rb:108-112 | without a non-empty included array (or without relationships) decoding resolves nothing |
| ResourceFacts.ResolutionKeepsRawReferences | lib/timetree/models/base_model.rb:129-141 | resolution leaves the raw references and every variable that is not a relationship accessor unchanged |
| ResourceFacts.RecordedKeysDeclared | lib/timetree/models/base_model.rb:99-106 | only keys of the variant's RELATIONSHIPS are ever recorded |
| ResourceFacts.ResolutionOfReferences | lib/timetree/models/base_model.rb:129-141 | a list reference becomes the in-order matches (possibly empty), a matched single reference becomes that model, an unmatched one leaves the accessor as it was |
| ResourceFacts.IncludedUnknownTypeFails | lib/timetree/models/base_model.rb:117-118 | an included item of unknown type fails the whole decode |
| ResourceFacts.LaterDuplicateWins | lib/timetree/models/base_model.rb:117-122 | when included items share (type, id), the index holds the last of them |
| ResourceFacts.EveryIncludedItemIndexed | lib/timetree/models/base_model.rb:117-122 | every included item is reachable in the index under its (type, id) |
| ResourceFacts.AllReferencesMatch | lib/timetree/models/base_model.rb:131-136 | when every element of a list reference matches, the result is the matches one for one, in order |
| ResourceFacts.MatchesAppend | lib/timetree/models/base_model.rb:131-136 | resolving a concatenated list resolves each part and concatenates the results |
| ResourceFacts.MatchedReferenceKept | lib/timetree/models/base_model.rb:131-136 | in any list, a reference whose key is indexed contributes its indexed item |
| ResourceFacts.MatchesComeFromReferences | lib/timetree/models/base_model.rb:131-136 | every resolved item is the indexed item of some reference in the list |
| ResourceFacts.NoReferenceMatches | lib/timetree/models/base_model.rb:131-136 | unmatched elements are dropped, so a list with no match resolves to the empty list |
| Text.ToIDecimal | lib/timetree/client.rb:256-263 | a decimal header value is read back by `to_i` as the number written |
| Text.SplitJoin | lib/timetree/client.rb:291-296 | names without commas joined with ',' split back into the same names |
| Transport.UpdateRatelimit | lib/timetree/base_client.rb:18-25 | each of limit, remaining and reset changes only when its header is present, and is then known |
| Transport.Raise | lib/timetree/api_error.rb:17-23 | an error body's type, title and errors and the response status are copied into the ApiError |
| TransportFacts.RateHeadersRoundTrip | lib/timetree/client.rb:256-263 | headers written in decimal set limit, remaining and reset to exactly those numbers |
| TransportFacts.RatelimitStable | lib/timetree/base_client.rb:18-25 | a response without rate-limit headers changes nothing, and the update is idempotent |
| TransportFacts.RatelimitIgnoresOtherHeaders | lib/timetree/calendar_app/client.rb:111-118 | headers other than the three rate-limit headers do not matter |
| TransportFacts.SegmentsHaveNoSlash | lib/timetree/client.rb:116-126 | a route with plain ids is made of segments without '/' |
| TransportFacts.PathSegments | lib/timetree/client.rb:116-126 | cutting a request path at '/' gives back its segments |
| TransportFacts.PathInjective | lib/timetree/client.rb:29-238 | two different operations with plain ids never share a request path |
| TransportFacts.RouteOfSegments | lib/timetree/client.rb:29-238 | parsing the segments of a route with string ids gives the route back |
| TransportFacts.SegmentsInjective | lib/timetree/client.rb:29-238 | different routes with plain ids have different segments |
| TransportFacts.InspectShowsStatus | lib/timetree/api_error.rb:25-27 | the status can be read back from the end of `inspect` |
| TransportFacts.UnauthorizedExample | lib/timetree/api_error.rb:17-27 | a 401 body gives status 401 and title "Unauthorized", and `inspect` shows both |
| UserClient.CheckRequired | lib/timetree/client.rb:279-285 | fails with "<name> is required." exactly when the value is nil or renders empty |
| UserClient.New | lib/timetree/client.rb:17-21 | the token argument is used unless it is nil or false, when the configured one is; a blank token fails with "token is required." |
| UserClient.IncludeQuery | lib/timetree/client.rb:291-296 | the include key is present exactly for a nil argument or an array |
| UserClient.FirstBlank | lib/timetree/client.rb:271-277 | names the first blank id, and none exactly when every id is present |
| UserClient.DataOf | lib/timetree/client.rb:29-34 | the `data` member of an object body; any other body raises |
| UserClient.Elements | lib/timetree/client.rb:63-70 | a list reply maps over an array; only an empty object can stand in for one |
| UserClient.PatchCalendarId | lib/timetree/client.rb:123-125 | only events and activities accept a calendar id; it is set and nothing else changes |
| UserClient.PatchEventId | lib/timetree/client.rb:234-237 | only activities accept an event id; it is set and nothing else changes |
| UserClient.DecodeEach | lib/timetree/client.rb:147-152 | a decoded list has one model per element |
| UserClient.MapAll | lib/timetree/client.rb:148-152 | a mapped list has one result per element |
| UserClient.Perform | lib/timetree/client.rb:29-238 | every operation keeps the token and sends at most one request |
| UserClientFacts.BlankExactly | lib/timetree/client.rb:279-285 | a value is refused exactly when it is nil or the empty string |
| UserClientFacts.TokenChoice | lib/timetree/client.rb:17-21 | a usable token argument is kept, a nil or false one defers to the configured token, and an empty one is refused |
| UserClientFacts.IncludeRoundTrip | lib/timetree/client.rb:291-296 | an array of names is sent so that splitting it at ',' gives back the same names, unfiltered |
| UserClientFacts.DefaultIncludes | lib/timetree/client.rb:291-296 | by default calendars include "labels,members" and events "creator,label,attendees" |
| UserClientFacts.ChecksComeFirst | lib/timetree/client.rb:116-126 | a blank id fails before any request and leaves the state unchanged; the calendar id is checked before the event id |
| UserClientFacts.OneRequestPerCall | lib/timetree/client.rb:29-238 | with every id present exactly one request is sent, with the bearer token, and its rate-limit headers are recorded whatever the status |
| UserClientFacts.BuildFailures | lib/timetree/models/base_model.rb:23-61 | decoding never raises an ApiError |
| UserClientFacts.DecodeFailures | lib/timetree/models/base_model.rb:23-61 | decoding with resolution never raises an ApiError |
| UserClientFacts.DecodeEachFailures | lib/timetree/client.rb:147-152 | decoding a list never raises an ApiError |
| UserClientFacts.FinishFailures | lib/timetree/client.rb:29-238 | decoding a reply never raises an ApiError |
| UserClientFacts.ApiErrorIffUnexpectedStatus | lib/timetree/client.rb:29-238 | an ApiError is raised exactly when the status differs from 201 for the creates, 204 for delete and 200 otherwise, and it carries the status |
| UserClientFacts.DeleteReturnsTrue | lib/timetree/client.rb:207-214 | a 204 delete returns true whatever the body, after one DELETE to the event's path |
| UserClientFacts.EventsGetCalendarId | lib/timetree/client.rb:116-195 | a fetched, created or updated event carries the calendar id passed, whatever the payload said |
| UserClientFacts.ActivitiesGetBothIds | lib/timetree/client.rb:234-237 | a created comment carries both ids passed |
| UserClientFacts.UpcomingQuery | lib/timetree/client.rb:140-143 | upcoming events sends days and timezone beside the include parameter, the given values or, when omitted, 7 and "UTC" |
| UserClientFacts.MapAllElementwise | lib/timetree/client.rb:148-152 | mapping over a list keeps positions: the i-th result is the block applied to the i-th element |
| UserClientFacts.MapAllOk | lib/timetree/client.rb:148-152 | mapping over a list succeeds exactly when the block succeeds on every element |
| UserClientFacts.MapAllFailure | lib/timetree/client.rb:148-152 | a failed map reports the error of the first element whose block raises, every earlier element having succeeded |
| UserClientFacts.DecodeEachElementwise | lib/timetree/client.rb:147-152 | the i-th model is the decode of the i-th element, sharing the one included array, with the calendar id set when asked |
| UserClientFacts.DecodeEachOk | lib/timetree/client.rb:147-152 | a list fails exactly when some element fails to decode or cannot take a calendar id |
| CalendarApp.Expired | lib/timetree/calendar_app/access_token.rb:16-18 | a token is expired exactly when now is strictly after its expiry; a non-numeric expiry cannot be compared |
| CalendarApp.New | lib/timetree/calendar_app/client.rb:29-34 | a new client holds no token; a nil application id defers to the configured one |
| CalendarApp.HasValidToken | lib/timetree/calendar_app/client.rb:133-135 | true exactly when a token is cached and not expired |
| CalendarApp.ExchangeToken | lib/timetree/calendar_app/client.rb:137-145 | the given exchange request is sent once; a non-200 answer raises and keeps the cached token; a 200 answer caches its access_token and expire_at and uses the token; rate limits are recorded either way |
| CalendarApp.GetAccessToken | lib/timetree/calendar_app/client.rb:137-145 | as written: the exchange goes out with `Bearer` and the token the client already holds; a non-200 answer raises and keeps the cached token; a 200 answer caches its access_token and expire_at and uses the token |
| CalendarApp.GetAccessTokenIntended | lib/timetree/calendar_app/client.rb:137-155 | corrected: the exchange is authorised by the JWT claims issued now, and it ends in the same state and outcome as the exchange as written |
| CalendarApp.CheckAccessToken | lib/timetree/calendar_app/client.rb:128-131 | a valid token sends nothing; otherwise the exchange runs |
| CalendarApp.Intersect | lib/timetree/calendar_app/client.rb:38-39 | `Array#&` keeps exactly the requested names that are declared, without repetitions |
| CalendarApp.Dedup | lib/timetree/calendar_app/client.rb:38-39 | dropping repeats keeps exactly the elements of the list, each once |
| CalendarApp.IncludeParam | lib/timetree/calendar_app/client.rb:36-77 | nil or `{}` gives the empty string, an array gives its declared names joined with ',', a lone name gives itself when declared and the empty string otherwise, and a value without `to_sym` raises |
| CalendarApp.QueryOf | lib/timetree/calendar_app/client.rb:36-77 | the fetches always send an include parameter and fail only on a malformed include argument |
| CalendarApp.Perform | lib/timetree/calendar_app/client.rb:36-109 | an operation keeps the installation and application ids and sends one or two requests, or none when it fails first |
| CalendarAppFacts.ExpiryIsStrict | lib/timetree/calendar_app/access_token.rb:16-18 | a token is still valid at its expiry second and expired one second later |
| CalendarAppFacts.ExpiryIsMonotone | lib/timetree/calendar_app/access_token.rb:16-18 | once expired, a token stays expired |
| CalendarAppFacts.ValidTokenIsReused | lib/timetree/calendar_app/client.rb:128-135 | with a valid token no exchange is sent and the cached token is untouched |
| CalendarAppFacts.MissingOrExpiredTokenIsExchanged | lib/timetree/calendar_app/client.rb:128-145 | without a valid token the first request is the exchange to the installation's path, carrying `Bearer` and the token already held |
| CalendarAppFacts.FailedExchangeKeepsToken | lib/timetree/calendar_app/client.rb:137-140 | a refused exchange raises with its status, sends nothing more and keeps the old token |
| CalendarAppFacts.ExchangedTokenAuthorisesCall | lib/timetree/calendar_app/client.rb:137-145 | after a successful exchange the new token is cached and authorises the operation's request |
| CalendarAppFacts.CachedTokenServesUntilExpiry | lib/timetree/calendar_app/client.rb:128-145 | a token obtained now that expires at n is reused without an exchange up to and including second n |
| CalendarAppFacts.TokenRequestClaims | lib/timetree/calendar_app/client.rb:147-155 | the intended exchange goes to the installation's access-token path with claims iat = now, exp = now + 600, iss = the application id |
| CalendarAppFacts.IntendedExchangeIsSigned | lib/timetree/calendar_app/client.rb:137-155 | the corrected exchange sends one request signed with iat = now, exp = now + 600, iss = the application id, and otherwise ends as the exchange as written |
| CalendarAppFacts.FirstExchangeAsWrittenHasNoCredential | lib/timetree/calendar_app/client.rb:138-140 | as written, the first operation of a new client sends its exchange with an empty `Bearer` header, and no exchange as written carries a JWT |
| CalendarAppFacts.IntersectIsFilterOfDedup | lib/timetree/calendar_app/client.rb:38-39 | for any requested list, `Array#&` is the declared names of the list with its repeats dropped, in order of first occurrence |
| CalendarAppFacts.IntersectFilters | lib/timetree/calendar_app/client.rb:38-39 | for names without repetitions, `Array#&` keeps exactly the declared ones in the requested order |
| CalendarAppFacts.IntersectExample | lib/timetree/calendar_app/client.rb:56-57 | repetitions and unknown names are dropped and the requested order is kept |
| CalendarAppFacts.NoDefaultInclude | lib/timetree/calendar_app/client.rb:36-44 | without an include argument the app client still sends include, with the empty string |
| CalendarAppFacts.BadIncludeAfterExchange | lib/timetree/calendar_app/client.rb:54-62 | a malformed include argument raises only after the token check, once its exchange has happened |
| CalendarAppFacts.AppFinishFailures | lib/timetree/calendar_app/client.rb:36-109 | decoding an app reply never raises an ApiError |
| CalendarAppFacts.AppUpcomingQuery | lib/timetree/calendar_app/client.rb:63-70 | the app client's upcoming events sends days, timezone and include; omitted, days and timezone are 7 and "UTC" |
| CalendarAppFacts.AppApiErrorIffUnexpectedStatus | lib/timetree/calendar_app/client.rb:36-109 | with a valid token, an ApiError is raised exactly when the status differs from the one the operation expects (201, 204 or 200) |
| ModelOps.TimeText | lib/timetree/models/event.rb:110-112 | only a parsed time can be formatted; it is sent as the codec's text |
| ModelOps.RecordedReference | lib/timetree/models/event.rb:126-127 | reading a raw reference raises exactly when no relationship was recorded |
| ModelOps.CurrentLabel | lib/timetree/models/event.rb:126 | a set label object sends `{type: 'label', id}`, an unset one the raw reference, and any other truthy value raises |
| ModelOps.CurrentAttendees | lib/timetree/models/event.rb:127 | set attendee objects send one `{type: 'user', id}` each, in order; unset ones send the raw references |
| ModelOps.RelationshipsParams | lib/timetree/models/event.rb:125-132 | the relationships part has exactly the keys label and attendees, each wrapping its reference in data; the label is evaluated first |
| ModelOps.EventAttributes | lib/timetree/models/event.rb:106-117 | exactly the ten attribute keys are sent; start_at and end_at are formatted and the rest are sent as read |
| ModelOps.EventDataParams | lib/timetree/models/event.rb:103-121 | the body is data with attributes and relationships, and fails when either does |
| ModelOps.EventCreate | lib/timetree/models/event.rb:55-58 | an unbound event raises "@client is nil."; an app-bound one sends nothing and fails |
| ModelOps.EventUpdate | lib/timetree/models/event.rb:67-70 | an unbound event raises "@client is nil."; an app-bound one sends nothing and fails |
| ModelOps.EventDelete | lib/timetree/models/event.rb:79-82 | an unbound event raises "@client is nil."; an app-bound one raises an arity error |
| ModelOps.ActivityDataParams | lib/timetree/models/activity.rb:42-46 | the body is exactly `{data: {attributes: {content}}}` |
| ModelOps.ActivityCreateAsWritten | lib/timetree/models/activity.rb:32-56 | an unbound activity raises "@client is nil." before any call |
| ModelOps.ActivityCreate | lib/timetree/models/activity.rb:32-56 | corrected create: unbound raises; with the user client it is the as-written create |
| ModelOps.CommentPayload | lib/timetree/models/event.rb:93 | the activity payload is built whenever the calendar id can be read |
| ModelOps.CreateComment | lib/timetree/models/event.rb:91-96 | an unbound event raises "@client is nil."; an event whose calendar id cannot be read raises; in both cases nothing is sent |
| ModelOps.CreateCommentIntended | lib/timetree/models/event.rb:91-96 | corrected comment: unbound raises; with the user client it is the comment as written |
| ModelOps.CalendarEvent | lib/timetree/models/calendar.rb:31-34 | delegates to the user client's event fetch with the calendar's id and the default include; unbound raises, app-bound raises an arity error |
| ModelOps.CalendarUpcomingEvents | lib/timetree/models/calendar.rb:47-50 | unbound raises; app-bound raises an arity error; user-bound delegates to the client's upcoming events with the calendar's id, passing omitted days and timezone on as omitted |
| ModelOps.Memoised | lib/timetree/models/calendar.rb:59-78 | a value already set is returned without a request, even without a client; a fetched list is stored; nothing else in the model changes |
| ModelOpsFacts.EchoAttributes | lib/timetree/models/base_model.rb:81-90 | the attributes an event sends are all copied back by decoding, the two times parsed |
| ModelOpsFacts.EchoDecodes | lib/timetree/models/base_model.rb:23-61 | an echoed event decodes to an event with those attributes and no relationships |
| ModelOpsFacts.DataParamsRoundTrip | lib/timetree/models/event.rb:103-121 | decoding the attributes an event sends gives back the same instants and the same values, when the time format parses back |
| ModelOpsFacts.RawReferencesSentBack | lib/timetree/models/event.rb:125-132 | a decoded, unresolved event sends back exactly the label and attendee references it was decoded from |
| ModelOpsFacts.EventWithoutRelationshipsIsNotSent | lib/timetree/models/event.rb:126 | an event decoded without relationships or a label raises on the raw reference, so create and update send nothing |
| ModelOpsFacts.EventCreatePostsDataParams | lib/timetree/models/event.rb:55-58 | creating with the user client posts the data params to the calendar's events with the bearer token |
| ModelOpsFacts.MemoReused | lib/timetree/models/calendar.rb:59-78 | after a successful fetch, asking again returns the same list and sends nothing |
| ModelOpsFacts.IncludedMembersNeedNoRequest | lib/timetree/models/calendar.rb:59-78 | members or labels filled by resolution are returned without a request |
| ModelOpsFacts.FirstFetchStoresList | lib/timetree/models/calendar.rb:59-78 | a first fetch sends one request for the calendar's members or labels and stores a list |
| ModelOpsFacts.AppBoundCalendarRaises | lib/timetree/models/calendar.rb:31-78 | with the app client, labels raises for a missing method and members, event and upcoming_events raise arity errors, before any request |
| ModelOpsFacts.CommentAsWrittenRefusedByApp | lib/timetree/models/activity.rb:50-56 | as written, an app-bound activity makes the three-argument call and raises an arity error |
| ModelOpsFacts.CommentReachesApp | lib/timetree/models/activity.rb:50-53 | corrected, an app-bound activity with a valid token is posted once to the event's activities with its data params |
| ModelOpsFacts.CommentActivity | lib/timetree/models/event.rb:91-95 | the comment's activity is bound to the same client and carries the event's calendar id, its id and the message |
| ModelOpsFacts.UserActivityPosted | lib/timetree/models/activity.rb:32-56 | a user-bound activity with both ids is posted once, to its event's activities on its calendar, with its content as the data params |
| ModelOpsFacts.CommentRefusedByApp | lib/timetree/models/event.rb:91-96 | as written, commenting on an app-bound event with a readable calendar id raises an arity error for `create_activity` and sends nothing |
| ModelOpsFacts.CommentIntendedReachesApp | lib/timetree/models/event.rb:91-96 | corrected, commenting on an app-bound event with a valid token posts `{data: {attributes: {content: message}}}` once to the event's activities |
| ModelOpsFacts.UpcomingDefaults | lib/timetree/models/calendar.rb:47-50 | called without arguments, user-bound upcoming events sends one request to the calendar's upcoming-events path with days 7 and timezone "UTC" |
| ModelOpsFacts.CommentPostedToEvent | lib/timetree/models/event.rb:91-96 | with the user client a comment posts `{data: {attributes: {content: message}}}` to the event's activities on its calendar |

## Left out

- HTTP transport (`lib/timetree/http_command.rb`): Faraday connections, JSON parsing, the `Accept` header and logging. A response is an abstract status, body and headers. The model keeps only that the rate limits are recorded before the status is checked.
- RSA key parsing and RS256 signing of the assertion (`lib/timetree/calendar_app/client.rb:32,154`): foreign cryptography. Only the claim record is modelled.
- The internals of `Time.parse` and `Time#iso8601`: they are the `TimeCodec` parameter, with instants in whole seconds.
- `Time.at` of the reset header: the reset instant is kept as the integer of seconds.
- Resources.Value: reading a time or a resolved model as a JSON attribute value is a failure, because the model has no JSON form for Ruby objects.
- ModelOps.EventAttributes: inherits that failure for an attribute that holds a time or a model, where Ruby would serialise the object.
- `JsonData.ToS` renders arrays and objects as placeholders. Those appear only in paths and messages built from malformed ids, titles or tags.
- Floating-point JSON numbers: numbers are integers.
- Header-name case: rate-limit headers are looked up by their lower-case names.
- The `relationships` attribute key: `relationships=` is an inherited setter, so a payload attribute of that name would overwrite the raw references. That case is not modelled.
- An `include_relationships` argument of `false`, or an array with non-string elements: the model's include argument is nil, an array of names, one name, `{}`, or another value.
- Configuration and the global settings object (`lib/timetree.rb`, `lib/timetree/configuration.rb`): the configured token and application id are parameters.
- The private key held by the calendar-app client, and its parsing at construction.
- Constructor validation and event-id checks for the calendar-app client that the gem's tests expect but its code does not perform.
- `Client#inspect` and `BaseModel#inspect`: object ids and `strftime` formatting.
- The superseded files `lib/timetree/models.rb`, `lib/timetree/event.rb`, `lib/timetree/calendar.rb`, `lib/timetree/activity.rb` and `lib/timetree/error.rb`: they are older versions that the `models/` classes replace, and they are not part of this model.
- Concurrency: the clients are single-threaded state.
- UserClient.Perform: its contract states only the frame (the token kept, at most one request). The request, status and decode tables are stated by the lemmas in `UserClientFacts`.
- CalendarApp.Perform: its contract states only the frame (the ids kept, how many requests are sent). The token cycle and status table are stated by the lemmas in `CalendarAppFacts`.
- ModelOps.CreateComment: its contract states only the refusals. The delegated request is stated by `ModelOpsFacts.CommentPostedToEvent` and the app-bound failure by `ModelOpsFacts.CommentRefusedByApp`.
- ModelOps.ActivityCreateAsWritten: its contract states only the unbound case. The app-bound failure is stated by `ModelOpsFacts.CommentAsWrittenRefusedByApp`.

## Findings

| source | as written | input that shows it | evidently intended | confidence | as-written member | corrected member |
|---|---|---|---|---|---|---|
| lib/timetree/calendar_app/client.rb:138-140 | `HttpCommand#post` takes no block, so the block that sets the `Authorization: Bearer <jwt>` header is ignored; the exchange is sent with `Bearer #{@client.token}`, which is empty for a new client | a new calendar-app client's first operation: its exchange carries `Bearer ` and no assertion | the exchange is authorised by the signed assertion with claims iat, exp = iat + 600, iss | not executed | CalendarAppFacts.FirstExchangeAsWrittenHasNoCredential | CalendarAppFacts.IntendedExchangeIsSigned |
| lib/timetree/models/activity.rb:51 | `_create` tests `@cilent`, which is never set, so it always calls `create_activity(calendar_id, event_id, params)` | an activity bound to the calendar-app client: that client's `create_activity(event_id, params)` raises an arity error | test `@client`, so an app-bound activity calls `create_activity(event_id, params)` | not executed | ModelOps.ActivityCreateAsWritten | ModelOps.ActivityCreate |
