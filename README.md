# GiantswarmClient request/response/cache pipeline in Dafny

This project models the core of the Giant Swarm API client: the class
`GiantswarmClient` and the error type `GiantswarmError`. It covers the
following parts:

- **Session token.** `login`, `logout`, `setToken`, `isLoggedIn` and the two
  login guards.
- **Live send.** The send installs the client's fixed headers. It hands the
  request to the HTTP transport and classifies the transport status into an
  error kind.
- **Cached send.** The send replays a cached snapshot of an earlier response,
  or sends live and stores the snapshot of the new response.
- **Envelope codec.**
  - the response snapshot, encoded to a string and decoded back;
  - the `data` payload of an API envelope `{"status_code": …, "data": …}`;
  - the check of `status_code` against the code each operation expects
    (10000, 10003, 10004, 10005, 10006, 10007).
- **Public operations.** They share one template:
  1. check the login guard;
  2. build the request;
  3. send it, live or cached under a fixed key;
  4. check the status code;
  5. catch the error and return `false` or an empty result.
- **List loops.** The loops turn a `data` array into the returned list.
- **Environment store.** The store is modelled as a set of (company, name)
  pairs.
- **Error messages.** The message table of `GiantswarmError`.

Files and modules:

| file | module | contents |
|---|---|---|
| `options.dfy` | `Options` | `Option` |
| `errors.dfy` | `Errors` | the 11 error kinds, `errorString`, and `Outcome` (a member function returns or throws) |
| `json.dfy` | `Json` | a JSON value type, a serializer, a parser that may fail, and the Qt value conversions; it stands in for the qjson4 library |
| `http.dfy` | `Http` | requests, responses, the status predicates, classification and outbound headers |
| `envelope.dfy` | `Envelope` | the snapshot codec, `extractDataAs*` and `assertStatusCode` |
| `lists.dfy` | `Lists` | the list-building loops |
| `cache.dfy` | `Cache` | the pluggable cache adapter |
| `client.dfy` | `Client` | the `GiantswarmClient` class with its operations |

How the model represents the client:

- **Transport.** The HTTP transport is a function parameter
  `Request -> Response`. The ghost field `sent` logs every request handed to
  it, so each contract can say exactly which requests went out.
- **Errors.** A thrown `GiantswarmError` is the `Raised` branch of an
  `Outcome`. The login guards run before the `try` block of every operation,
  so `LoginRequired` and `LogoutRequired` come back as `Raised`, before
  anything is sent. Errors raised inside the `try` block become `false`, an
  empty list, or a default value.
- **The `response` variable.** In `login` and `ping`, `response` is declared
  inside the `try` block but used after it. The model reads it as the
  response obtained inside the block.

## Model

| member | source | states |
|---|---|---|
| Errors.Code | giantswarmerror.hpp:9-21 | each of the 11 error kinds has its enum value as a position in the declared list |
| Errors.ErrorString | giantswarmerror.cpp:7-41 | every error kind has a non-empty message |
| Errors.MessageOfCode | giantswarmerror.cpp:7-44 | an integer gives the empty string exactly when it is not one of the 11 enum values, and gives its kind's message otherwise |
| Errors.FallbackUnreachable | giantswarmerror.cpp:43 | for every declared kind the switch returns before the empty fallback |
| Errors.ErrorOfMessageIn | giantswarmerror.cpp:9-40 | a search of the message table finds a kind with the given message, or there is none |
| Errors.MessageRecoversError | giantswarmerror.cpp:9-40 | the error kind is recovered from its message |
| Errors.ErrorStringInjective | giantswarmerror.cpp:9-40 | distinct kinds have distinct messages (so "from cache" differs from "from API", and "Login required!" from "Logout required!") |
| Json.DocumentRoundTrip | giantswarmclient.cpp:730-738 | a JSON object or array serialized as the client does parses back to itself |
| Json.Field | giantswarmclient.cpp:744-758 | a member lookup returns the value of the first member with that key, and an undefined (null) value when no member has it |
| Http.Classify | giantswarmclient.cpp:687-701 | a response that is not raised is returned unchanged |
| Http.ClassifyByRange | giantswarmclient.cpp:687-699 | for each status range, the one error kind it is reported as (403 as not allowed, other 4xx as client error, 5xx, 3xx, other non-2xx) and 2xx returned |
| Http.ClassifySucceedsIffSuccessful | giantswarmclient.cpp:687-701 | the send returns exactly for 2xx, and otherwise raises one of the transport error kinds |
| Http.ForbiddenBeforeClientError | giantswarmclient.cpp:687-690 | 403 is in the client error range but is reported as not allowed |
| Http.NotFoundNeverReported | giantswarmclient.cpp:695-696 | the not-found branch is dead because 404 is classified as a client error first |
| Http.ClientHeaders | giantswarmclient.cpp:671-683 | Accept and User-Agent are always set; Authorization is set to "giantswarm " + token iff the token is non-empty; Content-Type iff the body is non-empty; nothing else |
| Http.ClientHeadersUnique | giantswarmclient.cpp:671-683 | those requirements determine the header map |
| Http.Prepared | giantswarmclient.cpp:671-685 | the request sent keeps method, URL and body and carries the client headers |
| Envelope.GenerateCachableStringAsWritten | giantswarmclient.cpp:714-734 | the snapshot as written: a header list of the response's length in which each entry is a copy of the list built so far |
| Envelope.AsWrittenSnapshotRoundTrip | giantswarmclient.cpp:714-762 | decoding the as-written snapshot keeps status and body, but the headers come back as "" -> "" (or none) |
| Envelope.AsWrittenLosesContentType | giantswarmclient.cpp:722 | a response with a Content-Type header decodes from its snapshot with different headers |
| Envelope.GenerateCachableString | giantswarmclient.cpp:714-734 | the corrected snapshot: one name/value entry per header, each key once; decoding it gives back the response |
| Envelope.SnapshotRoundTrip | giantswarmclient.cpp:704-762 | decode(encode(response)) == response for status, headers and body |
| Envelope.HeaderMapKeys | giantswarmclient.cpp:747-753 | the header names read back are exactly the names of the entries |
| Envelope.HeaderMapLastWins | giantswarmclient.cpp:747-753 | each name read back carries the value of the last entry with that name |
| Envelope.HeaderMapOfEntries | giantswarmclient.cpp:745-752 | reading back the header entries rebuilds exactly the header map |
| Envelope.HeaderMapOfSelfAppended | giantswarmclient.cpp:745-752 | each self-appended entry is an array, so it reads as the header "" -> "" |
| Envelope.DecodeSnapshot | giantswarmclient.cpp:736-742 | decoding raises InvalidJsonFromCache exactly when the string is not a JSON document |
| Envelope.GenerateResponseFromCachableString | giantswarmclient.cpp:736-762 | the decoding loop builds the header map entry by entry and gives DecodeSnapshot's result |
| Envelope.DecodeRenderedSnapshot | giantswarmclient.cpp:744-759 | a rendered snapshot decodes to its status, its headers read back, and its body |
| Envelope.NonJsonSnapshotRejected | giantswarmclient.cpp:739-742 | text that is not JSON, and a bare JSON string, are rejected as invalid cache JSON |
| Envelope.ExtractDataAsObject | giantswarmclient.cpp:768-780 | an unparsable body gives the empty object |
| Envelope.ExtractDataAsArray | giantswarmclient.cpp:782-794 | an unparsable body gives the empty array |
| Envelope.ExtractDataOfEnvelope | giantswarmclient.cpp:768-794 | the payload of an envelope is extracted intact; a payload of the other kind gives the empty value |
| Envelope.ParseEnvelope | giantswarmclient.cpp:815-822 | an envelope parses back, and its `status_code` and `data` fields read back |
| Envelope.AssertStatusCode | giantswarmclient.cpp:812-825 | raises InvalidJsonFromAPI iff the body does not parse; its only other error is ResponseStatusMismatch |
| Envelope.EnvelopeStatusChecked | giantswarmclient.cpp:812-825 | an envelope passes exactly when its code equals the expected one, and otherwise raises ResponseStatusMismatch |
| Envelope.MissingStatusCodeMismatches | giantswarmclient.cpp:822-824 | a document without `status_code` reads it as 0 and fails against every expected code |
| Envelope.SucceedsOnEnvelope | giantswarmclient.cpp:687-701 | for an envelope body, a send plus check succeeds iff the status is 2xx and the code is the expected one |
| Lists.CollectTakingAt | giantswarmclient.cpp:121-123 | the loop as written returns ceil(n/2) elements, the ones at even positions of the array |
| Lists.TakeAtStep | giantswarmclient.cpp:122 | one `takeAt(i)` removes the element at original position 2i and leaves the skipped elements behind |
| Lists.TakingAtDropsSecondCompany | giantswarmclient.cpp:121-123 | with two companies in the payload, the loop as written returns only the first |
| Lists.CollectAll | giantswarmclient.cpp:121-123 | the corrected loop returns every element, converted, in order |
| Cache.CacheAdapter.Store | giantswarmclient.cpp:665 | a retaining adapter maps the key to the value; DevNull keeps nothing |
| Cache.DevNullNeverHits | giantswarmclient.cpp:21 | the default adapter never reports a hit |
| Client.CachedReply | giantswarmclient.cpp:655-668 | a decodable cached snapshot is what the cached send returns; otherwise it returns the classified live response |
| Client.Checked | giantswarmclient.cpp:52-58 | the try block succeeds iff the send returns and the status check passes; its error is the send's error or one of the two check errors |
| Client.CheckedLiveSend | giantswarmclient.cpp:52-55 | a live send plus check succeeds exactly when the response passes both layers |
| Client.SessionToken | giantswarmclient.cpp:60-61 | an unparsable login reply gives the empty token |
| Client.LoginReplyYieldsToken | giantswarmclient.cpp:52-68 | a 2xx login reply with code 10000 and data {"Id": t} passes and gives the token t |
| Client.ApplicationOf | giantswarmclient.cpp:325-331 | an entry that is not an object reads as an application with every field "" |
| Client.ApplicationOfRecord | giantswarmclient.cpp:325-331 | an application entry in the API's shape reads back field by field |
| Client.UserOf | giantswarmclient.cpp:548-563 | a failed user read gives the user with empty name and email |
| Client.UserOfEnvelope | giantswarmclient.cpp:541-566 | a 2xx user reply with code 10000 gives its username and email |
| Client.AsWrittenReplayKeepsData | giantswarmclient.cpp:655-668 | a reply replayed from the snapshot as written passes the status check exactly when the original response does and yields the same `data` |
| Client.CompanyUsersKeyShared | giantswarmclient.cpp:189 | once company a's members are stored under "company_users", a read for any company b replays a's reply |
| Client.GiantswarmClient.constructor | giantswarmclient.cpp:18-24 | a new client has the default endpoint, a DevNull cache and an empty token |
| Client.GiantswarmClient.IsLoggedIn | giantswarmclient.cpp:90-92 | logged in exactly when a send attaches the Authorization header |
| Client.GiantswarmClient.SetToken | giantswarmclient.cpp:94-96 | the token is set whatever the state; logged in iff it is non-empty |
| Client.GiantswarmClient.AssertLoggedIn | giantswarmclient.cpp:800-804 | raises LoginRequired exactly when the token is empty |
| Client.GiantswarmClient.AssertNotLoggedIn | giantswarmclient.cpp:806-810 | raises LogoutRequired exactly when the token is non-empty |
| Client.GiantswarmClient.Send | giantswarmclient.cpp:670-702 | logs exactly one request, which carries the client headers, and returns the classification of the transport's answer |
| Client.GiantswarmClient.SendCached | giantswarmclient.cpp:655-668 | on a replay nothing is sent or stored; otherwise one live send; a returned response is stored so that the key replays it next time, leaving other keys alone; a raised one stores nothing |
| Client.GiantswarmClient.TryLive | giantswarmclient.cpp:52-55 | one request sent; outcome is the send followed by the status check |
| Client.GiantswarmClient.TryCached | giantswarmclient.cpp:113-116 | as TryLive, over the cached send |
| Client.GiantswarmClient.Login | giantswarmclient.cpp:38-69 | while logged in: LogoutRequired, nothing sent, token unchanged; otherwise one login request; the token becomes data.Id when send and check pass, else stays empty; the result says whether the token is non-empty |
| Client.GiantswarmClient.Logout | giantswarmclient.cpp:71-88 | while logged out: LoginRequired, nothing sent; otherwise one logout request; the token is cleared iff send and check pass |
| Client.GiantswarmClient.Mutate | giantswarmclient.cpp:132-155 | the mutation template: LoginRequired with nothing sent, or one request and the result of send plus check |
| Client.GiantswarmClient.CreateCompany | giantswarmclient.cpp:132-155 | the template with POST /company and expected code 10003 |
| Client.GiantswarmClient.DeleteCompany | giantswarmclient.cpp:157-173 | the template with DELETE /company/<name> and 10007 |
| Client.GiantswarmClient.AddUserToCompany | giantswarmclient.cpp:206-229 | the template with POST …/members/add and 10006 |
| Client.GiantswarmClient.RemoveUserFromCompany | giantswarmclient.cpp:231-254 | the template with POST …/members/remove and 10006 |
| Client.GiantswarmClient.StartApplication | giantswarmclient.cpp:411-427 | the template with POST …/start and 10004 |
| Client.GiantswarmClient.StopApplication | giantswarmclient.cpp:429-445 | the template with POST …/stop and 10005 |
| Client.GiantswarmClient.ScaleApplicationUpBy | giantswarmclient.cpp:458-474 | the template with POST …/scaleup/<count> and 10006 |
| Client.GiantswarmClient.ScaleApplicationUp | giantswarmclient.cpp:447-456 | scale up by one |
| Client.GiantswarmClient.ScaleApplicationDown | giantswarmclient.cpp:476-485 | as written: scales up by one |
| Client.GiantswarmClient.ScaleApplicationDownBy | giantswarmclient.cpp:487-503 | as written: the scale-up request, checked against 10007 |
| Client.GiantswarmClient.GetCompanies | giantswarmclient.cpp:102-126 | LoginRequired with nothing sent or stored; otherwise the cached send under "companies" and every name in the `data` array (the corrected loop), or the empty list when send or check fails |
| Client.GiantswarmClient.HasCompanies | giantswarmclient.cpp:128-130 | whether that list is non-empty; the guard's error escapes with nothing sent or stored; otherwise the request log and cache change as for the cached send under "companies" |
| Client.GiantswarmClient.GetCompanyUsers | giantswarmclient.cpp:179-204 | as GetCompanies over `data.members` under the key "company_users" |
| Client.GiantswarmClient.GetApplications | giantswarmclient.cpp:305-337 | one live request; every entry of `data` (the corrected loop) mapped to company, environment, application and creation time, or empty on failure |
| Client.GiantswarmClient.GetInstanceStatistics | giantswarmclient.cpp:509-535 | cached under the empty key; the component name, or "" on failure |
| Client.GiantswarmClient.GetUser | giantswarmclient.cpp:541-566 | cached under "user"; username and email of the data, or "" for both on failure |
| Client.GiantswarmClient.UpdateEmail | giantswarmclient.cpp:568-594 | reads the user first (possibly from the cache, which it stores into as the cached send does under "user"), then sends one update whose old email is the user's email; result is send plus check against 10006 |
| Client.GiantswarmClient.UpdatePassword | giantswarmclient.cpp:596-622 | reads the user first (storing into the cache as the cached send does under "user"), then sends one password update; result is send plus check against 10006 |
| Client.GiantswarmClient.Ping | giantswarmclient.cpp:628-641 | no guard and no status check; true iff the status is 2xx and the body is "OK" in quotes followed by a newline |
| Client.GiantswarmClient.HasEnvironment | giantswarmclient.cpp:268-270 | a stored pair makes the store non-empty |
| Client.GiantswarmClient.HasEnvironments | giantswarmclient.cpp:264-266 | the store counts at least one pair exactly when some pair is stored |
| Client.GiantswarmClient.CreateEnvironment | giantswarmclient.cpp:272-277 | an existing pair gives true and no change; otherwise the pair is added unless the insert fails; true iff the pair is stored afterwards |
| Client.GiantswarmClient.DeleteEnvironment | giantswarmclient.cpp:279-281 | the pair is removed unless the store fails; the result says which |
| Client.GiantswarmClient.SetCache | giantswarmclient.cpp:647-649 | the client uses the given adapter |
| Client.GiantswarmClient.SetEndpoint | giantswarmclient.cpp:30-32 | the endpoint is replaced |

## Left out

- HTTP transport: it is a function parameter, so a network failure that is not a status, redirects and retries are not modelled. The `HttpResponse` status predicates are not part of this model. They are taken as status ranges: 403 and 404 both lie in the client error range. The code tests forbidden first, so a 403 is reported as not allowed and a 404 as a client error.
- JSON: the model has its own grammar. It has integer numbers only, no whitespace, and escapes only `"` and `\`. The serializer is compact and writes members in the given order. The Qt serializer indents and sorts keys. Request bodies list their keys in sorted order to match.
- `(int)toDouble()` and `toInt()`: numbers are integers here. Fractions, doubles and 32-bit range are not modelled.
- Json.Field: with duplicate keys a lookup takes the first member with the key; which duplicate the Qt object keeps is not modelled.
- Base64 encoding of the password, company name and user name fields: the fields are sent as plain text.
- Logging with `qWarning`, raw-pointer ownership, and the Qt object and `Q_INVOKABLE` plumbing.
- `getApplicationStatus`, which maps fields of the reply into the result (giantswarmclient.cpp:339-401): left out.
- `getApplicationConfiguration`, a stub that returns an empty map (giantswarmclient.cpp:403-409): left out.
- `getAllApplications`, which nests loops over the other calls (giantswarmclient.cpp:287-303): left out.
- `getEnvironments`: left out, since it only lists the store, which would need an ordering.
- Client.GiantswarmClient.GetInstanceStatistics: returns only the component name. The four `toDouble()` statistics are not modelled, because numbers are integers.
- Client.GiantswarmClient.GetCompanies: uses the corrected list loop (Lists.CollectAll) and so returns every element of `data`; as written (giantswarmclient.cpp:121-123) the loop returns only the elements at even positions, ceil(n/2) of them, as Lists.CollectTakingAt states. It also leaves the corrected snapshot in the cache, as SendCached does; as written the entry decodes with the headers "" -> "" (or none). Its result does not depend on the difference (Client.AsWrittenReplayKeepsData).
- Client.GiantswarmClient.HasCompanies: leaves the corrected snapshot in the cache, as SendCached does; as written the entry decodes with the headers "" -> "" (or none). Its result does not depend on the difference (Client.AsWrittenReplayKeepsData). Its list loop is the corrected one too, which gives the same answer: ceil(n/2) > 0 exactly when n > 0.
- Client.GiantswarmClient.GetCompanyUsers: uses the corrected list loop (Lists.CollectAll) and so returns every element of `data`; as written (giantswarmclient.cpp:199-201) the loop returns only the elements at even positions, ceil(n/2) of them, as Lists.CollectTakingAt states. It also leaves the corrected snapshot in the cache, as SendCached does; as written the entry decodes with the headers "" -> "" (or none). Its result does not depend on the difference (Client.AsWrittenReplayKeepsData).
- Client.GiantswarmClient.GetApplications: uses the corrected list loop (Lists.CollectAll) and so returns every element of `data`; as written (giantswarmclient.cpp:324-325) the loop returns only the elements at even positions, ceil(n/2) of them, as Lists.CollectTakingAt states.
- Client.GiantswarmClient.SendCached: stores the corrected snapshot (Envelope.GenerateCachableString), so its cache entry decodes to the response with all its headers; as written (giantswarmclient.cpp:722) the entry decodes with the headers "" -> "" (or none), as Envelope.AsWrittenSnapshotRoundTrip states. Status and body agree, so the operation results do not change (Client.AsWrittenReplayKeepsData).
- Client.GiantswarmClient.TryCached: stores the corrected snapshot (Envelope.GenerateCachableString), so its cache entry decodes to the response with all its headers; as written (giantswarmclient.cpp:722) the entry decodes with the headers "" -> "" (or none), as Envelope.AsWrittenSnapshotRoundTrip states. Status and body agree, so the operation results do not change (Client.AsWrittenReplayKeepsData).
- Client.GiantswarmClient.GetInstanceStatistics: leaves the corrected snapshot in the cache, as SendCached does; as written the entry decodes with the headers "" -> "" (or none). Its result does not depend on the difference (Client.AsWrittenReplayKeepsData).
- Client.GiantswarmClient.GetUser: leaves the corrected snapshot in the cache, as SendCached does; as written the entry decodes with the headers "" -> "" (or none). Its result does not depend on the difference (Client.AsWrittenReplayKeepsData).
- Client.GiantswarmClient.UpdateEmail: leaves the corrected snapshot in the cache, as SendCached does; as written the entry decodes with the headers "" -> "" (or none). Its result does not depend on the difference (Client.AsWrittenReplayKeepsData).
- Client.GiantswarmClient.UpdatePassword: leaves the corrected snapshot in the cache, as SendCached does; as written the entry decodes with the headers "" -> "" (or none). Its result does not depend on the difference (Client.AsWrittenReplayKeepsData).
- Environment store: the SQL store is a set of pairs. An insert or delete error is a boolean parameter. A failing query inside `has` (which reads as "absent") is not modelled.
- The cache adapters other than DevNull are not part of this model. An adapter that keeps what it is given stands for them.
- Client.GiantswarmClient.ScaleApplicationDown and Client.GiantswarmClient.ScaleApplicationDownBy: modelled as written (they scale up). The intended scale-down endpoint is not known, so no corrected version is given.

## Findings

| source | as written | input that shows it | evidently intended | confidence | as-written member | corrected member |
|---|---|---|---|---|---|---|
| giantswarmclient.cpp:722 | each iteration appends the `headers` array to itself; the `header` object it just built is dropped | a response with header `Content-Type: application/json` decodes from its snapshot with headers `{"": ""}` | append `header`, so that decoding the snapshot gives back every header | high (not executed) | Envelope.GenerateCachableStringAsWritten, Envelope.AsWrittenLosesContentType | Envelope.GenerateCachableString |
| giantswarmclient.cpp:121-123 | `takeAt(i)` shrinks the array while `i` grows, so every other element is skipped (also at lines 199-201 and 324-325) | the `data` array `["acme", "globex"]` gives the list `["acme"]` | collect every element in order | high (not executed) | Lists.CollectTakingAt, Lists.TakingAtDropsSecondCompany | Lists.CollectAll |

The client operations use the corrected members.
