/** The API client: session token, live and cached sends, and the public
    operations, each following one template: login guard, build the
    request, send it (live, or cached under a fixed key), check the envelope
    status code, and turn any error from the send or the check into `false`
    or an empty result.  The HTTP transport is a function parameter; the
    ghost field `sent` records every request handed to it. */
module Client {
  import opened Options
  import opened Errors
  import opened Json
  import opened Http
  import opened Envelope
  import opened Lists
  import opened Cache

  const DefaultEndpoint: string := "https://api.giantswarm.io/v1"

  /** One entry of the `getApplications` result. */
  datatype Application = Application(company: string, environment: string, application: string, createdAt: string)

  /** The `getUser` result. */
  datatype User = User(name: string, email: string)

  // ---------------------------------------------------------------------
  // Requests the operations build
  // ---------------------------------------------------------------------

  function LoginRequest(endpoint: string, email: string, password: string): Request
  {
    Request(POST, endpoint + "/user/" + email + "/login", map[],
            Render(JObject([Member("password", JString(password))])))
  }

  function LogoutRequest(endpoint: string): Request
  {
    Request(POST, endpoint + "/token/logout", map[], "")
  }

  function CompaniesRequest(endpoint: string): Request
  {
    Request(GET, endpoint + "/user/me/memberships", map[], "")
  }

  function CreateCompanyRequest(endpoint: string, companyName: string): Request
  {
    Request(POST, endpoint + "/company", map[],
            Render(JObject([Member("company_id", JString(companyName))])))
  }

  function DeleteCompanyRequest(endpoint: string, companyName: string): Request
  {
    Request(DELETE, endpoint + "/company/" + companyName, map[], "")
  }

  function CompanyUsersRequest(endpoint: string, companyName: string): Request
  {
    Request(GET, endpoint + "/company/" + companyName, map[], "")
  }

  /** `verb` is "add" or "remove". */
  function MembershipRequest(endpoint: string, companyName: string, username: string, verb: string): Request
  {
    Request(POST, endpoint + "/company/" + companyName + "/members/" + verb, map[],
            Render(JObject([Member("username", JString(username))])))
  }

  function ApplicationPath(endpoint: string, companyName: string, environmentName: string): string
  {
    endpoint + "/company/" + companyName + "/env/" + environmentName + "/app/"
  }

  function ApplicationsRequest(endpoint: string, companyName: string, environmentName: string): Request
  {
    Request(GET, ApplicationPath(endpoint, companyName, environmentName), map[], "")
  }

  /** `action` is "start" or "stop". */
  function LifecycleRequest(endpoint: string, companyName: string, environmentName: string,
                            applicationName: string, action: string): Request
  {
    Request(POST, ApplicationPath(endpoint, companyName, environmentName) + applicationName + "/" + action, map[], "")
  }

  function ComponentPath(endpoint: string, companyName: string, environmentName: string, applicationName: string,
                         serviceName: string, componentName: string): string
  {
    ApplicationPath(endpoint, companyName, environmentName) + applicationName
      + "/service/" + serviceName + "/component/" + componentName
  }

  function ScaleUpRequest(endpoint: string, companyName: string, environmentName: string, applicationName: string,
                          serviceName: string, componentName: string, count: int): Request
  {
    Request(POST, ComponentPath(endpoint, companyName, environmentName, applicationName, serviceName, componentName)
                    + "/scaleup/" + IntText(count), map[], "")
  }

  function InstanceStatisticsRequest(endpoint: string, companyName: string, instanceId: string): Request
  {
    Request(GET, endpoint + "/company/" + companyName + "/instance/" + instanceId + "/stats", map[], "")
  }

  function UserRequest(endpoint: string): Request
  {
    Request(GET, endpoint + "/user/me", map[], "")
  }

  function UpdateEmailRequest(endpoint: string, oldEmail: string, newEmail: string): Request
  {
    Request(POST, endpoint + "/user/me/email/update", map[],
            Render(JObject([Member("new_email", JString(newEmail)), Member("old_email", JString(oldEmail))])))
  }

  function UpdatePasswordRequest(endpoint: string, oldPassword: string, newPassword: string): Request
  {
    Request(POST, endpoint + "/user/me/password/update", map[],
            Render(JObject([Member("new_password", JString(newPassword)), Member("old_password", JString(oldPassword))])))
  }

  function PingRequest(endpoint: string): Request
  {
    Request(GET, endpoint + "/ping", map[], "")
  }

  // ---------------------------------------------------------------------
  // What a send yields
  // ---------------------------------------------------------------------

  /** The cache holds a snapshot under `key` that decodes. */
  predicate Replayed(entries: map<string, string>, key: string)
  {
    key in entries && DecodeSnapshot(entries[key]).Returned?
  }

  /** What the cached send returns, given what the transport would answer:
      the decoded snapshot on a replay, the classified live response
      otherwise. */
  function CachedReply(entries: map<string, string>, key: string, live: Response): (r: Outcome<Response>)
    ensures Replayed(entries, key) ==> r.Returned? && DecodeSnapshot(entries[key]) == r
    ensures !Replayed(entries, key) ==> r == Classify(live)
  {
    if key in entries then
      match DecodeSnapshot(entries[key])
      case Returned(response) => Returned(response)
      case Raised(_) => Classify(live)
    else Classify(live)
  }

  /** The `try` block of an operation: the send's outcome followed by the
      envelope status check; the first error is the one caught. */
  function Checked(reply: Outcome<Response>, expected: int): (r: Outcome<Response>)
    ensures r.Returned? <==> reply.Returned? && AssertStatusCode(reply.value, expected).Returned?
    ensures r.Returned? ==> r.value == reply.value
    ensures r.Raised? && reply.Raised? ==> r.error == reply.error
    ensures r.Raised? && reply.Returned? ==> r.error in {InvalidJsonFromAPI, ResponseStatusMismatch}
  {
    match reply
    case Raised(e) => Raised(e)
    case Returned(response) =>
      match AssertStatusCode(response, expected)
      case Raised(e) => Raised(e)
      case Returned(_) => Returned(response)
  }

  /** A live send followed by the status check succeeds exactly when the
      transport status is 2xx and the envelope code is the expected one. */
  lemma CheckedLiveSend(response: Response, expected: int)
    ensures Checked(Classify(response), expected).Returned? <==> Succeeds(response, expected)
    ensures Checked(Classify(response), expected).Returned? ==> Checked(Classify(response), expected).value == response
  {
  }

  /** `data.take("Id").toString()` of the login reply. */
  function SessionToken(response: Response): (t: string)
    ensures ParseDocument(response.body).None? ==> t == ""
  {
    AsString(Field(ExtractDataAsObject(response), "Id"))
  }

  /** A 2xx login reply carrying `{"status_code": 10000, "data": {"Id": t}}`
      passes both checks and yields the session token `t`. */
  lemma LoginReplyYieldsToken(response: Response, t: string)
    requires IsSuccessful(response.status)
    requires response.body == Render(EnvelopeOf(STATUS_CODE_SUCCESS, JObject([Member("Id", JString(t))])))
    ensures Succeeds(response, STATUS_CODE_SUCCESS)
    ensures SessionToken(response) == t
  {
    SucceedsOnEnvelope(response, STATUS_CODE_SUCCESS, JObject([Member("Id", JString(t))]), STATUS_CODE_SUCCESS);
    ExtractDataOfEnvelope(response, STATUS_CODE_SUCCESS, JObject([Member("Id", JString(t))]));
  }

  /** One `getApplications` entry read from its JSON object; a missing or
      ill-typed field reads as "". */
  function ApplicationOf(item: Json): (a: Application)
    ensures !item.JObject? ==> a == Application("", "", "", "")
  {
    var o := AsObject(item);
    Application(AsString(Field(o, "company")), AsString(Field(o, "env")),
                AsString(Field(o, "app")), AsString(Field(o, "created")))
  }

  /** An entry in the API's shape reads back field by field. */
  lemma ApplicationOfRecord(company: string, environment: string, application: string, created: string)
    ensures ApplicationOf(JObject([Member("company", JString(company)), Member("env", JString(environment)),
                                   Member("app", JString(application)), Member("created", JString(created))]))
         == Application(company, environment, application, created)
  {
    var o := [Member("company", JString(company)), Member("env", JString(environment)),
              Member("app", JString(application)), Member("created", JString(created))];
    var tail1 := [Member("env", JString(environment)), Member("app", JString(application)),
                  Member("created", JString(created))];
    var tail2 := [Member("app", JString(application)), Member("created", JString(created))];
    var tail3 := [Member("created", JString(created))];
    assert o[1..] == tail1 && tail1[1..] == tail2 && tail2[1..] == tail3;
    assert Field(o, "company") == JString(company);
    assert Field(o, "env") == Field(tail1, "env") == JString(environment);
    assert Field(o, "app") == Field(tail1, "app") == Field(tail2, "app") == JString(application);
    assert Field(tail2, "created") == Field(tail3, "created") == JString(created);
    assert Field(o, "created") == Field(tail1, "created") == Field(tail2, "created");
  }

  /** `list` holds the converted elements of `data`, all of them, in order. */
  ghost predicate Listed<T>(list: seq<T>, data: seq<Json>, convert: Json -> T)
  {
    |list| == |data| && forall j :: 0 <= j < |list| ==> list[j] == convert(data[j])
  }

  /** The user a `getUser` reply describes; "" fields when the call failed. */
  function UserOf(reply: Outcome<Response>): (u: User)
    ensures reply.Raised? ==> u == User("", "")
  {
    match reply
    case Raised(_) => User("", "")
    case Returned(response) =>
      var data := ExtractDataAsObject(response);
      User(AsString(Field(data, "username")), AsString(Field(data, "email")))
  }

  /** The `status_code` check of `getUser` keeps the user only from a
      reply that carries the expected code. */
  lemma UserOfEnvelope(response: Response, name: string, email: string)
    requires IsSuccessful(response.status)
    requires response.body == Render(EnvelopeOf(STATUS_CODE_SUCCESS,
               JObject([Member("username", JString(name)), Member("email", JString(email))])))
    ensures UserOf(Checked(Classify(response), STATUS_CODE_SUCCESS)) == User(name, email)
  {
    var data := JObject([Member("username", JString(name)), Member("email", JString(email))]);
    SucceedsOnEnvelope(response, STATUS_CODE_SUCCESS, data, STATUS_CODE_SUCCESS);
    ExtractDataOfEnvelope(response, STATUS_CODE_SUCCESS, data);
    assert Field(data.members[1..], "email") == JString(email);
  }

  /** A reply replayed from the snapshot as written (headers lost) passes
      the status check exactly when the original response does, and yields
      the same `data`: every operation reads only status and body. */
  lemma AsWrittenReplayKeepsData(response: Response, expected: int)
    ensures var replay := DecodeSnapshot(Render(SnapshotOf(response.status, SelfAppended(|response.headers|), response.body)));
            && replay.Returned?
            && replay.value.status == response.status && replay.value.body == response.body
            && Checked(replay, expected).Returned? == Checked(Returned(response), expected).Returned?
            && ExtractDataAsObject(replay.value) == ExtractDataAsObject(response)
            && ExtractDataAsArray(replay.value) == ExtractDataAsArray(response)
  {
    AsWrittenSnapshotRoundTrip(response);
  }

  /** `getCompanyUsers` caches under one key for every company: once company
      `a`'s reply is stored, a read for any company `b` replays it. */
  lemma CompanyUsersKeyShared(entries: map<string, string>, endpoint: string, token: string,
                              a: string, b: string, transport: Request -> Response, order: seq<string>)
    requires forall k :: k in order <==> k in transport(Prepared(CompanyUsersRequest(endpoint, a), token)).headers
    ensures var answer := transport(Prepared(CompanyUsersRequest(endpoint, a), token));
            var stored := entries["company_users" := Render(SnapshotOf(answer.status,
                                                                       HeaderEntries(order, answer.headers), answer.body))];
            CachedReply(stored, "company_users", transport(Prepared(CompanyUsersRequest(endpoint, b), token)))
              == Returned(answer)
  {
    SnapshotRoundTrip(transport(Prepared(CompanyUsersRequest(endpoint, a), token)), order);
  }

  /** Writing `key` leaves every other key of a map as it was. */
  lemma UpdateKeepsOtherKeys(m: map<string, string>, key: string, value: string)
    ensures m[key := value] - {key} == m - {key}
  {
  }

  // ---------------------------------------------------------------------
  // The client
  // ---------------------------------------------------------------------

  class GiantswarmClient {
    var token: string
    var endpoint: string
    var cache: CacheAdapter
    /** The environment store: the (company, environment) pairs it holds. */
    var environments: set<(string, string)>
    /** Every request handed to the transport, in order. */
    ghost var sent: seq<Request>

    ghost predicate Valid()
      reads this, cache
    {
      cache.Valid()
    }

    /** A client over an environment store holding `stored`: default
        endpoint, DevNull cache, not logged in. */
    constructor (stored: set<(string, string)>)
      ensures Valid() && fresh(cache)
      ensures token == "" && endpoint == DefaultEndpoint && environments == stored && sent == []
      ensures !cache.retains && cache.entries == map[]
    {
      token := "";
      endpoint := DefaultEndpoint;
      cache := new CacheAdapter.DevNull();
      environments := stored;
      sent := [];
    }

    method SetEndpoint(e: string)
      modifies this`endpoint
      ensures endpoint == e
    {
      endpoint := e;
    }

    method SetCache(c: CacheAdapter)
      requires c.Valid()
      modifies this`cache
      ensures cache == c && Valid()
    {
      cache := c;
    }

    // -- Session ----------------------------------------------------------

    /** Logged in exactly when a send attaches the Authorization header. */
    predicate IsLoggedIn()
      reads this
      ensures forall request :: IsLoggedIn() <==> "Authorization" in Prepared(request, token).headers
    {
      token != ""
    }

    /** Sets the token whatever the current state. */
    method SetToken(t: string)
      modifies this`token
      ensures token == t
      ensures IsLoggedIn() <==> t != ""
    {
      token := t;
    }

    function AssertLoggedIn(): (r: Outcome<()>)
      reads this
      ensures r.Raised? <==> !IsLoggedIn()
      ensures r.Raised? ==> r.error == LoginRequired
    {
      if !IsLoggedIn() then Raised(LoginRequired) else Returned(())
    }

    function AssertNotLoggedIn(): (r: Outcome<()>)
      reads this
      ensures r.Raised? <==> IsLoggedIn()
      ensures r.Raised? ==> r.error == LogoutRequired
    {
      if IsLoggedIn() then Raised(LogoutRequired) else Returned(())
    }

    // -- Sending ----------------------------------------------------------

    /** `send(request)`: install the client headers, hand the request to the
        transport, classify its status. */
    method Send(request: Request, transport: Request -> Response) returns (r: Outcome<Response>)
      modifies this`sent
      ensures sent == old(sent) + [Prepared(request, token)]
      ensures CarriesClientHeaders(sent[|sent| - 1].headers, token, request.body)
      ensures r == Classify(transport(Prepared(request, token)))
    {
      var headers: map<string, string> := map[];
      headers := headers["Accept" := JsonMediaType];
      headers := headers["User-Agent" := UserAgent];
      if token != "" {
        headers := headers["Authorization" := "giantswarm " + token];
      }
      if request.body != "" {
        headers := headers["Content-Type" := JsonMediaType];
      }
      ClientHeadersUnique(headers, token, request.body);
      var outbound := request.(headers := headers);
      sent := sent + [outbound];
      var response := transport(outbound);
      if IsForbidden(response.status) {
        r := Raised(NotAllowedToRequestURI);
      } else if IsClientError(response.status) {
        r := Raised(ClientError);
      } else if IsServerError(response.status) {
        r := Raised(ServerError);
      } else if IsRedirection(response.status) {
        r := Raised(ResponseContainsRedirection);
      } else if IsNotFound(response.status) {
        r := Raised(NotFound);
      } else if !IsSuccessful(response.status) {
        r := Raised(UnexpectedResponseStatus);
      } else {
        r := Returned(response);
      }
    }

    /** What a cached send under `key` did to the cache, from the entries
        `entries` it started with: on a live send that returned, a retaining
        cache holds the response's snapshot under `key` and nothing else
        changes; otherwise the cache is unchanged. */
    ghost predicate StoredEffect(entries: map<string, string>, key: string,
                                 request: Request, transport: Request -> Response)
      reads this, cache
    {
      var reply := CachedReply(entries, key, transport(Prepared(request, token)));
      if !Replayed(entries, key) && reply.Returned? && cache.retains
      then Replayed(cache.entries, key) && DecodeSnapshot(cache.entries[key]) == reply
           && cache.entries - {key} == entries - {key}
      else cache.entries == entries
    }

    /** What a cached send under `key` did to the request log and the cache,
        from the log `before` and the entries `entries` it started with. */
    ghost predicate CachedEffect(before: seq<Request>, entries: map<string, string>, key: string,
                                 request: Request, transport: Request -> Response)
      reads this, cache
    {
      && sent == before + (if Replayed(entries, key) then [] else [Prepared(request, token)])
      && StoredEffect(entries, key, request, transport)
    }

    /** `send(cacheKey, request)`: replay a decodable snapshot without
        touching the transport; otherwise send live and, when the send
        returns, store the response's snapshot under the same key. */
    method SendCached(key: string, request: Request, transport: Request -> Response) returns (r: Outcome<Response>)
      requires Valid()
      modifies this`sent, cache
      ensures Valid()
      ensures r == CachedReply(old(cache.entries), key, transport(Prepared(request, token)))
      ensures CachedEffect(old(sent), old(cache.entries), key, request, transport)
    {
      if cache.Has(key) {
        var replay := GenerateResponseFromCachableString(cache.Fetch(key));
        if replay.Returned? {
          assert Replayed(cache.entries, key);
          return replay;
        }
      }
      assert !Replayed(cache.entries, key);
      ghost var entries := cache.entries;
      r := Send(request, transport);
      assert r == CachedReply(entries, key, transport(Prepared(request, token)));
      if r.Returned? {
        var snapshot;
        ghost var order;
        snapshot, order := GenerateCachableString(r.value);
        cache.Store(key, snapshot);
        if cache.retains {
          assert cache.entries[key] == snapshot;
          UpdateKeepsOtherKeys(entries, key, snapshot);
        }
      }
    }

    /** The `try` block of an operation over a live send. */
    method TryLive(request: Request, expected: int, transport: Request -> Response) returns (reply: Outcome<Response>)
      modifies this`sent
      ensures sent == old(sent) + [Prepared(request, token)]
      ensures reply == Checked(Classify(transport(Prepared(request, token))), expected)
    {
      reply := Send(request, transport);
      if reply.Raised? {
        return;
      }
      var check := AssertStatusCode(reply.value, expected);
      if check.Raised? {
        reply := Raised(check.error);
      }
    }

    /** The `try` block of an operation over a cached send. */
    method TryCached(key: string, request: Request, expected: int, transport: Request -> Response)
      returns (reply: Outcome<Response>)
      requires Valid()
      modifies this`sent, cache
      ensures Valid()
      ensures reply == Checked(CachedReply(old(cache.entries), key, transport(Prepared(request, token))), expected)
      ensures CachedEffect(old(sent), old(cache.entries), key, request, transport)
    {
      reply := SendCached(key, request, transport);
      if reply.Raised? {
        return;
      }
      var check := AssertStatusCode(reply.value, expected);
      if check.Raised? {
        reply := Raised(check.error);
      }
    }

    /** Login: refused while logged in; otherwise the token becomes the
        reply's `data.Id` when the send and the status check pass, and the
        result says whether that token is non-empty. */
    method Login(email: string, password: string, transport: Request -> Response) returns (r: Outcome<bool>)
      modifies this`token, this`sent
      ensures old(token) != "" ==> r == Raised(LogoutRequired) && token == old(token) && sent == old(sent)
      ensures old(token) == "" ==>
        var prepared := Prepared(LoginRequest(endpoint, email, password), "");
        && sent == old(sent) + [prepared]
        && token == (if Succeeds(transport(prepared), STATUS_CODE_SUCCESS) then SessionToken(transport(prepared)) else "")
        && r == Returned(token != "")
    {
      var guard := AssertNotLoggedIn();
      if guard.Raised? {
        return Raised(guard.error);
      }
      var reply := TryLive(LoginRequest(endpoint, email, password), STATUS_CODE_SUCCESS, transport);
      if reply.Raised? {
        return Returned(false);
      }
      var data := ExtractDataAsObject(reply.value);
      token := AsString(Field(data, "Id"));
      if token == "" {
        return Returned(false);
      }
      r := Returned(true);
    }

    /** Logout: refused while logged out; the token is cleared only when the
        send and the status check both pass. */
    method Logout(transport: Request -> Response) returns (r: Outcome<bool>)
      modifies this`token, this`sent
      ensures old(token) == "" ==> r == Raised(LoginRequired) && token == "" && sent == old(sent)
      ensures old(token) != "" ==>
        var prepared := Prepared(LogoutRequest(endpoint), old(token));
        var ok := Succeeds(transport(prepared), STATUS_CODE_SUCCESS);
        sent == old(sent) + [prepared] && r == Returned(ok) && token == (if ok then "" else old(token))
    {
      var guard := AssertLoggedIn();
      if guard.Raised? {
        return Raised(guard.error);
      }
      var reply := TryLive(LogoutRequest(endpoint), STATUS_CODE_SUCCESS, transport);
      if reply.Raised? {
        return Returned(false);
      }
      token := "";
      r := Returned(true);
    }

    // -- Operations that change something on the server -------------------

    /** What an operation of the mutation template did: refused with
        LoginRequired and sent nothing, or sent `request` once and reported
        whether the send and the status check passed. */
    ghost predicate Mutation(before: seq<Request>, request: Request, expected: int,
                             transport: Request -> Response, r: Outcome<bool>)
      reads this
    {
      if token == "" then r == Raised(LoginRequired) && sent == before
      else
        var prepared := Prepared(request, token);
        sent == before + [prepared] && r == Returned(Succeeds(transport(prepared), expected))
    }

    method Mutate(request: Request, expected: int, transport: Request -> Response) returns (r: Outcome<bool>)
      modifies this`sent
      ensures Mutation(old(sent), request, expected, transport, r)
    {
      var guard := AssertLoggedIn();
      if guard.Raised? {
        return Raised(guard.error);
      }
      var reply := TryLive(request, expected, transport);
      r := Returned(reply.Returned?);
    }

    method CreateCompany(companyName: string, transport: Request -> Response) returns (r: Outcome<bool>)
      modifies this`sent
      ensures Mutation(old(sent), CreateCompanyRequest(endpoint, companyName), STATUS_CODE_CREATED, transport, r)
    {
      r := Mutate(CreateCompanyRequest(endpoint, companyName), STATUS_CODE_CREATED, transport);
    }

    method DeleteCompany(companyName: string, transport: Request -> Response) returns (r: Outcome<bool>)
      modifies this`sent
      ensures Mutation(old(sent), DeleteCompanyRequest(endpoint, companyName), STATUS_CODE_DELETED, transport, r)
    {
      r := Mutate(DeleteCompanyRequest(endpoint, companyName), STATUS_CODE_DELETED, transport);
    }

    method AddUserToCompany(companyName: string, username: string, transport: Request -> Response)
      returns (r: Outcome<bool>)
      modifies this`sent
      ensures Mutation(old(sent), MembershipRequest(endpoint, companyName, username, "add"),
                       STATUS_CODE_UPDATED, transport, r)
    {
      r := Mutate(MembershipRequest(endpoint, companyName, username, "add"), STATUS_CODE_UPDATED, transport);
    }

    method RemoveUserFromCompany(companyName: string, username: string, transport: Request -> Response)
      returns (r: Outcome<bool>)
      modifies this`sent
      ensures Mutation(old(sent), MembershipRequest(endpoint, companyName, username, "remove"),
                       STATUS_CODE_UPDATED, transport, r)
    {
      r := Mutate(MembershipRequest(endpoint, companyName, username, "remove"), STATUS_CODE_UPDATED, transport);
    }

    method StartApplication(companyName: string, environmentName: string, applicationName: string,
                            transport: Request -> Response) returns (r: Outcome<bool>)
      modifies this`sent
      ensures Mutation(old(sent), LifecycleRequest(endpoint, companyName, environmentName, applicationName, "start"),
                       STATUS_CODE_STARTED, transport, r)
    {
      r := Mutate(LifecycleRequest(endpoint, companyName, environmentName, applicationName, "start"),
                  STATUS_CODE_STARTED, transport);
    }

    method StopApplication(companyName: string, environmentName: string, applicationName: string,
                           transport: Request -> Response) returns (r: Outcome<bool>)
      modifies this`sent
      ensures Mutation(old(sent), LifecycleRequest(endpoint, companyName, environmentName, applicationName, "stop"),
                       STATUS_CODE_STOPPED, transport, r)
    {
      r := Mutate(LifecycleRequest(endpoint, companyName, environmentName, applicationName, "stop"),
                  STATUS_CODE_STOPPED, transport);
    }

    method ScaleApplicationUpBy(companyName: string, environmentName: string, applicationName: string,
                                serviceName: string, componentName: string, count: int,
                                transport: Request -> Response) returns (r: Outcome<bool>)
      modifies this`sent
      ensures Mutation(old(sent), ScaleUpRequest(endpoint, companyName, environmentName, applicationName,
                                                 serviceName, componentName, count),
                       STATUS_CODE_UPDATED, transport, r)
    {
      r := Mutate(ScaleUpRequest(endpoint, companyName, environmentName, applicationName, serviceName, componentName, count),
                  STATUS_CODE_UPDATED, transport);
    }

    /** Scale up by one instance. */
    method ScaleApplicationUp(companyName: string, environmentName: string, applicationName: string,
                              serviceName: string, componentName: string,
                              transport: Request -> Response) returns (r: Outcome<bool>)
      modifies this`sent
      ensures Mutation(old(sent), ScaleUpRequest(endpoint, companyName, environmentName, applicationName,
                                                 serviceName, componentName, 1),
                       STATUS_CODE_UPDATED, transport, r)
    {
      r := ScaleApplicationUpBy(companyName, environmentName, applicationName, serviceName, componentName, 1, transport);
    }

    /** The five-argument scale-down: it scales up by one instance. */
    method ScaleApplicationDown(companyName: string, environmentName: string, applicationName: string,
                                serviceName: string, componentName: string,
                                transport: Request -> Response) returns (r: Outcome<bool>)
      modifies this`sent
      ensures Mutation(old(sent), ScaleUpRequest(endpoint, companyName, environmentName, applicationName,
                                                 serviceName, componentName, 1),
                       STATUS_CODE_UPDATED, transport, r)
    {
      r := ScaleApplicationUpBy(companyName, environmentName, applicationName, serviceName, componentName, 1, transport);
    }

    /** The six-argument scale-down: the scale-up request, checked against
        the "deleted" envelope code. */
    method ScaleApplicationDownBy(companyName: string, environmentName: string, applicationName: string,
                                  serviceName: string, componentName: string, count: int,
                                  transport: Request -> Response) returns (r: Outcome<bool>)
      modifies this`sent
      ensures Mutation(old(sent), ScaleUpRequest(endpoint, companyName, environmentName, applicationName,
                                                 serviceName, componentName, count),
                       STATUS_CODE_DELETED, transport, r)
    {
      r := Mutate(ScaleUpRequest(endpoint, companyName, environmentName, applicationName, serviceName, componentName, count),
                  STATUS_CODE_DELETED, transport);
    }

    // -- Operations that read -----------------------------------------------

    /** The member names of the user's companies (cached under "companies");
        the empty list when the send or the status check fails. */
    method GetCompanies(transport: Request -> Response) returns (r: Outcome<seq<string>>)
      requires Valid()
      modifies this`sent, cache
      ensures Valid()
      ensures old(token) == "" ==> r == Raised(LoginRequired) && sent == old(sent) && cache.entries == old(cache.entries)
      ensures old(token) != "" ==>
        var reply := Checked(CachedReply(old(cache.entries), "companies",
                                         transport(Prepared(CompaniesRequest(endpoint), token))), STATUS_CODE_SUCCESS);
        && CachedEffect(old(sent), old(cache.entries), "companies", CompaniesRequest(endpoint), transport)
        && r.Returned?
        && (reply.Raised? ==> r.value == [])
        && (reply.Returned? ==> Listed(r.value, ExtractDataAsArray(reply.value), AsString))
    {
      var guard := AssertLoggedIn();
      if guard.Raised? {
        return Raised(guard.error);
      }
      var reply := TryCached("companies", CompaniesRequest(endpoint), STATUS_CODE_SUCCESS, transport);
      if reply.Raised? {
        return Returned([]);
      }
      var data := ExtractDataAsArray(reply.value);
      var companies := CollectAll(data, AsString);
      r := Returned(companies);
    }

    /** Whether the company list is non-empty; the login guard of the list
        call escapes. */
    method HasCompanies(transport: Request -> Response) returns (r: Outcome<bool>)
      requires Valid()
      modifies this`sent, cache
      ensures Valid()
      ensures old(token) == "" ==> r == Raised(LoginRequired) && sent == old(sent) && cache.entries == old(cache.entries)
      ensures old(token) != "" ==>
        var reply := Checked(CachedReply(old(cache.entries), "companies",
                                         transport(Prepared(CompaniesRequest(endpoint), token))), STATUS_CODE_SUCCESS);
        && CachedEffect(old(sent), old(cache.entries), "companies", CompaniesRequest(endpoint), transport)
        && r == Returned(reply.Returned? && |ExtractDataAsArray(reply.value)| > 0)
    {
      var companies := GetCompanies(transport);
      if companies.Raised? {
        return Raised(companies.error);
      }
      r := Returned(|companies.value| > 0);
    }

    /** The `members` of a company (cached under "company_users"). */
    method GetCompanyUsers(companyName: string, transport: Request -> Response) returns (r: Outcome<seq<string>>)
      requires Valid()
      modifies this`sent, cache
      ensures Valid()
      ensures old(token) == "" ==> r == Raised(LoginRequired) && sent == old(sent) && cache.entries == old(cache.entries)
      ensures old(token) != "" ==>
        var reply := Checked(CachedReply(old(cache.entries), "company_users",
                                         transport(Prepared(CompanyUsersRequest(endpoint, companyName), token))),
                             STATUS_CODE_SUCCESS);
        && CachedEffect(old(sent), old(cache.entries), "company_users", CompanyUsersRequest(endpoint, companyName), transport)
        && r.Returned?
        && (reply.Raised? ==> r.value == [])
        && (reply.Returned? ==>
              Listed(r.value, AsArray(Field(ExtractDataAsObject(reply.value), "members")), AsString))
    {
      var guard := AssertLoggedIn();
      if guard.Raised? {
        return Raised(guard.error);
      }
      var reply := TryCached("company_users", CompanyUsersRequest(endpoint, companyName), STATUS_CODE_SUCCESS, transport);
      if reply.Raised? {
        return Returned([]);
      }
      var data := ExtractDataAsObject(reply.value);
      var members := AsArray(Field(data, "members"));
      var users := CollectAll(members, AsString);
      r := Returned(users);
    }

    /** The applications of an environment, from a live send. */
    method GetApplications(companyName: string, environmentName: string, transport: Request -> Response)
      returns (r: Outcome<seq<Application>>)
      modifies this`sent
      ensures old(token) == "" ==> r == Raised(LoginRequired) && sent == old(sent)
      ensures old(token) != "" ==>
        var prepared := Prepared(ApplicationsRequest(endpoint, companyName, environmentName), token);
        && sent == old(sent) + [prepared]
        && r.Returned?
        && (!Succeeds(transport(prepared), STATUS_CODE_SUCCESS) ==> r.value == [])
        && (Succeeds(transport(prepared), STATUS_CODE_SUCCESS) ==>
              Listed(r.value, ExtractDataAsArray(transport(prepared)), ApplicationOf))
    {
      var guard := AssertLoggedIn();
      if guard.Raised? {
        return Raised(guard.error);
      }
      var reply := TryLive(ApplicationsRequest(endpoint, companyName, environmentName), STATUS_CODE_SUCCESS, transport);
      CheckedLiveSend(transport(Prepared(ApplicationsRequest(endpoint, companyName, environmentName), token)),
                      STATUS_CODE_SUCCESS);
      if reply.Raised? {
        return Returned([]);
      }
      var data := ExtractDataAsArray(reply.value);
      var applications := CollectAll(data, ApplicationOf);
      r := Returned(applications);
    }

    /** The component name of an instance's statistics (cached under the
        empty key); "" when the call fails. */
    method GetInstanceStatistics(companyName: string, instanceId: string, transport: Request -> Response)
      returns (r: Outcome<string>)
      requires Valid()
      modifies this`sent, cache
      ensures Valid()
      ensures old(token) == "" ==> r == Raised(LoginRequired) && sent == old(sent) && cache.entries == old(cache.entries)
      ensures old(token) != "" ==>
        var reply := Checked(CachedReply(old(cache.entries), "",
                                         transport(Prepared(InstanceStatisticsRequest(endpoint, companyName, instanceId), token))),
                             STATUS_CODE_SUCCESS);
        && CachedEffect(old(sent), old(cache.entries), "", InstanceStatisticsRequest(endpoint, companyName, instanceId), transport)
        && r == Returned(if reply.Raised? then ""
                         else AsString(Field(ExtractDataAsObject(reply.value), "ComponentName")))
    {
      var guard := AssertLoggedIn();
      if guard.Raised? {
        return Raised(guard.error);
      }
      var reply := TryCached("", InstanceStatisticsRequest(endpoint, companyName, instanceId), STATUS_CODE_SUCCESS, transport);
      if reply.Raised? {
        return Returned("");
      }
      var data := ExtractDataAsObject(reply.value);
      r := Returned(AsString(Field(data, "ComponentName")));
    }

    /** The current user (cached under "user"); name and email "" when the
        call fails. */
    method GetUser(transport: Request -> Response) returns (r: Outcome<User>)
      requires Valid()
      modifies this`sent, cache
      ensures Valid()
      ensures old(token) == "" ==> r == Raised(LoginRequired) && sent == old(sent) && cache.entries == old(cache.entries)
      ensures old(token) != "" ==>
        && CachedEffect(old(sent), old(cache.entries), "user", UserRequest(endpoint), transport)
        && r == Returned(UserOf(Checked(CachedReply(old(cache.entries), "user",
                                                    transport(Prepared(UserRequest(endpoint), token))),
                                        STATUS_CODE_SUCCESS)))
    {
      var guard := AssertLoggedIn();
      if guard.Raised? {
        return Raised(guard.error);
      }
      var reply := TryCached("user", UserRequest(endpoint), STATUS_CODE_SUCCESS, transport);
      if reply.Raised? {
        return Returned(User("", ""));
      }
      var data := ExtractDataAsObject(reply.value);
      r := Returned(User(AsString(Field(data, "username")), AsString(Field(data, "email"))));
    }

    /** Read the current user, then send the email change with the user's
        current email as the old one. */
    method UpdateEmail(email: string, transport: Request -> Response) returns (r: Outcome<bool>)
      requires Valid()
      modifies this`sent, cache
      ensures Valid()
      ensures old(token) == "" ==> r == Raised(LoginRequired) && sent == old(sent) && cache.entries == old(cache.entries)
      ensures old(token) != "" ==>
        var user := UserOf(Checked(CachedReply(old(cache.entries), "user",
                                               transport(Prepared(UserRequest(endpoint), token))), STATUS_CODE_SUCCESS));
        var prepared := Prepared(UpdateEmailRequest(endpoint, user.email, email), token);
        && StoredEffect(old(cache.entries), "user", UserRequest(endpoint), transport)
        && |sent| > 0 && sent[|sent| - 1] == prepared
        && sent[..|sent| - 1] == old(sent) + (if Replayed(old(cache.entries), "user") then []
                                              else [Prepared(UserRequest(endpoint), token)])
        && r == Returned(Succeeds(transport(prepared), STATUS_CODE_UPDATED))
    {
      var guard := AssertLoggedIn();
      if guard.Raised? {
        return Raised(guard.error);
      }
      var user := GetUser(transport);
      ghost var afterUser := sent;
      var reply := TryLive(UpdateEmailRequest(endpoint, user.value.email, email), STATUS_CODE_UPDATED, transport);
      assert sent[..|sent| - 1] == afterUser;
      r := Returned(reply.Returned?);
    }

    /** Read the current user (the result is unused), then send the password
        change. */
    method UpdatePassword(oldPassword: string, newPassword: string, transport: Request -> Response)
      returns (r: Outcome<bool>)
      requires Valid()
      modifies this`sent, cache
      ensures Valid()
      ensures old(token) == "" ==> r == Raised(LoginRequired) && sent == old(sent) && cache.entries == old(cache.entries)
      ensures old(token) != "" ==>
        var prepared := Prepared(UpdatePasswordRequest(endpoint, oldPassword, newPassword), token);
        && StoredEffect(old(cache.entries), "user", UserRequest(endpoint), transport)
        && |sent| > 0 && sent[|sent| - 1] == prepared
        && sent[..|sent| - 1] == old(sent) + (if Replayed(old(cache.entries), "user") then []
                                              else [Prepared(UserRequest(endpoint), token)])
        && r == Returned(Succeeds(transport(prepared), STATUS_CODE_UPDATED))
    {
      var guard := AssertLoggedIn();
      if guard.Raised? {
        return Raised(guard.error);
      }
      var user := GetUser(transport);
      ghost var afterUser := sent;
      var reply := TryLive(UpdatePasswordRequest(endpoint, oldPassword, newPassword), STATUS_CODE_UPDATED, transport);
      assert sent[..|sent| - 1] == afterUser;
      r := Returned(reply.Returned?);
    }

    /** No login guard and no status check: true exactly when the transport
        status is 2xx and the body is the JSON string "OK" and a newline. */
    method Ping(transport: Request -> Response) returns (ok: bool)
      modifies this`sent
      ensures sent == old(sent) + [Prepared(PingRequest(endpoint), token)]
      ensures var response := transport(Prepared(PingRequest(endpoint), token));
              ok <==> IsSuccessful(response.status) && response.body == "\"OK\"\n"
    {
      var reply := Send(PingRequest(endpoint), transport);
      ClassifySucceedsIffSuccessful(transport(Prepared(PingRequest(endpoint), token)));
      if reply.Raised? {
        return false;
      }
      ok := reply.value.body == "\"OK\"\n";
    }

    // -- Environments ---------------------------------------------------------

    /** A stored environment makes the store non-empty. */
    predicate HasEnvironment(companyName: string, environmentName: string)
      reads this
      ensures HasEnvironment(companyName, environmentName) ==> HasEnvironments()
    {
      (companyName, environmentName) in environments
    }

    /** The store's row count is at least one exactly when some pair is
        stored. */
    predicate HasEnvironments()
      reads this
      ensures HasEnvironments() <==> exists p :: p in environments
    {
      |environments| >= 1
    }

    /** Add the pair unless it is already stored; `insertFails` stands for
        the store's insert reporting an error.  The result is true exactly
        when the pair is stored afterwards. */
    method CreateEnvironment(companyName: string, environmentName: string, insertFails: bool) returns (ok: bool)
      modifies this`environments
      ensures old(HasEnvironment(companyName, environmentName)) ==> ok && environments == old(environments)
      ensures !old(HasEnvironment(companyName, environmentName)) ==>
        ok == !insertFails
        && environments == if insertFails then old(environments) else old(environments) + {(companyName, environmentName)}
      ensures ok <==> HasEnvironment(companyName, environmentName)
    {
      if !HasEnvironment(companyName, environmentName) {
        if insertFails {
          return false;
        }
        environments := environments + {(companyName, environmentName)};
        return true;
      }
      ok := true;
    }

    /** Remove the pair; `deleteFails` stands for the store reporting an
        error. */
    method DeleteEnvironment(companyName: string, environmentName: string, deleteFails: bool) returns (ok: bool)
      modifies this`environments
      ensures ok == !deleteFails
      ensures environments == if deleteFails then old(environments) else old(environments) - {(companyName, environmentName)}
    {
      if deleteFails {
        return false;
      }
      environments := environments - {(companyName, environmentName)};
      ok := true;
    }
  }
}
