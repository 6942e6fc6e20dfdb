/** The envelope codec of the client: the cache snapshot of a response (to
    and from a string), the `data` payload and the `status_code` check of an
    API envelope `{"status_code": <int>, "data": <object|array>}`. */
module Envelope {
  import opened Options
  import opened Errors
  import opened Json
  import opened Http

  // Expected envelope status codes, one per kind of operation.
  const STATUS_CODE_SUCCESS: int := 10000
  const STATUS_CODE_CREATED: int := 10003
  const STATUS_CODE_STARTED: int := 10004
  const STATUS_CODE_STOPPED: int := 10005
  const STATUS_CODE_UPDATED: int := 10006
  const STATUS_CODE_DELETED: int := 10007

  // ---------------------------------------------------------------------
  // Snapshot format: {"status": <int>, "headers": [{"name", "value"}...], "body": <string>}
  // ---------------------------------------------------------------------

  function HeaderEntry(name: string, value: string): Json
  {
    JObject([Member("name", JString(name)), Member("value", JString(value))])
  }

  function SnapshotOf(status: int, headers: seq<Json>, body: string): Json
  {
    JObject([Member("status", JNumber(status)), Member("headers", JArray(headers)), Member("body", JString(body))])
  }

  /** The header list that `generateCachableStringFromResponse` builds for a
      response with `n` headers: each iteration appends a copy of the list
      so far to itself, and the header object it built is dropped. */
  function SelfAppended(n: nat): (items: seq<Json>)
    ensures |items| == n
  {
    if n == 0 then [] else SelfAppended(n - 1) + [JArray(SelfAppended(n - 1))]
  }

  /** One header object per key of `order`, in that order. */
  function HeaderEntries(order: seq<string>, headers: map<string, string>): (items: seq<Json>)
    requires forall k :: k in order ==> k in headers
    ensures |items| == |order|
  {
    seq(|order|, i requires 0 <= i < |order| => HeaderEntry(order[i], headers[order[i]]))
  }

  /** `generateCachableStringFromResponse` as written: the loop appends the
      `headers` array to itself instead of the `header` object. */
  method GenerateCachableStringAsWritten(response: Response) returns (s: string)
    ensures s == Render(SnapshotOf(response.status, SelfAppended(|response.headers|), response.body))
  {
    var headers: seq<Json> := [];
    var keys := response.headers.Keys;
    var count := 0;
    while keys != {}
      invariant keys <= response.headers.Keys
      invariant count + |keys| == |response.headers|
      invariant headers == SelfAppended(count)
      decreases keys
    {
      var key :| key in keys;
      var header := HeaderEntry(key, response.headers[key]);
      headers := headers + [JArray(headers)];
      keys := keys - {key};
      count := count + 1;
    }
    s := Render(SnapshotOf(response.status, headers, response.body));
  }

  /** The snapshot encoder with the header object appended, as intended:
      every header becomes one `{"name", "value"}` entry, and decoding the
      snapshot gives back the response. */
  method GenerateCachableString(response: Response) returns (s: string, ghost order: seq<string>)
    ensures forall k :: k in order <==> k in response.headers
    ensures forall i, j :: 0 <= i < j < |order| ==> order[i] != order[j]
    ensures s == Render(SnapshotOf(response.status, HeaderEntries(order, response.headers), response.body))
    ensures DecodeSnapshot(s) == Returned(response)
  {
    var headers: seq<Json> := [];
    var keys := response.headers.Keys;
    order := [];
    while keys != {}
      invariant keys <= response.headers.Keys
      invariant forall k :: k in response.headers ==> (k in order <==> k !in keys)
      invariant forall k :: k in order ==> k in response.headers
      invariant forall i, j :: 0 <= i < j < |order| ==> order[i] != order[j]
      invariant headers == HeaderEntries(order, response.headers)
      decreases keys
    {
      var key :| key in keys;
      var header := HeaderEntry(key, response.headers[key]);
      headers := headers + [header];
      order := order + [key];
      keys := keys - {key};
    }
    s := Render(SnapshotOf(response.status, headers, response.body));
    SnapshotRoundTrip(response, order);
  }

  /** The `name` of a header entry as the decoder reads it. */
  function EntryName(item: Json): string
  {
    AsString(Field(AsObject(item), "name"))
  }

  /** The `value` of a header entry as the decoder reads it. */
  function EntryValue(item: Json): string
  {
    AsString(Field(AsObject(item), "value"))
  }

  /** The header map read back from a snapshot's header list: later entries
      overwrite earlier ones with the same name. */
  function HeaderMap(items: seq<Json>): map<string, string>
  {
    if items == [] then map[]
    else
      var header := AsObject(items[|items| - 1]);
      HeaderMap(items[..|items| - 1])[AsString(Field(header, "name")) := AsString(Field(header, "value"))]
  }

  /** One step of the header loop: the last entry is written over what the
      earlier entries built. */
  lemma HeaderMapStep(items: seq<Json>)
    requires items != []
    ensures HeaderMap(items)
         == HeaderMap(items[..|items| - 1])[EntryName(items[|items| - 1]) := EntryValue(items[|items| - 1])]
  {
  }

  /** The names of the entries of a header list. */
  ghost function EntryNames(items: seq<Json>): set<string>
  {
    set i | 0 <= i < |items| :: EntryName(items[i])
  }

  lemma EntryNamesSnoc(items: seq<Json>)
    requires items != []
    ensures EntryNames(items) == EntryNames(items[..|items| - 1]) + {EntryName(items[|items| - 1])}
  {
    var init := items[..|items| - 1];
    forall k | k in EntryNames(items)
      ensures k in EntryNames(init) + {EntryName(items[|items| - 1])}
    {
      var i :| 0 <= i < |items| && EntryName(items[i]) == k;
      if i < |init| {
        assert init[i] == items[i];
        assert k in EntryNames(init);
      } else {
        assert i == |items| - 1;
      }
    }
    forall k | k in EntryNames(init)
      ensures k in EntryNames(items)
    {
      var i :| 0 <= i < |init| && EntryName(init[i]) == k;
      assert init[i] == items[i];
    }
  }

  /** The header names read back are the names of the entries. */
  lemma {:induction false} HeaderMapKeys(items: seq<Json>)
    ensures HeaderMap(items).Keys == EntryNames(items)
  {
    if items != [] {
      HeaderMapKeys(items[..|items| - 1]);
      HeaderMapStep(items);
      EntryNamesSnoc(items);
    }
  }

  /** Each header name read back carries the value of the last entry of
      that name. */
  lemma {:induction false} HeaderMapLastWins(items: seq<Json>, i: nat)
    requires i < |items|
    requires forall j :: i < j < |items| ==> EntryName(items[j]) != EntryName(items[i])
    ensures EntryName(items[i]) in HeaderMap(items)
    ensures HeaderMap(items)[EntryName(items[i])] == EntryValue(items[i])
  {
    HeaderMapStep(items);
    if i < |items| - 1 {
      var init := items[..|items| - 1];
      assert init[i] == items[i];
      forall j | i < j < |init|
        ensures EntryName(init[j]) != EntryName(init[i])
      {
        assert init[j] == items[j];
      }
      HeaderMapLastWins(init, i);
    }
  }

  /** The response a parsed snapshot object describes; missing or ill-typed
      fields read as 0, an empty header list and "". */
  function ResponseOfSnapshot(snapshot: seq<Member>): Response
  {
    Response(AsInt(Field(snapshot, "status")), HeaderMap(AsArray(Field(snapshot, "headers"))), AsString(Field(snapshot, "body")))
  }

  /** What `generateResponseFromCachableString` produces from a cached string. */
  function DecodeSnapshot(s: string): (r: Outcome<Response>)
    ensures r.Raised? <==> ParseDocument(s).None?
    ensures r.Raised? ==> r.error == InvalidJsonFromCache
  {
    match ParseDocument(s)
    case None => Raised(InvalidJsonFromCache)
    case Some(doc) => Returned(ResponseOfSnapshot(AsObject(doc)))
  }

  /** `generateResponseFromCachableString`: parse, then read the header list
      entry by entry into a map. */
  method GenerateResponseFromCachableString(s: string) returns (r: Outcome<Response>)
    ensures r == DecodeSnapshot(s)
  {
    var doc := ParseDocument(s);
    if doc.None? {
      return Raised(InvalidJsonFromCache);
    }
    var snapshot := AsObject(doc.value);
    var headers := AsArray(Field(snapshot, "headers"));
    var responseHeaders: map<string, string> := map[];
    var i := 0;
    while i < |headers|
      invariant 0 <= i <= |headers|
      invariant responseHeaders == HeaderMap(headers[..i])
    {
      var header := AsObject(headers[i]);
      var name := AsString(Field(header, "name"));
      var value := AsString(Field(header, "value"));
      assert headers[..i + 1][..i] == headers[..i] && headers[..i + 1][i] == headers[i];
      HeaderMapStep(headers[..i + 1]);
      responseHeaders := responseHeaders[name := value];
      i := i + 1;
    }
    assert headers[..|headers|] == headers;
    r := Returned(Response(AsInt(Field(snapshot, "status")), responseHeaders, AsString(Field(snapshot, "body"))));
  }

  // ---------------------------------------------------------------------
  // Snapshot lemmas
  // ---------------------------------------------------------------------

  /** Decoding a rendered snapshot reads back its status, its header list
      (through HeaderMap) and its body. */
  lemma DecodeRenderedSnapshot(status: int, headers: seq<Json>, body: string)
    ensures DecodeSnapshot(Render(SnapshotOf(status, headers, body)))
         == Returned(Response(status, HeaderMap(headers), body))
  {
    var j := SnapshotOf(status, headers, body);
    DocumentRoundTrip(j);
    assert ParseDocument(Render(j)) == Some(j);
    var members := AsObject(j);
    assert members[1..] == [Member("headers", JArray(headers)), Member("body", JString(body))];
    assert members[1..][1..] == [Member("body", JString(body))];
    assert Field(members, "status") == JNumber(status);
    assert Field(members, "headers") == JArray(headers);
    assert Field(members[1..][1..], "body") == JString(body);
    assert Field(members[1..], "body") == JString(body);
    assert Field(members, "body") == JString(body);
  }

  /** Every entry of the self-appended list is an array, so each one reads
      as a header with empty name and empty value. */
  lemma {:induction false} HeaderMapOfSelfAppended(n: nat)
    ensures HeaderMap(SelfAppended(n)) == if n == 0 then map[] else map["" := ""]
  {
    if n > 0 {
      var items := SelfAppended(n);
      assert items[..n - 1] == SelfAppended(n - 1);
      HeaderMapOfSelfAppended(n - 1);
    }
  }

  /** The snapshot as written keeps status and body but not the headers: a
      response with headers comes back with the single header "" -> "". */
  lemma AsWrittenSnapshotRoundTrip(response: Response)
    ensures DecodeSnapshot(Render(SnapshotOf(response.status, SelfAppended(|response.headers|), response.body)))
         == Returned(Response(response.status, if |response.headers| == 0 then map[] else map["" := ""], response.body))
  {
    DecodeRenderedSnapshot(response.status, SelfAppended(|response.headers|), response.body);
    HeaderMapOfSelfAppended(|response.headers|);
  }

  /** A concrete response whose header does not survive the snapshot as written. */
  lemma AsWrittenLosesContentType()
    ensures var response := Response(200, map["Content-Type" := "application/json"], "{}");
            var back := DecodeSnapshot(Render(SnapshotOf(response.status, SelfAppended(|response.headers|), response.body)));
            back.Returned? && back.value.headers != response.headers
  {
    var response := Response(200, map["Content-Type" := "application/json"], "{}");
    AsWrittenSnapshotRoundTrip(response);
    assert "" !in response.headers;
  }

  /** Reading back one entry per listed key gives those keys with their values. */
  lemma {:induction false} HeaderMapOfEntries(order: seq<string>, headers: map<string, string>)
    requires forall k :: k in order ==> k in headers
    ensures HeaderMap(HeaderEntries(order, headers)) == map k | k in order :: headers[k]
  {
    if order != [] {
      var n := |order|;
      var items := HeaderEntries(order, headers);
      assert items[..n - 1] == HeaderEntries(order[..n - 1], headers);
      HeaderMapOfEntries(order[..n - 1], headers);
      var last := order[n - 1];
      HeaderEntryReadsBack(last, headers[last]);
      KeyedByOrderStep(order, headers);
    }
  }

  /** The name and value of a header entry read back. */
  lemma HeaderEntryReadsBack(name: string, value: string)
    ensures AsString(Field(AsObject(HeaderEntry(name, value)), "name")) == name
    ensures AsString(Field(AsObject(HeaderEntry(name, value)), "value")) == value
  {
    assert AsObject(HeaderEntry(name, value))[1..] == [Member("value", JString(value))];
  }

  /** The map over the keys of `order` grows by its last key. */
  lemma KeyedByOrderStep(order: seq<string>, headers: map<string, string>)
    requires order != [] && forall k :: k in order ==> k in headers
    ensures (map k | k in order[..|order| - 1] :: headers[k])[order[|order| - 1] := headers[order[|order| - 1]]]
         == map k | k in order :: headers[k]
  {
    var last := order[|order| - 1];
    var before := map k | k in order[..|order| - 1] :: headers[k];
    var after := map k | k in order :: headers[k];
    assert order == order[..|order| - 1] + [last];
    assert before[last := headers[last]].Keys == after.Keys;
  }

  /** The intended snapshot round trip: status, every header and the body. */
  lemma SnapshotRoundTrip(response: Response, order: seq<string>)
    requires forall k :: k in order <==> k in response.headers
    ensures DecodeSnapshot(Render(SnapshotOf(response.status, HeaderEntries(order, response.headers), response.body)))
         == Returned(response)
  {
    var headers := HeaderEntries(order, response.headers);
    DecodeRenderedSnapshot(response.status, headers, response.body);
    HeaderMapOfEntries(order, response.headers);
    assert (map k | k in order :: response.headers[k]) == response.headers;
  }

  /** A cached string that is not a JSON document is rejected. */
  lemma NonJsonSnapshotRejected()
    ensures DecodeSnapshot("not json") == Raised(InvalidJsonFromCache)
    ensures DecodeSnapshot("\"text\"") == Raised(InvalidJsonFromCache)
  {
  }

  // ---------------------------------------------------------------------
  // Envelope payload and status check
  // ---------------------------------------------------------------------

  /** An API envelope as the server sends it. */
  function EnvelopeOf(statusCode: int, data: Json): Json
  {
    JObject([Member("status_code", JNumber(statusCode)), Member("data", data)])
  }

  /** An envelope parses back to itself and its two fields read back. */
  lemma ParseEnvelope(statusCode: int, data: Json)
    ensures ParseDocument(Render(EnvelopeOf(statusCode, data))) == Some(EnvelopeOf(statusCode, data))
    ensures Field(AsObject(EnvelopeOf(statusCode, data)), "status_code") == JNumber(statusCode)
    ensures Field(AsObject(EnvelopeOf(statusCode, data)), "data") == data
  {
    var j := EnvelopeOf(statusCode, data);
    DocumentRoundTrip(j);
    assert AsObject(j)[1..] == [Member("data", data)];
    assert Field(AsObject(j)[1..], "data") == data;
  }

  /** `extractDataAsObject`: the `data` object of the body; an unparsable
      body (or a `data` that is not an object) gives the empty object. */
  function ExtractDataAsObject(response: Response): (r: seq<Member>)
    ensures ParseDocument(response.body).None? ==> r == []
  {
    match ParseDocument(response.body)
    case None => []
    case Some(doc) => AsObject(Field(AsObject(doc), "data"))
  }

  /** `extractDataAsArray`: as ExtractDataAsObject, for an array payload. */
  function ExtractDataAsArray(response: Response): (r: seq<Json>)
    ensures ParseDocument(response.body).None? ==> r == []
  {
    match ParseDocument(response.body)
    case None => []
    case Some(doc) => AsArray(Field(AsObject(doc), "data"))
  }

  /** The payload of a well-formed envelope is extracted intact. */
  lemma ExtractDataOfEnvelope(response: Response, statusCode: int, data: Json)
    requires response.body == Render(EnvelopeOf(statusCode, data))
    ensures data.JObject? ==> ExtractDataAsObject(response) == data.members
    ensures data.JArray? ==> ExtractDataAsArray(response) == data.items
    ensures !data.JObject? ==> ExtractDataAsObject(response) == []
    ensures !data.JArray? ==> ExtractDataAsArray(response) == []
  {
    ParseEnvelope(statusCode, data);
  }

  /** `assertStatusCode`: the body must be a JSON document whose
      `status_code` (0 when absent) equals the expected code. */
  function AssertStatusCode(response: Response, expected: int): (r: Outcome<()>)
    ensures r == Raised(InvalidJsonFromAPI) <==> ParseDocument(response.body).None?
    ensures r.Raised? ==> r.error == InvalidJsonFromAPI || r.error == ResponseStatusMismatch
  {
    match ParseDocument(response.body)
    case None => Raised(InvalidJsonFromAPI)
    case Some(doc) =>
      if AsInt(Field(AsObject(doc), "status_code")) != expected then Raised(ResponseStatusMismatch)
      else Returned(())
  }

  /** An envelope passes the check exactly when it carries the expected code. */
  lemma EnvelopeStatusChecked(response: Response, statusCode: int, data: Json, expected: int)
    requires response.body == Render(EnvelopeOf(statusCode, data))
    ensures AssertStatusCode(response, expected)
         == if statusCode == expected then Returned(()) else Raised(ResponseStatusMismatch)
  {
    ParseEnvelope(statusCode, data);
  }

  /** A document without `status_code` never passes: the missing field reads
      as 0, and no expected code is 0. */
  lemma MissingStatusCodeMismatches(response: Response, doc: Json, expected: int)
    requires ParseDocument(response.body) == Some(doc)
    requires forall i :: 0 <= i < |AsObject(doc)| ==> AsObject(doc)[i].key != "status_code"
    requires expected in {STATUS_CODE_SUCCESS, STATUS_CODE_CREATED, STATUS_CODE_STARTED,
                          STATUS_CODE_STOPPED, STATUS_CODE_UPDATED, STATUS_CODE_DELETED}
    ensures AssertStatusCode(response, expected) == Raised(ResponseStatusMismatch)
  {
  }

  /** Both layers of the protocol: the transport status is 2xx and the body
      carries the operation's expected envelope code. */
  predicate Succeeds(response: Response, expected: int)
  {
    Classify(response).Returned? && AssertStatusCode(response, expected).Returned?
  }

  /** For an envelope body, a call succeeds exactly when the transport status
      is 2xx and the envelope code is the expected one. */
  lemma SucceedsOnEnvelope(response: Response, statusCode: int, data: Json, expected: int)
    requires response.body == Render(EnvelopeOf(statusCode, data))
    ensures Succeeds(response, expected) <==> IsSuccessful(response.status) && statusCode == expected
  {
    EnvelopeStatusChecked(response, statusCode, data, expected);
    assert AssertStatusCode(response, expected).Returned? <==> statusCode == expected;
    ClassifySucceedsIffSuccessful(response);
  }
}
