/**
 * The remote client of the event-management service. It is initialised
 * with a host and a port, issues GET/DELETE/POST/PUT requests relative to
 * the base URL `http://<host>:<port>/`, and turns every outcome of the
 * transport into either a value or one `HttpError(status, code, url)`.
 * The transport itself is not modelled: the outcome of each request is an
 * input. Typed endpoints are path templates over the four verbs; the two
 * read endpoints also reshape the response.
 */
module FgcProviders {
  import opened JsonValues
  import opened Text
  import MatchParticipants

  const TIMEOUT_MS: int := 5000
  const CONTENT_TYPE_HEADERS: map<string, string> := map["Content-Type" := "application/json"]

  const NO_DATA: string := "ERR_NO_DATA"
  const CONNECTION_REFUSED: string := "ERR_CONNECTION_REFUSED"
  const PROVIDER_UNDEFINED: string := "ERR_PROVIDER_UNDEFINED"
  const PROVIDER_UNDEFINED_MESSAGE: string := "The provider's host address has not been initialized."
  /** The message of the TypeError raised by reading `length` of `null` (V8's wording). */
  const NULL_LENGTH_MESSAGE: string := "Cannot read properties of null (reading 'length')"

  /** The request configuration the transport is created with. */
  datatype RequestConfig = RequestConfig(baseUrl: string, timeout: int, headers: map<string, string>)

  /** The base URL for a host and a port. */
  function BaseUrl(host: string, port: int): (url: string)
    ensures |url| > 9 && url[..7] == "http://" && url[|url| - 1] == '/'
    ensures url[7..|url| - 1] == Join([host, IntToDecimal(port)], ':')
  {
    "http://" + host + ":" + IntToDecimal(port) + "/"
  }

  /**
   * The host and the port are determined by the base URL built from them:
   * the printed port has no `:`, so the last `:` separates the two, whatever
   * the host contains.
   */
  lemma BaseUrlInjective(host1: string, port1: int, host2: string, port2: int)
    requires BaseUrl(host1, port1) == BaseUrl(host2, port2)
    ensures host1 == host2 && port1 == port2
  {
    var p1, p2 := IntToDecimal(port1), IntToDecimal(port2);
    assert ':' !in p1 by {
      assert forall i :: 0 <= i < |p1| ==> p1[i] == '-' || IsDigit(p1[i]);
    }
    assert ':' !in p2 by {
      assert forall i :: 0 <= i < |p2| ==> p2[i] == '-' || IsDigit(p2[i]);
    }
    var url := BaseUrl(host1, port1);
    assert url[7..|url| - 1] == host1 + ":" + p1;
    assert url[7..|url| - 1] == host2 + ":" + p2;
    SplitAtLastSeparator(host1, p1, host2, p2, ':');
    IntToDecimalInjective(port1, port2);
  }

  /** The response of a request that succeeded. */
  datatype Response = Response(data: Json)

  /** The three ways a request can fail, in the order the client tests them. */
  datatype Failure =
    | WithResponse(body: Json)    // the server answered with an error status and this body
    | RequestOnly                 // the request was sent but nothing came back
    | Other(message: string)      // the request could not be made

  /** What the transport does with one request. */
  datatype TransportOutcome = Ok(response: Response) | Failed(failure: Failure)

  /** The client's one error shape; `status` and `code` are whatever the call site passes. */
  datatype HttpError = HttpError(status: Json, code: Json, url: string)

  datatype Rejection =
    | Http(error: HttpError)
    | TypeError                   // a TypeError thrown into the promise by an uninitialised transport

  /** How a call's promise ends; `Unsettled` when the client's own error handler throws. */
  datatype Settled<+T> = Resolved(value: T) | Rejected(reason: Rejection) | Unsettled

  /** The keys of an error body that hold the error's first two arguments. */
  datatype ErrorKeys = ErrorKeys(status: string, code: string)

  /** `get` reads `message` then `code`; `delete`, `post` and `put` read `_code` then `_message`. */
  const GET_ERROR_KEYS: ErrorKeys := ErrorKeys("message", "code")
  const WRITE_ERROR_KEYS: ErrorKeys := ErrorKeys("_code", "_message")

  /** The failure classification shared by the four verbs. */
  function Classify<T>(keys: ErrorKeys, requestUrl: string, failure: Failure): (r: Settled<T>)
    ensures !r.Resolved?
    ensures r.Unsettled? <==> failure.WithResponse? && !HasProperties(failure.body)
    ensures r.Rejected? ==> r.reason.Http? && r.reason.error.url == requestUrl
    ensures failure.WithResponse? && r.Rejected? ==>
              r.reason.error.status == Field(failure.body, keys.status) &&
              r.reason.error.code == Field(failure.body, keys.code)
    ensures failure.RequestOnly? ==> r.Rejected? && r.reason.error.status == JNum(404) &&
                                     r.reason.error.code == JStr(CONNECTION_REFUSED)
    ensures failure.Other? ==> r.Rejected? && r.reason.error.status == JNum(404) &&
                               r.reason.error.code == JStr(failure.message)
  {
    match failure
    case WithResponse(body) =>
      if HasProperties(body) then
        Rejected(Http(HttpError(Field(body, keys.status), Field(body, keys.code), requestUrl)))
      else
        Unsettled  // reading a property of a null or undefined body throws inside the handler
    case RequestOnly =>
      Rejected(Http(HttpError(JNum(404), JStr(CONNECTION_REFUSED), requestUrl)))
    case Other(message) =>
      Rejected(Http(HttpError(JNum(404), JStr(message), requestUrl)))
  }

  /**
   * The success check of `get`: the data is defined and its `length` is a
   * positive number. Strings and arrays have their own length; an object
   * has whatever its `length` property holds; other values have none.
   */
  predicate HasData(data: Json)
    ensures HasData(data) ==> HasProperties(data)
    ensures data.JStr? ==> (HasData(data) <==> data.s != "")
    ensures data.JArr? ==> (HasData(data) <==> data.items != [])
    ensures data.JObj? ==> (HasData(data) <==> Field(data, "length").JNum? && Field(data, "length").n > 0)
  {
    match data
    case JStr(s) => |s| > 0
    case JArr(items) => |items| > 0
    case JObj(f) => "length" in f && f["length"].JNum? && f["length"].n > 0
    case _ => false
  }

  /** A write body: one record, or an array of records. */
  datatype Body<T> = One(record: T) | Many(records: seq<T>)

  function Items<T>(body: Body<T>): seq<T> {
    match body
    case One(r) => [r]
    case Many(rs) => rs
  }

  /** `payload` is `{records: [...]}` holding the serialised `records`, in order. */
  predicate IsEnvelope<T>(payload: Json, records: seq<T>, toJSON: T -> Json) {
    && payload.JObj?
    && payload.fields.Keys == {"records"}
    && payload.fields["records"].JArr?
    && |payload.fields["records"].items| == |records|
    && forall i :: 0 <= i < |records| ==> payload.fields["records"].items[i] == toJSON(records[i])
  }

  /** Builds the write envelope, pushing one serialised record at a time. */
  method BuildEnvelope<T>(body: Body<T>, toJSON: T -> Json) returns (envelope: Json)
    ensures IsEnvelope(envelope, Items(body), toJSON)
    ensures body.One? ==> |envelope.fields["records"].items| == 1
  {
    var records: seq<Json> := [];
    match body {
      case Many(rs) =>
        for i := 0 to |rs|
          invariant |records| == i
          invariant forall k :: 0 <= k < i ==> records[k] == toJSON(rs[k])
        {
          records := records + [toJSON(rs[i])];
        }
      case One(r) =>
        records := records + [toJSON(r)];
    }
    envelope := JObj(map["records" := JArr(records)]);
  }

  datatype Verb = GET | DELETE | POST | PUT

  /** A request handed to the transport: the verb, the path relative to the base URL, the payload. */
  datatype Request = Request(verb: Verb, url: string, payload: Json)

  class FgcProvider {
    var host: Option<string>
    var config: Option<RequestConfig>
    /** The transport instance, known by the configuration it was created with. */
    var transport: Option<RequestConfig>

    /** A provider that was never initialised. */
    constructor ()
      ensures host.None? && config.None? && transport.None?
    {
      host, config, transport := None, None, None;
    }

    /** Sets the base URL and creates the transport with a 5 second timeout and a JSON content type. */
    method Initialize(hostName: string, port: int)
      modifies this
      ensures host == Some(BaseUrl(hostName, port))
      ensures config == Some(RequestConfig(BaseUrl(hostName, port), TIMEOUT_MS, CONTENT_TYPE_HEADERS))
      ensures transport == config
    {
      host := Some(BaseUrl(hostName, port));
      config := Some(RequestConfig(host.value, TIMEOUT_MS, CONTENT_TYPE_HEADERS));
      transport := config;
    }

    /**
     * `get`: resolves with the response data when it is non-empty, rejects
     * with `ERR_NO_DATA` when it is empty or has no length, and otherwise
     * classifies the failure with the public error keys.
     */
    function Get(url: string, outcome: TransportOutcome): (r: Settled<Json>)
      reads this
      ensures transport.None? ==> r == Rejected(TypeError)
      ensures r.Resolved? <==> transport.Some? && outcome.Ok? && HasData(outcome.response.data)
      ensures r.Resolved? ==> r.value == outcome.response.data
      ensures transport.Some? && outcome.Ok? && !HasData(outcome.response.data) && !outcome.response.data.JNull? ==>
                r == Rejected(Http(HttpError(JNum(500), JStr(NO_DATA), Str(host) + url)))
      ensures transport.Some? && outcome.Failed? ==> r == Classify(GET_ERROR_KEYS, Str(host) + url, outcome.failure)
    {
      if transport.None? then Rejected(TypeError)
      else
        var requestUrl := Str(host) + url;
        match outcome
        case Ok(response) =>
          if response.data.JNull? then
            // the length check throws, and the catch handler receives that TypeError
            Classify(GET_ERROR_KEYS, requestUrl, Other(NULL_LENGTH_MESSAGE))
          else if HasData(response.data) then Resolved(response.data)
          else Rejected(Http(HttpError(JNum(500), JStr(NO_DATA), requestUrl)))
        case Failed(failure) =>
          Classify(GET_ERROR_KEYS, requestUrl, failure)
    }

    /** The transport call shared by `delete`, `post` and `put`: the raw response, or the classified failure. */
    function Send(url: string, outcome: TransportOutcome): (r: Settled<Response>)
      reads this
      ensures transport.None? ==> r == Rejected(TypeError)
      ensures r.Resolved? <==> transport.Some? && outcome.Ok?
      ensures r.Resolved? ==> r.value == outcome.response
      ensures transport.Some? && outcome.Failed? ==> r == Classify(WRITE_ERROR_KEYS, Str(host) + url, outcome.failure)
    {
      if transport.None? then Rejected(TypeError)
      else
        match outcome
        case Ok(response) => Resolved(response)
        case Failed(failure) => Classify(WRITE_ERROR_KEYS, Str(host) + url, failure)
    }

    /** `delete`: fails with `ERR_PROVIDER_UNDEFINED` before any request when the provider is not initialised. */
    function Delete(url: string, outcome: TransportOutcome): (r: Settled<Response>)
      reads this
      ensures transport.None? || host.None? ==>
                r == Rejected(Http(HttpError(JNum(500), JStr(PROVIDER_UNDEFINED), PROVIDER_UNDEFINED_MESSAGE)))
      ensures transport.Some? && host.Some? ==> r == Send(url, outcome)
    {
      if transport.None? || host.None? then
        Rejected(Http(HttpError(JNum(500), JStr(PROVIDER_UNDEFINED), PROVIDER_UNDEFINED_MESSAGE)))
      else
        Send(url, outcome)
    }

    /** `post`: builds the envelope, hands it to the transport if there is one, and settles as `Send`. */
    method Post<T>(url: string, body: Body<T>, toJSON: T -> Json, outcome: TransportOutcome)
      returns (sent: Option<Request>, r: Settled<Response>)
      ensures sent.Some? <==> transport.Some?
      ensures sent.Some? ==> sent.value.verb == POST && sent.value.url == url &&
                             IsEnvelope(sent.value.payload, Items(body), toJSON)
      ensures r == Send(url, outcome)
    {
      var envelope := BuildEnvelope(body, toJSON);
      sent := if transport.Some? then Some(Request(POST, url, envelope)) else None;
      r := Send(url, outcome);
    }

    /** `put`: as `post`, with the PUT verb. */
    method Put<T>(url: string, body: Body<T>, toJSON: T -> Json, outcome: TransportOutcome)
      returns (sent: Option<Request>, r: Settled<Response>)
      ensures sent.Some? <==> transport.Some?
      ensures sent.Some? ==> sent.value.verb == PUT && sent.value.url == url &&
                             IsEnvelope(sent.value.payload, Items(body), toJSON)
      ensures r == Send(url, outcome)
    {
      var envelope := BuildEnvelope(body, toJSON);
      sent := if transport.Some? then Some(Request(PUT, url, envelope)) else None;
      r := Send(url, outcome);
    }

    /**
     * `getEvent`: every element of the returned array is deserialised and
     * the first one is the result, or the empty event when there is none.
     */
    function GetEvent<E>(eventKey: string, outcome: TransportOutcome, fromJSON: Json -> E, empty: E): (r: Settled<E>)
      reads this
      ensures var g := Get("api/event/" + eventKey, outcome);
              && (g.Resolved? && g.value.JArr? && |g.value.items| > 0 ==> r == Resolved(fromJSON(g.value.items[0])))
              && (g.Resolved? && g.value.JArr? && |g.value.items| == 0 ==> r == Resolved(empty))
              && (g.Resolved? && !g.value.JArr? ==> r == Rejected(TypeError))
              && (g.Rejected? ==> r == Rejected(g.reason))
              && (g.Unsettled? ==> r.Unsettled?)
    {
      match Get("api/event/" + eventKey, outcome)
      case Resolved(data) =>
        if data.JArr? then
          var events := seq(|data.items|, i requires 0 <= i < |data.items| => fromJSON(data.items[i]));
          Resolved(if |events| > 0 then events[0] else empty)
        else
          Rejected(TypeError)  // the data has no `map`
      case Rejected(reason) => Rejected(reason)
      case Unsettled => Unsettled
    }

    /** `getTeams`: every element of the returned array is deserialised, in order. */
    function GetTeams<E>(eventKey: string, outcome: TransportOutcome, fromJSON: Json -> E): (r: Settled<seq<E>>)
      reads this
      ensures var g := Get("api/event/" + eventKey + "/participants", outcome);
              && (g.Resolved? && g.value.JArr? ==>
                    r.Resolved? && |r.value| == |g.value.items| &&
                    forall i :: 0 <= i < |g.value.items| ==> r.value[i] == fromJSON(g.value.items[i]))
              && (g.Resolved? && !g.value.JArr? ==> r == Rejected(TypeError))
              && (g.Rejected? ==> r == Rejected(g.reason))
              && (g.Unsettled? ==> r.Unsettled?)
    {
      match Get("api/event/" + eventKey + "/participants", outcome)
      case Resolved(data) =>
        if data.JArr? then
          Resolved(seq(|data.items|, i requires 0 <= i < |data.items| => fromJSON(data.items[i])))
        else
          Rejected(TypeError)
      case Rejected(reason) => Rejected(reason)
      case Unsettled => Unsettled
    }
  }

  /** A dropped connection is rejected the same way by every verb: 404, `ERR_CONNECTION_REFUSED`, the full URL. */
  lemma ConnectionRefusedUniform(p: FgcProvider, url: string)
    requires p.transport.Some? && p.host.Some?
    ensures var e := Http(HttpError(JNum(404), JStr(CONNECTION_REFUSED), p.host.value + url));
            p.Get(url, Failed(RequestOnly)) == Rejected(e) &&
            p.Delete(url, Failed(RequestOnly)) == Rejected(e) &&
            p.Send(url, Failed(RequestOnly)) == Rejected(e)
  {
  }

  /**
   * The same error body yields different errors: `get` passes `message`
   * and `code`, the other verbs `_code` and `_message`.
   */
  lemma ErrorKeysDifferByVerb(p: FgcProvider, url: string, body: Json)
    requires p.transport.Some? && p.host.Some? && HasProperties(body)
    ensures p.Get(url, Failed(WithResponse(body))) ==
              Rejected(Http(HttpError(Field(body, "message"), Field(body, "code"), p.host.value + url)))
    ensures p.Delete(url, Failed(WithResponse(body))) ==
              Rejected(Http(HttpError(Field(body, "_code"), Field(body, "_message"), p.host.value + url)))
  {
  }

  /**
   * An empty array never reaches the default-event branch of `getEvent`:
   * `get` already rejects it with `ERR_NO_DATA`.
   */
  lemma GetEventEmptyArrayRejected<E>(p: FgcProvider, eventKey: string, fromJSON: Json -> E, empty: E)
    requires p.transport.Some? && p.host.Some?
    ensures p.GetEvent(eventKey, Ok(Response(JArr([]))), fromJSON, empty) ==
              Rejected(Http(HttpError(JNum(500), JStr(NO_DATA), p.host.value + ("api/event/" + eventKey))))
  {
    assert !HasData(JArr([]));
  }

  /**
   * An object with a positive numeric `length` passes the check of `get`,
   * and `getEvent` then fails on its missing `map`.
   */
  lemma GetEventObjectWithLength<E>(p: FgcProvider, eventKey: string, fromJSON: Json -> E, empty: E)
    requires p.transport.Some?
    ensures var data := JObj(map["length" := JNum(2)]);
            p.Get("api/event/" + eventKey, Ok(Response(data))) == Resolved(data) &&
            p.GetEvent(eventKey, Ok(Response(data)), fromJSON, empty) == Rejected(TypeError)
  {
  }

  /** A non-empty array of events resolves to the first one, deserialised. */
  lemma GetEventFirst<E>(p: FgcProvider, eventKey: string, items: seq<Json>, fromJSON: Json -> E, empty: E)
    requires p.transport.Some? && |items| > 0
    ensures p.GetEvent(eventKey, Ok(Response(JArr(items))), fromJSON, empty) == Resolved(fromJSON(items[0]))
  {
  }

  // Typed endpoints: the verb, the path and the body each one hands to the verb layer.

  /** A call of the verb layer by a typed endpoint. */
  datatype Call<T> = Call(verb: Verb, path: string, body: Option<Body<T>>)

  /** A match or match-details record, whose class is not part of this model: its key and its `toJSON()`. */
  datatype MatchRecord = MatchRecord(matchKey: string, json: Json)

  lemma Join3(a: string, b: string, c: string)
    ensures Join([a, b, c], '/') == a + "/" + b + "/" + c
  {
    assert [a, b, c][1..] == [b, c];
    assert [b, c][1..] == [c];
    assert Join([c], '/') == c;
    assert Join([b, c], '/') == b + "/" + c;
  }

  lemma Join4(a: string, b: string, c: string, d: string)
    ensures Join([a, b, c, d], '/') == a + "/" + b + "/" + c + "/" + d
  {
    assert [a, b, c, d][1..] == [b, c, d];
    Join3(b, c, d);
  }

  lemma Join5(a: string, b: string, c: string, d: string, e: string)
    ensures Join([a, b, c, d, e], '/') == a + "/" + b + "/" + c + "/" + d + "/" + e
  {
    assert [a, b, c, d, e][1..] == [b, c, d, e];
    Join4(b, c, d, e);
  }

  /** The segments of a path built by joining `parts` with `/`. */
  lemma Segments(parts: seq<string>)
    requires |parts| >= 1
    ensures (forall i :: 0 <= i < |parts| ==> '/' !in parts[i]) ==> Split(Join(parts, '/'), '/') == parts
  {
    if forall i :: 0 <= i < |parts| ==> '/' !in parts[i] {
      SplitJoin(parts, '/');
    }
  }

  function DeleteTeams(eventKey: string): (c: Call<()>)
    ensures c.verb == DELETE && c.body.None?
    ensures '/' !in eventKey ==> Split(c.path, '/') == ["api", "event", eventKey, "participants"]
  {
    Join4("api", "event", eventKey, "participants");
    assert "api/event/" + eventKey + "/participants" == "api" + "/" + "event" + "/" + eventKey + "/" + "participants";
    Segments(["api", "event", eventKey, "participants"]);
    Call(DELETE, "api/event/" + eventKey + "/participants", None)
  }

  /** The tournament level travels as the query parameter `level`, printed in decimal. */
  function DeleteMatchData(eventKey: string, tournamentLevel: int): (c: Call<()>)
    ensures c.verb == DELETE && c.body.None?
    ensures '/' !in eventKey ==>
              Split(c.path, '/') == ["api", "match", eventKey, "all?level=" + IntToDecimal(tournamentLevel)]
  {
    var last := "all?level=" + IntToDecimal(tournamentLevel);
    assert '/' !in last by {
      var d := IntToDecimal(tournamentLevel);
      assert forall i :: 0 <= i < |d| ==> d[i] == '-' || IsDigit(d[i]);
    }
    Join4("api", "match", eventKey, last);
    assert "api/match/" + eventKey + "/" + last == "api" + "/" + "match" + "/" + eventKey + "/" + last;
    Segments(["api", "match", eventKey, last]);
    Call(DELETE, "api/match/" + eventKey + "/" + last, None)
  }

  /** The level can be read back from the path of `deleteMatchData`. */
  lemma DeleteMatchDataLevel(eventKey: string, tournamentLevel: int)
    requires '=' !in eventKey
    ensures var parts := Split(DeleteMatchData(eventKey, tournamentLevel).path, '=');
            |parts| == 2 && parts[1] == IntToDecimal(tournamentLevel) &&
            (ParseIntToDecimal(tournamentLevel); ParseSigned(parts[1]) == tournamentLevel)
  {
    var d := IntToDecimal(tournamentLevel);
    var prefix := "api/match/" + eventKey + "/all?level";
    assert '=' !in prefix;
    assert '=' !in d by {
      assert forall i :: 0 <= i < |d| ==> d[i] == '-' || IsDigit(d[i]);
    }
    assert [prefix, d][1..] == [d];
    assert Join([prefix, d], '=') == DeleteMatchData(eventKey, tournamentLevel).path;
    SplitJoin([prefix, d], '=');
    ParseIntToDecimal(tournamentLevel);
  }

  function DeleteRankings(eventKey: string): (c: Call<()>)
    ensures c.verb == DELETE && c.body.None?
    ensures '/' !in eventKey ==> Split(c.path, '/') == ["api", "rank", eventKey]
  {
    Join3("api", "rank", eventKey);
    assert "api/rank/" + eventKey == "api" + "/" + "rank" + "/" + eventKey;
    Segments(["api", "rank", eventKey]);
    Call(DELETE, "api/rank/" + eventKey, None)
  }

  function PostEventParticipants<T>(eventKey: string, participants: seq<T>): (c: Call<T>)
    ensures c.verb == POST && c.body == Some(Many(participants))
    ensures '/' !in eventKey ==> Split(c.path, '/') == ["api", "event", eventKey, "participants"]
  {
    Join4("api", "event", eventKey, "participants");
    assert "api/event/" + eventKey + "/participants" == "api" + "/" + "event" + "/" + eventKey + "/" + "participants";
    Segments(["api", "event", eventKey, "participants"]);
    Call(POST, "api/event/" + eventKey + "/participants", Some(Many(participants)))
  }

  function PostMatches(eventKey: string, matches: seq<MatchRecord>): (c: Call<MatchRecord>)
    ensures c.verb == POST && c.body == Some(Many(matches))
    ensures '/' !in eventKey ==> Split(c.path, '/') == ["api", "event", eventKey, "matches"]
  {
    Join4("api", "event", eventKey, "matches");
    assert "api/event/" + eventKey + "/matches" == "api" + "/" + "event" + "/" + eventKey + "/" + "matches";
    Segments(["api", "event", eventKey, "matches"]);
    Call(POST, "api/event/" + eventKey + "/matches", Some(Many(matches)))
  }

  function PostMatchDetails(eventKey: string, matches: seq<MatchRecord>): (c: Call<MatchRecord>)
    ensures c.verb == POST && c.body == Some(Many(matches))
    ensures '/' !in eventKey ==> Split(c.path, '/') == ["api", "event", eventKey, "matches", "details"]
  {
    Join5("api", "event", eventKey, "matches", "details");
    assert "api/event/" + eventKey + "/matches/details" ==
           "api" + "/" + "event" + "/" + eventKey + "/" + "matches" + "/" + "details";
    Segments(["api", "event", eventKey, "matches", "details"]);
    Call(POST, "api/event/" + eventKey + "/matches/details", Some(Many(matches)))
  }

  function PostMatchParticipants(eventKey: string, participants: seq<MatchParticipants.Participant>)
    : (c: Call<MatchParticipants.Participant>)
    ensures c.verb == POST && c.body == Some(Many(participants))
    ensures '/' !in eventKey ==> Split(c.path, '/') == ["api", "event", eventKey, "matches", "participants"]
  {
    Join5("api", "event", eventKey, "matches", "participants");
    assert "api/event/" + eventKey + "/matches/participants" ==
           "api" + "/" + "event" + "/" + eventKey + "/" + "matches" + "/" + "participants";
    Segments(["api", "event", eventKey, "matches", "participants"]);
    Call(POST, "api/event/" + eventKey + "/matches/participants", Some(Many(participants)))
  }

  function PostRankings<T>(eventKey: string, rankings: seq<T>): (c: Call<T>)
    ensures c.verb == POST && c.body == Some(Many(rankings))
    ensures '/' !in eventKey ==> Split(c.path, '/') == ["api", "rank", eventKey]
  {
    Join3("api", "rank", eventKey);
    assert "api/rank/" + eventKey == "api" + "/" + "rank" + "/" + eventKey;
    Segments(["api", "rank", eventKey]);
    Call(POST, "api/rank/" + eventKey, Some(Many(rankings)))
  }

  /** The match is addressed by its own key; the event key is not used. */
  function PutMatchResults(eventKey: string, matchResult: MatchRecord): (c: Call<MatchRecord>)
    ensures c.verb == PUT && c.body == Some(One(matchResult))
    ensures '/' !in matchResult.matchKey ==> Split(c.path, '/') == ["api", "match", matchResult.matchKey]
  {
    Join3("api", "match", matchResult.matchKey);
    assert "api/match/" + matchResult.matchKey == "api" + "/" + "match" + "/" + matchResult.matchKey;
    Segments(["api", "match", matchResult.matchKey]);
    Call(PUT, "api/match/" + matchResult.matchKey, Some(One(matchResult)))
  }

  function PutMatchDetails(eventKey: string, matchDetails: MatchRecord): (c: Call<MatchRecord>)
    ensures c.verb == PUT && c.body == Some(One(matchDetails))
    ensures '/' !in matchDetails.matchKey ==> Split(c.path, '/') == ["api", "match", matchDetails.matchKey, "details"]
  {
    Join4("api", "match", matchDetails.matchKey, "details");
    assert "api/match/" + matchDetails.matchKey + "/details" ==
           "api" + "/" + "match" + "/" + matchDetails.matchKey + "/" + "details";
    Segments(["api", "match", matchDetails.matchKey, "details"]);
    Call(PUT, "api/match/" + matchDetails.matchKey + "/details", Some(One(matchDetails)))
  }

  /**
   * The match key comes from the first participant (`"undefined"` when that
   * key is unset); an empty list throws a TypeError before any call, `None` here.
   */
  function PutMatchParticipants(eventKey: string, participants: seq<MatchParticipants.Participant>)
    : (c: Option<Call<MatchParticipants.Participant>>)
    ensures c.Some? <==> |participants| > 0
    ensures c.Some? ==> c.value.verb == PUT && c.value.body == Some(Many(participants))
    ensures c.Some? && '/' !in Str(participants[0].matchKey) ==>
              Split(c.value.path, '/') == ["api", "match", Str(participants[0].matchKey), "participants"]
  {
    if |participants| == 0 then None
    else
      var key := Str(participants[0].matchKey);
      Join4("api", "match", key, "participants");
      assert "api/match/" + key + "/participants" == "api" + "/" + "match" + "/" + key + "/" + "participants";
      Segments(["api", "match", key, "participants"]);
      Some(Call(PUT, "api/match/" + key + "/participants", Some(Many(participants))))
  }

  /** The `put` endpoints ignore their event key. */
  lemma PutEndpointsIgnoreEventKey(eventKey1: string, eventKey2: string, matchResult: MatchRecord,
                                   participants: seq<MatchParticipants.Participant>)
    ensures PutMatchResults(eventKey1, matchResult) == PutMatchResults(eventKey2, matchResult)
    ensures PutMatchDetails(eventKey1, matchResult) == PutMatchDetails(eventKey2, matchResult)
    ensures PutMatchParticipants(eventKey1, participants) == PutMatchParticipants(eventKey2, participants)
  {
  }
}
