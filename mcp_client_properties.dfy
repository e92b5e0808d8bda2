/**
  What the functional MCP client guarantees across calls: the session state
  over any sequence of round-trips, the two reply encodings, and the
  handshake and tool calls on error, raw and well-formed replies.
 */
module McpClientProperties {
  import opened Wrappers
  import opened JsValues
  import opened Text
  import opened PlaywrightMcpClient

  // ---------------------------------------------------------------------
  // Session state

  /** A state never takes on an empty session id, and its id counter only grows. */
  lemma {:induction false} ValidAfter(state: ClientState, responses: seq<HttpResponse>)
    requires Valid(state)
    ensures Valid(After(state, responses))
    ensures After(state, responses).requestId > state.requestId || responses == []
  {
    LatestSessionNotEmpty(state.sessionId, responses);
  }

  lemma {:induction false} LatestSessionNotEmpty(initial: Option<string>, responses: seq<HttpResponse>)
    requires initial != Some("")
    ensures LatestSession(initial, responses) != Some("")
    decreases |responses|
  {
    if responses != [] {
      LatestSessionNotEmpty(initial, responses[..|responses| - 1]);
    }
  }

  /**
    The session id is sticky: after a response whose header is non-empty and
    that no later response overrides, it is the state's session id.
   */
  lemma {:induction false} SessionIdSticky(initial: Option<string>, responses: seq<HttpResponse>, i: nat)
    requires i < |responses| && HasSession(responses[i].sessionHeader)
    requires forall j :: i < j < |responses| ==> !HasSession(responses[j].sessionHeader)
    ensures LatestSession(initial, responses) == responses[i].sessionHeader
    decreases |responses|
  {
    if i < |responses| - 1 {
      var prefix := responses[..|responses| - 1];
      assert forall j :: i < j < |prefix| ==> prefix[j] == responses[j];
      SessionIdSticky(initial, prefix, i);
    }
  }

  /** Without any non-empty session header, the session id stays what it was. */
  lemma {:induction false} SessionIdKept(initial: Option<string>, responses: seq<HttpResponse>)
    requires forall j :: 0 <= j < |responses| ==> !HasSession(responses[j].sessionHeader)
    ensures LatestSession(initial, responses) == initial
    decreases |responses|
  {
    if responses != [] {
      var prefix := responses[..|responses| - 1];
      assert forall j :: 0 <= j < |prefix| ==> prefix[j] == responses[j];
      SessionIdKept(initial, prefix);
    }
  }

  /** One `makeRequest` per response, each on the state the previous one returned. */
  function RoundTrips(parse: Parser, state: ClientState, requests: seq<RpcRequest>, responses: seq<HttpResponse>)
    : (xs: seq<Exchange>)
    requires |requests| == |responses|
    ensures |xs| == |requests|
    decreases |requests|
  {
    if requests == [] then []
    else
      var x := MakeRequest(parse, state, requests[0], map[], responses[0]);
      [x] + RoundTrips(parse, x.state, requests[1..], responses[1..])
  }

  /**
    Over any sequence of round-trips, the i-th request carries the session id
    observed in responses 0..i-1 (the header present exactly when that id is
    non-empty), and the state after it has counted i + 1 ids.
   */
  lemma {:induction false} RoundTripAt(parse: Parser, state: ClientState, requests: seq<RpcRequest>,
                                       responses: seq<HttpResponse>, i: nat)
    requires |requests| == |responses| && i < |requests|
    ensures var x := RoundTrips(parse, state, requests, responses)[i];
            && x.sent.body == requests[i]
            && x.sent.headers == OutgoingHeaders(LatestSession(state.sessionId, responses[..i]), map[])
            && x.state == After(state, responses[..i + 1])
            && x.state.requestId == state.requestId + i + 1
    decreases i
  {
    var xs := RoundTrips(parse, state, requests, responses);
    var first := MakeRequest(parse, state, requests[0], map[], responses[0]);
    assert responses[..1] == [responses[0]];
    if i == 0 {
      assert responses[..0] == [];
    } else {
      var rest := responses[1..];
      RoundTripAt(parse, first.state, requests[1..], rest, i - 1);
      assert xs[i] == RoundTrips(parse, first.state, requests[1..], rest)[i - 1];
      assert [responses[0]] + rest[..i - 1] == responses[..i];
      assert [responses[0]] + rest[..i] == responses[..i + 1];
      LatestSessionCompose(state.sessionId, [responses[0]], rest[..i - 1]);
      AfterCompose(state, [responses[0]], rest[..i]);
    }
  }

  /** The base URL is carried and never used: it changes no request that is sent. */
  lemma BaseUrlUnused(parse: Parser, state: ClientState, otherUrl: string, data: RpcRequest,
                      headers: map<string, string>, response: HttpResponse)
    ensures var other := state.(baseUrl := otherUrl);
            && MakeRequest(parse, other, data, headers, response).sent == MakeRequest(parse, state, data, headers, response).sent
            && MakeRequest(parse, other, data, headers, response).state == After(state, [response]).(baseUrl := otherUrl)
            && MakeRequest(parse, state, data, headers, response).state.baseUrl == state.baseUrl
  {
  }

  // ---------------------------------------------------------------------
  // Reply decoding

  /**
    A body made of separator-free lines that contains "event: message" is
    decoded from its first "data: " line: the rest of that line is parsed,
    and a parse failure gives back the whole body.
   */
  lemma {:induction false} DecodeSseFrame(parse: Parser, lines: seq<string>, k: nat, payload: string)
    requires |lines| >= 1 && forall i :: 0 <= i < |lines| ==> '\n' !in lines[i]
    requires k < |lines| && lines[k] == DataPrefix + payload
    requires forall j :: 0 <= j < k ==> !StartsWith(lines[j], DataPrefix)
    requires Includes(Join(lines, '\n'), SseMarker)
    ensures var body := Join(lines, '\n');
            Decode(parse, body) == if parse(payload).Some? then Json(parse(payload).value) else Raw(body)
  {
    SplitJoin(lines, '\n');
    assert StartsWith(lines[k], DataPrefix);
    var found := FindLine(lines, DataPrefix);
    assert found.Some?;
    var k' :| 0 <= k' < |lines| && lines[k'] == found.value && StartsWith(lines[k'], DataPrefix) &&
              forall j :: 0 <= j < k' ==> !StartsWith(lines[j], DataPrefix);
    assert k' == k;
    assert found.value[|DataPrefix|..] == payload;
  }

  /** The single-frame event-stream encoding of a one-line JSON text. */
  function SseFrame(json: string): string {
    SseMarker + "\n" + DataPrefix + json + "\n\n"
  }

  /**
    The two encodings of one reply decode alike: a one-line JSON text that
    parses, sent plain or as a single event-stream frame.
   */
  lemma SseAndPlainAgree(parse: Parser, json: string)
    requires '\n' !in json && !Includes(json, SseMarker)
    requires parse(json).Some?
    ensures Decode(parse, json) == Json(parse(json).value)
    ensures Decode(parse, SseFrame(json)) == Json(parse(json).value)
  {
    var lines := [SseMarker, DataPrefix + json, "", ""];
    assert Join(lines, '\n') == SseFrame(json) by {
      assert Join(lines[3..], '\n') == "";
      assert Join(lines[2..], '\n') == "" + "\n" + "";
      assert Join(lines[1..], '\n') == DataPrefix + json + "\n" + Join(lines[2..], '\n');
    }
    assert OccursAt(SseFrame(json), SseMarker, 0);
    assert !StartsWith(lines[0], DataPrefix) by { assert lines[0][0] != DataPrefix[0]; }
    DecodeSseFrame(parse, lines, 1, json);
  }

  /** An event-stream body without a "data: " line decodes to its raw text. */
  lemma SseWithoutDataLine(parse: Parser, body: string)
    requires Includes(body, SseMarker)
    requires forall k :: 0 <= k < |Split(body, '\n')| ==> !StartsWith(Split(body, '\n')[k], DataPrefix)
    ensures Decode(parse, body) == Raw(body)
  {
  }

  /** A body that does not parse decodes to its raw text, in either encoding. */
  lemma UnparsableBodyIsRaw(parse: Parser, body: string)
    requires parse(body).None?
    requires !Includes(body, SseMarker)
    ensures Decode(parse, body) == Raw(body)
  {
  }

  /** A body without "event: message" is parsed whole, whatever its line structure. */
  lemma PlainBranch(parse: Parser, body: string)
    requires !Includes(body, SseMarker)
    ensures Decode(parse, body) == if parse(body).Some? then Json(parse(body).value) else Raw(body)
  {
  }

  /**
    The marker test is a substring search over the whole body: a one-line
    plain JSON reply that merely mentions "event: message" in a string goes
    down the event-stream branch, finds no "data: " line and is returned raw,
    so `callTool` succeeds with an undefined result, however `parse` would
    have read it.
   */
  lemma {:induction false} MarkerInPlainJson(parse: Parser, state: ClientState, session: Option<string>,
                                             toolName: string, arguments: JsonValue)
    ensures var body := "{\"t\":\"event: message\"}";
            && Decode(parse, body) == Raw(body)
            && CallTool(parse, state, toolName, arguments, HttpResponse(session, body)).outcome
               == Success(Reply(None, After(state, [HttpResponse(session, body)])))
  {
    var body := "{\"t\":\"event: message\"}";
    assert OccursAt(body, SseMarker, 6);
    SplitWithoutSeparator(body, '\n');
    assert !StartsWith(body, DataPrefix) by { assert body[0] != DataPrefix[0]; }
    assert Decode(parse, body) == Raw(body);
    RawReplies(parse, state, HttpResponse(session, body), HttpResponse(session, body), toolName, arguments);
  }

  // ---------------------------------------------------------------------
  // Operations

  /**
    A successful handshake uses two ids, the notification carries none, and
    the state has counted both round-trips.
   */
  lemma {:induction false} InitializeUsesTwoRoundTrips(parse: Parser, state: ClientState,
                                                       first: HttpResponse, second: HttpResponse)
    requires Valid(state)
    requires InitializeMCP(parse, state, first, second).outcome.Success?
    ensures var c := InitializeMCP(parse, state, first, second);
            && |c.sent| == 2
            && c.sent[0].body.id == Some(state.requestId) && c.sent[1].body.id == None
            && c.sent[1].body.methodName == "notifications/initialized"
            && c.outcome.value.state.requestId == state.requestId + 2
            && c.outcome.value.state.baseUrl == state.baseUrl
            && Valid(c.outcome.value.state)
  {
  }

  /** The reply to the notification is not looked at beyond its session header. */
  lemma NotificationReplyIgnored(parse: Parser, state: ClientState, first: HttpResponse,
                                 second: HttpResponse, otherBody: string)
    ensures InitializeMCP(parse, state, first, second)
         == InitializeMCP(parse, state, first, second.(body := otherBody))
  {
  }

  /**
    An error reply to `initialize`, e.g. code -32600 with message
    "bad request", throws "Initialization failed: bad request" and sends no
    notification.
   */
  lemma InitializeErrorStopsHandshake(parse: Parser, state: ClientState, first: HttpResponse, second: HttpResponse)
    requires Decode(parse, first.body) ==
             Json(JObject(map["error" := JObject(map["code" := JNumber(-32600), "message" := JString("bad request")])]))
    ensures InitializeMCP(parse, state, first, second) ==
            Call([HttpRequest(Endpoint, "POST", OutgoingHeaders(state.sessionId, map[]),
                              RpcRequest("2.0", Some(state.requestId), "initialize", InitializeParams))],
                 Failure(Thrown("Initialization failed: bad request")))
  {
    var data := Decode(parse, first.body);
    var err := JObject(map["code" := JNumber(-32600), "message" := JString("bad request")]);
    assert "error" in data.value.fields && data.value.fields["error"] == err;
    assert "message" in err.fields && err.fields["message"] == JString("bad request");
    assert "Initialization failed: " + "bad request" == "Initialization failed: bad request";
    assert ErrorCheck(data, "Initialization failed: ") == Some(Thrown("Initialization failed: bad request"));
  }

  /**
    An error whose message is an object with its own `toString` field cannot
    be interpolated: the conversion throws its TypeError before the client's
    own Error is built, and no notification is sent.
   */
  lemma UnprintableErrorMessage(parse: Parser, state: ClientState, first: HttpResponse, second: HttpResponse)
    requires Decode(parse, first.body) ==
             Json(JObject(map["error" := JObject(map["message" := JObject(map["toString" := JNumber(1)])])]))
    ensures InitializeMCP(parse, state, first, second) ==
            Call([HttpRequest(Endpoint, "POST", OutgoingHeaders(state.sessionId, map[]),
                              RpcRequest("2.0", Some(state.requestId), "initialize", InitializeParams))],
                 Failure(NotPrimitive))
  {
    var data := Decode(parse, first.body);
    var err := JObject(map["message" := JObject(map["toString" := JNumber(1)])]);
    assert "error" in data.value.fields && data.value.fields["error"] == err;
    assert "message" in err.fields && Unprintable(err.fields["message"]);
  }

  /**
    A reply that decodes to raw text has no `error`: `initializeMCP` and
    `callTool` succeed with an undefined result, while `getTools` throws
    reading `tools` of that undefined result.
   */
  lemma RawReplies(parse: Parser, state: ClientState, response: HttpResponse, second: HttpResponse,
                   toolName: string, arguments: JsonValue)
    requires Decode(parse, response.body).Raw?
    ensures InitializeMCP(parse, state, response, second).outcome == Success(Reply(None, After(state, [response, second])))
    ensures CallTool(parse, state, toolName, arguments, response).outcome == Success(Reply(None, After(state, [response])))
    ensures GetTools(parse, state, response).outcome == Failure(TypeError("tools", Undefined))
  {
  }

  /** A reply that parses to `null` throws reading its `error`, in every operation. */
  lemma NullReplies(parse: Parser, state: ClientState, response: HttpResponse, second: HttpResponse,
                    toolName: string, arguments: JsonValue)
    requires Decode(parse, response.body) == Json(JNull)
    ensures InitializeMCP(parse, state, response, second).outcome == Failure(TypeError("error", Null))
    ensures GetTools(parse, state, response).outcome == Failure(TypeError("error", Null))
    ensures CallTool(parse, state, toolName, arguments, response).outcome == Failure(TypeError("error", Null))
  {
  }

  /**
    A well-formed result reply to `tools/list` gives its `tools` unchanged,
    with the state one round-trip on.
   */
  lemma ToolsListed(parse: Parser, state: ClientState, response: HttpResponse, tools: JsonValue)
    requires Decode(parse, response.body) == Json(JObject(map["jsonrpc" := JString("2.0"),
                                                              "result" := JObject(map["tools" := tools])]))
    ensures GetTools(parse, state, response).outcome == Success(Reply(Some(tools), After(state, [response])))
  {
  }

  /**
    After a handshake, the next call uses the id after the notification's
    and sends the session id the handshake replies established.
   */
  lemma {:induction false} HandshakeThenCall(parse: Parser, state: ClientState, first: HttpResponse,
                                             second: HttpResponse, toolName: string, arguments: JsonValue,
                                             third: HttpResponse)
    requires Valid(state)
    requires InitializeMCP(parse, state, first, second).outcome.Success?
    ensures var ready := InitializeMCP(parse, state, first, second).outcome.value.state;
            var c := CallTool(parse, ready, toolName, arguments, third);
            && c.sent[0].body.id == Some(state.requestId + 2)
            && c.sent[0].headers == OutgoingHeaders(LatestSession(state.sessionId, [first, second]), map[])
            && (c.outcome.Success? ==> c.outcome.value.state == After(state, [first, second, third]))
  {
    AfterCompose(state, [first, second], [third]);
    assert [first, second] + [third] == [first, second, third];
  }
}
