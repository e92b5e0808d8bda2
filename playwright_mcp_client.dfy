/**
  The browser's functional MCP client: an immutable session state threaded
  through JSON-RPC 2.0 round-trips posted to the fixed endpoint `/api/mcp/`,
  replies decoded either as plain JSON or as a single server-sent-events frame.

  The network is a parameter: each round-trip is answered by an HttpResponse
  (its `mcp-session-id` header and its body text). `JSON.parse` is the
  parameter `parse`, None standing for a parse that throws.
 */
module PlaywrightMcpClient {
  import opened Wrappers
  import opened JsValues
  import opened Text

  const DefaultBaseUrl := "http://localhost:8000"
  const Endpoint := "/api/mcp/"
  const SessionHeader := "mcp-session-id"
  const ContentTypeHeader := "Content-Type"
  const AcceptHeader := "Accept"
  const JsonMediaType := "application/json"
  const AcceptedMediaTypes := "application/json, text/event-stream"
  const SseMarker := "event: message"
  const DataPrefix := "data: "
  const ProtocolVersion := "2024-11-05"

  /** `JSON.parse`: the value of a text, or None where it throws. */
  type Parser = string -> Option<JsonValue>

  /** The session state: carried base URL, server-assigned session id, next request id. */
  datatype ClientState = ClientState(baseUrl: string, sessionId: Option<string>, requestId: int)

  /** A JSON-RPC request (with an id) or notification (without). */
  datatype RpcRequest = RpcRequest(jsonrpc: string, id: Option<int>, methodName: string, params: JsonValue)

  /** What `fetch` is asked to send: URL, HTTP method, headers, and the envelope as body. */
  datatype HttpRequest = HttpRequest(url: string, httpMethod: string, headers: map<string, string>, body: RpcRequest)

  /** What one round-trip brings back: the `mcp-session-id` header (None when absent) and the body text. */
  datatype HttpResponse = HttpResponse(sessionHeader: Option<string>, body: string)

  /** A decoded reply: a parsed JSON value, or the raw body text. */
  datatype Decoded = Json(value: JsonValue) | Raw(text: string)

  /** One round-trip: the request sent, the decoded reply, the state after it. */
  datatype Exchange = Exchange(sent: HttpRequest, data: Decoded, state: ClientState)

  /** A value returned together with the state to thread into the next call. */
  datatype Reply<T> = Reply(value: T, state: ClientState)

  /** A client operation: every request it sent, and what it returned or threw. */
  datatype Call<T> = Call(sent: seq<HttpRequest>, outcome: Result<Reply<T>, Exception>)

  /** The JavaScript truthiness of a `string | null` session id. */
  predicate HasSession(id: Option<string>) {
    id.Some? && id.value != ""
  }

  /** The states the client can be in: no empty session id, ids counted from 1. */
  predicate Valid(state: ClientState) {
    state.sessionId != Some("") && state.requestId >= 1
  }

  /** `createMCPClient(baseUrl?)`: None stands for an omitted argument. */
  function CreateMCPClient(baseUrl: Option<string>): (state: ClientState)
    ensures Valid(state)
    ensures state.sessionId == None && state.requestId == 1
    ensures state.baseUrl == (if baseUrl.Some? then baseUrl.value else DefaultBaseUrl)
  {
    ClientState(if baseUrl.Some? then baseUrl.value else DefaultBaseUrl, None, 1)
  }

  /**
    The session id after a sequence of responses: that of the last response
    carrying a non-empty `mcp-session-id` header, or `initial` if none did.
   */
  function LatestSession(initial: Option<string>, responses: seq<HttpResponse>): (r: Option<string>)
    ensures r == initial || exists i | 0 <= i < |responses| :: HasSession(responses[i].sessionHeader) && r == responses[i].sessionHeader
    decreases |responses|
  {
    if responses == [] then initial
    else
      var last := responses[|responses| - 1];
      if HasSession(last.sessionHeader) then last.sessionHeader
      else LatestSession(initial, responses[..|responses| - 1])
  }

  /** The state after a sequence of round-trips: one id per round-trip, sticky session id. */
  function After(state: ClientState, responses: seq<HttpResponse>): ClientState {
    ClientState(state.baseUrl, LatestSession(state.sessionId, responses), state.requestId + |responses|)
  }

  /**
    The headers `makeRequest` sends: the Content-Type and Accept defaults,
    overridden by the caller's headers, with `mcp-session-id` set to the
    state's session id whenever that is non-empty.
   */
  function OutgoingHeaders(sessionId: Option<string>, headers: map<string, string>): (h: map<string, string>)
    ensures h.Keys == headers.Keys + {ContentTypeHeader, AcceptHeader} + (if HasSession(sessionId) then {SessionHeader} else {})
    ensures HasSession(sessionId) ==> h[SessionHeader] == sessionId.value
    ensures forall k :: k in headers && !(k == SessionHeader && HasSession(sessionId)) ==> h[k] == headers[k]
    ensures ContentTypeHeader !in headers ==> h[ContentTypeHeader] == JsonMediaType
    ensures AcceptHeader !in headers ==> h[AcceptHeader] == AcceptedMediaTypes
  {
    var defaults := map[ContentTypeHeader := JsonMediaType, AcceptHeader := AcceptedMediaTypes] + headers;
    if HasSession(sessionId) then defaults[SessionHeader := sessionId.value] else defaults
  }

  /**
    `lines.find(line => line.startsWith(prefix))`: the first line with the
    prefix, or None when no line has it.
   */
  function FindLine(lines: seq<string>, prefix: string): (r: Option<string>)
    ensures r.None? <==> forall k :: 0 <= k < |lines| ==> !StartsWith(lines[k], prefix)
    ensures r.Some? ==> exists k :: 0 <= k < |lines| && lines[k] == r.value && StartsWith(lines[k], prefix) &&
                                    forall j :: 0 <= j < k ==> !StartsWith(lines[j], prefix)
  {
    if lines == [] then None
    else if StartsWith(lines[0], prefix) then Some(lines[0])
    else
      var r := FindLine(lines[1..], prefix);
      assert forall k :: 1 <= k < |lines| ==> lines[k] == lines[1..][k - 1];
      r
  }

  /**
    The reply decoder of `makeRequest`. A body containing "event: message" is
    read as one server-sent-events frame: the first line starting with
    "data: ", without those six characters, is parsed. Any other body is
    parsed whole. When there is no data line or parsing fails, the raw body
    is returned; decoding never throws.
   */
  function Decode(parse: Parser, body: string): (d: Decoded)
    ensures d.Raw? ==> d.text == body
  {
    if Includes(body, SseMarker) then
      match FindLine(Split(body, '\n'), DataPrefix)
      case None => Raw(body)
      case Some(line) =>
        match parse(line[|DataPrefix|..])
        case Some(v) => Json(v)
        case None => Raw(body)
    else
      match parse(body)
      case Some(v) => Json(v)
      case None => Raw(body)
  }

  /**
    `makeRequest(state, data, headers)` answered by `response`: POSTs the
    envelope to the fixed endpoint, advances the state by one round-trip and
    decodes the reply, whatever the decoding outcome.
   */
  function MakeRequest(parse: Parser, state: ClientState, data: RpcRequest, headers: map<string, string>,
                       response: HttpResponse): (x: Exchange)
    ensures x.sent == HttpRequest(Endpoint, "POST", OutgoingHeaders(state.sessionId, headers), data)
    ensures x.state == After(state, [response])
    ensures x.data == Decode(parse, response.body)
  {
    var newState := ClientState(
      state.baseUrl,
      if HasSession(response.sessionHeader) then response.sessionHeader else state.sessionId,
      state.requestId + 1);
    assert [response][..0] == [];
    assert LatestSession(state.sessionId, [response]) == newState.sessionId;
    Exchange(HttpRequest(Endpoint, "POST", OutgoingHeaders(state.sessionId, headers), data),
             Decode(parse, response.body), newState)
  }

  /** `data.error` on a decoded reply: a raw text has no `error`, a null reply throws. */
  function ErrorField(data: Decoded): Result<Option<JsonValue>, Exception> {
    match data
    case Raw(_) => Success(None)
    case Json(v) => Get(Some(v), "error")
  }

  /**
    `if (data.error) throw new Error(prefix + data.error.message)`: the
    exception raised, or None when the reply passes the check. A message
    that cannot be converted to a string throws that conversion's error
    instead.
   */
  function ErrorCheck(data: Decoded, prefix: string): (e: Option<Exception>)
    ensures data.Raw? ==> e == None
    ensures data == Json(JNull) ==> e == Some(TypeError("error", Null))
    ensures data.Json? && data.value != JNull ==>
              (e.None? <==> !Truthy(Property(data.value, "error")))
    ensures data.Json? && data.value.JObject? && "error" in data.value.fields ==>
              var err := data.value.fields["error"];
              err.JObject? && "message" in err.fields && err.fields["message"].JString? ==>
                e == Some(Thrown(prefix + err.fields["message"].s))
    ensures data.Json? && data.value.JObject? && "error" in data.value.fields ==>
              var err := data.value.fields["error"];
              err.JObject? && "message" in err.fields && Unprintable(err.fields["message"]) ==>
                e == Some(NotPrimitive)
  {
    match ErrorField(data)
    case Failure(ex) => Some(ex)
    case Success(err) =>
      if Truthy(err) then
        match ToJsString(Property(err.value, "message"))
        case Failure(ex) => Some(ex)
        case Success(message) => Some(Thrown(prefix + message))
      else None
  }

  /** `data.result` on a reply that passed the error check. */
  function ResultField(data: Decoded): Option<JsonValue> {
    match data
    case Raw(_) => None
    case Json(v) => Property(v, "result")
  }

  const InitializeParams := JObject(map[
    "protocolVersion" := JString(ProtocolVersion),
    "capabilities" := JObject(map[]),
    "clientInfo" := JObject(map["name" := JString("browser-mcp-client"), "version" := JString("1.0.0")])])

  const InitializedNotification := RpcRequest("2.0", None, "notifications/initialized", JObject(map[]))

  function ToolsListRequest(id: int): RpcRequest {
    RpcRequest("2.0", Some(id), "tools/list", JObject(map[]))
  }

  function ToolsCallRequest(id: int, toolName: string, arguments: JsonValue): RpcRequest {
    RpcRequest("2.0", Some(id), "tools/call", JObject(map["name" := JString(toolName), "arguments" := arguments]))
  }

  /**
    `initializeMCP(state)`, its two round-trips answered by `first` and
    `second`. An error reply to `initialize` throws and nothing more is sent;
    otherwise the `notifications/initialized` notification follows, its reply
    is not looked at, and the `result` of the first reply is returned.
   */
  function InitializeMCP(parse: Parser, state: ClientState, first: HttpResponse, second: HttpResponse)
    : (c: Call<Option<JsonValue>>)
    ensures 1 <= |c.sent| <= 2
    ensures c.sent[0] == HttpRequest(Endpoint, "POST", OutgoingHeaders(state.sessionId, map[]),
                                     RpcRequest("2.0", Some(state.requestId), "initialize", InitializeParams))
    ensures var data := Decode(parse, first.body);
            match ErrorCheck(data, "Initialization failed: ")
            case Some(e) => c.outcome == Failure(e) && |c.sent| == 1
            case None =>
              && |c.sent| == 2
              && c.sent[1] == HttpRequest(Endpoint, "POST", OutgoingHeaders(After(state, [first]).sessionId, map[]),
                                          InitializedNotification)
              && c.outcome == Success(Reply(ResultField(data), After(state, [first, second])))
  {
    var init := RpcRequest("2.0", Some(state.requestId), "initialize", InitializeParams);
    var x := MakeRequest(parse, state, init, map[], first);
    match ErrorCheck(x.data, "Initialization failed: ")
    case Some(e) => Call([x.sent], Failure(e))
    case None =>
      var y := MakeRequest(parse, x.state, InitializedNotification, map[], second);
      AfterCompose(state, [first], [second]);
      assert [first] + [second] == [first, second];
      Call([x.sent, y.sent], Success(Reply(ResultField(x.data), y.state)))
  }

  /**
    `getTools(state)`: one `tools/list` round-trip; an error reply throws,
    otherwise `data.result.tools` is returned, which throws when the reply
    has no result object.
   */
  function GetTools(parse: Parser, state: ClientState, response: HttpResponse): (c: Call<Option<JsonValue>>)
    ensures c.sent == [HttpRequest(Endpoint, "POST", OutgoingHeaders(state.sessionId, map[]), ToolsListRequest(state.requestId))]
    ensures var data := Decode(parse, response.body);
            match ErrorCheck(data, "Failed to get tools: ")
            case Some(e) => c.outcome == Failure(e)
            case None =>
              match Get(ResultField(data), "tools")
              case Failure(e) => c.outcome == Failure(e)
              case Success(tools) => c.outcome == Success(Reply(tools, After(state, [response])))
  {
    var x := MakeRequest(parse, state, ToolsListRequest(state.requestId), map[], response);
    match ErrorCheck(x.data, "Failed to get tools: ")
    case Some(e) => Call([x.sent], Failure(e))
    case None =>
      match Get(ResultField(x.data), "tools")
      case Failure(e) => Call([x.sent], Failure(e))
      case Success(tools) => Call([x.sent], Success(Reply(tools, x.state)))
  }

  /**
    `callTool(state, toolName, arguments)`: one `tools/call` round-trip with
    the name and arguments passed through; an error reply throws, otherwise
    the reply's `result` is returned.
   */
  function CallTool(parse: Parser, state: ClientState, toolName: string, arguments: JsonValue,
                    response: HttpResponse): (c: Call<Option<JsonValue>>)
    ensures c.sent == [HttpRequest(Endpoint, "POST", OutgoingHeaders(state.sessionId, map[]),
                                   ToolsCallRequest(state.requestId, toolName, arguments))]
    ensures c.sent[0].body.params.fields["name"] == JString(toolName)
    ensures c.sent[0].body.params.fields["arguments"] == arguments
    ensures var data := Decode(parse, response.body);
            match ErrorCheck(data, "Tool call failed: ")
            case Some(e) => c.outcome == Failure(e)
            case None => c.outcome == Success(Reply(ResultField(data), After(state, [response])))
  {
    var x := MakeRequest(parse, state, ToolsCallRequest(state.requestId, toolName, arguments), map[], response);
    match ErrorCheck(x.data, "Tool call failed: ")
    case Some(e) => Call([x.sent], Failure(e))
    case None => Call([x.sent], Success(Reply(ResultField(x.data), x.state)))
  }

  /** Round-trips compose: the state after `a` then `b` is the state after `a + b`. */
  lemma {:induction false} AfterCompose(state: ClientState, a: seq<HttpResponse>, b: seq<HttpResponse>)
    ensures After(After(state, a), b) == After(state, a + b)
  {
    LatestSessionCompose(state.sessionId, a, b);
  }

  lemma {:induction false} LatestSessionCompose(initial: Option<string>, a: seq<HttpResponse>, b: seq<HttpResponse>)
    ensures LatestSession(LatestSession(initial, a), b) == LatestSession(initial, a + b)
    decreases |b|
  {
    if b == [] {
      assert a + b == a;
    } else {
      var ab := a + b;
      assert ab[|ab| - 1] == b[|b| - 1];
      assert ab[..|ab| - 1] == a + b[..|b| - 1];
      LatestSessionCompose(initial, a, b[..|b| - 1]);
    }
  }
}
