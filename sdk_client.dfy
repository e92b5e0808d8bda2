/**
  The SDK-based client of the web UI: its module-load configuration guard,
  `listTools`, and `callTool`, which flattens the text items of a tool result
  into one string.

  The SDK's `client.request` is the parameter `server`: given the request it
  is handed, the schema-validated result, or the exception it throws.
 */
module SdkClient {
  import opened Wrappers
  import opened JsValues
  import PlaywrightMcpClient

  const ServerUrlVariable := "VITE_MCP_SERVER_URL"
  const MissingServerUrl := ServerUrlVariable + " environment variable is required"
  const ClientName := "daien"
  const ClientVersion := "0.0.1"
  const UnsupportedContentPrefix := "Unsupported content type: "

  /** The transport and client the module builds at load time. */
  datatype Connection = Connection(serverUrl: string, sessionId: Option<string>, clientName: string, clientVersion: string)

  /** A request handed to `client.request`. */
  datatype SdkRequest = SdkRequest(methodName: string, params: JsonValue)

  datatype ToolAnnotations = ToolAnnotations(title: Option<string>, readOnlyHint: Option<bool>,
                                             destructiveHint: Option<bool>, openWorldHint: Option<bool>)

  /** A tool descriptor, as the server lists it. */
  datatype Tool = Tool(name: string, description: Option<string>, inputSchema: map<string, JsonValue>,
                       annotations: Option<ToolAnnotations>)

  /** The content items a tool result may hold, each with its fixed `type` discriminant. */
  datatype Content =
    | Text(text: string)
    | Image(data: string, mimeType: string)
    | Audio(data: string, mimeType: string)
    | Resource(resource: JsonValue)
    | ResourceLink(uri: string, name: string)
  {
    /** The item's `type` field; only a text item has the discriminant "text". */
    function Kind(): (k: string)
      ensures k == "text" <==> this.Text?
    {
      match this
      case Text(_) => "text"
      case Image(_, _) => "image"
      case Audio(_, _) => "audio"
      case Resource(_) => "resource"
      case ResourceLink(_, _) => "resource_link"
    }
  }

  datatype ListToolsResult = ListToolsResult(tools: seq<Tool>)

  datatype CallToolResult = CallToolResult(content: seq<Content>)

  /**
    Module load: a missing or empty `VITE_MCP_SERVER_URL` throws before any
    transport or client exists; otherwise both are built, with no session id.
   */
  function LoadModule(env: Option<string>): (r: Result<Connection, Exception>)
    ensures r.Failure? <==> env.None? || env.value == ""
    ensures r.Failure? ==> r.error == Thrown(MissingServerUrl)
    ensures r.Success? ==> r.value == Connection(env.value, None, ClientName, ClientVersion)
  {
    if env.None? || env.value == "" then Failure(Thrown(MissingServerUrl))
    else Success(Connection(env.value, None, ClientName, ClientVersion))
  }

  const ListToolsRequest := SdkRequest("tools/list", JObject(map[]))

  function CallToolRequest(toolName: string, arguments: map<string, JsonValue>): SdkRequest {
    SdkRequest("tools/call", JObject(map["name" := JString(toolName), "arguments" := JObject(arguments)]))
  }

  /** `listTools()`: sends `tools/list` with empty params and returns the result's tools unchanged. */
  function ListTools(server: SdkRequest -> Result<ListToolsResult, Exception>): (r: Result<seq<Tool>, Exception>)
    ensures server(ListToolsRequest).Failure? ==> r == Failure(server(ListToolsRequest).error)
    ensures server(ListToolsRequest).Success? ==> r == Success(server(ListToolsRequest).value.tools)
  {
    match server(ListToolsRequest)
    case Failure(e) => Failure(e)
    case Success(res) => Success(res.tools)
  }

  /** The texts of all-text items, concatenated in order without separator. */
  function Texts(content: seq<Content>): string
    requires forall i :: 0 <= i < |content| ==> content[i].Text?
  {
    if content == [] then "" else Texts(content[..|content| - 1]) + content[|content| - 1].text
  }

  /**
    What flattening a content list yields: the concatenated texts when every
    item is text, and otherwise the exception naming the type of the first
    item that is not, with no partial text.
   */
  ghost predicate FlattenedAs(content: seq<Content>, r: Result<string, Exception>) {
    && (r.Success? <==> forall i :: 0 <= i < |content| ==> content[i].Kind() == "text")
    && (r.Success? ==> r.value == Texts(content))
    && (r.Failure? ==> exists k :: 0 <= k < |content| && content[k].Kind() != "text" &&
                                   (forall j :: 0 <= j < k ==> content[j].Kind() == "text") &&
                                   r.error == Thrown(UnsupportedContentPrefix + content[k].Kind()))
  }

  /** The `forEach` loop of `callTool`: appends each text item, throws at the first other item. */
  method FlattenContent(content: seq<Content>) returns (r: Result<string, Exception>)
    ensures FlattenedAs(content, r)
  {
    var contentText := "";
    var i := 0;
    while i < |content|
      invariant 0 <= i <= |content|
      invariant forall j :: 0 <= j < i ==> content[j].Text?
      invariant contentText == Texts(content[..i])
    {
      var item := content[i];
      if item.Kind() == "text" {
        assert content[..i + 1][..i] == content[..i];
        contentText := contentText + item.text;
      } else {
        return Failure(Thrown(UnsupportedContentPrefix + item.Kind()));
      }
      i := i + 1;
    }
    assert content[..i] == content;
    return Success(contentText);
  }

  /**
    `callTool(toolName, arguments)`: sends `tools/call` with the name and
    arguments unchanged; an exception of the request propagates, a result is
    flattened.
   */
  method CallTool(server: SdkRequest -> Result<CallToolResult, Exception>, toolName: string,
                  arguments: map<string, JsonValue>) returns (r: Result<string, Exception>)
    ensures var res := server(CallToolRequest(toolName, arguments));
            && (res.Failure? ==> r == Failure(res.error))
            && (res.Success? ==> FlattenedAs(res.value.content, r))
  {
    var res := server(CallToolRequest(toolName, arguments));
    match res
    case Failure(e) => r := Failure(e);
    case Success(v) => r := FlattenContent(v.content);
  }

  /** Concatenation distributes over splitting the content list. */
  lemma {:induction false} TextsAppend(a: seq<Content>, b: seq<Content>)
    requires forall i :: 0 <= i < |a| ==> a[i].Text?
    requires forall i :: 0 <= i < |b| ==> b[i].Text?
    ensures forall i :: 0 <= i < |a + b| ==> (a + b)[i].Text?
    ensures Texts(a + b) == Texts(a) + Texts(b)
    decreases |b|
  {
    if b == [] {
      assert a + b == a;
    } else {
      var b' := b[..|b| - 1];
      assert (a + b)[..|a + b| - 1] == a + b';
      TextsAppend(a, b');
    }
  }

  /** An empty content list flattens to the empty string. */
  lemma EmptyContent(r: Result<string, Exception>)
    requires FlattenedAs([], r)
    ensures r == Success("")
  {
  }

  /** No image item is accepted: a list holding one is rejected. */
  lemma ImageRejected(content: seq<Content>, r: Result<string, Exception>, i: nat)
    requires FlattenedAs(content, r)
    requires i < |content| && content[i].Image?
    ensures r.Failure? && r.error.Thrown?
  {
  }

  /** A text item followed by an image is rejected, naming the image, with no partial text. */
  lemma TextThenImage(r: Result<string, Exception>)
    requires FlattenedAs([Text("hi"), Image("QQ==", "image/png")], r)
    ensures r == Failure(Thrown("Unsupported content type: image"))
  {
    var content := [Text("hi"), Image("QQ==", "image/png")];
    assert !content[1].Text?;
    var k :| 0 <= k < |content| && content[k].Kind() != "text" &&
             (forall j :: 0 <= j < k ==> content[j].Kind() == "text") &&
             r.error == Thrown(UnsupportedContentPrefix + content[k].Kind());
    assert k == 1;
    assert UnsupportedContentPrefix + "image" == "Unsupported content type: image";
  }

  /**
    The SDK client and the functional client ask for the same thing: method
    and params of `tools/call` and of `tools/list` agree.
   */
  lemma ClientsAgree(id: int, toolName: string, arguments: map<string, JsonValue>)
    ensures var functional := PlaywrightMcpClient.ToolsCallRequest(id, toolName, JObject(arguments));
            functional.methodName == CallToolRequest(toolName, arguments).methodName &&
            functional.params == CallToolRequest(toolName, arguments).params
    ensures PlaywrightMcpClient.ToolsListRequest(id).methodName == ListToolsRequest.methodName
    ensures PlaywrightMcpClient.ToolsListRequest(id).params == ListToolsRequest.params
  {
  }
}
