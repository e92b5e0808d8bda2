# Browser MCP client: session threading, reply decoding, content flattening, proxy rewrite

This project models the client side of a small web UI that drives a Model
Context Protocol (MCP) tool server, and proves properties of that model in
Dafny. MCP is a JSON-RPC 2.0 protocol carried over HTTP. Three pieces are
modelled:

- **The functional client** (`lib/PlaywrightMCPClient.ts`). An immutable
  session state `{baseUrl, sessionId, requestId}` is threaded through every
  call. `makeRequest` builds the headers and POSTs a JSON-RPC envelope to the
  fixed endpoint `/api/mcp/`. It then advances the state by one round-trip:
  the session id is sticky and replaced only by a non-empty `mcp-session-id`
  response header. Finally it decodes the reply as plain JSON or as a single
  server-sent-events frame (`event: message` / `data: …`), falling back to
  the raw text. `initializeMCP` runs the `initialize` +
  `notifications/initialized` handshake. `getTools` and `callTool` send
  `tools/list` and `tools/call`.
- **The SDK-based client** (`packages/client/lib/PlaywrightMCPClient.ts`).
  It checks at module load that `VITE_MCP_SERVER_URL` is set. `listTools`
  returns the listed tools unchanged. `callTool` flattens a tool result into
  one string: it concatenates the text items in order and throws at the first
  item of any other type.
- **The dev-server proxy rewrite** (`packages/client/vite.config.ts`). The
  `/api/mcp` proxy entry replaces a leading `/api/mcp` with `/mcp`, once and
  only at the start of the path.

Files and modules:

- `wrappers.dfy` (`Wrappers`): Option and Result.
- `js_values.dfy` (`JsValues`): a parsed JSON value and what JavaScript does
  with it here: property reads, which throw on `null`/`undefined`,
  truthiness, and `${…}` interpolation, including the TypeError raised for
  an object whose own `toString` field hides the inherited method.
- `text.dfy` (`Text`): `startsWith`, `includes`, `split` and `join`, with the
  split/join round trip in both directions.
- `playwright_mcp_client.dfy` (`PlaywrightMcpClient`) and
  `mcp_client_properties.dfy` (`McpClientProperties`): the functional client
  and its properties.
- `sdk_client.dfy` (`SdkClient`): the SDK-based client.
- `vite_proxy.dfy` (`ViteProxy`): the proxy rewrite.

Code outside this repository (the browser's `fetch`, `JSON.parse`, the MCP
SDK) becomes a parameter:

- **The network.** Each round-trip is answered by an `HttpResponse`, which
  holds the response's `mcp-session-id` header (or None) and its body text.
  `InitializeMCP` takes two of them.
- **`JSON.parse`.** It is the parameter `parse: string -> Option<JsonValue>`,
  where None stands for a parse that throws.
- **The MCP SDK's `client.request`.** It is a parameter function from the
  request it is handed to the schema-validated result or the exception it
  throws.

`undefined` is None. An exception is `Thrown(message)` for `throw new
Error(message)`, `TypeError(property, Null | Undefined)` for reading a
property of `null` or `undefined`, or `NotPrimitive` for JavaScript's
TypeError "Cannot convert object to primitive value" raised while
interpolating a value.

Behaviour of the code worth knowing:

- `callTool` in the SDK client throws on image items, as on every item that
  is not text.
- The functional client's errors are plain `Error`s whose message is a
  prefix followed by the server's `message`; the server's error `code` is
  not passed on.
- An error `message` that is an object with its own `toString` field
  cannot be interpolated: the client throws JavaScript's TypeError
  "Cannot convert object to primitive value" instead of its own `Error`.
- The reply decoder tests for "event: message" anywhere in the body. A
  plain JSON reply that merely contains that text in a string is read as an
  event stream; with no "data: " line it comes back as raw text, so
  `callTool` returns an undefined result.
- No HTTP status is checked.
- A raw-text reply makes `initializeMCP` and `callTool` succeed with an
  undefined result, while `getTools` throws reading `tools` of `undefined`.
- A reply that parses to `null` throws a `TypeError` when its `error` is
  read.

## Model

| member | source | states |
|---|---|---|
| PlaywrightMcpClient.CreateMCPClient | lib/PlaywrightMCPClient.ts:32-38 | a fresh state has no session id and request id 1; the base URL is the argument or defaults to http://localhost:8000; the state is valid |
| PlaywrightMcpClient.HasSession | lib/PlaywrightMCPClient.ts:54 | definition only: the truthiness of a session id that is a string or null, true for a non-empty string |
| PlaywrightMcpClient.Valid | lib/PlaywrightMCPClient.ts:66-70 | definition only: the states the client reaches, with no empty session id and ids counted from 1 |
| PlaywrightMcpClient.LatestSession | lib/PlaywrightMCPClient.ts:66-69 | the session id after a sequence of responses is the initial one or a non-empty header one of those responses carried |
| PlaywrightMcpClient.After | lib/PlaywrightMCPClient.ts:67-71 | definition only: the state after a sequence of round-trips, with the same base URL, the sticky session id and one id counted per round-trip |
| PlaywrightMcpClient.OutgoingHeaders | lib/PlaywrightMCPClient.ts:48-56 | headers are exactly the caller's plus Content-Type and Accept plus mcp-session-id when the session id is non-empty; the session id overrides a caller value; caller values override the two defaults |
| PlaywrightMcpClient.FindLine | lib/PlaywrightMCPClient.ts:77-78 | the result is None exactly when no line has the prefix; otherwise it is a line with the prefix and no earlier line has it |
| PlaywrightMcpClient.Decode | lib/PlaywrightMCPClient.ts:75-112 | decoding never throws, and a raw result is exactly the body text |
| PlaywrightMcpClient.MakeRequest | lib/PlaywrightMCPClient.ts:43-113 | POSTs the envelope to /api/mcp/ with the assembled headers; the new state is the state after one round-trip (id + 1, sticky session, same base URL) whatever the decoding outcome |
| PlaywrightMcpClient.ErrorField | lib/PlaywrightMCPClient.ts:135 | definition only: `data.error`, absent on a raw reply and a TypeError on a null reply |
| PlaywrightMcpClient.ErrorCheck | lib/PlaywrightMCPClient.ts:135-137 | a raw reply never throws; a null reply throws a TypeError reading error; otherwise it throws exactly when error is truthy, with the prefix followed by the error's string message, or the conversion TypeError when the message is an object with its own toString |
| PlaywrightMcpClient.ResultField | lib/PlaywrightMCPClient.ts:151 | definition only: `data.result`, undefined on a raw reply |
| PlaywrightMcpClient.InitializeParams | lib/PlaywrightMCPClient.ts:119-131 | definition only: protocol version 2024-11-05, empty capabilities, client browser-mcp-client 1.0.0 |
| PlaywrightMcpClient.InitializedNotification | lib/PlaywrightMCPClient.ts:140-144 | definition only: the id-less notifications/initialized envelope with empty params |
| PlaywrightMcpClient.ToolsListRequest | lib/PlaywrightMCPClient.ts:158-163 | definition only: the tools/list envelope with the given id and empty params |
| PlaywrightMcpClient.ToolsCallRequest | lib/PlaywrightMCPClient.ts:182-190 | definition only: the tools/call envelope with the given id and params name and arguments |
| PlaywrightMcpClient.InitializeMCP | lib/PlaywrightMCPClient.ts:118-152 | first sends initialize with id = requestId, protocol version 2024-11-05 and the fixed client info; on an error reply it throws and sends nothing more; otherwise it sends the id-less initialized notification and returns the first reply's result with the state after both round-trips |
| PlaywrightMcpClient.GetTools | lib/PlaywrightMCPClient.ts:157-172 | sends one tools/list with id = requestId; an error reply throws "Failed to get tools: …"; otherwise returns result.tools (throwing when result is absent or null) with the state after one round-trip |
| PlaywrightMcpClient.CallTool | lib/PlaywrightMCPClient.ts:177-199 | sends one tools/call with id = requestId and params name and arguments unchanged; an error reply throws "Tool call failed: …"; otherwise returns result with the state after one round-trip |
| PlaywrightMcpClient.AfterCompose | lib/PlaywrightMCPClient.ts:67-71 | the state after responses a and then b equals the state after a + b |
| PlaywrightMcpClient.LatestSessionCompose | lib/PlaywrightMCPClient.ts:66-69 | the sticky session id after a then b is that after a + b |
| McpClientProperties.ValidAfter | lib/PlaywrightMCPClient.ts:66-71 | from a valid state, any sequence of round-trips keeps the session id non-empty and ids counted from 1, and strictly increases the id when non-empty |
| McpClientProperties.LatestSessionNotEmpty | lib/PlaywrightMCPClient.ts:69 | the session id never becomes the empty string |
| McpClientProperties.SessionIdSticky | lib/PlaywrightMCPClient.ts:66-69 | the last non-empty session header of a sequence of responses is the state's session id |
| McpClientProperties.SessionIdKept | lib/PlaywrightMCPClient.ts:66-69 | with no non-empty session header the session id stays what it was |
| McpClientProperties.RoundTrips | lib/PlaywrightMCPClient.ts:43-71 | one exchange per response, each made on the state the previous one returned |
| McpClientProperties.RoundTripAt | lib/PlaywrightMCPClient.ts:48-71 | in any sequence of round-trips, request i carries the i-th envelope and the headers for the session id seen in responses 0..i-1, and the state after it has id initial + i + 1 |
| McpClientProperties.BaseUrlUnused | lib/PlaywrightMCPClient.ts:58-71 | the base URL changes no request sent and is carried unchanged into the new state |
| McpClientProperties.DecodeSseFrame | lib/PlaywrightMCPClient.ts:76-98 | for an event-stream body, the first "data: " line minus its six characters is parsed; a parse failure gives back the whole body |
| McpClientProperties.SseAndPlainAgree | lib/PlaywrightMCPClient.ts:76-103 | a one-line JSON text that parses decodes to the same value sent plain or as "event: message\ndata: …\n\n" |
| McpClientProperties.SseWithoutDataLine | lib/PlaywrightMCPClient.ts:91-97 | an event-stream body without a data line decodes to its raw text |
| McpClientProperties.UnparsableBodyIsRaw | lib/PlaywrightMCPClient.ts:99-111 | a plain body that does not parse decodes to its raw text |
| McpClientProperties.PlainBranch | lib/PlaywrightMCPClient.ts:99-111 | a body without "event: message" is parsed whole, over any number of lines: its value when it parses, its raw text otherwise |
| McpClientProperties.MarkerInPlainJson | lib/PlaywrightMCPClient.ts:76-97 | the one-line JSON reply {"t":"event: message"} is taken for an event stream and returned raw, whatever the parser, so callTool succeeds with an undefined result |
| McpClientProperties.InitializeUsesTwoRoundTrips | lib/PlaywrightMCPClient.ts:118-152 | a successful handshake sends two requests, the first with id = requestId and the notification without id, and ends with requestId = initial + 2 on a valid state |
| McpClientProperties.NotificationReplyIgnored | lib/PlaywrightMCPClient.ts:146-151 | the body of the notification's reply changes nothing |
| McpClientProperties.InitializeErrorStopsHandshake | lib/PlaywrightMCPClient.ts:133-137 | an error reply with code -32600 and message "bad request" throws "Initialization failed: bad request" after one request |
| McpClientProperties.UnprintableErrorMessage | lib/PlaywrightMCPClient.ts:135-137 | an error whose message is {"toString":1} makes initializeMCP throw the conversion TypeError after one request |
| McpClientProperties.RawReplies | lib/PlaywrightMCPClient.ts:133-198 | a raw-text reply makes initializeMCP and callTool succeed with an undefined result and getTools throw reading tools of undefined |
| McpClientProperties.NullReplies | lib/PlaywrightMCPClient.ts:133-196 | a reply parsing to null makes every operation throw reading error of null |
| McpClientProperties.ToolsListed | lib/PlaywrightMCPClient.ts:165-171 | a result reply's tools are returned unchanged with the state one round-trip on |
| McpClientProperties.HandshakeThenCall | lib/PlaywrightMCPClient.ts:118-199 | after a handshake the next call uses id initial + 2 and the session id established by the handshake replies |
| Text.StartsWith | lib/PlaywrightMCPClient.ts:78 | definition only: `line.startsWith(prefix)` |
| Text.Includes | lib/PlaywrightMCPClient.ts:76 | definition only: `text.includes(pattern)`, an occurrence at some position |
| Text.Split | lib/PlaywrightMCPClient.ts:77 | `split` always gives at least one piece; its round trips are JoinSplit and SplitJoin |
| Text.SplitPiecesHaveNoSeparator | lib/PlaywrightMCPClient.ts:77 | no line of a split contains a newline |
| Text.JoinSplit | lib/PlaywrightMCPClient.ts:77 | joining the lines of a split gives back the body |
| Text.SplitJoin | lib/PlaywrightMCPClient.ts:77 | splitting the join of newline-free lines gives back those lines |
| JsValues.Property | lib/PlaywrightMCPClient.ts:135-136 | a property read on a non-nullish value yields a strict component of that value, or undefined |
| JsValues.Get | lib/PlaywrightMCPClient.ts:135-136 | a failed read is a TypeError naming the key read; a successful one yields a component of the base |
| JsValues.Truthy | lib/PlaywrightMCPClient.ts:135 | definition only: JavaScript truthiness of a parsed value or undefined |
| JsValues.Unprintable | lib/PlaywrightMCPClient.ts:136 | definition only: a value whose string conversion throws, an object with its own toString or an array holding one |
| JsValues.NatToString | lib/PlaywrightMCPClient.ts:136 | the printed form of a natural number is a non-empty string of decimal digits |
| JsValues.IntToString | lib/PlaywrightMCPClient.ts:136 | a non-negative number prints as digits that read back as it; a negative one as "-" followed by digits that read back as its magnitude |
| JsValues.ValueToString | lib/PlaywrightMCPClient.ts:136 | converting a parsed value to a string throws exactly when it is, or an array holds at any depth, an object with its own toString field, and then with the primitive-conversion TypeError |
| JsValues.JoinElements | lib/PlaywrightMCPClient.ts:136 | joining array elements throws exactly when one of them cannot be converted, with the primitive-conversion TypeError |
| JsValues.ToJsString | lib/PlaywrightMCPClient.ts:136 | undefined prints as "undefined"; any failure is the primitive-conversion TypeError |
| JsValues.NatToStringValue | lib/PlaywrightMCPClient.ts:136 | the digits printed for a numeric error message read back as that number |
| SdkClient.LoadModule | packages/client/lib/PlaywrightMCPClient.ts:11-23 | a missing or empty VITE_MCP_SERVER_URL throws before anything is built; otherwise the connection to that URL is built with no session id and client daien 0.0.1 |
| SdkClient.ListTools | packages/client/lib/PlaywrightMCPClient.ts:49-58 | sends tools/list with empty params; returns the result's tools unchanged, or the request's exception |
| SdkClient.ListToolsRequest | packages/client/lib/PlaywrightMCPClient.ts:50-53 | definition only: tools/list with empty params |
| SdkClient.CallToolRequest | packages/client/lib/PlaywrightMCPClient.ts:64-70 | definition only: tools/call with params name and arguments |
| SdkClient.Content.Kind | packages/client/lib/PlaywrightMCPClient.ts:75 | only a text item has the discriminant "text" |
| SdkClient.Texts | packages/client/lib/PlaywrightMCPClient.ts:72-82 | definition only: the in-order concatenation of the texts of an all-text list |
| SdkClient.FlattenedAs | packages/client/lib/PlaywrightMCPClient.ts:72-82 | definition only: all-text content gives its Texts; otherwise the error naming the first non-text item's type |
| SdkClient.FlattenContent | packages/client/lib/PlaywrightMCPClient.ts:72-82 | succeeds exactly when every item is text, with the in-order concatenation of their texts; otherwise throws "Unsupported content type: " + the type of the first non-text item, with no partial text |
| SdkClient.CallTool | packages/client/lib/PlaywrightMCPClient.ts:60-83 | sends tools/call with name and arguments unchanged; the request's exception propagates; a result is flattened as above |
| SdkClient.TextsAppend | packages/client/lib/PlaywrightMCPClient.ts:77 | the concatenation of a split content list is the concatenation of the parts |
| SdkClient.EmptyContent | packages/client/lib/PlaywrightMCPClient.ts:72-82 | an empty content list gives "" |
| SdkClient.ImageRejected | packages/client/lib/PlaywrightMCPClient.ts:75-80 | any list holding an image item is rejected |
| SdkClient.TextThenImage | packages/client/lib/PlaywrightMCPClient.ts:74-81 | [text "hi", image] throws "Unsupported content type: image" and returns no partial text |
| SdkClient.ClientsAgree | packages/client/lib/PlaywrightMCPClient.ts:64-70 | the SDK client's tools/call and tools/list method and params equal the functional client's |
| ViteProxy.Rewrite | packages/client/vite.config.ts:12 | a path starting with /api/mcp becomes one starting with /mcp that gives back the path with "/api" prepended; any other path is unchanged |
| ViteProxy.Forward | packages/client/vite.config.ts:9-13 | exactly the paths starting with /api/mcp are forwarded, to http://localhost:8000 followed by the rewritten path |
| ViteProxy.RewriteLeadingOnly | packages/client/vite.config.ts:12 | "/api/mcp" + rest becomes "/mcp" + rest for every rest |
| ViteProxy.RewriteExamples | packages/client/vite.config.ts:12 | /api/mcp/api/mcp becomes /mcp/api/mcp, /api/mcpx becomes /mcpx, /mcp/ stays |
| ViteProxy.RewriteLength | packages/client/vite.config.ts:12 | a rewritten path is 4 characters shorter, any other the same length |
| ViteProxy.RewriteIdempotent | packages/client/vite.config.ts:12 | rewriting twice equals rewriting once |
| ViteProxy.EndpointForwarded | packages/client/vite.config.ts:9-13 | the client's endpoint /api/mcp/ is forwarded as /mcp/ to http://localhost:8000 |

## Left out

- `fetch`, `response.text()` and `console.log` (lib/PlaywrightMCPClient.ts:58-63, 73) are network I/O and logging. Each round-trip is a given `HttpResponse`, and a failed fetch is not modelled.
- `JSON.parse` and `JSON.stringify` are a foreign library. Parsing is an uninterpreted parameter. The envelope is kept as a value rather than serialised.
- JSON numbers are modelled as integers. Non-integral numbers, and JavaScript's exponent notation for very large numbers, are not modelled.
- The request id is an unbounded integer, so loss of precision past 2^53 is not modelled.
- Strings are sequences of characters. UTF-16 code units are not modelled.
- Headers are the plain object `makeRequest` builds. The case-insensitive merging that `fetch`'s `Headers` applies to keys differing only in case is not modelled. The response's `mcp-session-id` header arrives already extracted.
- JsValues.Property: reads own properties of parsed objects only. This is exact for the keys the client reads (error, result, tools, message), which no primitive or array inherits.
- The MCP SDK's `Client` and `StreamableHTTPClientTransport` (packages/client/lib/PlaywrightMCPClient.ts:1-31, packages/client/lib/MCPClient.ts) are a foreign library with hidden transport state. `client.request` is a parameter, `initialize`'s `client.connect` is not modelled, and `new URL` rejecting a malformed URL is not modelled.
- The SDK's content union is modelled with the discriminants text, image, audio, resource and resource_link. `console.log(item.text)` is left out.
- packages/server/src/index.ts, the streaming reverse proxy, is I/O plumbing: routing, CORS and streaming pass-through.
- The UI components (packages/client/src/) and their `parseJSON` fallbacks are presentation and thin wrappers over `JSON.parse`.
- The Vite proxy's `target` and `changeOrigin` options are left out beyond the forwarded URL. The proxy's matching of its key is modelled as a path-prefix test, as Vite does for string keys.
- Calls are modelled strictly in sequence. Concurrency and multi-event server-sent-event streams are not modelled.
