/**
  The development server's proxy entry for `/api/mcp`: requests whose path
  starts with that key go to the tool server, their path rewritten by the
  anchored, non-global replacement of a leading "/api/mcp" with "/mcp".
 */
module ViteProxy {
  import opened Wrappers
  import opened Text
  import PlaywrightMcpClient

  const ProxyKey := "/api/mcp"
  const Replacement := "/mcp"
  const Target := "http://localhost:8000"

  /** `path.replace(/^\/api\/mcp/, "/mcp")` */
  function Rewrite(path: string): (r: string)
    ensures StartsWith(path, ProxyKey) ==> "/api" + r == path && StartsWith(r, Replacement)
    ensures !StartsWith(path, ProxyKey) ==> r == path
  {
    if StartsWith(path, ProxyKey) then Replacement + path[|ProxyKey|..] else path
  }

  /** The upstream URL of a request, when the proxy entry (a path-prefix match on its key) takes it. */
  function Forward(path: string): (r: Option<string>)
    ensures r.Some? <==> StartsWith(path, ProxyKey)
    ensures r.Some? ==> r.value == Target + Rewrite(path)
  {
    if StartsWith(path, ProxyKey) then Some(Target + Rewrite(path)) else None
  }

  /** Only the leading occurrence is replaced and no segment boundary is required. */
  lemma RewriteLeadingOnly(rest: string)
    ensures Rewrite(ProxyKey + rest) == Replacement + rest
  {
  }

  /** For instance "/api/mcp/api/mcp" becomes "/mcp/api/mcp" and "/api/mcpx" becomes "/mcpx". */
  lemma RewriteExamples()
    ensures Rewrite("/api/mcp/api/mcp") == "/mcp/api/mcp"
    ensures Rewrite("/api/mcpx") == "/mcpx"
    ensures Rewrite("/mcp/") == "/mcp/"
  {
  }

  /** A rewritten path is exactly four characters shorter; any other keeps its length. */
  lemma RewriteLength(path: string)
    ensures StartsWith(path, ProxyKey) ==> |Rewrite(path)| == |path| - 4
    ensures !StartsWith(path, ProxyKey) ==> |Rewrite(path)| == |path|
  {
  }

  /** Rewriting twice is rewriting once: a path starting with "/mcp" never starts with "/api/mcp". */
  lemma RewriteIdempotent(path: string)
    ensures Rewrite(Rewrite(path)) == Rewrite(path)
  {
  }

  /** The functional client's fixed endpoint reaches the tool server as "/mcp/". */
  lemma EndpointForwarded()
    ensures Rewrite(PlaywrightMcpClient.Endpoint) == "/mcp/"
    ensures Forward(PlaywrightMcpClient.Endpoint) == Some(Target + "/mcp/")
  {
  }
}
