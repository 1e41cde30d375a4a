/**
 * The GitHub Models endpoints and the two outbound requests the proxy builds
 * for them (functions/processor.js, lines 52-61 and 112-123;
 * functions/api/openai.js, lines 33-44).
 */
module GitHub {
  import opened Optional
  import opened Http
  import Catalog

  const CatalogUrl := "https://models.github.ai/catalog/models"
  const ChatUrl := "https://models.github.ai/inference/chat/completions"
  const AcceptGitHubJson := Header("Accept", "application/vnd.github+json")
  const ApiVersion := Header("X-GitHub-Api-Version", "2022-11-28")

  /** What the catalog fetch yields: its status and, when it is ok, the decoded JSON array. */
  datatype CatalogReply = CatalogReply(status: FetchStatus, models: seq<Catalog.GitHubModel>)
  {
    /** `Response.ok`: a 2xx status; a reply that is not ok has a status from 300 to 599. */
    predicate Ok()
      ensures Ok() <==> status < 300
      ensures !Ok() ==> 300 <= status <= 599
    {
      200 <= status <= 299
    }
  }

  /** The catalog fetch: a GET carrying the caller's credential and the two GitHub headers. */
  function CatalogRequest(authorization: string): (out: Outbound)
    ensures out.httpMethod == "GET" && out.url == CatalogUrl && out.body.None?
    ensures Names(out.headers) == ["Authorization", "Accept", "X-GitHub-Api-Version"]
    ensures Lookup(out.headers, "Authorization") == Some(authorization)
    ensures Lookup(out.headers, "Accept") == Some("application/vnd.github+json")
    ensures Lookup(out.headers, "X-GitHub-Api-Version") == Some("2022-11-28")
  {
    var headers := [Header("Authorization", authorization), AcceptGitHubJson, ApiVersion];
    assert Lookup(headers[2..], "X-GitHub-Api-Version") == Some("2022-11-28");
    Outbound("GET", CatalogUrl, headers, None)
  }

  /** The chat forward: a POST carrying the credential, JSON content type, the two GitHub headers and the body as it came. */
  function ChatRequest(authorization: string, body: Option<Bytes>): (out: Outbound)
    ensures out.httpMethod == "POST" && out.url == ChatUrl && out.body == body
    ensures Names(out.headers) == ["Authorization", "Content-Type", "Accept", "X-GitHub-Api-Version"]
    ensures Lookup(out.headers, "Authorization") == Some(authorization)
    ensures Lookup(out.headers, "Content-Type") == Some("application/json")
    ensures Lookup(out.headers, "Accept") == Some("application/vnd.github+json")
    ensures Lookup(out.headers, "X-GitHub-Api-Version") == Some("2022-11-28")
  {
    var headers := [Header("Authorization", authorization), ContentTypeJson, AcceptGitHubJson, ApiVersion];
    assert Lookup(headers[2..], "Accept") == Some("application/vnd.github+json");
    assert Lookup(headers[3..], "X-GitHub-Api-Version") == Some("2022-11-28");
    Outbound("POST", ChatUrl, headers, body)
  }
}
