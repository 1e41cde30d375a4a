/**
 * functions/processor.js: the path router, the cached models handler and the
 * chat-completions gate.
 */
module Processor {
  import opened Optional
  import opened Catalog
  import opened Http
  import GitHub

  /** Where `onRequest` sends a request. */
  datatype Route = ModelsRoute | ChatRoute | NotFoundRoute

  const NotFound := Response(404, [], Text("Not Found"))
  const MethodNotAllowed := Response(405, [], Text("Method Not Allowed"))
  const Unauthorized := Response(401, [], ErrorJson(MissingCredential))
  const CatalogFailureMessage := "Failed to fetch model catalog from GitHub"
  const CacheControl := Header("Cache-Control", "public, max-age=3600")

  /** The `switch (path)` of `onRequest`: exact pathnames only; the method plays no part. */
  function RouteOf(path: string): (r: Route)
    ensures r == ModelsRoute <==> path == "/v1/models"
    ensures r == ChatRoute <==> path == "/v1/chat/completions" || path == "/api/openai"
    ensures r == NotFoundRoute <==> path !in {"/v1/models", "/v1/chat/completions", "/api/openai"}
  {
    if path == "/v1/models" then ModelsRoute
    else if path == "/v1/chat/completions" || path == "/api/openai" then ChatRoute
    else NotFoundRoute
  }

  /** The plain-text failure that carries the upstream catalog status over unchanged. */
  function CatalogFailure(status: FetchStatus): (response: Response)
    ensures response.status == status && response.headers == []
    ensures response.body == Text(CatalogFailureMessage)
  {
    Response(status, [], Text(CatalogFailureMessage))
  }

  /** The 200 response for a freshly normalised catalog, cacheable for an hour. */
  function CatalogResponse(data: seq<OpenAIModel>): (response: Response)
    ensures response.status == 200 && response.body == ModelList("list", data)
    ensures Names(response.headers) == ["Content-Type", "Cache-Control"]
    ensures Lookup(response.headers, "Content-Type") == Some("application/json")
    ensures Lookup(response.headers, "Cache-Control") == Some("public, max-age=3600")
  {
    var headers := [ContentTypeJson, CacheControl];
    assert Lookup(headers[1..], "Cache-Control") == Some("public, max-age=3600");
    Response(200, headers, ModelList("list", data))
  }

  /**
   * `handleChatCompletionsRequest`: the method is checked before the
   * credential, and only a POST with a credential reaches the upstream.
   */
  function ChatCompletions(request: Request): (o: Outcome)
    ensures request.httpMethod != "POST" ==> o == Reply(MethodNotAllowed)
    ensures request.httpMethod == "POST" && !HasCredential(request.authorization) ==> o == Reply(Unauthorized)
    ensures o.Forward? <==> request.httpMethod == "POST" && HasCredential(request.authorization)
    ensures o.Forward? ==> o.request == GitHub.ChatRequest(request.authorization.value, request.body)
  {
    if request.httpMethod != "POST" then Reply(MethodNotAllowed)
    else if !HasCredential(request.authorization) then Reply(Unauthorized)
    else Forward(GitHub.ChatRequest(request.authorization.value, request.body))
  }

  /**
   * One run of `handleModelsRequest` over a cache holding `entries`: the
   * response, the catalog fetch it made (None when it made none) and the
   * cache contents afterwards.
   */
  datatype ModelsStep<K> = ModelsStep(response: Response, catalogFetch: Option<Outbound>, entries: map<K, Response>)

  /**
   * The order of the checks in `handleModelsRequest`: a cache hit wins over
   * everything; on a miss the credential is checked before the upstream is
   * fetched; only an ok upstream reply is normalised and written to the cache.
   * `fetchCatalog` is the upstream: the reply it gives to the outbound request.
   */
  function ModelsRequest<K>(entries: map<K, Response>, key: K, request: Request,
                            fetchCatalog: Outbound -> GitHub.CatalogReply,
                            nowMs: int, parseDate: string -> Option<int>): (step: ModelsStep<K>)
    ensures key in entries ==> step == ModelsStep(entries[key], None, entries)
    ensures step.catalogFetch.Some? <==> key !in entries && HasCredential(request.authorization)
    ensures step.catalogFetch.Some? ==>
              step.catalogFetch.value == GitHub.CatalogRequest(request.authorization.value)
    ensures key !in entries && !HasCredential(request.authorization) ==>
              step.response == Unauthorized && step.entries == entries
    ensures step.catalogFetch.Some? && !fetchCatalog(step.catalogFetch.value).Ok() ==>
              step.response == CatalogFailure(fetchCatalog(step.catalogFetch.value).status) &&
              step.entries == entries
    ensures step.catalogFetch.Some? && fetchCatalog(step.catalogFetch.value).Ok() ==>
              step.response == CatalogResponse(Normalize(fetchCatalog(step.catalogFetch.value).models, nowMs, parseDate)) &&
              step.entries == entries[key := step.response]
    ensures step.entries == entries ||
            (key !in entries && step.response.status == 200 && step.entries == entries[key := step.response])
  {
    if key in entries then ModelsStep(entries[key], None, entries)
    else if !HasCredential(request.authorization) then ModelsStep(Unauthorized, None, entries)
    else
      var out := GitHub.CatalogRequest(request.authorization.value);
      var reply := fetchCatalog(out);
      if !reply.Ok() then ModelsStep(CatalogFailure(reply.status), Some(out), entries)
      else
        var response := CatalogResponse(Normalize(reply.models, nowMs, parseDate));
        ModelsStep(response, Some(out), entries[key := response])
  }

  /**
   * `caches.default`: a store of responses under an abstract request key.
   * The platform's matching of requests to keys is not modelled.
   */
  class ResponseCache<K(==)> {
    var entries: map<K, Response>

    constructor ()
      ensures entries == map[]
    {
      entries := map[];
    }

    /** `cache.match(request)`. */
    method Match(key: K) returns (cached: Option<Response>)
      ensures cached.Some? <==> key in entries
      ensures cached.Some? ==> cached.value == entries[key]
    {
      cached := if key in entries then Some(entries[key]) else None;
    }

    /** `cache.put(request, response)`, completed before the handler returns. */
    method Put(key: K, response: Response)
      modifies this
      ensures entries == old(entries)[key := response]
    {
      entries := entries[key := response];
    }
  }

  /** `handleModelsRequest`, step by step against the shared cache. */
  method HandleModels<K(==)>(cache: ResponseCache<K>, key: K, request: Request,
                             fetchCatalog: Outbound -> GitHub.CatalogReply,
                             nowMs: int, parseDate: string -> Option<int>)
    returns (response: Response, catalogFetch: Option<Outbound>)
    modifies cache
    ensures var step := ModelsRequest(old(cache.entries), key, request, fetchCatalog, nowMs, parseDate);
            response == step.response && catalogFetch == step.catalogFetch && cache.entries == step.entries
  {
    var cached := cache.Match(key);
    if cached.Some? {
      return cached.value, None;
    }
    if !HasCredential(request.authorization) {
      return Unauthorized, None;
    }
    var out := GitHub.CatalogRequest(request.authorization.value);
    catalogFetch := Some(out);
    var reply := fetchCatalog(out);
    if !reply.Ok() {
      response := CatalogFailure(reply.status);
      return;
    }
    var data := Normalize(reply.models, nowMs, parseDate);
    response := CatalogResponse(data);
    cache.Put(key, response);
  }

  /** `onRequest`: dispatch on the pathname; only the models route touches the cache or the catalog. */
  method OnRequest<K(==)>(cache: ResponseCache<K>, key: K, request: Request,
                          fetchCatalog: Outbound -> GitHub.CatalogReply,
                          nowMs: int, parseDate: string -> Option<int>)
    returns (outcome: Outcome, catalogFetch: Option<Outbound>)
    modifies cache
    ensures RouteOf(request.path) == ModelsRoute ==>
              var step := ModelsRequest(old(cache.entries), key, request, fetchCatalog, nowMs, parseDate);
              outcome == Reply(step.response) && catalogFetch == step.catalogFetch && cache.entries == step.entries
    ensures RouteOf(request.path) == ChatRoute ==>
              outcome == ChatCompletions(request) && catalogFetch.None? && cache.entries == old(cache.entries)
    ensures RouteOf(request.path) == NotFoundRoute ==>
              outcome == Reply(NotFound) && catalogFetch.None? && cache.entries == old(cache.entries)
  {
    match RouteOf(request.path)
    case ModelsRoute =>
      var response;
      response, catalogFetch := HandleModels(cache, key, request, fetchCatalog, nowMs, parseDate);
      outcome := Reply(response);
    case ChatRoute =>
      outcome, catalogFetch := ChatCompletions(request), None;
    case NotFoundRoute =>
      outcome, catalogFetch := Reply(NotFound), None;
  }

  /**
   * Once a request's key holds a response, a second request with that key
   * gets the same response, with no credential check, no catalog fetch and
   * no cache write, whatever its credential and whatever the upstream says.
   */
  lemma SecondRequestServedFromCache<K>(entries: map<K, Response>, key: K, first: Request, second: Request,
                                        fetchCatalog: Outbound -> GitHub.CatalogReply,
                                        fetchAgain: Outbound -> GitHub.CatalogReply,
                                        nowMs: int, laterMs: int, parseDate: string -> Option<int>)
    requires var s := ModelsRequest(entries, key, first, fetchCatalog, nowMs, parseDate);
             key in s.entries
    ensures var s1 := ModelsRequest(entries, key, first, fetchCatalog, nowMs, parseDate);
            var s2 := ModelsRequest(s1.entries, key, second, fetchAgain, laterMs, parseDate);
            s2.response == s1.response && s2.catalogFetch.None? && s2.entries == s1.entries
  {
  }

  /**
   * A successful miss answers with exactly the upstream's model ids, in the
   * upstream's order, each as an entry of kind "model".
   */
  lemma CatalogListsUpstreamIds<K>(entries: map<K, Response>, key: K, request: Request,
                                   fetchCatalog: Outbound -> GitHub.CatalogReply,
                                   nowMs: int, parseDate: string -> Option<int>)
    requires key !in entries && HasCredential(request.authorization)
    requires fetchCatalog(GitHub.CatalogRequest(request.authorization.value)).Ok()
    ensures var step := ModelsRequest(entries, key, request, fetchCatalog, nowMs, parseDate);
            var upstream := fetchCatalog(GitHub.CatalogRequest(request.authorization.value)).models;
            step.response.status == 200 && step.response.body.ModelList? &&
            OpenAIIds(step.response.body.data) == GitHubIds(upstream) &&
            forall i :: 0 <= i < |step.response.body.data| ==> step.response.body.data[i].kind == ModelKind
  {
    var upstream := fetchCatalog(GitHub.CatalogRequest(request.authorization.value)).models;
    NormalizePreservesIds(upstream, nowMs, parseDate);
  }

  /** A response the models handler stores: a 200 catalog list with the JSON and cache headers. */
  predicate IsCachedCatalog(r: Response)
  {
    r.status == 200 && r.headers == [ContentTypeJson, CacheControl] && r.body.ModelList? && r.body.kind == "list"
  }

  /** If the cache holds only catalog lists, it still does after the handler has run. */
  lemma CacheHoldsOnlyCatalogs<K>(entries: map<K, Response>, key: K, request: Request,
                                  fetchCatalog: Outbound -> GitHub.CatalogReply,
                                  nowMs: int, parseDate: string -> Option<int>)
    requires forall k :: k in entries ==> IsCachedCatalog(entries[k])
    ensures var step := ModelsRequest(entries, key, request, fetchCatalog, nowMs, parseDate);
            forall k :: k in step.entries ==> IsCachedCatalog(step.entries[k])
  {
  }
}
