/**
 * functions/api/openai.js: one handler that answers GET as a health check,
 * forwards a credentialed POST to the GitHub chat endpoint, and refuses every
 * other method.
 */
module OpenAI {
  import opened Optional
  import opened Http
  import GitHub
  import Processor

  const HealthMessage := "Proxy is active. Ready to receive POST requests for AI chat."
  const Health := Response(200, [ContentTypeJson], StatusJson("ok", HealthMessage))
  const Unauthorized := Response(401, [ContentTypeJson], ErrorJson(MissingCredential))

  /** `onRequest`: the three `if` branches on `request.method`. */
  function OnRequest(request: Request): (o: Outcome)
    ensures request.httpMethod == "GET" ==>
              o.Reply? && o.response.status == 200 && o.response.body.StatusJson? &&
              o.response.body.status == "ok" && Lookup(o.response.headers, "Content-Type") == Some("application/json")
    ensures request.httpMethod == "POST" && !HasCredential(request.authorization) ==>
              o.Reply? && o.response.status == 401 && o.response.body == ErrorJson(MissingCredential) &&
              Lookup(o.response.headers, "Content-Type") == Some("application/json")
    ensures o.Forward? <==> request.httpMethod == "POST" && HasCredential(request.authorization)
    ensures o.Forward? ==> o.request == GitHub.ChatRequest(request.authorization.value, request.body)
    ensures request.httpMethod !in {"GET", "POST"} ==>
              o.Reply? && o.response.status == 405 && o.response.body == Text("Method Not Allowed")
  {
    if request.httpMethod == "GET" then Reply(Health)
    else if request.httpMethod == "POST" then
      if !HasCredential(request.authorization) then Reply(Unauthorized)
      else Forward(GitHub.ChatRequest(request.authorization.value, request.body))
    else Reply(Processor.MethodNotAllowed)
  }

  /**
   * Exactly one branch applies, chosen by the method and by whether a
   * credential is present: two requests that agree on both get the same
   * reply, or are both forwarded.
   */
  lemma DecidedByMethodAndCredential(r1: Request, r2: Request)
    requires r1.httpMethod == r2.httpMethod
    requires HasCredential(r1.authorization) == HasCredential(r2.authorization)
    ensures OnRequest(r1).Reply? ==> OnRequest(r1) == OnRequest(r2)
    ensures OnRequest(r1).Forward? == OnRequest(r2).Forward?
    ensures OnRequest(r1).Reply? ==> OnRequest(r1).response.status in {200, 401, 405}
  {
  }

  /**
   * On POST this handler and the chat handler of functions/processor.js
   * forward the same request; they differ only in the Content-Type header of
   * the 401 reply. On GET this one answers the health check where the other
   * refuses with 405.
   */
  lemma AgreesWithProcessorChat(request: Request)
    ensures request.httpMethod == "POST" && HasCredential(request.authorization) ==>
              OnRequest(request) == Processor.ChatCompletions(request)
    ensures request.httpMethod == "POST" && !HasCredential(request.authorization) ==>
              OnRequest(request).response.status == Processor.ChatCompletions(request).response.status &&
              OnRequest(request).response.body == Processor.ChatCompletions(request).response.body &&
              OnRequest(request).response.headers == [ContentTypeJson] &&
              Processor.ChatCompletions(request).response.headers == []
    ensures request.httpMethod == "GET" ==>
              OnRequest(request) == Reply(Health) && Processor.ChatCompletions(request) == Reply(Processor.MethodNotAllowed)
    ensures request.httpMethod !in {"GET", "POST"} ==>
              OnRequest(request) == Processor.ChatCompletions(request)
  {
  }
}
