/** The serverless proxy of gemini.js: a POST handler that forwards the
    prompt to the model's REST endpoint, with the key in the query string,
    and relays the upstream JSON (its status too, when it is an error). */
module VercelProxy {
  import opened Base
  import opened JsValues
  import opened GeminiRest

  const PROMPT_REQUIRED_MESSAGE := "Prompt is required"
  const INTERNAL_ERROR_MESSAGE := "Internal Server Error"

  /** `res.setHeader('Allow', ['POST'])` then `res.status(405).end(...)`. */
  function MethodNotAllowed(verb: string): HttpResponse {
    HttpResponse(405, map["Allow" := "POST"], Text("Method " + verb + " Not Allowed"))
  }

  /** `${process.env.GEMINI_API_KEY}`: an unset variable prints as "undefined". */
  function KeyText(apiKey: Option<string>): string {
    if apiKey.Some? then apiKey.value else "undefined"
  }

  /** The upstream request: POST with a JSON body to the endpoint plus the
      key's text. */
  function UpstreamRequest(prompt: JsValue, apiKey: Option<string>): (r: OutgoingRequest)
    ensures r.url == GEMINI_ENDPOINT + KeyText(apiKey) && r.verb == "POST" && r.headers == JSON_HEADERS
    ensures PromptOf(r.body) == Some(prompt)
  {
    GenerateBodyCarriesPrompt(prompt);
    OutgoingRequest(GEMINI_ENDPOINT + KeyText(apiKey), "POST", JSON_HEADERS, GenerateBody(prompt))
  }

  /** The response sent back and the upstream request made, if any. */
  datatype Exchange = Exchange(response: HttpResponse, upstream: Option<OutgoingRequest>)

  /** `handler(req, res)`, given the key variable and the upstream outcome. */
  function Handle(req: ProxyRequest, apiKey: Option<string>, outcome: FetchOutcome): (x: Exchange)
    ensures req.verb != "POST" ==> x == Exchange(MethodNotAllowed(req.verb), None)
    ensures req.verb == "POST" && IsNullish(req.body) ==>
      x == Exchange(JsonResponse(500, ErrorBody(INTERNAL_ERROR_MESSAGE)), None)
    ensures req.verb == "POST" && !IsNullish(req.body) && !Truthy(Prop(req.body, "prompt")) ==>
      x == Exchange(JsonResponse(400, ErrorBody(PROMPT_REQUIRED_MESSAGE)), None)
    ensures req.verb == "POST" && !IsNullish(req.body) && Truthy(Prop(req.body, "prompt")) ==>
      && x.upstream == Some(UpstreamRequest(Prop(req.body, "prompt"), apiKey))
      && (outcome.Responded? && outcome.body.Ok? ==>
            x.response == JsonResponse(if IsOkStatus(outcome.status) then 200 else outcome.status, outcome.body.value))
      && (outcome.NetworkError? || outcome.body.Err? ==>
            x.response == JsonResponse(500, ErrorBody(INTERNAL_ERROR_MESSAGE)))
  {
    if req.verb != "POST" then Exchange(MethodNotAllowed(req.verb), None)
    else if IsNullish(req.body) then Exchange(JsonResponse(500, ErrorBody(INTERNAL_ERROR_MESSAGE)), None)
    else
      var prompt := Prop(req.body, "prompt");
      if !Truthy(prompt) then Exchange(JsonResponse(400, ErrorBody(PROMPT_REQUIRED_MESSAGE)), None)
      else
        var request := Some(UpstreamRequest(prompt, apiKey));
        match outcome
        case NetworkError(_) => Exchange(JsonResponse(500, ErrorBody(INTERNAL_ERROR_MESSAGE)), request)
        case Responded(status, Err(_)) => Exchange(JsonResponse(500, ErrorBody(INTERNAL_ERROR_MESSAGE)), request)
        case Responded(status, Ok(data)) =>
          if !IsOkStatus(status) then Exchange(JsonResponse(status, data), request)
          else Exchange(JsonResponse(200, data), request)
  }

  /** Every reply is one of the proxy's own (405, 400, 500) or the upstream
      answer: a success always as 200, an error under the upstream status. */
  lemma HandleStatuses(req: ProxyRequest, apiKey: Option<string>, outcome: FetchOutcome)
    ensures var s := Handle(req, apiKey, outcome).response.status;
      s in {200, 400, 405, 500} || (outcome.Responded? && s == outcome.status && !IsOkStatus(s))
    ensures IsOkStatus(Handle(req, apiKey, outcome).response.status) ==>
      && Handle(req, apiKey, outcome).response.status == 200
      && outcome.Responded? && IsOkStatus(outcome.status) && outcome.body.Ok?
      && Handle(req, apiKey, outcome).response.payload == Json(outcome.body.value)
  {
  }

  /** The upstream is contacted exactly for a POST whose body has a truthy
      prompt. */
  lemma UpstreamOnlyForPrompt(req: ProxyRequest, apiKey: Option<string>, outcome: FetchOutcome)
    ensures Handle(req, apiKey, outcome).upstream.Some? <==>
      req.verb == "POST" && !IsNullish(req.body) && Truthy(Prop(req.body, "prompt"))
  {
  }
}
