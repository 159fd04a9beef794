/** The first Firebase proxy of public/functions/index.js: it sets CORS
    headers itself, answers preflight requests, and returns the model's
    text for a POST with a prompt. */
module FirebaseProxy {
  import opened Base
  import opened JsValues

  const MODEL_NAME := "gemini-pro"
  const METHOD_NOT_ALLOWED_MESSAGE := "Method Not Allowed"
  const PROMPT_REQUIRED_MESSAGE := "A 'prompt' is required in the request body."
  const FAILURE_MESSAGE := "Failed to communicate with the Gemini API."

  /** The three headers set before anything else. */
  const CORS_HEADERS: map<string, string> := map[
    "Access-Control-Allow-Origin" := "*",
    "Access-Control-Allow-Methods" := "POST, GET, OPTIONS",
    "Access-Control-Allow-Headers" := "Content-Type"]

  /** `res.status(status).json(body)` after the CORS headers were set. */
  function CorsJson(status: int, body: JsValue): HttpResponse {
    HttpResponse(status, CORS_HEADERS + JSON_HEADERS, Json(body))
  }

  /** The response sent back, and the prompt given to the model, if any. */
  datatype Exchange = Exchange(response: HttpResponse, modelPrompt: Option<JsValue>)

  /** `geminiProxy(req, res)`, given what the model does with the prompt. */
  function Handle(req: ProxyRequest, generation: Generation): (x: Exchange)
    ensures forall h :: h in CORS_HEADERS ==> h in x.response.headers && x.response.headers[h] == CORS_HEADERS[h]
    ensures req.verb == "OPTIONS" ==> x == Exchange(HttpResponse(204, CORS_HEADERS, Text("")), None)
    ensures req.verb != "OPTIONS" && req.verb != "POST" ==>
      x == Exchange(CorsJson(405, ErrorBody(METHOD_NOT_ALLOWED_MESSAGE)), None)
    ensures req.verb == "POST" && IsNullish(req.body) ==>
      x == Exchange(CorsJson(500, ErrorBody(FAILURE_MESSAGE)), None)
    ensures req.verb == "POST" && !IsNullish(req.body) && !Truthy(Prop(req.body, "prompt")) ==>
      x == Exchange(CorsJson(400, ErrorBody(PROMPT_REQUIRED_MESSAGE)), None)
    ensures req.verb == "POST" && !IsNullish(req.body) && Truthy(Prop(req.body, "prompt")) ==>
      && x.modelPrompt == Some(Prop(req.body, "prompt"))
      && (generation.Generated? ==> x.response == CorsJson(200, Object1("text", Str(generation.text))))
      && (generation.GenerationFailed? ==> x.response == CorsJson(500, ErrorBody(FAILURE_MESSAGE)))
  {
    if req.verb == "OPTIONS" then Exchange(HttpResponse(204, CORS_HEADERS, Text("")), None)
    else if req.verb != "POST" then Exchange(CorsJson(405, ErrorBody(METHOD_NOT_ALLOWED_MESSAGE)), None)
    else if IsNullish(req.body) then Exchange(CorsJson(500, ErrorBody(FAILURE_MESSAGE)), None)
    else
      var prompt := Prop(req.body, "prompt");
      if !Truthy(prompt) then Exchange(CorsJson(400, ErrorBody(PROMPT_REQUIRED_MESSAGE)), None)
      else
        match generation
        case Generated(text) => Exchange(CorsJson(200, Object1("text", Str(text))), Some(prompt))
        case GenerationFailed(_) => Exchange(CorsJson(500, ErrorBody(FAILURE_MESSAGE)), Some(prompt))
  }

  /** A 200 comes only from a generated text, which is passed on as it is
      (an empty text included); every other outcome has a fixed body. */
  lemma SuccessIsGeneratedText(req: ProxyRequest, generation: Generation)
    ensures var x := Handle(req, generation);
      x.response.status in {200, 204, 400, 405, 500}
    ensures var x := Handle(req, generation);
      x.response.status == 200 <==> x.modelPrompt.Some? && generation.Generated?
    ensures var x := Handle(req, generation);
      x.response.status == 200 ==> x.response.payload == Json(Object1("text", Str(generation.text)))
  {
  }
}
